/** The header-driven row builder (InvoiceSheetHandler.create_invoice in
    sheets/invoice_sheet.py): one output row per line item, one cell per
    header, in header order. The specification is Cell/BuildRow/BuildRows;
    CreateInvoice is the builder's nested loop, proved equal to it. */
module InvoiceRows {
  import opened InvoiceDto
  import opened ColumnMapping

  /** The party field a party header denotes, chosen by the full header
      text: the name for a `… Name` label, the address for `… Address`,
      the GST number for `… GST`. */
  function PartyField(p: Party, header: string): string {
    if header in NameHeaders then p.name
    else if header in AddressHeaders then p.address
    else if header in GstHeaders then p.gstNumber
    else ""
  }

  /** The value of the cell under `header` in the row built for `item`. */
  function Cell(rec: InvoiceRecord, item: LineItem, header: string): (v: Value)
    ensures v.Num? ==> header in COLUMN_MAPPING && COLUMN_MAPPING[header] in ItemKeys
    ensures v.Int? ==> header in {"Quantity", "Transaction ID"}
    ensures header in COLUMN_MAPPING && COLUMN_MAPPING[header] in PartyKeys ==> v.Str?
  {
    if header !in COLUMN_MAPPING then Blank
    else
      var key := COLUMN_MAPPING[header];
      if key in ItemKeys then ItemGet(item, key)
      else if key in PartyKeys then Str(PartyField(PartyOf(rec, key), header))
      else
        MappedKeysAreKnown(header);
        RecordGet(rec, key)
  }

  /** The row for one item, built cell by cell in header order. */
  function BuildRow(rec: InvoiceRecord, item: LineItem, headers: seq<string>): (row: Row)
    ensures |row| == |headers|
    ensures forall j :: 0 <= j < |headers| ==> row[j] == Cell(rec, item, headers[j])
  {
    if headers == [] then []
    else [Cell(rec, item, headers[0])] + BuildRow(rec, item, headers[1..])
  }

  /** The rows for a sequence of items, one per item, in item order. */
  function BuildRows(rec: InvoiceRecord, items: seq<LineItem>, headers: seq<string>): (rows: seq<Row>)
    ensures |rows| == |items|
    ensures forall i :: 0 <= i < |items| ==> rows[i] == BuildRow(rec, items[i], headers)
  {
    if items == [] then []
    else [BuildRow(rec, items[0], headers)] + BuildRows(rec, items[1..], headers)
  }

  /** The party branch as the source writes it: start from "", take the
      name for a name label, then, only while the value is still empty,
      the address for an address label, then the GST number for a GST
      label. Because the labels are compared in full, exactly one of the
      three steps can apply, whatever the party's fields hold. */
  method ResolveParty(rec: InvoiceRecord, key: string, header: string) returns (value: Value)
    requires key in PartyKeys
    ensures value == Str(PartyField(PartyOf(rec, key), header))
  {
    var party := PartyOf(rec, key);
    value := Blank;
    if header == "Buyer Name" || header == "Seller Name" {
      value := Str(party.name);
    }
    if value == Blank && (header == "Buyer Address" || header == "Seller Address") {
      value := Str(party.address);
    }
    if value == Blank && (header == "Buyer GST" || header == "Seller GST") {
      value := Str(party.gstNumber);
    }
  }

  /** The body of the inner loop for one header: "" for an unmapped
      header, else `item.get` for a line-item key, the party chain for a
      party key, and `data.get` for the rest. */
  method ResolveCell(rec: InvoiceRecord, item: LineItem, header: string) returns (value: Value)
    ensures value == Cell(rec, item, header)
  {
    if header !in COLUMN_MAPPING {
      value := Blank;
    } else {
      var key := COLUMN_MAPPING[header];
      if key in ItemKeys {
        value := ItemGet(item, key);
      } else if key == "seller" || key == "buyer" {
        value := ResolveParty(rec, key, header);
      } else {
        MappedKeysAreKnown(header);
        value := RecordGet(rec, key);
      }
    }
  }

  /** create_invoice: normalise `items`, then for each item walk the
      headers and append one value per header. */
  method CreateInvoice(rec: InvoiceRecord, headers: seq<string>) returns (allRows: seq<Row>)
    ensures allRows == BuildRows(rec, ItemsOf(rec), headers)
    ensures |allRows| == |ItemsOf(rec)|
    ensures rec.items.ItemList? ==> |allRows| == |rec.items.items|
    ensures rec.items.Absent? || rec.items.Falsy? ==> allRows == []
    ensures rec.items.Single? ==> allRows == [BuildRow(rec, rec.items.item, headers)]
    ensures forall i, j :: 0 <= i < |allRows| && 0 <= j < |headers| ==>
              |allRows[i]| == |headers| && allRows[i][j] == Cell(rec, ItemsOf(rec)[i], headers[j])
  {
    var items := ItemsOf(rec);
    allRows := [];
    var i := 0;
    while i < |items|
      invariant 0 <= i <= |items|
      invariant |allRows| == i
      invariant forall k :: 0 <= k < i ==> allRows[k] == BuildRow(rec, items[k], headers)
    {
      var item := items[i];
      var rowData: Row := [];
      var j := 0;
      while j < |headers|
        invariant 0 <= j <= |headers|
        invariant |rowData| == j
        invariant forall k :: 0 <= k < j ==> rowData[k] == Cell(rec, item, headers[k])
      {
        var value := ResolveCell(rec, item, headers[j]);
        rowData := rowData + [value];
        j := j + 1;
      }
      allRows := allRows + [rowData];
      i := i + 1;
    }
    assert allRows == BuildRows(rec, items, headers);
  }

  /** A header missing from the table is blank in every row, whatever the
      record and its items. */
  lemma UnmappedHeaderIsBlank(rec: InvoiceRecord, items: seq<LineItem>, headers: seq<string>, j: nat)
    requires j < |headers| && headers[j] !in COLUMN_MAPPING
    ensures forall i :: 0 <= i < |items| ==> BuildRows(rec, items, headers)[i][j] == Blank
  {
  }

  /** A header whose key is a line-item key takes row i's value from item i;
      in particular the header "Name" gives the item's name, not a party's. */
  lemma ItemHeaderReadsItem(rec: InvoiceRecord, items: seq<LineItem>, headers: seq<string>, i: nat, j: nat)
    requires i < |items| && j < |headers|
    requires headers[j] in COLUMN_MAPPING && COLUMN_MAPPING[headers[j]] in ItemKeys
    ensures BuildRows(rec, items, headers)[i][j] == ItemGet(items[i], COLUMN_MAPPING[headers[j]])
    ensures headers[j] == "Name" ==> BuildRows(rec, items, headers)[i][j] == Str(items[i].name)
  {
  }

  /** Each party header resolves to one field of one party, independently
      of the other party headers and of that party's other fields. */
  lemma PartyHeaderReadsOneField(rec: InvoiceRecord, item: LineItem, header: string)
    ensures header == "Buyer Name" ==> Cell(rec, item, header) == Str(rec.buyer.name)
    ensures header == "Buyer Address" ==> Cell(rec, item, header) == Str(rec.buyer.address)
    ensures header == "Buyer GST" ==> Cell(rec, item, header) == Str(rec.buyer.gstNumber)
    ensures header == "Seller Name" ==> Cell(rec, item, header) == Str(rec.seller.name)
    ensures header == "Seller Address" ==> Cell(rec, item, header) == Str(rec.seller.address)
    ensures header == "Seller GST" ==> Cell(rec, item, header) == Str(rec.seller.gstNumber)
  {
  }

  /** Each of the eight descriptive and price labels of a line item reads
      its own field of the item: the table and `item.get` together send
      every label to the field it names, and to no other. */
  lemma ItemHeadersReadTheirFields(rec: InvoiceRecord, item: LineItem)
    ensures Cell(rec, item, "Name") == Str(item.name)
    ensures Cell(rec, item, "HSN") == Str(item.hsn)
    ensures Cell(rec, item, "Quantity") == Int(item.quantity)
    ensures Cell(rec, item, "UOM") == Str(item.uom)
    ensures Cell(rec, item, "Rate") == Num(item.rate)
    ensures Cell(rec, item, "Discount") == Num(item.discount)
    ensures Cell(rec, item, "Basic Amount") == Num(item.basicAmount)
    ensures Cell(rec, item, "Taxable Value") == Num(item.taxableValue)
  {
    assert COLUMN_MAPPING["Name"] == "name";
    assert COLUMN_MAPPING["HSN"] == "hsn";
    assert COLUMN_MAPPING["Quantity"] == "quantity";
    assert COLUMN_MAPPING["UOM"] == "uom";
    assert COLUMN_MAPPING["Rate"] == "rate";
    assert COLUMN_MAPPING["Discount"] == "discount";
    assert COLUMN_MAPPING["Basic Amount"] == "basicAmount";
    assert COLUMN_MAPPING["Taxable Value"] == "taxableValue";
  }

  /** Each of the seven tax and total labels of a line item reads its own
      field of the item; in particular a rate label never reads the
      matching amount, nor an amount label the rate. */
  lemma TaxHeadersReadTheirFields(rec: InvoiceRecord, item: LineItem)
    ensures Cell(rec, item, "CGST Rate") == Num(item.cgstRate)
    ensures Cell(rec, item, "CGST Amount") == Num(item.cgstAmount)
    ensures Cell(rec, item, "SGST Rate") == Num(item.sgstRate)
    ensures Cell(rec, item, "SGST Amount") == Num(item.sgstAmount)
    ensures Cell(rec, item, "CESS Rate") == Num(item.cessRate)
    ensures Cell(rec, item, "CESS Amount") == Num(item.cessAmount)
    ensures Cell(rec, item, "Gross Value") == Num(item.grossValue)
  {
    assert COLUMN_MAPPING["CGST Rate"] == "cgstRate";
    assert COLUMN_MAPPING["CGST Amount"] == "cgstAmount";
    assert COLUMN_MAPPING["SGST Rate"] == "sgstRate";
    assert COLUMN_MAPPING["SGST Amount"] == "sgstAmount";
    assert COLUMN_MAPPING["CESS Rate"] == "cessRate";
    assert COLUMN_MAPPING["CESS Amount"] == "cessAmount";
    assert COLUMN_MAPPING["Gross Value"] == "grossValue";
  }

  /** The three record labels read the record's own fields, whatever the
      item. */
  lemma RecordHeadersReadTheirFields(rec: InvoiceRecord, item: LineItem)
    ensures Cell(rec, item, "Transaction ID") == Int(rec.transactionId)
    ensures Cell(rec, item, "INVOICE NO") == Str(rec.invoiceNumber)
    ensures Cell(rec, item, "Date") == Str(rec.date)
  {
  }

  /** A header mapped to a top-level record key carries the record's own
      value, the same in every row. */
  lemma RecordHeaderSameInEveryRow(rec: InvoiceRecord, items: seq<LineItem>, headers: seq<string>, i: nat, i': nat, j: nat)
    requires i < |items| && i' < |items| && j < |headers|
    requires headers[j] in COLUMN_MAPPING && COLUMN_MAPPING[headers[j]] in RecordKeys
    ensures BuildRows(rec, items, headers)[i][j] == RecordGet(rec, COLUMN_MAPPING[headers[j]])
    ensures BuildRows(rec, items, headers)[i][j] == BuildRows(rec, items, headers)[i'][j]
    ensures headers[j] == "Transaction ID" ==> BuildRows(rec, items, headers)[i][j] == Int(rec.transactionId)
    ensures headers[j] == "INVOICE NO" ==> BuildRows(rec, items, headers)[i][j] == Str(rec.invoiceNumber)
    ensures headers[j] == "Date" ==> BuildRows(rec, items, headers)[i][j] == Str(rec.date)
  {
    var key := COLUMN_MAPPING[headers[j]];
    assert key !in ItemKeys && key !in PartyKeys;
    assert Cell(rec, items[i], headers[j]) == RecordGet(rec, key);
    assert Cell(rec, items[i'], headers[j]) == RecordGet(rec, key);
  }

  /** The three buyer headers against a buyer with an empty address: the
      empty address stays empty and the GST number is still read. */
  lemma BuyerHeadersExample(rec: InvoiceRecord, item: LineItem)
    requires rec.buyer == Party("Acme", "", "GST123")
    ensures BuildRow(rec, item, ["Buyer Name", "Buyer Address", "Buyer GST"])
            == [Str("Acme"), Str(""), Str("GST123")]
  {
  }

  /** The IEEE-754 double 10.0. */
  const Ten: Float := Float(0x4024_0000_0000_0000)

  /** One item `Widget`, quantity 2, rate 10.0, buyer `Bob`, headers
      Name/Quantity/Rate/Buyer Name: a single row of those four values. */
  lemma SingleItemExample(rec: InvoiceRecord)
    requires rec.invoiceNumber == "INV-1" && rec.buyer.name == "Bob"
    requires rec.items.ItemList? && |rec.items.items| == 1
    requires rec.items.items[0].name == "Widget" && rec.items.items[0].quantity == 2
    requires rec.items.items[0].rate == Ten
    ensures BuildRows(rec, ItemsOf(rec), ["Name", "Quantity", "Rate", "Buyer Name"])
            == [[Str("Widget"), Int(2), Num(Ten), Str("Bob")]]
  {
    var item := rec.items.items[0];
    var headers := ["Name", "Quantity", "Rate", "Buyer Name"];
    var row := BuildRow(rec, item, headers);
    assert row[0] == Cell(rec, item, "Name") == Str("Widget");
    assert row[1] == Cell(rec, item, "Quantity") == Int(2);
    assert row[2] == Cell(rec, item, "Rate") == Num(Ten);
    assert row[3] == Cell(rec, item, "Buyer Name") == Str("Bob");
    assert row == [Str("Widget"), Int(2), Num(Ten), Str("Bob")];
    assert ItemsOf(rec) == [item];
  }
}
