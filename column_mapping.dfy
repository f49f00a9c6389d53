/** The fixed table from sheet header labels to field keys
    (COLUMN_MAPPING in sheets/invoice_sheet.py). It is many-to-one: the
    three buyer headers share the key `buyer`, the three seller headers
    the key `seller`, and the builder tells them apart by the header text. */
module ColumnMapping {
  import opened InvoiceDto

  const COLUMN_MAPPING: map<string, string> := map[
    "Transaction ID" := "transaction_id",
    "INVOICE NO" := "invoice_number",
    "Date" := "date",
    "Name" := "name",
    "HSN" := "hsn",
    "Quantity" := "quantity",
    "UOM" := "uom",
    "Rate" := "rate",
    "Discount" := "discount",
    "Basic Amount" := "basicAmount",
    "Taxable Value" := "taxableValue",
    "CGST Rate" := "cgstRate",
    "CGST Amount" := "cgstAmount",
    "SGST Rate" := "sgstRate",
    "SGST Amount" := "sgstAmount",
    "CESS Rate" := "cessRate",
    "CESS Amount" := "cessAmount",
    "Gross Value" := "grossValue",
    "Buyer Name" := "buyer",
    "Buyer Address" := "buyer",
    "Buyer GST" := "buyer",
    "Seller Name" := "seller",
    "Seller Address" := "seller",
    "Seller GST" := "seller"
  ]

  const PartyKeys: set<string> := { "seller", "buyer" }

  const NameHeaders: set<string> := { "Buyer Name", "Seller Name" }
  const AddressHeaders: set<string> := { "Buyer Address", "Seller Address" }
  const GstHeaders: set<string> := { "Buyer GST", "Seller GST" }

  /** Every key the table yields is a line-item key, a party key or one of
      the three record keys, so the builder's last branch only ever reads
      `transaction_id`, `invoice_number` or `date`. */
  lemma MappedKeysAreKnown(header: string)
    requires header in COLUMN_MAPPING
    ensures COLUMN_MAPPING[header] in ItemKeys + PartyKeys + RecordKeys
  {
  }

  /** The table reaches every line-item, party and record key, and no
      other: 24 header labels onto 20 keys. */
  lemma TableKeys()
    ensures COLUMN_MAPPING.Values == ItemKeys + PartyKeys + RecordKeys
  {
    forall h | h in COLUMN_MAPPING ensures COLUMN_MAPPING[h] in ItemKeys + PartyKeys + RecordKeys {
      MappedKeysAreKnown(h);
    }
    assert COLUMN_MAPPING["Transaction ID"] == "transaction_id";
    assert COLUMN_MAPPING["INVOICE NO"] == "invoice_number";
    assert COLUMN_MAPPING["Date"] == "date";
    assert COLUMN_MAPPING["Name"] == "name";
    assert COLUMN_MAPPING["HSN"] == "hsn";
    assert COLUMN_MAPPING["Quantity"] == "quantity";
    assert COLUMN_MAPPING["UOM"] == "uom";
    assert COLUMN_MAPPING["Rate"] == "rate";
    assert COLUMN_MAPPING["Discount"] == "discount";
    assert COLUMN_MAPPING["Basic Amount"] == "basicAmount";
    assert COLUMN_MAPPING["Taxable Value"] == "taxableValue";
    assert COLUMN_MAPPING["CGST Rate"] == "cgstRate";
    assert COLUMN_MAPPING["CGST Amount"] == "cgstAmount";
    assert COLUMN_MAPPING["SGST Rate"] == "sgstRate";
    assert COLUMN_MAPPING["SGST Amount"] == "sgstAmount";
    assert COLUMN_MAPPING["CESS Rate"] == "cessRate";
    assert COLUMN_MAPPING["CESS Amount"] == "cessAmount";
    assert COLUMN_MAPPING["Gross Value"] == "grossValue";
    assert COLUMN_MAPPING["Buyer Name"] == "buyer";
    assert COLUMN_MAPPING["Seller Name"] == "seller";
  }

  /** A header maps to a party key exactly when it is one of the six party
      labels, and then the key names the party the label starts with. */
  lemma PartyHeadersExactly(header: string)
    ensures (header in COLUMN_MAPPING && COLUMN_MAPPING[header] in PartyKeys)
            <==> header in NameHeaders + AddressHeaders + GstHeaders
    ensures header in {"Buyer Name", "Buyer Address", "Buyer GST"}
            ==> header in COLUMN_MAPPING && COLUMN_MAPPING[header] == "buyer"
    ensures header in {"Seller Name", "Seller Address", "Seller GST"}
            ==> header in COLUMN_MAPPING && COLUMN_MAPPING[header] == "seller"
  {
  }
}
