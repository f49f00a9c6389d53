/** The invoice submission after validation, as the row builder sees it:
    the parties, the fifteen line-item fields and the top-level record
    (sheets/invoice_dto.py), and the cell values the builder copies out. */
module InvoiceDto {

  /** A Python float, kept as its 64-bit IEEE pattern. The builder only
      copies floats into cells, so no arithmetic on them is modelled. */
  datatype Float = Float(bits: bv64)

  /** One spreadsheet cell value: a string, an integer or a float. */
  datatype Value = Str(s: string) | Int(i: int) | Num(f: Float)

  /** The placeholder the builder writes for a cell it has nothing for. */
  const Blank: Value := Str("")

  type Row = seq<Value>

  /** SellerData and BuyerData have the same three fields. */
  datatype Party = Party(name: string, address: string, gstNumber: string)

  /** InvoiceSheetInfo: one line item. */
  datatype LineItem = LineItem(
    name: string,
    hsn: string,
    quantity: int,
    uom: string,
    rate: Float,
    basicAmount: Float,
    discount: Float,
    taxableValue: Float,
    cgstRate: Float,
    sgstRate: Float,
    cessRate: Float,
    cgstAmount: Float,
    sgstAmount: Float,
    cessAmount: Float,
    grossValue: Float)

  /** What `data.get("items", [])` can yield on the dumped record: no key
      at all, a non-list value Python treats as false (`None`, the field's
      default), a list, or a non-list value that is true (which the builder
      wraps as a one-element list). */
  datatype ItemsField =
    | Absent
    | Falsy
    | ItemList(items: seq<LineItem>)
    | Single(item: LineItem)

  /** ValidateInvoiceInfo. */
  datatype InvoiceRecord = InvoiceRecord(
    transactionId: int,
    invoiceNumber: string,
    date: string,
    seller: Party,
    buyer: Party,
    items: ItemsField)

  /** The fifteen line-item keys, exactly as the builder lists them. */
  const ItemKeys: set<string> := {
    "name", "hsn", "quantity", "uom", "rate", "basicAmount",
    "discount", "taxableValue", "cgstAmount", "sgstAmount",
    "cessAmount", "grossValue", "cgstRate", "sgstRate", "cessRate" }

  /** The keys `model_dump` gives the top-level record, besides `items`
      and the two parties. */
  const RecordKeys: set<string> := { "transaction_id", "invoice_number", "date" }

  /** `item.get(key, "")` on a dumped line item. */
  function ItemGet(item: LineItem, key: string): (v: Value)
    ensures key !in ItemKeys ==> v == Blank
    ensures v.Num? <==> key in ItemKeys - {"name", "hsn", "quantity", "uom"}
  {
    match key
    case "name" => Str(item.name)
    case "hsn" => Str(item.hsn)
    case "quantity" => Int(item.quantity)
    case "uom" => Str(item.uom)
    case "rate" => Num(item.rate)
    case "basicAmount" => Num(item.basicAmount)
    case "discount" => Num(item.discount)
    case "taxableValue" => Num(item.taxableValue)
    case "cgstRate" => Num(item.cgstRate)
    case "sgstRate" => Num(item.sgstRate)
    case "cessRate" => Num(item.cessRate)
    case "cgstAmount" => Num(item.cgstAmount)
    case "sgstAmount" => Num(item.sgstAmount)
    case "cessAmount" => Num(item.cessAmount)
    case "grossValue" => Num(item.grossValue)
    case _ => Blank
  }

  /** `data.get(key, "")` on the dumped record, for a key that is neither
      `items` nor a party (for those the dump holds a list or a dict). */
  function RecordGet(rec: InvoiceRecord, key: string): (v: Value)
    requires key != "items" && key != "seller" && key != "buyer"
    ensures key !in RecordKeys ==> v == Blank
    ensures key == "transaction_id" ==> v.Int? && v.i == rec.transactionId
    ensures key == "invoice_number" ==> v.Str? && v.s == rec.invoiceNumber
    ensures key == "date" ==> v.Str? && v.s == rec.date
  {
    match key
    case "transaction_id" => Int(rec.transactionId)
    case "invoice_number" => Str(rec.invoiceNumber)
    case "date" => Str(rec.date)
    case _ => Blank
  }

  /** `data.get(key, {})` for the key `seller` or `buyer`. */
  function PartyOf(rec: InvoiceRecord, key: string): (p: Party)
    requires key == "seller" || key == "buyer"
    ensures key == "seller" ==> p == rec.seller
    ensures key == "buyer" ==> p == rec.buyer
  {
    if key == "seller" then rec.seller else rec.buyer
  }

  /** The line items the builder iterates over: a list as it is, a true
      non-list value wrapped as `[items]`, anything else as `[]`. */
  function ItemsOf(rec: InvoiceRecord): (items: seq<LineItem>)
    ensures rec.items.ItemList? ==> items == rec.items.items
    ensures !rec.items.ItemList? ==> |items| <= 1
    ensures forall x :: x in items ==> rec.items == Single(x) || (rec.items.ItemList? && x in rec.items.items)
  {
    match rec.items
    case ItemList(s) => s
    case Single(x) => [x]
    case _ => []
  }
}
