/** The `Invoice` model: the stored record, the object the update serializer
    assigns to attribute by attribute, and what `setattr` does to it. */
module Invoices {

  const Pending: string := "PENDING"
  const Paid: string := "PAID"

  /** `status` when the creating request gives none */
  const DefaultStatus: string := Pending

  /** One row of the `Invoice` table */
  datatype InvoiceRecord = InvoiceRecord(
    id: nat,
    account: nat,            // the owning account's primary key
    originalAmount: real,
    originalCurrency: string,
    exchangeRate: real,
    convertedAmount: real,   // in USD
    status: string,
    createdAt: int)

  /** The stored USD amount is the original amount at the stored rate */
  predicate ConversionConsistent(rec: InvoiceRecord) {
    rec.convertedAmount == rec.originalAmount * rec.exchangeRate
  }

  /** One `(attr, value)` pair of the update serializer's validated data; only
      its three writable fields can occur */
  datatype FieldValue =
    | AmountField(amount: real)        // original_amount
    | CurrencyField(currency: string)  // original_currency
    | StatusField(status: string)      // status

  /** `setattr(instance, attr, value)` on the record */
  function Apply(rec: InvoiceRecord, f: FieldValue): InvoiceRecord {
    match f
    case AmountField(a) => rec.(originalAmount := a)
    case CurrencyField(c) => rec.(originalCurrency := c)
    case StatusField(s) => rec.(status := s)
  }

  /** `setattr` for each pair, in order */
  function ApplyAll(rec: InvoiceRecord, fs: seq<FieldValue>): InvoiceRecord {
    if fs == [] then rec else Apply(ApplyAll(rec, fs[..|fs| - 1]), fs[|fs| - 1])
  }

  lemma ApplyAllSnoc(rec: InvoiceRecord, fs: seq<FieldValue>, f: FieldValue)
    ensures ApplyAll(rec, fs + [f]) == Apply(ApplyAll(rec, fs), f)
  {
    assert (fs + [f])[..|fs|] == fs;
  }

  /** Writing fields never touches the identity, the account, the creation
      time or the stored conversion */
  lemma {:induction false} ApplyAllKeepsOtherFields(rec: InvoiceRecord, fs: seq<FieldValue>)
    ensures var out := ApplyAll(rec, fs);
            && out.id == rec.id && out.account == rec.account && out.createdAt == rec.createdAt
            && out.exchangeRate == rec.exchangeRate && out.convertedAmount == rec.convertedAmount
  {
    if fs != [] {
      ApplyAllKeepsOtherFields(rec, fs[..|fs| - 1]);
    }
  }

  /** An `Invoice` instance whose attributes the update serializer assigns */
  class Invoice {
    var id: nat
    var account: nat
    var originalAmount: real
    var originalCurrency: string
    var exchangeRate: real
    var convertedAmount: real
    var status: string
    var createdAt: int

    constructor (rec: InvoiceRecord)
      ensures Record() == rec
    {
      id := rec.id;
      account := rec.account;
      originalAmount := rec.originalAmount;
      originalCurrency := rec.originalCurrency;
      exchangeRate := rec.exchangeRate;
      convertedAmount := rec.convertedAmount;
      status := rec.status;
      createdAt := rec.createdAt;
    }

    /** The row this instance would be saved as */
    function Record(): InvoiceRecord
      reads this
    {
      InvoiceRecord(id, account, originalAmount, originalCurrency, exchangeRate, convertedAmount, status, createdAt)
    }

    /** `setattr(instance, attr, value)` */
    method SetAttr(f: FieldValue)
      modifies this
      ensures Record() == Apply(old(Record()), f)
    {
      match f
      case AmountField(a) => originalAmount := a;
      case CurrencyField(c) => originalCurrency := c;
      case StatusField(s) => status := s;
    }

    /** `instance.converted_amount = ...; instance.exchange_rate = ...` */
    method SetConversion(converted: real, rate: real)
      modifies this
      ensures Record() == old(Record()).(convertedAmount := converted, exchangeRate := rate)
    {
      convertedAmount := converted;
      exchangeRate := rate;
    }
  }
}
