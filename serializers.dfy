/** The invoice serializers: the field validators shared by creation and
    update, `InvoiceCreateSerializer.create` and `InvoiceUpdateSerializer.update`.
    Both convert the invoice's amount to USD through the currency converter. */
module Serializers {
  import opened Common
  import opened Text
  import opened ExchangeRate
  import opened Converter
  import opened Invoices

  /** Every invoice is converted to this currency */
  const InvoiceCurrency: string := "USD"

  datatype ValidationError = ValidationError(message: string)

  const CurrencyMessage: string := "Currency must be a 3-letter code"
  const AmountMessage: string := "Amount must be positive"
  const StatusMessage: string := "Status must be either PENDING or PAID"

  // ---------------------------------------------------------------------------
  // Field validators

  /** `validate_original_currency`: exactly three characters, returned upper-cased */
  function ValidateCurrency(value: string): (r: Result<string, ValidationError>)
    ensures r.Success? <==> |value| == 3
    ensures r.Success? ==> |r.value| == 3 && IsUpperCase(r.value) && Lower(r.value) == Lower(value)
    ensures r.Failure? ==> r.error == ValidationError(CurrencyMessage)
  {
    if value == [] || |value| != 3 then Failure(ValidationError(CurrencyMessage))
    else
      UpperIsUpperCase(value);
      LowerOfUpper(value);
      Success(Upper(value))
  }

  /** `validate_original_amount`: strictly positive, returned unchanged */
  function ValidateAmount(value: real): (r: Result<real, ValidationError>)
    ensures r.Success? <==> value > 0.0
    ensures r.Success? ==> r.value == value
    ensures r.Failure? ==> r.error == ValidationError(AmountMessage)
  {
    if value <= 0.0 then Failure(ValidationError(AmountMessage)) else Success(value)
  }

  /** `validate_status`: one of the two choices, exactly as spelt, returned unchanged */
  function ValidateStatus(value: string): (r: Result<string, ValidationError>)
    ensures r.Success? <==> value == Pending || value == Paid
    ensures r.Success? ==> r.value == value
    ensures r.Failure? ==> r.error == ValidationError(StatusMessage)
  {
    if value !in [Pending, Paid] then Failure(ValidationError(StatusMessage)) else Success(value)
  }

  /** Validating an accepted code again accepts it and changes nothing */
  lemma ValidateCurrencyIdempotent(value: string)
    requires ValidateCurrency(value).Success?
    ensures ValidateCurrency(ValidateCurrency(value).value) == ValidateCurrency(value)
  {
    UpperIdempotent(value);
  }

  /** The check ignores case */
  lemma ValidateCurrencyCaseInsensitive(value: string)
    ensures ValidateCurrency(Upper(value)) == ValidateCurrency(value)
  {
    UpperIdempotent(value);
  }

  lemma ValidateCurrencyExamples()
    ensures ValidateCurrency("eur") == Success("EUR")
    ensures ValidateCurrency("").Failure? && ValidateCurrency("EURO").Failure?
  {
    assert Upper("eur") == "EUR";
  }

  lemma ValidateAmountIdempotent(value: real)
    requires ValidateAmount(value).Success?
    ensures ValidateAmount(ValidateAmount(value).value) == ValidateAmount(value)
  {
  }

  lemma ValidateStatusIdempotent(value: string)
    requires ValidateStatus(value).Success?
    ensures ValidateStatus(ValidateStatus(value).value) == ValidateStatus(value)
  {
  }

  /** The default status passes its own validator; lower-case spellings do not */
  lemma ValidateStatusExamples()
    ensures ValidateStatus(DefaultStatus) == Success("PENDING") && ValidateStatus("PAID") == Success("PAID")
    ensures ValidateStatus("paid").Failure? && ValidateStatus("Pending").Failure?
  {
    assert "paid" != Paid && "paid" != Pending;
    assert "Pending" != Paid && "Pending" != Pending;
  }

  // ---------------------------------------------------------------------------
  // Creation

  /** The validated data of a create request; `status` may be left out */
  datatype CreateData = CreateData(amount: real, currency: string, status: Option<string>)

  /** `data` is what the validators return for it */
  predicate CreateValidated(data: CreateData) {
    && ValidateAmount(data.amount) == Success(data.amount)
    && ValidateCurrency(data.currency) == Success(data.currency)
    && (data.status.Some? ==> ValidateStatus(data.status.value) == Success(data.status.value))
  }

  /** The row `Invoice.objects.create` builds; the id and the creation time
      are the database's */
  function NewInvoice(id: nat, account: nat, data: CreateData, createdAt: int, c: Conversion): InvoiceRecord {
    InvoiceRecord(id, account, data.amount, data.currency, c.rate, c.converted,
                  data.status.GetOr(DefaultStatus), createdAt)
  }

  /** `create`: one conversion of the validated amount to USD; no row unless
      it succeeds */
  ghost predicate CreateOutcome(env: Env, id: nat, account: nat, data: CreateData, createdAt: int,
                                before: map<string, Entry>, r: Result<InvoiceRecord, ConvertError>,
                                conversion: Result<Conversion, ConvertError>,
                                after: map<string, Entry>, fetched: seq<string>)
  {
    && ConvertOutcome(data.amount, data.currency, InvoiceCurrency, env, before, conversion, after, fetched)
    && (conversion.Failure? ==> r == Failure(conversion.error))
    && (conversion.Success? ==> r == Success(NewInvoice(id, account, data, createdAt, conversion.value)))
  }

  /** `InvoiceCreateSerializer.create`, with the account taken from the
      request context */
  method Create(settings: Settings, cache: RateCache, fetcher: RateFetcher,
                id: nat, account: nat, data: CreateData, createdAt: int)
    returns (r: Result<InvoiceRecord, ConvertError>, ghost conversion: Result<Conversion, ConvertError>)
    modifies cache`entries, fetcher`requests
    ensures old(fetcher.requests) <= fetcher.requests
    ensures CreateOutcome(Env(cache.now, CacheExpiry(settings), fetcher.api, fetcher.http), id, account, data, createdAt,
                          old(cache.entries), r, conversion, cache.entries, fetcher.requests[|old(fetcher.requests)|..])
  {
    var originalAmount := data.amount;
    var res := ConvertCurrency(settings, cache, fetcher, originalAmount, data.currency, InvoiceCurrency);
    conversion := res;
    if res.Failure? {
      return Failure(res.error), conversion;
    }
    r := Success(NewInvoice(id, account, data, createdAt, res.value));
  }

  /** A created row copies the validated fields, defaults the status, and
      stores the converter's pair, so its USD amount is amount times rate */
  lemma CreatedInvoiceRecordsConversion(env: Env, id: nat, account: nat, data: CreateData, createdAt: int,
                                        before: map<string, Entry>, r: Result<InvoiceRecord, ConvertError>,
                                        conversion: Result<Conversion, ConvertError>,
                                        after: map<string, Entry>, fetched: seq<string>)
    requires CreateOutcome(env, id, account, data, createdAt, before, r, conversion, after, fetched)
    requires r.Success?
    ensures conversion.Success?
    ensures && r.value.id == id && r.value.account == account && r.value.createdAt == createdAt
            && r.value.originalAmount == data.amount && r.value.originalCurrency == data.currency
            && r.value.status == data.status.GetOr(DefaultStatus)
    ensures r.value.exchangeRate == conversion.value.rate && r.value.convertedAmount == conversion.value.converted
    ensures ConversionConsistent(r.value)
  {
    SuccessIsAmountTimesRate(data.amount, data.currency, InvoiceCurrency, env, before, conversion, after, fetched);
  }

  /** An invoice already in USD is stored at rate 1.0 with its own amount,
      without the cache or the provider */
  lemma UsdInvoiceAtRateOne(env: Env, id: nat, account: nat, data: CreateData, createdAt: int,
                            before: map<string, Entry>, r: Result<InvoiceRecord, ConvertError>,
                            conversion: Result<Conversion, ConvertError>,
                            after: map<string, Entry>, fetched: seq<string>)
    requires CreateOutcome(env, id, account, data, createdAt, before, r, conversion, after, fetched)
    requires data.amount >= 0.0 && NormalizeCode(data.currency) == NormalizeCode(InvoiceCurrency)
    ensures r.Success? && r.value.exchangeRate == 1.0 && r.value.convertedAmount == data.amount
    ensures after == before && fetched == []
  {
    SelfConversionIsIdentity(data.amount, data.currency, InvoiceCurrency, env, before, conversion, after, fetched);
  }

  /** No row when the conversion fails; for validated data the only possible
      failure is the provider's, after exactly one request, with nothing cached */
  lemma CreateFailure(env: Env, id: nat, account: nat, data: CreateData, createdAt: int,
                      before: map<string, Entry>, r: Result<InvoiceRecord, ConvertError>,
                      conversion: Result<Conversion, ConvertError>,
                      after: map<string, Entry>, fetched: seq<string>)
    requires CreateOutcome(env, id, account, data, createdAt, before, r, conversion, after, fetched)
    requires r.Failure?
    ensures conversion == Failure(r.error) && after == before
    ensures CreateValidated(data) ==> r.error.RateUnavailable? && |fetched| == 1
  {
    FailureCases(data.amount, data.currency, InvoiceCurrency, env, before, conversion, after, fetched);
  }

  // ---------------------------------------------------------------------------
  // Update

  /** The validated data of an update request: any of the three fields may be absent */
  datatype UpdateData = UpdateData(amount: Option<real>, currency: Option<string>, status: Option<string>)

  /** `validated_data.items()`: the present fields, in the serializer's field order */
  function Items(d: UpdateData): (fs: seq<FieldValue>)
    ensures |fs| <= 3
  {
    (if d.amount.Some? then [AmountField(d.amount.value)] else [])
    + (if d.currency.Some? then [CurrencyField(d.currency.value)] else [])
    + (if d.status.Some? then [StatusField(d.status.value)] else [])
  }

  /** The amount and currency the update converts: the new value, or the
      stored one when the field is absent */
  function EffectiveAmount(start: InvoiceRecord, d: UpdateData): real {
    d.amount.GetOr(start.originalAmount)
  }

  function EffectiveCurrency(start: InvoiceRecord, d: UpdateData): string {
    d.currency.GetOr(start.originalCurrency)
  }

  predicate NeedsConversion(start: InvoiceRecord, d: UpdateData) {
    EffectiveCurrency(start, d) != start.originalCurrency || EffectiveAmount(start, d) != start.originalAmount
  }

  /** `update`: reconvert only when the currency or the amount changes, and
      raise before any assignment if that conversion fails; then write every
      present field. `conversion` is the converter call, if one was made, and
      `final` the instance's record afterwards. */
  ghost predicate UpdateOutcome(env: Env, start: InvoiceRecord, d: UpdateData, before: map<string, Entry>,
                                r: Result<InvoiceRecord, ConvertError>,
                                conversion: Option<Result<Conversion, ConvertError>>,
                                after: map<string, Entry>, fetched: seq<string>, final: InvoiceRecord)
  {
    if !NeedsConversion(start, d) then
      && conversion == None && after == before && fetched == []
      && final == ApplyAll(start, Items(d)) && r == Success(final)
    else
      && conversion.Some?
      && ConvertOutcome(EffectiveAmount(start, d), EffectiveCurrency(start, d), InvoiceCurrency, env,
                        before, conversion.value, after, fetched)
      && (conversion.value.Failure? ==> r == Failure(conversion.value.error) && final == start)
      && (conversion.value.Success? ==>
            && final == ApplyAll(start.(convertedAmount := conversion.value.value.converted,
                                        exchangeRate := conversion.value.value.rate), Items(d))
            && r == Success(final))
  }

  /** `InvoiceUpdateSerializer.update` on `instance` */
  method Update(settings: Settings, cache: RateCache, fetcher: RateFetcher, instance: Invoice, data: UpdateData)
    returns (r: Result<InvoiceRecord, ConvertError>, ghost conversion: Option<Result<Conversion, ConvertError>>)
    modifies instance, cache`entries, fetcher`requests
    ensures old(fetcher.requests) <= fetcher.requests
    ensures UpdateOutcome(Env(cache.now, CacheExpiry(settings), fetcher.api, fetcher.http), old(instance.Record()), data,
                          old(cache.entries), r, conversion, cache.entries, fetcher.requests[|old(fetcher.requests)|..],
                          instance.Record())
  {
    var originalCurrency := data.currency.GetOr(instance.originalCurrency);
    var originalAmount := data.amount.GetOr(instance.originalAmount);
    conversion := None;
    if originalCurrency != instance.originalCurrency || originalAmount != instance.originalAmount {
      var res := ConvertCurrency(settings, cache, fetcher, originalAmount, originalCurrency, InvoiceCurrency);
      conversion := Some(res);
      if res.Failure? {
        return Failure(res.error), conversion;
      }
      instance.SetConversion(res.value.converted, res.value.rate);
    } else {
      assert fetcher.requests[|fetcher.requests|..] == [];
    }
    SetAttrs(instance, Items(data));
    r := Success(instance.Record());
  }

  /** Writes each present field onto the instance, one `setattr` per field, in field order */
  method SetAttrs(instance: Invoice, items: seq<FieldValue>)
    modifies instance
    ensures instance.Record() == ApplyAll(old(instance.Record()), items)
  {
    ghost var start := instance.Record();
    var i := 0;
    while i < |items|
      invariant 0 <= i <= |items|
      invariant instance.Record() == ApplyAll(start, items[..i])
    {
      ApplyAllSnoc(start, items[..i], items[i]);
      instance.SetAttr(items[i]);
      assert items[..i + 1] == items[..i] + [items[i]];
      i := i + 1;
    }
    assert items[..i] == items;
  }

  lemma {:induction false} ApplyAllAppend(rec: InvoiceRecord, a: seq<FieldValue>, b: seq<FieldValue>)
    ensures ApplyAll(rec, a + b) == ApplyAll(ApplyAll(rec, a), b)
  {
    if b == [] {
      assert a + b == a;
    } else {
      var b' := b[..|b| - 1];
      ApplyAllAppend(rec, a, b');
      assert a + b == (a + b') + [b[|b| - 1]];
      ApplyAllSnoc(rec, a + b', b[|b| - 1]);
      ApplyAllSnoc(ApplyAll(rec, a), b', b[|b| - 1]);
    }
  }

  /** Writing the items field by field is the same as merging the present
      fields over the record */
  lemma ApplyItems(rec: InvoiceRecord, d: UpdateData)
    ensures ApplyAll(rec, Items(d)) == rec.(originalAmount := d.amount.GetOr(rec.originalAmount),
                                            originalCurrency := d.currency.GetOr(rec.originalCurrency),
                                            status := d.status.GetOr(rec.status))
  {
    var fa := if d.amount.Some? then [AmountField(d.amount.value)] else [];
    var fc := if d.currency.Some? then [CurrencyField(d.currency.value)] else [];
    var fs := if d.status.Some? then [StatusField(d.status.value)] else [];
    ApplyAllAppend(rec, fa + fc, fs);
    ApplyAllAppend(rec, fa, fc);
    assert ApplyAll(rec, fa) == rec.(originalAmount := d.amount.GetOr(rec.originalAmount)) by {
      if fa != [] { ApplyAllSnoc(rec, [], fa[0]); assert [] + [fa[0]] == fa; }
    }
    var r1 := ApplyAll(rec, fa);
    assert ApplyAll(r1, fc) == r1.(originalCurrency := d.currency.GetOr(rec.originalCurrency)) by {
      if fc != [] { ApplyAllSnoc(r1, [], fc[0]); assert [] + [fc[0]] == fc; }
    }
    var r2 := ApplyAll(r1, fc);
    assert ApplyAll(r2, fs) == r2.(status := d.status.GetOr(rec.status)) by {
      if fs != [] { ApplyAllSnoc(r2, [], fs[0]); assert [] + [fs[0]] == fs; }
    }
  }

  /** A successful update leaves the present fields at their new values, the
      absent ones at their old values, and the id, account and creation time
      as they were */
  lemma UpdateWritesValidatedFields(env: Env, start: InvoiceRecord, d: UpdateData, before: map<string, Entry>,
                                    r: Result<InvoiceRecord, ConvertError>,
                                    conversion: Option<Result<Conversion, ConvertError>>,
                                    after: map<string, Entry>, fetched: seq<string>, final: InvoiceRecord)
    requires UpdateOutcome(env, start, d, before, r, conversion, after, fetched, final)
    requires r.Success?
    ensures r.value == final
    ensures && final.originalAmount == EffectiveAmount(start, d)
            && final.originalCurrency == EffectiveCurrency(start, d)
            && final.status == d.status.GetOr(start.status)
    ensures final.id == start.id && final.account == start.account && final.createdAt == start.createdAt
  {
    if NeedsConversion(start, d) {
      var c := conversion.value.value;
      ApplyItems(start.(convertedAmount := c.converted, exchangeRate := c.rate), d);
    } else {
      ApplyItems(start, d);
    }
  }

  /** Neither the currency nor the amount changes: no conversion, no request,
      and the stored pair is kept */
  lemma UnchangedAmountKeepsConversion(env: Env, start: InvoiceRecord, d: UpdateData, before: map<string, Entry>,
                                       r: Result<InvoiceRecord, ConvertError>,
                                       conversion: Option<Result<Conversion, ConvertError>>,
                                       after: map<string, Entry>, fetched: seq<string>, final: InvoiceRecord)
    requires UpdateOutcome(env, start, d, before, r, conversion, after, fetched, final)
    requires !NeedsConversion(start, d)
    ensures r.Success? && conversion.None? && fetched == [] && after == before
    ensures final.convertedAmount == start.convertedAmount && final.exchangeRate == start.exchangeRate
  {
    ApplyAllKeepsOtherFields(start, Items(d));
  }

  /** A changed currency or amount: the stored pair becomes the USD
      conversion of the new amount from the new currency */
  lemma ChangedAmountReconverts(env: Env, start: InvoiceRecord, d: UpdateData, before: map<string, Entry>,
                                r: Result<InvoiceRecord, ConvertError>,
                                conversion: Option<Result<Conversion, ConvertError>>,
                                after: map<string, Entry>, fetched: seq<string>, final: InvoiceRecord)
    requires UpdateOutcome(env, start, d, before, r, conversion, after, fetched, final)
    requires NeedsConversion(start, d) && r.Success?
    ensures conversion == Some(Success(Conversion(final.convertedAmount, final.exchangeRate)))
    ensures final.convertedAmount == EffectiveAmount(start, d) * final.exchangeRate
    ensures fetched == [] || fetched == [RequestUrl(env.api, NormalizeCode(EffectiveCurrency(start, d)))]
  {
    var c := conversion.value;
    ApplyAllKeepsOtherFields(start.(convertedAmount := c.value.converted, exchangeRate := c.value.rate), Items(d));
    SuccessIsAmountTimesRate(EffectiveAmount(start, d), EffectiveCurrency(start, d), InvoiceCurrency, env,
                             before, c, after, fetched);
    FetchesAtMostOnce(EffectiveAmount(start, d), EffectiveCurrency(start, d), InvoiceCurrency, env,
                      before, c, after, fetched);
  }

  /** A failed conversion leaves the instance and the cache exactly as they were */
  lemma FailedUpdateChangesNothing(env: Env, start: InvoiceRecord, d: UpdateData, before: map<string, Entry>,
                                   r: Result<InvoiceRecord, ConvertError>,
                                   conversion: Option<Result<Conversion, ConvertError>>,
                                   after: map<string, Entry>, fetched: seq<string>, final: InvoiceRecord)
    requires UpdateOutcome(env, start, d, before, r, conversion, after, fetched, final)
    requires r.Failure?
    ensures NeedsConversion(start, d) && conversion == Some(Failure(r.error))
    ensures final == start && after == before
  {
    FailureCases(EffectiveAmount(start, d), EffectiveCurrency(start, d), InvoiceCurrency, env,
                 before, conversion.value, after, fetched);
  }

  /** An update keeps the stored USD amount equal to the amount at the stored rate */
  lemma UpdateKeepsConversionConsistent(env: Env, start: InvoiceRecord, d: UpdateData, before: map<string, Entry>,
                                        r: Result<InvoiceRecord, ConvertError>,
                                        conversion: Option<Result<Conversion, ConvertError>>,
                                        after: map<string, Entry>, fetched: seq<string>, final: InvoiceRecord)
    requires UpdateOutcome(env, start, d, before, r, conversion, after, fetched, final)
    requires ConversionConsistent(start)
    ensures ConversionConsistent(final)
  {
    if r.Failure? {
      FailedUpdateChangesNothing(env, start, d, before, r, conversion, after, fetched, final);
    } else {
      UpdateWritesValidatedFields(env, start, d, before, r, conversion, after, fetched, final);
      if NeedsConversion(start, d) {
        ChangedAmountReconverts(env, start, d, before, r, conversion, after, fetched, final);
      } else {
        UnchangedAmountKeepsConversion(env, start, d, before, r, conversion, after, fetched, final);
      }
    }
  }
}
