/** The Alpha Vantage `TIME_SERIES_DAILY_ADJUSTED` response: how `fetch_symbol_data`
    classifies it, and how one daily entry becomes a price record. */
module AlphaVantage {
  import opened Wrappers
  import opened Text
  import opened Prices

  /** One daily entry of `Time Series (Daily)`: field name to the text of its value. */
  type RawEntry = map<string, string>

  /** `Time Series (Daily)`, keyed by trade date. */
  type Series = map<Date, RawEntry>

  /** The members of the JSON object the scripts look at. */
  datatype Payload = Payload(errorMessage: Option<string>, note: Option<string>, timeSeries: Option<Series>)

  /** What `r.json()` gives: the object, or the text of the decoding exception. */
  datatype Body = Json(payload: Payload) | Unparseable(reason: string)

  /** What `requests.get(url, timeout=30)` gives: a response, or the text of the
      exception it raised (a timeout, a refused connection). */
  datatype HttpOutcome = Received(status: nat, body: Body) | Unreachable(reason: string)

  const MissingSeriesMessage: string := "Missing 'Time Series (Daily)' in response"

  /** The test `fetch_symbol_data` makes of a response before it returns the series.
      Either in the single-day form, where every exception text reaches the caller as
      it is, or in the several-days form, which wraps it in `"<symbol> API error: "`. */
  predicate Usable(o: HttpOutcome)
  {
    o.Received? && o.status == 200 && o.body.Json?
    && o.body.payload.errorMessage.None? && o.body.payload.note.None? && o.body.payload.timeSeries.Some?
  }

  /** `fetch_symbol_data` of the single-day script. */
  function FetchSymbolData(o: HttpOutcome): (r: Result<Series>)
    ensures r.Ok? <==> Usable(o)
    ensures r.Ok? ==> r.value == o.body.payload.timeSeries.value
  {
    match o
    case Unreachable(reason) => Err(reason)
    case Received(status, body) =>
      if status != 200 then Err("HTTP " + NatToString(status))
      else match body
        case Unparseable(reason) => Err(reason)
        case Json(p) =>
          if p.errorMessage.Some? then Err(p.errorMessage.value)
          else if p.note.Some? then Err(p.note.value)
          else if p.timeSeries.None? then Err(MissingSeriesMessage)
          else Ok(p.timeSeries.value)
  }

  /** The checks come in a fixed order: the status code first, then `Error Message`,
      then `Note`, then the missing series; each failure carries its own text. */
  lemma FetchErrors(o: HttpOutcome)
    ensures o.Unreachable? ==> FetchSymbolData(o) == Err(o.reason)
    ensures o.Received? && o.status != 200 ==> FetchSymbolData(o) == Err("HTTP " + NatToString(o.status))
    ensures o.Received? && o.status == 200 && o.body.Unparseable? ==> FetchSymbolData(o) == Err(o.body.reason)
    ensures o.Received? && o.status == 200 && o.body.Json? ==>
      var p := o.body.payload;
      && (p.errorMessage.Some? ==> FetchSymbolData(o) == Err(p.errorMessage.value))
      && (p.errorMessage.None? && p.note.Some? ==> FetchSymbolData(o) == Err(p.note.value))
      && (p.errorMessage.None? && p.note.None? && p.timeSeries.None? ==> FetchSymbolData(o) == Err(MissingSeriesMessage))
  {
  }

  /** The `HTTP <code>` message names the status code: two codes give two messages. */
  lemma HttpMessageNamesCode(a: nat, b: nat)
    requires "HTTP " + NatToString(a) == "HTTP " + NatToString(b)
    ensures a == b
  {
    assert NatToString(a) == ("HTTP " + NatToString(a))[5..];
    assert NatToString(b) == ("HTTP " + NatToString(b))[5..];
    NatToStringRoundTrip(a);
    NatToStringRoundTrip(b);
  }

  /** `fetch_symbol_data` of the several-days script: the same checks, every failure
      re-raised as `"<symbol> API error: <text>"`. */
  function FetchSymbolDataWrapped(symbol: Symbol, o: HttpOutcome): (r: Result<Series>)
    ensures r.Ok? <==> Usable(o)
    ensures r.Ok? ==> r == FetchSymbolData(o)
    ensures r.Err? ==> r.error == symbol + " API error: " + FetchSymbolData(o).error
  {
    match FetchSymbolData(o)
    case Ok(series) => Ok(series)
    case Err(e) => Err(symbol + " API error: " + e)
  }

  /** Python's `float(text)` and `int(text)` on the strings of the response: the value,
      or the text of the `ValueError`. */
  datatype Conversions = Conversions(toFloat: string -> Result<Float>, toInt: string -> Result<int>)

  const OpenField: string := "1. open"
  const HighField: string := "2. high"
  const LowField: string := "3. low"
  const CloseField: string := "4. close"
  const AdjustedCloseField: string := "5. adjusted close"
  const VolumeField: string := "6. volume"
  const DividendField: string := "7. dividend amount"
  const SplitField: string := "8. split coefficient"

  /** The fields read with `rec[...]`, in the order the record is built. */
  const RequiredFields: seq<string> := [OpenField, HighField, LowField, CloseField, AdjustedCloseField, VolumeField]

  /** The text of `str(KeyError(key))`. */
  function KeyErrorText(key: string): string
  {
    "'" + key + "'"
  }

  /** How the optional dividend and split fields fall back to their defaults:
      `rec.get(key, default)` only when the key is absent (single-day), or
      `rec.get(key, default) or default` also when the text is empty (several-days). */
  datatype Defaulting = WhenAbsent | WhenAbsentOrEmpty

  predicate UsesDefault(rec: RawEntry, key: string, style: Defaulting)
  {
    key !in rec || (style == WhenAbsentOrEmpty && rec[key] == "")
  }

  /** `round(float(rec[key]), 4)`. */
  function PriceField(rec: RawEntry, key: string, conv: Conversions): Result<Quote>
  {
    if key !in rec then Err(KeyErrorText(key))
    else
      var x :- conv.toFloat(rec[key]);
      Ok(Round(x))
  }

  /** `round(float(rec.get(key, default) ...), 4)`. */
  function OptionalField(rec: RawEntry, key: string, conv: Conversions, default: Quote, style: Defaulting): Result<Quote>
  {
    if UsesDefault(rec, key, style) then Ok(default)
    else
      var x :- conv.toFloat(rec[key]);
      Ok(Round(x))
  }

  /** `int(rec["6. volume"])`. */
  function VolumeOf(rec: RawEntry, conv: Conversions): Result<int>
  {
    if VolumeField !in rec then Err(KeyErrorText(VolumeField)) else conv.toInt(rec[VolumeField])
  }

  /** Every field the record needs is there and converts. */
  predicate Convertible(rec: RawEntry, conv: Conversions, style: Defaulting)
  {
    && (forall key :: key in RequiredFields ==> key in rec)
    && conv.toFloat(rec[OpenField]).Ok? && conv.toFloat(rec[HighField]).Ok? && conv.toFloat(rec[LowField]).Ok?
    && conv.toFloat(rec[CloseField]).Ok? && conv.toFloat(rec[AdjustedCloseField]).Ok?
    && conv.toInt(rec[VolumeField]).Ok?
    && (UsesDefault(rec, DividendField, style) || conv.toFloat(rec[DividendField]).Ok?)
    && (UsesDefault(rec, SplitField, style) || conv.toFloat(rec[SplitField]).Ok?)
  }

  /** The `row` dictionary built from the entry `rec` of `symbol` on `date`, the fields
      evaluated in order; the first failure is the result. */
  function BuildRecord(symbol: Symbol, date: Date, rec: RawEntry, conv: Conversions, style: Defaulting): (r: Result<Record>)
    ensures r.Ok? <==> Convertible(rec, conv, style)
    ensures r.Ok? ==> KeyOf(r.value) == (symbol, date)
    ensures r.Ok? ==>
      && r.value.open == Round(conv.toFloat(rec[OpenField]).value)
      && r.value.high == Round(conv.toFloat(rec[HighField]).value)
      && r.value.low == Round(conv.toFloat(rec[LowField]).value)
      && r.value.close == Round(conv.toFloat(rec[CloseField]).value)
      && r.value.adjustedClose == Round(conv.toFloat(rec[AdjustedCloseField]).value)
      && r.value.volume == conv.toInt(rec[VolumeField]).value
    ensures r.Ok? ==>
      r.value.dividendAmount == (if UsesDefault(rec, DividendField, style) then NoDividend
                                 else Round(conv.toFloat(rec[DividendField]).value))
    ensures r.Ok? ==>
      r.value.splitCoefficient == (if UsesDefault(rec, SplitField, style) then NoSplit
                                   else Round(conv.toFloat(rec[SplitField]).value))
  {
    var open :- PriceField(rec, OpenField, conv);
    var high :- PriceField(rec, HighField, conv);
    var low :- PriceField(rec, LowField, conv);
    var close :- PriceField(rec, CloseField, conv);
    var adjusted :- PriceField(rec, AdjustedCloseField, conv);
    var volume :- VolumeOf(rec, conv);
    var dividend :- OptionalField(rec, DividendField, conv, NoDividend, style);
    var split :- OptionalField(rec, SplitField, conv, NoSplit, style);
    Ok(Record(symbol, date, open, high, low, close, adjusted, volume, dividend, split))
  }

  /** `round(float(rec[key]), 4)` goes through: the key is there and its text converts. */
  predicate PriceReadable(rec: RawEntry, key: string, conv: Conversions)
  {
    key in rec && conv.toFloat(rec[key]).Ok?
  }

  /** The text of the exception `round(float(rec[key]), 4)` raises: the `KeyError` of an
      absent key, or the `ValueError` of text `float` refuses. */
  function PriceError(rec: RawEntry, key: string, conv: Conversions): string
    requires !PriceReadable(rec, key, conv)
  {
    if key !in rec then KeyErrorText(key) else conv.toFloat(rec[key]).error
  }

  /** A record that cannot be built fails with the exception of the first field, in the
      order the `row` dictionary evaluates them, that cannot be read. */
  lemma BuildRecordFirstFailure(symbol: Symbol, date: Date, rec: RawEntry, conv: Conversions, style: Defaulting)
    ensures var r := BuildRecord(symbol, date, rec, conv, style);
      && (!PriceReadable(rec, OpenField, conv) ==> r == Err(PriceError(rec, OpenField, conv)))
      && (PriceReadable(rec, OpenField, conv) && !PriceReadable(rec, HighField, conv) ==>
            r == Err(PriceError(rec, HighField, conv)))
      && (PriceReadable(rec, OpenField, conv) && PriceReadable(rec, HighField, conv)
          && !PriceReadable(rec, LowField, conv) ==>
            r == Err(PriceError(rec, LowField, conv)))
      && (PriceReadable(rec, OpenField, conv) && PriceReadable(rec, HighField, conv)
          && PriceReadable(rec, LowField, conv) && !PriceReadable(rec, CloseField, conv) ==>
            r == Err(PriceError(rec, CloseField, conv)))
      && (PriceReadable(rec, OpenField, conv) && PriceReadable(rec, HighField, conv)
          && PriceReadable(rec, LowField, conv) && PriceReadable(rec, CloseField, conv)
          && !PriceReadable(rec, AdjustedCloseField, conv) ==>
            r == Err(PriceError(rec, AdjustedCloseField, conv)))
    ensures var r := BuildRecord(symbol, date, rec, conv, style);
      var prices := forall key :: key in RequiredFields && key != VolumeField ==> PriceReadable(rec, key, conv);
      && (prices && VolumeField !in rec ==> r == Err(KeyErrorText(VolumeField)))
      && (prices && VolumeField in rec && conv.toInt(rec[VolumeField]).Err? ==>
            r == Err(conv.toInt(rec[VolumeField]).error))
      && (prices && VolumeField in rec && conv.toInt(rec[VolumeField]).Ok?
          && !UsesDefault(rec, DividendField, style) && conv.toFloat(rec[DividendField]).Err? ==>
            r == Err(conv.toFloat(rec[DividendField]).error))
      && (prices && VolumeField in rec && conv.toInt(rec[VolumeField]).Ok?
          && (UsesDefault(rec, DividendField, style) || conv.toFloat(rec[DividendField]).Ok?)
          && !UsesDefault(rec, SplitField, style) && conv.toFloat(rec[SplitField]).Err? ==>
            r == Err(conv.toFloat(rec[SplitField]).error))
  {
    assert OpenField in RequiredFields && HighField in RequiredFields && LowField in RequiredFields;
    assert CloseField in RequiredFields && AdjustedCloseField in RequiredFields;
  }

  /** A required field that is missing, when everything else is in order, fails the
      record with the `KeyError` text naming that field. */
  lemma MissingFieldNamed(symbol: Symbol, date: Date, rec: RawEntry, conv: Conversions, style: Defaulting, key: string)
    requires key in RequiredFields && key !in rec
    requires forall k :: k in RequiredFields && k != key ==> k in rec
    requires forall k :: k in RequiredFields && k != key && k != VolumeField ==> conv.toFloat(rec[k]).Ok?
    ensures BuildRecord(symbol, date, rec, conv, style) == Err(KeyErrorText(key))
  {
    assert OpenField in RequiredFields && HighField in RequiredFields && LowField in RequiredFields;
    assert CloseField in RequiredFields && AdjustedCloseField in RequiredFields && VolumeField in RequiredFields;
  }

  /** The empty text is where the two scripts part: the several-days script falls back
      to the default, the single-day one hands `""` to `float`. */
  lemma EmptyDividend(symbol: Symbol, date: Date, rec: RawEntry, conv: Conversions)
    requires DividendField in rec && rec[DividendField] == ""
    requires BuildRecord(symbol, date, rec, conv, WhenAbsentOrEmpty).Ok?
    ensures BuildRecord(symbol, date, rec, conv, WhenAbsentOrEmpty).value.dividendAmount == NoDividend
    ensures conv.toFloat("").Err? ==> BuildRecord(symbol, date, rec, conv, WhenAbsent).Err?
  {
  }
}
