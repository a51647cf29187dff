/** The Python 2 values a model record's attributes hold, the naive
    `datetime`/`date` values among them, and the built-in conversions the
    renderers apply to them: `str()`, `unicode()`, `float()` and `int()`. */
module Values {
  import opened Base
  import opened Text

  type Year = y: int | 1 <= y <= 9999 witness 1
  type Month = m: int | 1 <= m <= 12 witness 1
  type Day = d: int | 1 <= d <= 31 witness 1
  type Hour = h: int | 0 <= h < 24
  type Minute = m: int | 0 <= m < 60
  type Second = s: int | 0 <= s < 60
  type Microsecond = u: int | 0 <= u < 1_000_000

  datatype Date = Date(year: Year, month: Month, day: Day)

  /** A naive `datetime.datetime`. */
  datatype DateTime = DateTime(date: Date, hour: Hour, minute: Minute, second: Second, microsecond: Microsecond)

  /** `date.isoformat()`: YYYY-MM-DD. */
  function DateIso(d: Date): (s: string)
    ensures IsAscii(s)
  {
    var y, m, dd := ZeroPad(d.year, 4), ZeroPad(d.month, 2), ZeroPad(d.day, 2);
    AsciiConcat(y, "-");
    AsciiConcat(y + "-", m);
    AsciiConcat(y + "-" + m, "-");
    AsciiConcat(y + "-" + m + "-", dd);
    y + "-" + m + "-" + dd
  }

  /** `time.isoformat()` of a time without fraction: HH:MM:SS. */
  function ClockIso(dt: DateTime): (s: string)
    ensures IsAscii(s)
  {
    var h, m, sec := ZeroPad(dt.hour, 2), ZeroPad(dt.minute, 2), ZeroPad(dt.second, 2);
    AsciiConcat(h, ":");
    AsciiConcat(h + ":", m);
    AsciiConcat(h + ":" + m, ":");
    AsciiConcat(h + ":" + m + ":", sec);
    h + ":" + m + ":" + sec
  }

  /** The fractional part `isoformat` appends: empty for a whole second. */
  function FractionIso(dt: DateTime): (s: string)
    ensures IsAscii(s)
  {
    if dt.microsecond != 0 then
      AsciiConcat(".", ZeroPad(dt.microsecond, 6));
      "." + ZeroPad(dt.microsecond, 6)
    else ""
  }

  /** `datetime.isoformat(sep)`: the date, the separator, HH:MM:SS, and a
      six-digit fraction only when the microsecond is not zero. */
  function IsoFormat(dt: DateTime, sep: char): (s: string)
    ensures sep as int < 128 ==> IsAscii(s)
  {
    var d, c, f := DateIso(dt.date), ClockIso(dt), FractionIso(dt);
    assert sep as int < 128 ==> IsAscii(d + [sep] + c + f) by {
      if sep as int < 128 {
        AsciiConcat(d, [sep]);
        AsciiConcat(d + [sep], c);
        AsciiConcat(d + [sep] + c, f);
      }
    }
    d + [sep] + c + f
  }

  /** `dt.replace(microsecond=0)`. */
  function TruncateToSecond(dt: DateTime): DateTime
  {
    dt.(microsecond := 0)
  }

  /** The whole-seconds part of an ISO timestamp is 19 characters long. */
  lemma IsoFormatLength(dt: DateTime, sep: char)
    ensures |IsoFormat(dt, sep)| == if dt.microsecond == 0 then 19 else 26
  {
    assert Pow10(2) == 100 && Pow10(4) == 10000 && Pow10(6) == 1_000_000;
    ZeroPadWidth(dt.date.year, 4);
    ZeroPadWidth(dt.date.month, 2);
    ZeroPadWidth(dt.date.day, 2);
    ZeroPadWidth(dt.hour, 2);
    ZeroPadWidth(dt.minute, 2);
    ZeroPadWidth(dt.second, 2);
    if dt.microsecond != 0 {
      ZeroPadWidth(dt.microsecond, 6);
    }
  }

  /** Truncating to whole seconds drops exactly the fractional part of the
      ISO text: what is left is the first 19 characters, the same whatever
      the microsecond was. */
  lemma TruncatedIsoFormat(dt: DateTime, sep: char)
    ensures |IsoFormat(TruncateToSecond(dt), sep)| == 19
    ensures IsoFormat(TruncateToSecond(dt), sep) == IsoFormat(dt, sep)[..19]
    ensures TruncateToSecond(TruncateToSecond(dt)) == TruncateToSecond(dt)
  {
    IsoFormatLength(dt, sep);
    IsoFormatLength(TruncateToSecond(dt), sep);
  }

  /** An attribute value of a model instance, by its Python 2 type. */
  datatype Value =
    | Int(i: int)                      // `int`
    | Long(l: int)                     // `long`
    | Float(f: real)                   // `float` (IEEE behaviour not modelled)
    | Bool(b: bool)                    // `bool`
    | Bytes(data: seq<byte>)           // `str`, a byte string
    | Unicode(text: string)            // `unicode`
    | DateValue(date: Date)            // `datetime.date`
    | DateTimeValue(dt: DateTime)      // naive `datetime.datetime`
    | Null                             // `None`
    | Object(str: seq<byte>, text: string)
      // any other object (a related model instance, a Decimal, ...),
      // together with what its own `__str__` and `__unicode__` return

  /** The CPython built-ins the model takes as given rather than
      re-implementing: parsing numeric text (`int(s)`, `float(s)`) and
      formatting a float as text (`str(f)`, `unicode(f)`). */
  datatype Runtime = Runtime(parseInt: string -> Option<int>,
                             parseFloat: string -> Option<real>,
                             floatText: real -> string)

  const TrueText: string := "True"
  const FalseText: string := "False"
  const NoneText: string := "None"

  /** Python 2 `str(v)`, for every value except a float (whose text is not
      modelled, and which no caller stringifies). */
  function StrOf(v: Value): (r: Result<seq<byte>>)
    requires !v.Float?
    ensures r.Err? <==> v.Unicode? && !IsAscii(v.text)
    ensures r.Err? ==> r.error == UnicodeEncodeError
    ensures v.Bytes? ==> r == Ok(v.data)
    ensures v.Unicode? && IsAscii(v.text) ==> r == Ok(Utf8(v.text))
  {
    match v
    case Int(i) => Ok(AsciiBytes(IntDecimal(i)))
    case Long(l) => Ok(AsciiBytes(IntDecimal(l)))
    case Bool(b) => Ok(AsciiBytes(if b then TrueText else FalseText))
    case Bytes(data) => Ok(data)
    case Unicode(text) =>
      if IsAscii(text) then Utf8OfAscii(text); Ok(AsciiBytes(text)) else Err(UnicodeEncodeError)
    case DateValue(d) => Ok(AsciiBytes(DateIso(d)))
    case DateTimeValue(dt) => Ok(AsciiBytes(IsoFormat(dt, ' ')))
    case Null => Ok(AsciiBytes(NoneText))
    case Object(s, _) => Ok(s)
  }

  /** Python 2 `unicode(v)`. */
  function UnicodeOf(v: Value, rt: Runtime): (r: Result<string>)
    ensures r.Err? <==> v.Bytes? && !IsAsciiBytes(v.data)
    ensures r.Err? ==> r.error == UnicodeDecodeError
    ensures v.Unicode? ==> r == Ok(v.text)
  {
    match v
    case Int(i) => Ok(IntDecimal(i))
    case Long(l) => Ok(IntDecimal(l))
    case Float(f) => Ok(rt.floatText(f))
    case Bool(b) => Ok(if b then TrueText else FalseText)
    case Bytes(data) => if IsAsciiBytes(data) then Ok(Latin1Text(data)) else Err(UnicodeDecodeError)
    case Unicode(text) => Ok(text)
    case DateValue(d) => Ok(DateIso(d))
    case DateTimeValue(dt) => Ok(IsoFormat(dt, ' '))
    case Null => Ok(NoneText)
    case Object(_, text) => Ok(text)
  }

  /** On ASCII text Python 2's `str()` and `unicode()` are inverse: the byte
      string `str()` makes reads back through `unicode()` as the same text. */
  lemma StrUnicodeRoundTrip(s: string, rt: Runtime)
    requires IsAscii(s)
    ensures StrOf(Unicode(s)).Ok? && UnicodeOf(Bytes(StrOf(Unicode(s)).value), rt) == Ok(s)
  {
    Utf8OfAscii(s);
    AsciiRoundTrip(s);
  }

  /** The text of a string value, as the numeric parsers read it. */
  function TextOf(v: Value): string
    requires v.Bytes? || v.Unicode?
  {
    if v.Bytes? then Latin1Text(v.data) else v.text
  }

  /** Python 2 `float(v)`. */
  function FloatOf(v: Value, rt: Runtime): (r: Result<real>)
    ensures (v.Int? || v.Long? || v.Float? || v.Bool?) ==> r.Ok?
    ensures (v.Bytes? || v.Unicode?) ==> (r.Ok? <==> rt.parseFloat(TextOf(v)).Some?)
    ensures r.Err? ==> r.error == (if v.Bytes? || v.Unicode? then ValueError else TypeError)
  {
    match v
    case Int(i) => Ok(i as real)
    case Long(l) => Ok(l as real)
    case Float(f) => Ok(f)
    case Bool(b) => Ok(if b then 1.0 else 0.0)
    case Bytes(_) => ParsedFloat(rt.parseFloat(TextOf(v)))
    case Unicode(_) => ParsedFloat(rt.parseFloat(TextOf(v)))
    case _ => Err(TypeError)
  }

  function ParsedFloat(p: Option<real>): Result<real>
  {
    if p.Some? then Ok(p.value) else Err(ValueError)
  }

  /** Python's `int(f)` for a float: truncation toward zero. */
  function TruncateReal(f: real): (r: int)
    ensures f >= 0.0 ==> r as real <= f < r as real + 1.0
    ensures f < 0.0 ==> r as real - 1.0 < f <= r as real
  {
    if f >= 0.0 then f.Floor else -((-f).Floor)
  }

  /** Python 2 `int(v)`. */
  function IntOf(v: Value, rt: Runtime): (r: Result<int>)
    ensures (v.Int? || v.Long? || v.Float? || v.Bool?) ==> r.Ok?
    ensures (v.Bytes? || v.Unicode?) ==> (r.Ok? <==> rt.parseInt(TextOf(v)).Some?)
    ensures r.Err? ==> r.error == (if v.Bytes? || v.Unicode? then ValueError else TypeError)
  {
    match v
    case Int(i) => Ok(i)
    case Long(l) => Ok(l)
    case Float(f) => Ok(TruncateReal(f))
    case Bool(b) => Ok(if b then 1 else 0)
    case Bytes(_) => ParsedInt(rt.parseInt(TextOf(v)))
    case Unicode(_) => ParsedInt(rt.parseInt(TextOf(v)))
    case _ => Err(TypeError)
  }

  function ParsedInt(p: Option<int>): Result<int>
  {
    if p.Some? then Ok(p.value) else Err(ValueError)
  }
}
