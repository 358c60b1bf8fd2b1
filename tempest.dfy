/** The observation codec of tempest.go: the float64 values the exporter
    carries, the positional obs_st frame decoder with its coercions, the token
    redactor, and the guard and tier logic of the two derived metrics. */
module Tempest {
  import opened Wrappers
  import opened Decimal

  /** A Go float64. NaN is the "unknown" sentinel of every observation field;
      rounding is not modelled, so a finite value is an exact real. */
  datatype Float = NaN | Inf(negative: bool) | Finite(r: real) {

    predicate IsNaN() { NaN? }

    /** this < c, as IEEE compares it: false when this is NaN. */
    predicate Below(c: real) {
      match this
      case NaN => false
      case Inf(neg) => neg
      case Finite(x) => x < c
    }

    /** this > c; false when this is NaN. */
    predicate Above(c: real) {
      match this
      case NaN => false
      case Inf(neg) => !neg
      case Finite(x) => x > c
    }

    /** this >= c; false when this is NaN. */
    predicate AtLeast(c: real) {
      match this
      case NaN => false
      case Inf(neg) => !neg
      case Finite(x) => x >= c
    }

    /** this <= c; false when this is NaN. */
    predicate AtMost(c: real) {
      match this
      case NaN => false
      case Inf(neg) => neg
      case Finite(x) => x <= c
    }

    /** this * k for a positive constant k: NaN and the infinities keep their kind. */
    function Times(k: real): (p: Float)
      requires k > 0.0
      ensures p.IsNaN() == IsNaN() && p.Inf? == Inf?
    {
      match this
      case Finite(x) => Finite(x * k)
      case _ => this
    }
  }

  /** A value as encoding/json leaves it in an []any: null, a float64, a
      json.Number (numeric text), a string, a bool, or an array or object. */
  datatype Json = Null | Num(n: Float) | NumText(text: string) | Str(s: string) | Bool(b: bool) | Composite

  /** Observation: the integer timestamp and seventeen float64 fields. */
  datatype Observation = Observation(
    timestamp: int,
    windLull: Float,
    windAvg: Float,
    windGust: Float,
    windDirection: Float,
    windSampleInterval: Float,
    stationPressure: Float,
    airTemperature: Float,
    relativeHumidity: Float,
    illuminance: Float,
    uv: Float,
    solarRadiation: Float,
    rainAccumulated: Float,
    precipitationType: Float,
    lightningStrikeAvgDist: Float,
    lightningStrikeCount: Float,
    battery: Float,
    reportInterval: Float)
  {
    /** The field that obs_st slot i fills; slot 0 is the timestamp. */
    function Slot(i: nat): Float
      requires 1 <= i < FieldCount
    {
      match i
      case 1 => windLull
      case 2 => windAvg
      case 3 => windGust
      case 4 => windDirection
      case 5 => windSampleInterval
      case 6 => stationPressure
      case 7 => airTemperature
      case 8 => relativeHumidity
      case 9 => illuminance
      case 10 => uv
      case 11 => solarRadiation
      case 12 => rainAccumulated
      case 13 => precipitationType
      case 14 => lightningStrikeAvgDist
      case 15 => lightningStrikeCount
      case 16 => battery
      case _ => reportInterval
    }
  }

  /** Number of slots of an obs_st frame. */
  const FieldCount: nat := 18

  /** Go's zero Observation: timestamp 0 and every field 0. */
  const ZeroObservation: Observation :=
    Observation(0, Finite(0.0), Finite(0.0), Finite(0.0), Finite(0.0), Finite(0.0), Finite(0.0),
      Finite(0.0), Finite(0.0), Finite(0.0), Finite(0.0), Finite(0.0), Finite(0.0), Finite(0.0),
      Finite(0.0), Finite(0.0), Finite(0.0), Finite(0.0))

  // ---------------------------------------------------------------------------
  // Coercions

  /** toFloat: a float64 as it is, numeric text through ParseFloat, and NaN
      (unknown) for null, any other type and text that does not parse. */
  function ToFloat(v: Json): (f: Float)
    ensures f.IsNaN() <==>
      v.Null? || v.Str? || v.Bool? || v.Composite? || (v.Num? && v.n.IsNaN()) ||
      (v.NumText? && ParseFloat(v.text).None?)
    ensures v.Num? ==> f == v.n
    ensures v.NumText? && ParseFloat(v.text).Some? ==> f == Finite(ParseFloat(v.text).value)
  {
    match v
    case Num(n) => n
    case NumText(t) => if ParseFloat(t).Some? then Finite(ParseFloat(t).value) else NaN
    case _ => NaN
  }

  /** Why toInt64 refused a timestamp. */
  datatype TimestampError = NilTimestamp | OutOfRange(n: Float) | InvalidNumber(text: string) | InvalidType

  /** float64(math.MaxInt64), which rounds up to 2^63; -2^63 is math.MinInt64 exactly. */
  const Int64Limit: real := 9223372036854775808.0

  /** The float64 range check toInt64 and restObsToObservation apply. */
  predicate WithinInt64(x: real) { -Int64Limit <= x <= Int64Limit }

  /** Go's conversion int64(x): truncation toward zero. */
  function Truncate(x: real): (n: int)
    ensures x >= 0.0 ==> n as real <= x < n as real + 1.0
    ensures x < 0.0 ==> n as real - 1.0 < x <= n as real
  {
    if x >= 0.0 then x.Floor else -((-x).Floor)
  }

  /** toInt64: a finite float64 inside the int64 range, truncated, or numeric
      text that ParseInt accepts; every other value is an error. */
  function ToInt64(v: Json): (r: Result<int, TimestampError>)
    ensures r.Ok? <==>
      (v.Num? && v.n.Finite? && WithinInt64(v.n.r)) || (v.NumText? && ParseInt64(v.text).Some?)
    ensures r.Ok? && v.Num? ==> r.value == Truncate(v.n.r)
    ensures r.Ok? && v.NumText? ==> Some(r.value) == ParseInt64(v.text)
    ensures v.Null? ==> r == Err(NilTimestamp)
    ensures v.Str? || v.Bool? || v.Composite? ==> r == Err(InvalidType)
  {
    match v
    case Null => Err(NilTimestamp)
    case Num(n) => if n.Finite? && WithinInt64(n.r) then Ok(Truncate(n.r)) else Err(OutOfRange(n))
    case NumText(t) => if ParseInt64(t).Some? then Ok(ParseInt64(t).value) else Err(InvalidNumber(t))
    case _ => Err(InvalidType)
  }

  /** An int64 timestamp comes back exactly, as a float64 and as numeric text. */
  lemma ToInt64Exact(n: int)
    requires MinInt64 <= n <= MaxInt64
    ensures ToInt64(Num(Finite(n as real))) == Ok(n)
    ensures ToInt64(NumText(FormatInt(n))) == Ok(n)
  {
    ParseInt64FormatInt(n);
  }

  /** Null, NaN, the infinities, a string and unparsable text are all refused. */
  lemma ToInt64Refuses(x: real, s: string)
    ensures ToInt64(Null).Err? && ToInt64(Num(NaN)).Err?
    ensures ToInt64(Num(Inf(false))).Err? && ToInt64(Num(Inf(true))).Err?
    ensures ToInt64(Str(s)).Err?
    ensures ToInt64(NumText("not-a-number")).Err?
    ensures ToInt64(Num(Finite(1700000000.0))) == Ok(1700000000)
  {
    assert SplitSign("not-a-number") == (false, "not-a-number");
    assert !IsDigit("not-a-number"[0]);
  }

  /** Numeric text is parsed ("3.14" is 3.14; an integer reads back exactly);
      text that is not a number, null and a bool are unknown. */
  lemma ToFloatExamples(n: int)
    ensures ToFloat(NumText("3.14")) == Finite(3.14)
    ensures ToFloat(NumText(FormatInt(n))) == Finite(n as real)
    ensures ToFloat(NumText("not-a-number")).IsNaN()
    ensures ToFloat(Null).IsNaN() && ToFloat(Bool(true)).IsNaN() && ToFloat(Str("not a number")).IsNaN()
  {
    ParseFloatFormatInt(n);
    ParseFloatPointExample();
    ParseFloatWordExample();
  }

  // ---------------------------------------------------------------------------
  // The obs_st frame

  /** Why ParseObservation refused a frame. */
  datatype ParseError = TooShort(got: nat) | BadTimestamp(cause: TimestampError)

  /** ParseObservation: at least 18 slots and an integer timestamp in slot 0,
      or the whole frame fails; slots 1 to 17 go through toFloat one by one and
      later slots are ignored. */
  function ParseObservation(raw: seq<Json>): (r: Result<Observation, ParseError>)
    ensures |raw| < FieldCount ==> r == Err(TooShort(|raw|))
    ensures r.Ok? <==> |raw| >= FieldCount && ToInt64(raw[0]).Ok?
    ensures |raw| >= FieldCount && ToInt64(raw[0]).Err? ==> r == Err(BadTimestamp(ToInt64(raw[0]).error))
    ensures r.Ok? ==> ToInt64(raw[0]) == Ok(r.value.timestamp)
    ensures r.Ok? ==> forall i :: 1 <= i < FieldCount ==> r.value.Slot(i) == ToFloat(raw[i])
  {
    if |raw| < FieldCount then Err(TooShort(|raw|))
    else
      match ToInt64(raw[0])
      case Err(e) => Err(BadTimestamp(e))
      case Ok(ts) =>
        Ok(Observation(
          ts,
          ToFloat(raw[1]), ToFloat(raw[2]), ToFloat(raw[3]), ToFloat(raw[4]),
          ToFloat(raw[5]), ToFloat(raw[6]), ToFloat(raw[7]), ToFloat(raw[8]),
          ToFloat(raw[9]), ToFloat(raw[10]), ToFloat(raw[11]), ToFloat(raw[12]),
          ToFloat(raw[13]), ToFloat(raw[14]), ToFloat(raw[15]), ToFloat(raw[16]),
          ToFloat(raw[17])))
  }

  /** Two observations that agree on the timestamp and on every slot are equal. */
  lemma ObservationBySlots(a: Observation, b: Observation)
    requires a.timestamp == b.timestamp
    requires forall i :: 1 <= i < FieldCount ==> a.Slot(i) == b.Slot(i)
    ensures a == b
  {
    assert a.Slot(1) == b.Slot(1) && a.Slot(2) == b.Slot(2) && a.Slot(3) == b.Slot(3);
    assert a.Slot(4) == b.Slot(4) && a.Slot(5) == b.Slot(5) && a.Slot(6) == b.Slot(6);
    assert a.Slot(7) == b.Slot(7) && a.Slot(8) == b.Slot(8) && a.Slot(9) == b.Slot(9);
    assert a.Slot(10) == b.Slot(10) && a.Slot(11) == b.Slot(11) && a.Slot(12) == b.Slot(12);
    assert a.Slot(13) == b.Slot(13) && a.Slot(14) == b.Slot(14) && a.Slot(15) == b.Slot(15);
    assert a.Slot(16) == b.Slot(16) && a.Slot(17) == b.Slot(17);
  }

  /** The obs_st frame a station sends for an observation: the timestamp, then
      the seventeen fields in slot order. */
  function Frame(o: Observation): (raw: seq<Json>)
    ensures |raw| == FieldCount
    ensures forall i :: 1 <= i < FieldCount ==> raw[i] == Num(o.Slot(i))
  {
    [Num(Finite(o.timestamp as real)),
     Num(o.windLull), Num(o.windAvg), Num(o.windGust), Num(o.windDirection),
     Num(o.windSampleInterval), Num(o.stationPressure), Num(o.airTemperature),
     Num(o.relativeHumidity), Num(o.illuminance), Num(o.uv), Num(o.solarRadiation),
     Num(o.rainAccumulated), Num(o.precipitationType), Num(o.lightningStrikeAvgDist),
     Num(o.lightningStrikeCount), Num(o.battery), Num(o.reportInterval)]
  }

  /** Decoding a frame gives back every field exactly, unknown ones included,
      for any int64 timestamp. */
  lemma ParseFrame(o: Observation)
    requires MinInt64 <= o.timestamp <= MaxInt64
    ensures ParseObservation(Frame(o)) == Ok(o)
  {
    var raw := Frame(o);
    assert ToInt64(raw[0]) == Ok(o.timestamp);
    var r := ParseObservation(raw);
    ObservationBySlots(r.value, o);
  }

  /** One slot rewritten, null or of the wrong type included, changes that
      field alone; the frame still decodes. */
  lemma ParseObservationSlotLocal(raw: seq<Json>, k: nat, v: Json)
    requires ParseObservation(raw).Ok?
    requires 1 <= k < FieldCount
    ensures ParseObservation(raw[k := v]).Ok?
    ensures ParseObservation(raw[k := v]).value.timestamp == ParseObservation(raw).value.timestamp
    ensures ParseObservation(raw[k := v]).value.Slot(k) == ToFloat(v)
    ensures forall i :: 1 <= i < FieldCount && i != k ==>
      ParseObservation(raw[k := v]).value.Slot(i) == ParseObservation(raw).value.Slot(i)
  {
  }

  /** Slots after the eighteenth are never read. */
  lemma ParseObservationIgnoresTail(raw: seq<Json>)
    requires |raw| >= FieldCount
    ensures ParseObservation(raw) == ParseObservation(raw[..FieldCount])
  {
  }

  // ---------------------------------------------------------------------------
  // Token redaction

  const Redacted: string := "[REDACTED]"

  /** t occurs in s starting at index i. */
  predicate OccursAt(t: string, s: string, i: int)
  {
    0 <= i && i + |t| <= |s| && s[i..i + |t|] == t
  }

  /** t occurs somewhere in s. */
  predicate Occurs(t: string, s: string)
  {
    exists i :: 0 <= i <= |s| && OccursAt(t, s, i)
  }

  /** Occurrences in a suffix are occurrences in the whole, shifted by one. */
  lemma OccursAtTail(t: string, s: string, j: int)
    requires |s| > 0 && 0 <= j
    ensures OccursAt(t, s[1..], j) <==> OccursAt(t, s, j + 1)
  {
    if j + |t| <= |s| - 1 {
      assert s[1..][j..j + |t|] == s[j + 1..j + 1 + |t|];
    }
  }

  /** Occurrences in the part after a prefix p are occurrences in p + q. */
  lemma OccursAtAfter(t: string, p: string, q: string, j: int)
    requires 0 <= j
    ensures OccursAt(t, q, j) <==> OccursAt(t, p + q, |p| + j)
  {
    if j + |t| <= |q| {
      assert (p + q)[|p| + j..|p| + j + |t|] == q[j..j + |t|];
    }
  }

  /** strings.ReplaceAll with a non-empty pattern: the leftmost occurrence is
      replaced, scanning resumes after it, and other text is copied. */
  function ReplaceAll(s: string, pattern: string, replacement: string): string
    requires pattern != []
    decreases |s|
  {
    if |s| < |pattern| then s
    else if s[..|pattern|] == pattern then replacement + ReplaceAll(s[|pattern|..], pattern, replacement)
    else [s[0]] + ReplaceAll(s[1..], pattern, replacement)
  }

  /** A token the placeholder itself cannot spell out: it holds no bracket and
      does not occur inside "REDACTED". */
  predicate SafeToken(token: string)
  {
    token != [] && '[' !in token && ']' !in token && !Occurs(token, "REDACTED")
  }

  /** redactToken: the identity for an empty token, otherwise every
      occurrence replaced by "[REDACTED]"; a safe token never survives it. */
  function RedactToken(s: string, token: string): (r: string)
    ensures token == [] ==> r == s
    ensures !Occurs(token, s) ==> r == s
    ensures SafeToken(token) ==> !Occurs(token, r)
  {
    if token == [] then s
    else
      ReplaceAllAbsent(s, token, Redacted);
      if SafeToken(token) then ReplaceAllNoLeak(s, token); ReplaceAll(s, token, Redacted)
      else ReplaceAll(s, token, Redacted)
  }

  /** One step of the scan past a position where the pattern does not start. */
  lemma ReplaceAllSkip(s: string, pattern: string, replacement: string)
    requires pattern != [] && |s| >= |pattern| && !OccursAt(pattern, s, 0)
    ensures ReplaceAll(s, pattern, replacement) == [s[0]] + ReplaceAll(s[1..], pattern, replacement)
  {
    assert s[..|pattern|] == s[0..|pattern|];
  }

  /** Text without the pattern is left as it is. */
  lemma {:induction false} ReplaceAllAbsent(s: string, pattern: string, replacement: string)
    requires pattern != []
    ensures !Occurs(pattern, s) ==> ReplaceAll(s, pattern, replacement) == s
    decreases |s|
  {
    if !Occurs(pattern, s) && |s| >= |pattern| {
      assert !OccursAt(pattern, s, 0);
      ReplaceAllSkip(s, pattern, replacement);
      if Occurs(pattern, s[1..]) {
        var j :| 0 <= j <= |s[1..]| && OccursAt(pattern, s[1..], j);
        OccursAtTail(pattern, s, j);
        assert false;
      }
      ReplaceAllAbsent(s[1..], pattern, replacement);
      assert s == [s[0]] + s[1..];
    }
  }

  /** The leftmost occurrence is replaced and the text before it is kept:
      the first replacement happens exactly where the pattern first occurs. */
  lemma {:induction false} ReplaceAllFirst(s: string, pattern: string, replacement: string, i: nat)
    requires pattern != []
    requires OccursAt(pattern, s, i)
    requires forall j :: 0 <= j < i ==> !OccursAt(pattern, s, j)
    ensures ReplaceAll(s, pattern, replacement)
         == s[..i] + replacement + ReplaceAll(s[i + |pattern|..], pattern, replacement)
    decreases i
  {
    if i == 0 {
      ReplaceAllAtStart(s, pattern, replacement);
    } else {
      ReplaceAllSkip(s, pattern, replacement);
      FirstInTail(s, pattern, i);
      var tail := s[1..];
      var k: nat := i - 1;
      ReplaceAllFirst(tail, pattern, replacement, k);
      var after := s[i + |pattern|..];
      assert tail[k + |pattern|..] == after;
      Reassemble(s, tail, i, ReplaceAll(s, pattern, replacement), ReplaceAll(tail, pattern, replacement),
        replacement, ReplaceAll(after, pattern, replacement));
    }
  }

  /** The scan starting on the pattern replaces it first. */
  lemma ReplaceAllAtStart(s: string, pattern: string, replacement: string)
    requires pattern != [] && OccursAt(pattern, s, 0)
    ensures ReplaceAll(s, pattern, replacement)
         == s[..0] + replacement + ReplaceAll(s[|pattern|..], pattern, replacement)
  {
    assert s[..|pattern|] == pattern;
    assert s[..0] + replacement == replacement;
  }

  /** Moving the scan one character on keeps the first occurrence first. */
  lemma FirstInTail(s: string, pattern: string, i: nat)
    requires 0 < i && OccursAt(pattern, s, i)
    requires forall j :: 0 <= j < i ==> !OccursAt(pattern, s, j)
    ensures OccursAt(pattern, s[1..], i - 1)
    ensures forall j :: 0 <= j < i - 1 ==> !OccursAt(pattern, s[1..], j)
  {
    forall j | 0 <= j < i - 1
      ensures !OccursAt(pattern, s[1..], j)
    {
      OccursAtTail(pattern, s, j);
    }
    OccursAtTail(pattern, s, i - 1);
  }

  /** Reassembles the result of ReplaceAllFirst from the tail's. */
  lemma Reassemble(s: string, tail: string, i: nat, whole: string, part: string, replacement: string, rest: string)
    requires 0 < i <= |s| && tail == s[1..]
    requires whole == [s[0]] + part
    requires part == tail[..i - 1] + replacement + rest
    ensures whole == s[..i] + replacement + rest
  {
    assert s[..i] == [s[0]] + tail[..i - 1];
    SeqAssoc3([s[0]], tail[..i - 1], replacement, rest);
  }

  lemma SeqAssoc3(a: string, b: string, c: string, d: string)
    ensures a + (b + c + d) == (a + b) + c + d
  {
  }

  /** Unless a '[' shows up, the first k characters of a redacted string
      are copied from the input unchanged: every replacement starts with '['. */
  lemma {:induction false} RedactedPrefixCopied(s: string, token: string, k: nat)
    requires token != []
    requires k <= |ReplaceAll(s, token, Redacted)|
    ensures '[' in ReplaceAll(s, token, Redacted)[..k]
         || (k <= |s| && ReplaceAll(s, token, Redacted)[..k] == s[..k])
    decreases |s|
  {
    var r := ReplaceAll(s, token, Redacted);
    if k > 0 && |s| >= |token| {
      if s[..|token|] == token {
        assert r[..k][0] == '[';
      } else {
        var rest := ReplaceAll(s[1..], token, Redacted);
        assert r == [s[0]] + rest;
        assert r[..k] == [s[0]] + rest[..k - 1];
        RedactedPrefixCopied(s[1..], token, k - 1);
        if '[' !in rest[..k - 1] {
          assert s[..k] == [s[0]] + s[1..][..k - 1];
        }
      }
    }
  }

  /** Where an occurrence in the placeholder followed by other text can lie:
      in the text, or overlapping the placeholder, in which case the token
      starts with '[', lies inside "REDACTED" or holds the closing ']'. */
  lemma PlaceholderOccurrence(token: string, rest: string, i: nat)
    requires token != [] && OccursAt(token, Redacted + rest, i)
    ensures (i >= |Redacted| && OccursAt(token, rest, i - |Redacted|))
         || '[' in token || ']' in token || Occurs(token, "REDACTED")
  {
    var r := Redacted + rest;
    var n := |token|;
    assert r[i..i + n] == token;
    if i >= |Redacted| {
      OccursAtAfter(token, Redacted, rest, i - |Redacted|);
    } else if i == 0 {
      assert token[0] == '[';
    } else if i + n <= |Redacted| - 1 {
      assert r[i..i + n] == "REDACTED"[i - 1..i - 1 + n];
      assert OccursAt(token, "REDACTED", i - 1);
    } else {
      assert token[|Redacted| - 1 - i] == ']';
    }
  }

  /** The placeholder followed by text free of a safe token is free of it. */
  lemma NoLeakAfterPlaceholder(token: string, rest: string)
    requires SafeToken(token) && !Occurs(token, rest)
    ensures !Occurs(token, Redacted + rest)
  {
    forall i | 0 <= i <= |Redacted + rest| && OccursAt(token, Redacted + rest, i)
      ensures false
    {
      PlaceholderOccurrence(token, rest, i);
    }
  }

  /** A character that does not start the token, followed by the redaction of
      the rest, is free of a safe token. */
  lemma NoLeakAfterChar(s: string, token: string)
    requires SafeToken(token) && |s| >= |token| && !OccursAt(token, s, 0)
    requires !Occurs(token, ReplaceAll(s[1..], token, Redacted))
    ensures !Occurs(token, ReplaceAll(s, token, Redacted))
  {
    var r := ReplaceAll(s, token, Redacted);
    var rest := ReplaceAll(s[1..], token, Redacted);
    var n := |token|;
    ReplaceAllSkip(s, token, Redacted);
    forall i | 0 <= i <= |r| && OccursAt(token, r, i)
      ensures false
    {
      if i > 0 {
        OccursAtAfter(token, [s[0]], rest, i - 1);
      } else {
        assert r[..n] == token;
        RedactedPrefixCopied(s, token, n);
      }
    }
  }

  /** The no-leak property: once redacted, a safe token occurs nowhere. */
  lemma {:induction false} ReplaceAllNoLeak(s: string, token: string)
    requires SafeToken(token)
    ensures !Occurs(token, ReplaceAll(s, token, Redacted))
    decreases |s|
  {
    var n := |token|;
    if |s| < n {
      assert forall i :: !OccursAt(token, s, i);
    } else if s[..n] == token {
      ReplaceAllNoLeak(s[n..], token);
      NoLeakAfterPlaceholder(token, ReplaceAll(s[n..], token, Redacted));
    } else {
      assert s[0..n] == s[..n];
      ReplaceAllNoLeak(s[1..], token);
      NoLeakAfterChar(s, token);
    }
  }

  /** A message carrying the token once, as a dial error quotes the URL:
      that occurrence becomes "[REDACTED]" and the text around it is kept. */
  lemma RedactSingleOccurrence(p: string, token: string, q: string)
    requires token != []
    requires forall j :: 0 <= j < |p| ==> !OccursAt(token, p + token + q, j)
    requires !Occurs(token, q)
    ensures RedactToken(p + token + q, token) == p + Redacted + q
  {
    var s := p + token + q;
    assert s[|p|..|p| + |token|] == token;
    ReplaceAllFirst(s, token, Redacted, |p|);
    assert s[..|p|] == p;
    assert s[|p| + |token|..] == q;
    ReplaceAllAbsent(q, token, Redacted);
  }

  // ---------------------------------------------------------------------------
  // Derived metrics

  /** The transcendental formulas, left uninterpreted: the Magnus dew point
      (temperature, humidity), which needs a logarithm, and the Environment
      Canada wind chill (temperature, wind in km/h), which needs a power. */
  datatype Formulas = Formulas(magnus: (Float, Float) -> Float, windChill: (Float, Float) -> Float)

  /** DewPoint: unknown when either input is unknown or the humidity is not
      positive, otherwise the Magnus formula. */
  function DewPoint(tempC: Float, humidityPct: Float, f: Formulas): (d: Float)
    ensures tempC.IsNaN() || humidityPct.IsNaN() || humidityPct.AtMost(0.0) ==> d.IsNaN()
    ensures !tempC.IsNaN() && !humidityPct.IsNaN() && !humidityPct.AtMost(0.0) ==>
      d == f.magnus(tempC, humidityPct)
  {
    if tempC.IsNaN() || humidityPct.IsNaN() || humidityPct.AtMost(0.0) then NaN
    else f.magnus(tempC, humidityPct)
  }

  /** Wind chill tier: below 10 °C with more than 4.8 km/h of wind. */
  predicate WindChillApplies(tempC: Float, windMps: Float)
  {
    tempC.Below(10.0) && windMps.Times(3.6).Above(4.8)
  }

  /** Heat index tier: at least 27 °C and at least 40 % humidity. */
  predicate HeatIndexApplies(tempC: Float, humidityPct: Float)
  {
    tempC.AtLeast(27.0) && humidityPct.AtLeast(40.0)
  }

  /** The Rothfusz/NOAA regression in °F, converted back to °C. An infinite
      input makes two of its terms infinities of opposite sign, hence NaN. */
  function HeatIndex(tempC: Float, humidityPct: Float): (h: Float)
    ensures h.IsNaN() <==> !(tempC.Finite? && humidityPct.Finite?)
  {
    if tempC.Finite? && humidityPct.Finite? then
      var tf := tempC.r * 1.8 + 32.0;
      var rh := humidityPct.r;
      var hi := -42.379
        + 2.04901523 * tf
        + 10.14333127 * rh
        - 0.22475541 * tf * rh
        - 0.00683783 * tf * tf
        - 0.05481717 * rh * rh
        + 0.00122874 * tf * tf * rh
        + 0.00085282 * tf * rh * rh
        - 0.00000199 * tf * tf * rh * rh;
      Finite((hi - 32.0) / 1.8)
    else NaN
  }

  /** FeelsLike: unknown for an unknown temperature; wind chill when its tier
      applies, else heat index when its tier applies, else the temperature. */
  function FeelsLike(tempC: Float, humidityPct: Float, windMps: Float, f: Formulas): (r: Float)
    ensures tempC.IsNaN() ==> r.IsNaN()
    ensures !tempC.IsNaN() && WindChillApplies(tempC, windMps) ==>
      r == f.windChill(tempC, windMps.Times(3.6))
    ensures !tempC.IsNaN() && !WindChillApplies(tempC, windMps) && HeatIndexApplies(tempC, humidityPct) ==>
      r == HeatIndex(tempC, humidityPct)
    ensures !WindChillApplies(tempC, windMps) && !HeatIndexApplies(tempC, humidityPct) ==> r == tempC
  {
    if tempC.IsNaN() then NaN
    else
      var windKmh := windMps.Times(3.6);
      if tempC.Below(10.0) && windKmh.Above(4.8) then f.windChill(tempC, windKmh)
      else if tempC.AtLeast(27.0) && humidityPct.AtLeast(40.0) then HeatIndex(tempC, humidityPct)
      else tempC
  }

  /** Mild conditions (20 °C, 50 %, 2 m/s) feel like the air temperature;
      5 °C with 5.56 m/s of wind is in the wind chill tier; 35 °C at 60 %
      feels hotter than the air. */
  lemma FeelsLikeExamples(f: Formulas)
    ensures FeelsLike(Finite(20.0), Finite(50.0), Finite(2.0), f) == Finite(20.0)
    ensures FeelsLike(Finite(5.0), Finite(50.0), Finite(5.56), f) == f.windChill(Finite(5.0), Finite(20.016))
    ensures FeelsLike(Finite(35.0), Finite(60.0), Finite(1.0), f).Above(35.0)
  {
  }
}
