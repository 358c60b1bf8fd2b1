/** The REST fallback of rest.go: the station observation request and its
    error texts, the conversion of the nullable REST fields into an
    Observation, and the poll loop that takes over while the WebSocket has
    been down for longer than a threshold. */
module Rest {
  import opened Wrappers
  import opened Decimal
  import opened Tempest
  import opened Metrics

  /** The REST API the client talks to unless told otherwise. */
  const DefaultBaseUrl: string := "https://swd.weatherflow.com/swd/rest"

  /** The JSON decoder never reads more of a body than this (1 MiB). */
  const MaxResponseBytes: nat := 0x10_0000

  /** How much of a non-200 body goes into the error text. */
  const StatusExcerptBytes: nat := 512

  const StatusOK: int := 200

  // ---------------------------------------------------------------------------
  // The REST observation

  /** restObs: every field of the REST observation is nullable; a value that
      JSON carries is always a finite number. */
  datatype RestObs = RestObs(
    timestamp: Option<real>,
    windLull: Option<real>,
    windAvg: Option<real>,
    windGust: Option<real>,
    windDirection: Option<real>,
    stationPressure: Option<real>,
    airTemperature: Option<real>,
    relativeHumidity: Option<real>,
    illuminance: Option<real>,
    uv: Option<real>,
    solarRadiation: Option<real>,
    rainAccumulated: Option<real>,
    precipitationType: Option<real>,
    lightningStrikeAvgDist: Option<real>,
    lightningStrikeCount: Option<real>,
    battery: Option<real>,
    reportInterval: Option<real>)
  {
    /** The payload field that feeds obs_st slot i of an Observation. The
        REST payload has no wind sample interval, so slot 5 is always absent. */
    function Slot(i: nat): Option<real>
      requires 1 <= i < FieldCount
    {
      match i
      case 1 => windLull
      case 2 => windAvg
      case 3 => windGust
      case 4 => windDirection
      case 5 => None
      case 6 => stationPressure
      case 7 => airTemperature
      case 8 => relativeHumidity
      case 9 => illuminance
      case 10 => uv
      case 11 => solarRadiation
      case 12 => rainAccumulated
      case 13 => precipitationType
      case 14 => lightningStrikeAvgDist
      case 15 => lightningStrikeCount
      case 16 => battery
      case _ => reportInterval
    }
  }

  /** deref: a null field reads as 0. */
  function Deref(p: Option<real>): (f: Float)
    ensures f.Finite?
    ensures p.None? ==> f.r == 0.0
    ensures p.Some? ==> f.r == p.value
  {
    match p
    case None => Finite(0.0)
    case Some(x) => Finite(x)
  }

  /** The timestamp rule of restObsToObservation: a present value inside
      [0, float64(MaxInt64)] is truncated to an integer; anything else leaves
      the timestamp at 0. */
  function RestTimestamp(ts: Option<real>): (n: int)
    ensures n >= 0
    ensures ts.Some? && 0.0 <= ts.value <= Int64Limit ==> n as real <= ts.value < n as real + 1.0
    ensures !(ts.Some? && 0.0 <= ts.value <= Int64Limit) ==> n == 0
  {
    if ts.Some? && 0.0 <= ts.value <= Int64Limit then Truncate(ts.value) else 0
  }

  /** restObsToObservation: field by field, each value field its own payload
      value when present and 0 when null or absent, whatever the other fields
      hold; no wind sample interval (the REST payload has none). */
  function RestObsToObservation(ro: RestObs): (o: Observation)
    ensures forall i :: 1 <= i < FieldCount ==>
      (ro.Slot(i).None? ==> o.Slot(i) == Finite(0.0)) &&
      (ro.Slot(i).Some? ==> o.Slot(i) == Finite(ro.Slot(i).value))
    ensures o.windSampleInterval == Finite(0.0)
    ensures o.timestamp == RestTimestamp(ro.timestamp) && o.timestamp >= 0
  {
    Observation(
      RestTimestamp(ro.timestamp),
      Deref(ro.windLull), Deref(ro.windAvg), Deref(ro.windGust), Deref(ro.windDirection),
      Finite(0.0),
      Deref(ro.stationPressure), Deref(ro.airTemperature), Deref(ro.relativeHumidity),
      Deref(ro.illuminance), Deref(ro.uv), Deref(ro.solarRadiation), Deref(ro.rainAccumulated),
      Deref(ro.precipitationType), Deref(ro.lightningStrikeAvgDist), Deref(ro.lightningStrikeCount),
      Deref(ro.battery), Deref(ro.reportInterval))
  }

  /** A finite value as the REST API would send it. */
  function Value(f: Float): real
  {
    if f.Finite? then f.r else 0.0
  }

  /** The REST payload that carries an observation: every field present. */
  function ObservationToRestObs(o: Observation): RestObs
  {
    RestObs(
      Some(o.timestamp as real),
      Some(Value(o.windLull)), Some(Value(o.windAvg)), Some(Value(o.windGust)),
      Some(Value(o.windDirection)), Some(Value(o.stationPressure)), Some(Value(o.airTemperature)),
      Some(Value(o.relativeHumidity)), Some(Value(o.illuminance)), Some(Value(o.uv)),
      Some(Value(o.solarRadiation)), Some(Value(o.rainAccumulated)), Some(Value(o.precipitationType)),
      Some(Value(o.lightningStrikeAvgDist)), Some(Value(o.lightningStrikeCount)),
      Some(Value(o.battery)), Some(Value(o.reportInterval)))
  }

  /** The observations the REST path can deliver: every value finite, no
      wind sample interval, and a timestamp in [0, MaxInt64]. */
  predicate RestRepresentable(o: Observation)
  {
    0 <= o.timestamp <= MaxInt64 && o.windSampleInterval == Finite(0.0) &&
    o.windLull.Finite? && o.windAvg.Finite? && o.windGust.Finite? && o.windDirection.Finite? &&
    o.stationPressure.Finite? && o.airTemperature.Finite? && o.relativeHumidity.Finite? &&
    o.illuminance.Finite? && o.uv.Finite? && o.solarRadiation.Finite? && o.rainAccumulated.Finite? &&
    o.precipitationType.Finite? && o.lightningStrikeAvgDist.Finite? &&
    o.lightningStrikeCount.Finite? && o.battery.Finite? && o.reportInterval.Finite?
  }

  /** A payload with every field present and an integral timestamp in range. */
  predicate Complete(ro: RestObs)
  {
    ro.timestamp.Some? && ro.timestamp.value.Floor as real == ro.timestamp.value &&
    0 <= ro.timestamp.value.Floor <= MaxInt64 &&
    ro.windLull.Some? && ro.windAvg.Some? && ro.windGust.Some? && ro.windDirection.Some? &&
    ro.stationPressure.Some? && ro.airTemperature.Some? && ro.relativeHumidity.Some? &&
    ro.illuminance.Some? && ro.uv.Some? && ro.solarRadiation.Some? && ro.rainAccumulated.Some? &&
    ro.precipitationType.Some? && ro.lightningStrikeAvgDist.Some? &&
    ro.lightningStrikeCount.Some? && ro.battery.Some? && ro.reportInterval.Some?
  }

  /** An integral timestamp in range comes through unchanged. */
  lemma RestTimestampExact(n: int)
    requires 0 <= n <= MaxInt64
    ensures RestTimestamp(Some(n as real)) == n
  {
    var m := RestTimestamp(Some(n as real));
    assert m as real <= n as real < m as real + 1.0;
  }

  /** Every representable observation survives the REST encoding. */
  lemma RestRoundTrip(o: Observation)
    requires RestRepresentable(o)
    ensures RestObsToObservation(ObservationToRestObs(o)) == o
  {
    RestTimestampExact(o.timestamp);
  }

  /** Every complete payload is what its observation encodes to, and the
      observation is representable. */
  lemma RestRoundTripPayload(ro: RestObs)
    requires Complete(ro)
    ensures RestRepresentable(RestObsToObservation(ro))
    ensures ObservationToRestObs(RestObsToObservation(ro)) == ro
  {
    var n := ro.timestamp.value.Floor;
    assert ro.timestamp == Some(n as real);
    RestTimestampExact(n);
  }

  /** A payload of nulls is Go's zero Observation. */
  lemma NullPayloadIsZero()
    ensures RestObsToObservation(RestObs(None, None, None, None, None, None, None, None, None,
      None, None, None, None, None, None, None, None)) == ZeroObservation
  {
  }

  /** The payload of the null-fields test: present values come through,
      the null temperature-side fields read as 0, whatever the rest holds. */
  lemma NullFieldsPayload(ro: RestObs)
    requires ro.timestamp == Some(1700000000.0) && ro.airTemperature == Some(22.5)
    requires ro.relativeHumidity.None? && ro.windAvg.None? && ro.battery == Some(2.65)
    ensures var o := RestObsToObservation(ro);
      o.timestamp == 1700000000 && o.airTemperature == Finite(22.5) &&
      o.relativeHumidity == Finite(0.0) && o.windAvg == Finite(0.0) && o.battery == Finite(2.65)
  {
    RestTimestampExact(1700000000);
  }

  /** A negative or too large timestamp is dropped and reads as 0. */
  lemma TimestampOutOfRangeIsZero(ro: RestObs)
    requires ro.timestamp.Some? && (ro.timestamp.value < 0.0 || ro.timestamp.value > Int64Limit)
    ensures RestObsToObservation(ro).timestamp == 0
  {
  }

  // ---------------------------------------------------------------------------
  // Quoting, as fmt's %q prints the URL inside a url.Error

  /** A byte url.Parse refuses in the part of a URL it parses: below space,
      or DEL. */
  predicate IsControl(c: char) { c < ' ' || c == 127 as char }

  predicate HasControlByte(s: string)
  {
    exists i :: 0 <= i < |s| && IsControl(s[i])
  }

  /** Printable ASCII other than the quote and the backslash: %q copies it. */
  predicate PlainChar(c: char) { ' ' <= c <= '~' && c != '"' && c != '\\' }

  predicate Plain(s: string)
  {
    forall i :: 0 <= i < |s| ==> PlainChar(s[i])
  }

  function HexDigit(d: nat): char
    requires d < 16
  {
    if d < 10 then ('0' as int + d) as char else ('a' as int + d - 10) as char
  }

  /** strconv.Quote for one character: the named escapes, \xNN for the other
      control bytes, a backslash before the quote and the backslash. */
  function QuoteChar(c: char): (q: string)
    ensures PlainChar(c) ==> q == [c]
    ensures c == '"' || c == '\\' || IsControl(c) ==> |q| >= 2 && q[0] == '\\'
  {
    if c == '"' then "\\\""
    else if c == '\\' then "\\\\"
    else if c == 7 as char then "\\a"
    else if c == 8 as char then "\\b"
    else if c == 12 as char then "\\f"
    else if c == '\n' then "\\n"
    else if c == '\r' then "\\r"
    else if c == '\t' then "\\t"
    else if c == 11 as char then "\\v"
    else if IsControl(c) then ['\\', 'x', HexDigit(c as int / 16), HexDigit(c as int % 16)]
    else [c]
  }

  function QuoteBody(s: string): string
  {
    if s == [] then [] else QuoteChar(s[0]) + QuoteBody(s[1..])
  }

  /** strconv.Quote: the escaped text between double quotes. */
  function Quote(s: string): (q: string)
    ensures |q| >= 2 && q[0] == '"' && q[|q| - 1] == '"'
  {
    "\"" + QuoteBody(s) + "\""
  }

  lemma {:induction false} QuoteBodyAppend(a: string, b: string)
    ensures QuoteBody(a + b) == QuoteBody(a) + QuoteBody(b)
    decreases |a|
  {
    if a == [] {
      assert a + b == b;
    } else {
      assert (a + b)[0] == a[0];
      assert (a + b)[1..] == a[1..] + b;
      QuoteBodyAppend(a[1..], b);
    }
  }

  /** Quoting leaves plain text as it is. */
  lemma {:induction false} QuoteBodyPlain(s: string)
    requires Plain(s)
    ensures QuoteBody(s) == s
    decreases |s|
  {
    if s != [] {
      assert PlainChar(s[0]);
      QuoteBodyPlain(s[1..]);
      assert [s[0]] + s[1..] == s;
    }
  }

  // ---------------------------------------------------------------------------
  // FetchObservation

  /** Where the client asks: base URL, station and API token. */
  datatype Endpoint = Endpoint(baseUrl: string, stationId: string, token: string)

  /** The request URL; the token rides in the query string. */
  function RequestUrl(e: Endpoint): (url: string)
    ensures |url| >= |e.token| && url[|url| - |e.token|..] == e.token
  {
    e.baseUrl + "/observations/station/" + e.stationId + "?token=" + e.token
  }

  /** The part of a URL that url.Parse parses: everything before the first
      '#'. The fragment after it is only unescaped, never checked for
      control bytes, and is not quoted in a parse error. */
  function BeforeFragment(s: string): (p: string)
    ensures p <= s && '#' !in p
    ensures p == s || s[|p|] == '#'
  {
    if s == [] || s[0] == '#' then [] else [s[0]] + BeforeFragment(s[1..])
  }

  /** Text without '#' is all parsed. */
  lemma {:induction false} BeforeFragmentWhole(s: string)
    requires '#' !in s
    ensures BeforeFragment(s) == s
  {
    if s != [] {
      assert s == [s[0]] + s[1..];
      BeforeFragmentWhole(s[1..]);
    }
  }

  /** A '#'-free head is parsed in full and the cut happens in the tail. */
  lemma {:induction false} BeforeFragmentAppend(a: string, b: string)
    requires '#' !in a
    ensures BeforeFragment(a + b) == a + BeforeFragment(b)
  {
    if a != [] {
      var t, u := a[1..], a + b;
      assert a == [a[0]] + t;
      assert u[0] == a[0] != '#' && u[1..] == t + b;
      assert BeforeFragment(u) == [a[0]] + BeforeFragment(t + b);
      BeforeFragmentAppend(t, b);
      assert [a[0]] + (t + BeforeFragment(b)) == a + BeforeFragment(b);
    } else {
      assert a + b == b;
    }
  }

  lemma NoHashAppend(a: string, b: string)
    requires '#' !in a && '#' !in b
    ensures '#' !in a + b
  {
  }

  /** A control byte before the fragment is a control byte of the URL. */
  lemma ControlBeforeFragment(s: string)
    ensures HasControlByte(BeforeFragment(s)) ==> HasControlByte(s)
  {
    var p := BeforeFragment(s);
    if HasControlByte(p) {
      var i :| 0 <= i < |p| && IsControl(p[i]);
      assert s[i] == p[i];
    }
  }

  /** http.NewRequestWithContext fails on this endpoint: url.Parse finds a
      control byte before the first '#' of the URL. */
  predicate CreationFails(e: Endpoint)
  {
    HasControlByte(BeforeFragment(RequestUrl(e)))
  }

  /** The text of the url.Error that http.NewRequestWithContext returns when
      the parsed part of a URL holds a control byte: the operation, that
      part quoted, the cause. */
  function ParseErrorText(url: string): string
  {
    "parse " + Quote(url) + ": net/url: invalid control character in URL"
  }

  /** What one HTTP round trip gave: a client error (its text may quote the
      URL), or a status and a body. */
  datatype Exchange = TransportFailed(text: string) | Response(status: int, body: string)

  /** encoding/json reading the obs list of a response body, or its error text. */
  type Decoder = string -> Result<seq<RestObs>, string>

  /** FetchObservation's errors; Message gives the text Go prints. */
  datatype FetchError =
    | CreatingRequest(cause: string)
    | Fetching(cause: string)
    | UnexpectedStatus(status: int, excerpt: string)
    | Decoding(cause: string)
    | NoObservations
  {
    function Message(): string
    {
      match this
      case CreatingRequest(c) => "creating request: " + c
      case Fetching(c) => "fetching observations: " + c
      case UnexpectedStatus(s, b) => "unexpected status " + FormatInt(s) + ": " + b
      case Decoding(c) => "decoding response: " + c
      case NoObservations => "no observations in response"
    }
  }

  /** The first n bytes of s, or all of it. */
  function Prefix(s: string, n: nat): (p: string)
    ensures |p| <= n && p <= s
    ensures |s| <= n ==> p == s
  {
    if |s| <= n then s else s[..n]
  }

  /** The request-creation error as rest.go returns it: unredacted. */
  function CreationErrorAsWritten(e: Endpoint): (r: Option<string>)
    ensures r.Some? <==> CreationFails(e)
    ensures r.Some? ==> r.value == ParseErrorText(BeforeFragment(RequestUrl(e)))
  {
    if CreationFails(e) then Some(ParseErrorText(BeforeFragment(RequestUrl(e)))) else None
  }

  /** The request-creation error with the token redacted, as the transport
      error already is. */
  function CreationError(e: Endpoint): (r: Option<string>)
    ensures r.Some? <==> CreationFails(e)
    ensures r.Some? && SafeToken(e.token) ==> !Occurs(e.token, r.value)
  {
    match CreationErrorAsWritten(e)
    case None => None
    case Some(t) => Some(RedactToken(t, e.token))
  }

  /** FetchObservation: build the request, send it, insist on 200, decode at
      most 1 MiB of the body, and convert the first observation. */
  function FetchObservation(e: Endpoint, ex: Exchange, decode: Decoder): (r: Result<Observation, FetchError>)
    ensures r.Ok? <==>
      !CreationFails(e) && ex.Response? && ex.status == StatusOK &&
      decode(Prefix(ex.body, MaxResponseBytes)).Ok? && |decode(Prefix(ex.body, MaxResponseBytes)).value| > 0
    ensures r.Ok? ==> r.value == RestObsToObservation(decode(Prefix(ex.body, MaxResponseBytes)).value[0])
    ensures r.Err? && r.error.CreatingRequest? <==> CreationFails(e)
    ensures r.Err? && r.error.UnexpectedStatus? ==>
      ex.Response? && r.error.status == ex.status != StatusOK &&
      |r.error.excerpt| <= StatusExcerptBytes && r.error.excerpt <= ex.body
    ensures r.Err? && (r.error.CreatingRequest? || r.error.Fetching?) && SafeToken(e.token) ==>
      !Occurs(e.token, r.error.cause)
  {
    match CreationError(e)
    case Some(t) => Err(CreatingRequest(t))
    case None =>
      match ex
      case TransportFailed(text) => Err(Fetching(RedactToken(text, e.token)))
      case Response(status, body) =>
        if status != StatusOK then Err(UnexpectedStatus(status, Prefix(body, StatusExcerptBytes)))
        else
          match decode(Prefix(body, MaxResponseBytes))
          case Err(text) => Err(Decoding(text))
          case Ok(obs) => if |obs| == 0 then Err(NoObservations) else Ok(RestObsToObservation(obs[0]))
  }

  /** FetchObservation exactly as rest.go writes it: the creation error keeps
      the URL, and so the token, in the clear. */
  function FetchObservationAsWritten(e: Endpoint, ex: Exchange, decode: Decoder): (r: Result<Observation, FetchError>)
    ensures !CreationFails(e) ==> r == FetchObservation(e, ex, decode)
  {
    match CreationErrorAsWritten(e)
    case Some(t) => Err(CreatingRequest(t))
    case None => FetchObservation(e, ex, decode)
  }

  /** A control byte in the station id, with no '#' before it, reaches the
      parsed part of the URL. */
  lemma ControlByteInUrl(e: Endpoint, i: nat)
    requires i < |e.stationId| && IsControl(e.stationId[i])
    requires '#' !in e.baseUrl && '#' !in e.stationId[..i]
    ensures CreationFails(e)
  {
    var pre := e.baseUrl + "/observations/station/" + e.stationId[..i];
    var tail := e.stationId[i..] + "?token=" + e.token;
    assert RequestUrl(e) == pre + tail by {
      assert e.stationId == e.stationId[..i] + e.stationId[i..];
    }
    NoHashAppend(e.baseUrl + "/observations/station/", e.stationId[..i]);
    BeforeFragmentAppend(pre, tail);
    assert tail[0] == e.stationId[i] != '#';
    assert BeforeFragment(tail)[0] == e.stationId[i];
    assert BeforeFragment(RequestUrl(e))[|pre|] == e.stationId[i];
  }

  /** The quoted URL of a parse error spells out a plain token at its end. */
  lemma {:induction false} ParseErrorTextHolds(head: string, token: string)
    requires Plain(token)
    ensures Occurs(token, ParseErrorText(head + token))
  {
    QuoteBodyAppend(head, token);
    QuoteBodyPlain(token);
    var op, q, cause := "parse ", "\"", ": net/url: invalid control character in URL";
    var x := op + q + QuoteBody(head);
    var text := ParseErrorText(head + token);
    assert text == op + (q + (QuoteBody(head) + token) + q) + cause;
    Regroup(op, q, QuoteBody(head), token, cause);
    assert text[|x|..|x| + |token|] == token;
    assert OccursAt(token, text, |x|);
  }

  lemma Regroup(op: string, q: string, a: string, b: string, c: string)
    ensures op + (q + (a + b) + q) + c == (op + q + a) + b + (q + c)
  {
  }

  /** The leak: with a control byte in the station id and no fragment in
      the URL, the error text of the code as written spells out a plain
      token. */
  lemma AsWrittenLeaksToken(e: Endpoint, ex: Exchange, decode: Decoder, i: nat)
    requires i < |e.stationId| && IsControl(e.stationId[i])
    requires '#' !in e.baseUrl && '#' !in e.stationId && '#' !in e.token
    requires Plain(e.token)
    ensures var r := FetchObservationAsWritten(e, ex, decode);
      r.Err? && r.error.CreatingRequest? && Occurs(e.token, r.error.cause)
  {
    assert e.stationId == e.stationId[..i] + e.stationId[i..];
    ControlByteInUrl(e, i);
    var path := e.baseUrl + "/observations/station/";
    NoHashAppend(path, e.stationId);
    var head := path + e.stationId + "?token=";
    NoHashAppend(path + e.stationId, "?token=");
    NoHashAppend(head, e.token);
    assert RequestUrl(e) == head + e.token;
    BeforeFragmentWhole(RequestUrl(e));
    ParseErrorTextHolds(head, e.token);
  }

  /** The corrected code on the same input: the request fails and the token
      is gone from the text. */
  lemma CorrectedHidesToken(e: Endpoint, ex: Exchange, decode: Decoder, i: nat)
    requires i < |e.stationId| && IsControl(e.stationId[i])
    requires '#' !in e.baseUrl && '#' !in e.stationId[..i]
    requires SafeToken(e.token)
    ensures var r := FetchObservation(e, ex, decode);
      r.Err? && r.error.CreatingRequest? && !Occurs(e.token, r.error.cause)
  {
    ControlByteInUrl(e, i);
  }

  /** The default base URL is plain and has no fragment. */
  lemma DefaultBaseUrlPlain()
    ensures Plain(DefaultBaseUrl) && '#' !in DefaultBaseUrl
  {
  }

  /** Station id "1\n" (a trailing newline) with token "abc", against any
      base URL without a '#', the default one included. */
  lemma LeakExample(base: string, ex: Exchange, decode: Decoder)
    requires '#' !in base
    ensures var e := Endpoint(base, "1\n", "abc");
      var r := FetchObservationAsWritten(e, ex, decode);
      r.Err? && r.error.CreatingRequest? && Occurs("abc", r.error.cause)
  {
    var e := Endpoint(base, "1\n", "abc");
    assert IsControl(e.stationId[1]);
    AsWrittenLeaksToken(e, ex, decode, 1);
  }

  /** Whatever follows a '#' in the station id lies in the fragment, control
      bytes included: with plain text before it, url.Parse accepts the URL
      and the request is built. */
  lemma FragmentInStationId(e: Endpoint, kept: string, dropped: string)
    requires Plain(e.baseUrl) && '#' !in e.baseUrl && Plain(kept) && '#' !in kept
    requires e.stationId == kept + "#" + dropped
    ensures !CreationFails(e)
  {
    var pre := e.baseUrl + "/observations/station/" + kept;
    NoHashAppend(e.baseUrl, "/observations/station/");
    NoHashAppend(e.baseUrl + "/observations/station/", kept);
    assert RequestUrl(e) == pre + ("#" + dropped + "?token=" + e.token);
    BeforeFragmentAppend(pre, "#" + dropped + "?token=" + e.token);
    assert BeforeFragment("#" + dropped + "?token=" + e.token) == [];
    assert BeforeFragment(RequestUrl(e)) == pre;
    PlainAppend(e.baseUrl, "/observations/station/");
    PlainAppend(e.baseUrl + "/observations/station/", kept);
  }

  /** Station id "1#\n": the newline lies in the fragment, so the request
      is built and the code as written behaves as the corrected code. */
  lemma FragmentControlAccepted(base: string, ex: Exchange, decode: Decoder)
    requires Plain(base) && '#' !in base
    ensures var e := Endpoint(base, "1#\n", "abc");
      !CreationFails(e) && FetchObservationAsWritten(e, ex, decode) == FetchObservation(e, ex, decode)
  {
    var e := Endpoint(base, "1#\n", "abc");
    assert e.stationId == "1" + "#" + "\n";
    FragmentInStationId(e, "1", "\n");
  }

  /** A '#' in the token starts the fragment: request creation fails, or
      not, exactly as for the token cut there, and its error is the same. */
  lemma TokenCutAtFragment(e: Endpoint, kept: string, dropped: string)
    requires '#' !in e.baseUrl && '#' !in e.stationId && '#' !in kept
    requires e.token == kept + "#" + dropped
    ensures CreationFails(e) == CreationFails(e.(token := kept))
    ensures CreationErrorAsWritten(e) == CreationErrorAsWritten(e.(token := kept))
  {
    var cut := e.(token := kept);
    var path := e.baseUrl + "/observations/station/";
    NoHashAppend(path, e.stationId);
    NoHashAppend(path + e.stationId, "?token=");
    NoHashAppend(path + e.stationId + "?token=", kept);
    var pre := RequestUrl(cut);
    assert RequestUrl(e) == pre + ("#" + dropped);
    BeforeFragmentWhole(pre);
    BeforeFragmentAppend(pre, "#" + dropped);
    assert BeforeFragment("#" + dropped) == [];
    assert BeforeFragment(RequestUrl(e)) == BeforeFragment(pre);
  }

  /** Station id "1\n" with token "a#b" fails with the error of token "a":
      the URL is quoted only up to "?token=a". */
  lemma FragmentCutsToken(base: string)
    requires '#' !in base
    ensures var e := Endpoint(base, "1\n", "a#b");
      CreationFails(e) && CreationErrorAsWritten(e) == CreationErrorAsWritten(e.(token := "a"))
  {
    var e := Endpoint(base, "1\n", "a#b");
    assert e.token == "a" + "#" + "b";
    TokenCutAtFragment(e, "a", "b");
    var cut := e.(token := "a");
    assert IsControl(cut.stationId[1]);
    assert cut.stationId[..1] == "1";
    ControlByteInUrl(cut, 1);
  }

  /** Plain text has no control byte. */
  lemma PlainHasNoControl(s: string)
    requires Plain(s)
    ensures !HasControlByte(s)
  {
  }

  lemma PlainAppend(a: string, b: string)
    requires Plain(a) && Plain(b)
    ensures Plain(a + b)
  {
    forall i | 0 <= i < |a + b|
      ensures PlainChar((a + b)[i])
    {
      if i < |a| { assert (a + b)[i] == a[i]; } else { assert (a + b)[i] == b[i - |a|]; }
    }
  }

  /** A URL made of plain parts can be requested. */
  lemma PlainUrl(e: Endpoint)
    requires Plain(e.baseUrl) && Plain(e.stationId) && Plain(e.token)
    ensures !HasControlByte(RequestUrl(e)) && !CreationFails(e)
  {
    ControlBeforeFragment(RequestUrl(e));
    PlainAppend(e.baseUrl, "/observations/station/");
    PlainAppend(e.baseUrl + "/observations/station/", e.stationId);
    PlainAppend(e.baseUrl + "/observations/station/" + e.stationId, "?token=");
    PlainAppend(e.baseUrl + "/observations/station/" + e.stationId + "?token=", e.token);
  }

  /** The fixture of the unit tests, as decoded. */
  const Fixture: RestObs := RestObs(
    Some(1700000000.0), Some(0.5), Some(1.2), Some(2.3), Some(180.0), Some(1013.25), Some(22.5),
    Some(65.0), Some(50000.0), Some(3.5), Some(300.0), Some(0.1), Some(1.0), Some(10.0), Some(2.0),
    Some(2.65), Some(60.0))

  /** A 200 whose body decodes to the fixture yields its values. */
  lemma FetchFixture(e: Endpoint, body: string, decode: Decoder)
    requires Plain(e.baseUrl) && Plain(e.stationId) && Plain(e.token)
    requires decode(Prefix(body, MaxResponseBytes)) == Ok([Fixture])
    ensures var r := FetchObservation(e, Response(StatusOK, body), decode);
      r.Ok? && r.value.timestamp == 1700000000 && r.value.airTemperature == Finite(22.5) &&
      r.value.battery == Finite(2.65) && r.value.stationPressure == Finite(1013.25)
  {
    PlainUrl(e);
    RestTimestampExact(1700000000);
  }

  /** A 401 is an error whatever the body says. */
  lemma FetchUnauthorized(e: Endpoint, body: string, decode: Decoder)
    requires !CreationFails(e)
    ensures FetchObservation(e, Response(401, body), decode) == Err(UnexpectedStatus(401, Prefix(body, StatusExcerptBytes)))
  {
  }

  const TestToken: string := "supersecrettoken"

  /** The token of the redaction test cannot be spelled by the placeholder. */
  lemma TestTokenIsSafe()
    ensures SafeToken(TestToken)
  {
    assert !OccursAt(TestToken, "REDACTED", 0);
    forall i | 0 <= i < |TestToken| ensures TestToken[i] != '[' && TestToken[i] != ']' {
    }
  }

  /** The transport error of an unreachable server, which quotes the URL,
      comes back without the token. */
  lemma FetchRedactsTransportError(e: Endpoint, text: string, decode: Decoder)
    requires e.token == TestToken && !CreationFails(e)
    ensures var r := FetchObservation(e, TransportFailed(text), decode);
      r.Err? && r.error.Fetching? && !Occurs(TestToken, r.error.cause)
  {
    TestTokenIsSafe();
  }

  /** Bytes past the first MiB of a 200 body never matter. */
  lemma FetchReadsAtMostLimit(e: Endpoint, a: string, b: string, decode: Decoder)
    requires |a| >= MaxResponseBytes && |b| >= MaxResponseBytes
    requires a[..MaxResponseBytes] == b[..MaxResponseBytes]
    ensures FetchObservation(e, Response(StatusOK, a), decode) == FetchObservation(e, Response(StatusOK, b), decode)
  {
    assert Prefix(a, MaxResponseBytes) == a[..MaxResponseBytes];
    assert Prefix(b, MaxResponseBytes) == b[..MaxResponseBytes];
  }

  // ---------------------------------------------------------------------------
  // RunFallback

  /** What one tick of the fallback ticker does. */
  datatype Action = ClearMarker | RecordMarker | Wait | Poll

  /** The tick decision: connected clears the disconnect marker; the first
      disconnected tick records it; later ones poll once the threshold has
      passed since the marker. */
  function Decide(connected: bool, since: Option<int>, now: int, threshold: int): (a: Action)
    ensures a == ClearMarker <==> connected
    ensures a == RecordMarker <==> !connected && since.None?
    ensures a == Poll <==> !connected && since.Some? && now - since.value >= threshold
  {
    if connected then ClearMarker
    else if since.None? then RecordMarker
    else if now - since.value < threshold then Wait
    else Poll
  }

  /** The collector's state and the fallback's disconnect marker. */
  datatype Fallback = Fallback(store: State, since: Option<int>)

  /** What the fallback loop is run with. */
  datatype Settings = Settings(endpoint: Endpoint, decode: Decoder, threshold: int)

  /** One tick of RunFallback on a state. */
  function TickStep(st: Fallback, now: int, ex: Exchange, cfg: Settings): (next: Fallback)
    ensures next.store.connected == st.store.connected
    ensures next.store.reconnects == st.store.reconnects
    ensures next.store.scrapeErrors == st.store.scrapeErrors
    ensures next.store.rainStart == st.store.rainStart
  {
    match Decide(st.store.connected, st.since, now, cfg.threshold)
    case ClearMarker => st.(since := None)
    case RecordMarker => st.(since := Some(now))
    case Wait => st
    case Poll =>
      match FetchObservation(cfg.endpoint, ex, cfg.decode)
      case Ok(o) => st.(store := Apply(st.store, Update.UpdateObservation(o)))
      case Err(_) => st
  }

  /** A tick of the ticker: the writes the WebSocket side made since the
      previous tick, the clock, and what a request would get. */
  datatype Tick = Tick(writes: seq<Update>, now: int, exchange: Exchange)

  function Step(st: Fallback, t: Tick, cfg: Settings): Fallback
  {
    TickStep(st.(store := ApplyAll(st.store, t.writes)), t.now, t.exchange, cfg)
  }

  function TickAction(st: Fallback, t: Tick, cfg: Settings): Action
  {
    Decide(ApplyAll(st.store, t.writes).connected, st.since, t.now, cfg.threshold)
  }

  /** The state after a run of ticks. */
  function RunFrom(st: Fallback, ticks: seq<Tick>, cfg: Settings): Fallback
    decreases |ticks|
  {
    if ticks == [] then st
    else Step(RunFrom(st, ticks[..|ticks| - 1], cfg), ticks[|ticks| - 1], cfg)
  }

  /** The action of every tick of a run. */
  function Actions(st: Fallback, ticks: seq<Tick>, cfg: Settings): (acts: seq<Action>)
    ensures |acts| == |ticks|
    decreases |ticks|
  {
    if ticks == [] then []
    else
      var init := ticks[..|ticks| - 1];
      Actions(st, init, cfg) + [TickAction(RunFrom(st, init, cfg), ticks[|ticks| - 1], cfg)]
  }

  /** A poll stores what the request returned, and a failed request changes
      nothing. */
  lemma PollOutcome(st: Fallback, now: int, ex: Exchange, cfg: Settings)
    requires Decide(st.store.connected, st.since, now, cfg.threshold) == Poll
    ensures var r := FetchObservation(cfg.endpoint, ex, cfg.decode);
      r.Ok? ==> TickStep(st, now, ex, cfg) == st.(store := st.store.(obs := r.value, hasObs := true))
    ensures FetchObservation(cfg.endpoint, ex, cfg.decode).Err? ==> TickStep(st, now, ex, cfg) == st
  {
  }

  /** A tick that finds the WebSocket connected drops the marker, so the
      threshold counts again from the next disconnected tick. */
  lemma ConnectedTickClears(st: Fallback, t: Tick, cfg: Settings)
    requires ApplyAll(st.store, t.writes).connected
    ensures Step(st, t, cfg) == Fallback(ApplyAll(st.store, t.writes), None)
    ensures TickAction(st, t, cfg) == ClearMarker
  {
  }

  /** Nobody but the fallback writes and the WebSocket stays down: it stays
      down, and the marker holds the clock of the first tick. */
  lemma {:induction false} DisconnectedRunState(st: Fallback, ticks: seq<Tick>, cfg: Settings)
    requires !st.store.connected && st.since.None?
    requires forall k :: 0 <= k < |ticks| ==> ticks[k].writes == []
    ensures !RunFrom(st, ticks, cfg).store.connected
    ensures |ticks| > 0 ==> RunFrom(st, ticks, cfg).since == Some(ticks[0].now)
    ensures |ticks| == 0 ==> RunFrom(st, ticks, cfg).since.None?
    decreases |ticks|
  {
    if ticks != [] {
      var n := |ticks| - 1;
      var init := ticks[..n];
      assert forall k :: 0 <= k < |init| ==> init[k] == ticks[k];
      DisconnectedRunState(st, init, cfg);
      var mid := RunFrom(st, init, cfg);
      assert ApplyAll(mid.store, ticks[n].writes) == mid.store;
    }
  }

  /** What tick k of a run with the WebSocket down does: the first records
      its clock, and a later one polls once the threshold has passed since. */
  function DisconnectedAction(ticks: seq<Tick>, k: nat, threshold: int): Action
    requires k < |ticks|
  {
    if k == 0 then RecordMarker
    else if ticks[k].now - ticks[0].now >= threshold then Poll
    else Wait
  }

  /** In the same run the first tick records its clock, and tick k polls
      exactly when the threshold has passed since that first tick. */
  lemma {:induction false} DisconnectedRun(st: Fallback, ticks: seq<Tick>, cfg: Settings)
    requires !st.store.connected && st.since.None?
    requires forall k :: 0 <= k < |ticks| ==> ticks[k].writes == []
    ensures forall k :: 0 <= k < |ticks| ==> Actions(st, ticks, cfg)[k] == DisconnectedAction(ticks, k, cfg.threshold)
    decreases |ticks|
  {
    if ticks != [] {
      var n := |ticks| - 1;
      var init := ticks[..n];
      assert forall k :: 0 <= k < |init| ==> init[k] == ticks[k];
      DisconnectedRun(st, init, cfg);
      DisconnectedRunState(st, init, cfg);
      var mid := RunFrom(st, init, cfg);
      DisconnectedTick(mid, ticks, cfg);
      ExtendActions(Actions(st, ticks, cfg), Actions(st, init, cfg), TickAction(mid, ticks[n], cfg), ticks, cfg.threshold);
    }
  }

  /** The last tick of a run with the WebSocket down. */
  lemma DisconnectedTick(mid: Fallback, ticks: seq<Tick>, cfg: Settings)
    requires |ticks| > 0 && ticks[|ticks| - 1].writes == [] && !mid.store.connected
    requires |ticks| > 1 ==> mid.since == Some(ticks[0].now)
    requires |ticks| == 1 ==> mid.since.None?
    ensures TickAction(mid, ticks[|ticks| - 1], cfg) == DisconnectedAction(ticks, |ticks| - 1, cfg.threshold)
  {
    assert ApplyAll(mid.store, ticks[|ticks| - 1].writes) == mid.store;
  }

  lemma ExtendActions(acts: seq<Action>, prev: seq<Action>, last: Action, ticks: seq<Tick>, threshold: int)
    requires |ticks| > 0 && |prev| == |ticks| - 1 && acts == prev + [last]
    requires forall k :: 0 <= k < |prev| ==> prev[k] == DisconnectedAction(ticks[..|prev|], k, threshold)
    requires last == DisconnectedAction(ticks, |prev|, threshold)
    ensures forall k :: 0 <= k < |acts| ==> acts[k] == DisconnectedAction(ticks, k, threshold)
  {
    forall k | 0 <= k < |acts|
      ensures acts[k] == DisconnectedAction(ticks, k, threshold)
    {
      if k < |prev| {
        assert ticks[..|prev|][k] == ticks[k] && ticks[..|prev|][0] == ticks[0];
      }
    }
  }

  /** Nobody else writes and the WebSocket is up: no tick ever polls, and the
      collector is left as it was. */
  lemma {:induction false} ConnectedRun(st: Fallback, ticks: seq<Tick>, cfg: Settings)
    requires st.store.connected
    requires forall k :: 0 <= k < |ticks| ==> ticks[k].writes == []
    ensures RunFrom(st, ticks, cfg).store == st.store
    ensures |ticks| > 0 ==> RunFrom(st, ticks, cfg).since.None?
    ensures forall k :: 0 <= k < |ticks| ==> Actions(st, ticks, cfg)[k] == ClearMarker
    decreases |ticks|
  {
    if ticks != [] {
      var n := |ticks| - 1;
      var init := ticks[..n];
      assert forall k :: 0 <= k < |init| ==> init[k] == ticks[k];
      ConnectedRun(st, init, cfg);
      var mid := RunFrom(st, init, cfg);
      assert ApplyAll(mid.store, ticks[n].writes) == mid.store;
    }
  }

  /** Once the collector holds an observation, no run of the fallback (nor
      any write of the WebSocket side) takes it away. */
  lemma {:induction false} RunKeepsObservation(st: Fallback, ticks: seq<Tick>, cfg: Settings)
    requires st.store.hasObs
    ensures RunFrom(st, ticks, cfg).store.hasObs
    decreases |ticks|
  {
    if ticks != [] {
      var n := |ticks| - 1;
      RunKeepsObservation(st, ticks[..n], cfg);
      LastObservationWins(RunFrom(st, ticks[..n], cfg).store, ticks[n].writes);
    }
  }

  /** A zero threshold polls on the second tick: with a good response there,
      the collector ends up holding the observation. */
  lemma PollsWhenDisconnected(st: Fallback, t0: Tick, t1: Tick, cfg: Settings)
    requires !st.store.connected && st.since.None? && cfg.threshold == 0
    requires t0.writes == [] && t1.writes == [] && t0.now <= t1.now
    requires FetchObservation(cfg.endpoint, t1.exchange, cfg.decode).Ok?
    ensures Actions(st, [t0, t1], cfg) == [RecordMarker, Poll]
    ensures RunFrom(st, [t0, t1], cfg).store.hasObs
    ensures RunFrom(st, [t0, t1], cfg).store.obs == FetchObservation(cfg.endpoint, t1.exchange, cfg.decode).value
  {
    DisconnectedRun(st, [t0, t1], cfg);
    DisconnectedRunState(st, [t0], cfg);
    assert [t0, t1][..1] == [t0];
    assert [t0][..0] == [];
    var mid := RunFrom(st, [t0], cfg);
    assert ApplyAll(mid.store, t1.writes) == mid.store;
  }

  // ---------------------------------------------------------------------------
  // The client

  /** RESTClient: the token, station and base URL it asks with, the JSON
      decoder, and the collector it reports to. */
  class RestClient {
    const token: string
    const stationId: string
    const baseUrl: string
    const decode: Decoder
    const collector: Collector

    /** NewRESTClient, aimed at the public API. */
    constructor (token: string, stationId: string, collector: Collector, decode: Decoder)
      ensures this.token == token && this.stationId == stationId && this.collector == collector
      ensures this.decode == decode && baseUrl == DefaultBaseUrl
    {
      this.token := token;
      this.stationId := stationId;
      this.collector := collector;
      this.decode := decode;
      baseUrl := DefaultBaseUrl;
    }

    function Config(threshold: int): Settings
    {
      Settings(Endpoint(baseUrl, stationId, token), decode, threshold)
    }

    /** The body of one ticker case of RunFallback, with the marker passed in
        and out. */
    method Tick(since: Option<int>, threshold: int, now: int, ex: Exchange) returns (act: Action, next: Option<int>)
      modifies collector
      ensures act == Decide(old(collector.Current()).connected, since, now, threshold)
      ensures Fallback(collector.Current(), next) ==
        TickStep(Fallback(old(collector.Current()), since), now, ex, Config(threshold))
    {
      var connected := collector.IsConnected();
      if connected {
        return ClearMarker, None;
      }
      if since.None? {
        return RecordMarker, Some(now);
      }
      if now - since.value < threshold {
        return Wait, since;
      }
      act, next := Poll, since;
      var r := FetchObservation(Endpoint(baseUrl, stationId, token), ex, decode);
      if r.Ok? {
        collector.UpdateObservation(r.value);
      }
    }

    /** The writes the WebSocket goroutine makes between two ticks, landing
        in the collector one at a time. */
    method Interleave(writes: seq<Update>)
      modifies collector
      ensures collector.Current() == ApplyAll(old(collector.Current()), writes)
    {
      ghost var s0 := collector.Current();
      var j := 0;
      while j < |writes|
        invariant 0 <= j <= |writes|
        invariant collector.Current() == ApplyAll(s0, writes[..j])
      {
        collector.Perform(writes[j]);
        ApplyAllAppend(s0, writes[..j], [writes[j]]);
        assert writes[..j + 1] == writes[..j] + [writes[j]];
        j := j + 1;
      }
      assert writes[..j] == writes;
    }

    /** RunFallback over the ticks that fire before the context is cancelled;
        the marker starts out unset. Before each tick the WebSocket side's
        writes land in the collector. */
    method RunFallback(threshold: int, ticks: seq<Tick>) returns (acts: seq<Action>)
      modifies collector
      ensures collector.Current() == RunFrom(Fallback(old(collector.Current()), None), ticks, Config(threshold)).store
      ensures acts == Actions(Fallback(old(collector.Current()), None), ticks, Config(threshold))
    {
      ghost var st0 := Fallback(collector.Current(), None);
      ghost var cfg := Config(threshold);
      var since: Option<int> := None;
      acts := [];
      var k := 0;
      while k < |ticks|
        invariant 0 <= k <= |ticks|
        invariant Fallback(collector.Current(), since) == RunFrom(st0, ticks[..k], cfg)
        invariant acts == Actions(st0, ticks[..k], cfg)
      {
        var t := ticks[k];
        ghost var mid := RunFrom(st0, ticks[..k], cfg);
        Interleave(t.writes);
        var a;
        a, since := Tick(since, threshold, t.now, t.exchange);
        assert ticks[..k + 1][..k] == ticks[..k];
        assert Fallback(collector.Current(), since) == Step(mid, t, cfg);
        assert a == TickAction(mid, t, cfg);
        acts := acts + [a];
        k := k + 1;
      }
      assert ticks[..k] == ticks;
    }
  }
}
