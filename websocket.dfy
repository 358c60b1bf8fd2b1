/** The WebSocket connector of websocket.go: the reconnect loop with its
    exponential backoff, the subscribe sequence of one session, the read
    loop with its rate-limited parse-error counter, and the message
    handlers' effect on the collector. */
module Stream {
  import opened Wrappers
  import opened Decimal
  import opened Tempest
  import opened Metrics

  /** Durations are Go time.Duration values: nanoseconds. */
  const Second: int := 1_000_000_000

  /** The first wait, and the wait after a long session. */
  const InitialBackoff: int := Second

  /** The wait never grows past a minute. */
  const MaxBackoff: int := 60 * Second

  /** A session longer than this resets the backoff. */
  const StableSession: int := 120 * Second

  // ---------------------------------------------------------------------------
  // Messages and handlers

  /** One frame read from the socket, decoded the three ways the client
      decodes it: the envelope's type (None when decoding the envelope fails,
      "" for a frame without a type, such as null), the obs_st body, and the event body (None where the frame does
      not decode into that shape). */
  datatype Message = Message(kind: Option<string>, obs: Option<seq<seq<Json>>>, evt: Option<seq<Json>>)

  /** handleObsST: the first frame of a decoded obs_st, if it parses. */
  function HandleObsSt(obs: Option<seq<seq<Json>>>): (u: Option<Update>)
    ensures u.Some? <==> obs.Some? && |obs.value| > 0 && ParseObservation(obs.value[0]).Ok?
    ensures u.Some? ==> u.value == Update.UpdateObservation(ParseObservation(obs.value[0]).value)
  {
    match obs
    case None => None
    case Some(frames) =>
      if |frames| == 0 then None
      else
        match ParseObservation(frames[0])
        case Ok(o) => Some(Update.UpdateObservation(o))
        case Err(_) => None
  }

  /** handleStrike only logs: the distance and energy of a strike whose
      distance is known. It never writes to the collector. */
  function StrikeReport(evt: Option<seq<Json>>): (r: Option<(Float, Float)>)
    ensures r.Some? <==> evt.Some? && |evt.value| >= 3 && !ToFloat(evt.value[1]).IsNaN()
    ensures r.Some? ==> r.value.0 == ToFloat(evt.value[1]) && r.value.1 == ToFloat(evt.value[2])
  {
    match evt
    case None => None
    case Some(e) =>
      if |e| >= 3 && !ToFloat(e[1]).IsNaN() then Some((ToFloat(e[1]), ToFloat(e[2]))) else None
  }

  /** handlePrecip: a known first event value becomes the rain start. */
  function HandlePrecip(evt: Option<seq<Json>>): (u: Option<Update>)
    ensures u.Some? <==> evt.Some? && |evt.value| >= 1 && !ToFloat(evt.value[0]).IsNaN()
    ensures u.Some? ==> u.value == Update.SetRainStart(ToFloat(evt.value[0]))
  {
    match evt
    case None => None
    case Some(e) => if |e| >= 1 && !ToFloat(e[0]).IsNaN() then Some(Update.SetRainStart(ToFloat(e[0]))) else None
  }

  /** The readLoop switch: the collector write a decoded envelope leads to. */
  function Dispatch(m: Message): (u: Option<Update>)
    ensures m.kind == Some("obs_st") ==> u == HandleObsSt(m.obs)
    ensures m.kind == Some("evt_precip") ==> u == HandlePrecip(m.evt)
    ensures u.Some? ==> m.kind == Some("obs_st") || m.kind == Some("evt_precip")
  {
    match m.kind
    case None => None
    case Some(t) =>
      if t == "obs_st" then HandleObsSt(m.obs)
      else if t == "evt_strike" then None
      else if t == "evt_precip" then HandlePrecip(m.evt)
      else None
  }

  /** The collector writes of a run of messages, in order. */
  function ReadWrites(ms: seq<Message>): (us: seq<Update>)
    ensures forall i :: 0 <= i < |us| ==> us[i].UpdateObservation? || us[i].SetRainStart?
    decreases |ms|
  {
    if ms == [] then []
    else
      var init := ReadWrites(ms[..|ms| - 1]);
      match Dispatch(ms[|ms| - 1])
      case None => init
      case Some(u) => init + [u]
  }

  /** The number of frames whose envelope does not decode. */
  function Unparseable(ms: seq<Message>): nat
    decreases |ms|
  {
    if ms == [] then 0
    else Unparseable(ms[..|ms| - 1]) + (if ms[|ms| - 1].kind.None? then 1 else 0)
  }

  /** The parse-error warning fires on the first error and on every 100th. */
  predicate ShouldLog(count: int) { count == 1 || count % 100 == 0 }

  /** The counts in (lo, hi] at which a warning is logged. */
  function LoggedCounts(lo: int, hi: int): (cs: seq<int>)
    ensures forall i :: 0 <= i < |cs| ==> lo < cs[i] <= hi && ShouldLog(cs[i])
    decreases hi - lo
  {
    if hi <= lo then []
    else LoggedCounts(lo, hi - 1) + (if ShouldLog(hi) then [hi] else [])
  }

  /** From a fresh counter, n parse errors log 1 + n / 100 warnings. */
  lemma {:induction false} LoggedCountsFromZero(n: nat)
    ensures |LoggedCounts(0, n)| == if n == 0 then 0 else 1 + n / 100
  {
    if n > 1 {
      LoggedCountsFromZero(n - 1);
      assert (n - 1) / 100 + (if n % 100 == 0 then 1 else 0) == n / 100;
    }
  }

  // ---------------------------------------------------------------------------
  // One session

  /** Why connectAndRead returned. The causes are the redacted texts of the
      library errors. */
  datatype ConnError =
    | DialFailed(cause: string)
    | InvalidDeviceId(id: string)
    | SendFailed(cause: string)
    | ReadFailed(cause: string)

  /** What one connection attempt meets: a dial error, a write error, the
      frames read before the read that fails, that read's error text, how long
      the attempt took, and whether the context was cancelled by the time it
      returned or during the wait that follows. */
  datatype Attempt = Attempt(
    dial: Option<string>,
    write: Option<string>,
    messages: seq<Message>,
    readError: string,
    elapsed: int,
    cancelled: bool,
    cancelledInWait: bool)

  /** The session got as far as listen_start: dial succeeded, the device id
      is an integer, and the subscribe message was written. */
  predicate Subscribed(deviceId: string, a: Attempt)
  {
    a.dial.None? && ParseInt64(deviceId).Some? && a.write.None?
  }

  /** The error connectAndRead returns, checked in the order of the code:
      dial, device id, subscribe, then the first failing read. */
  function SessionError(token: string, deviceId: string, a: Attempt): (e: ConnError)
    ensures e.InvalidDeviceId? <==> a.dial.None? && ParseInt64(deviceId).None?
    ensures e.ReadFailed? <==> Subscribed(deviceId, a)
    ensures SafeToken(token) && !e.InvalidDeviceId? ==> !Occurs(token, e.cause)
  {
    if a.dial.Some? then DialFailed(RedactToken(a.dial.value, token))
    else if ParseInt64(deviceId).None? then InvalidDeviceId(deviceId)
    else if a.write.Some? then SendFailed(RedactToken(a.write.value, token))
    else ReadFailed(RedactToken(a.readError, token))
  }

  /** The collector writes of a session: connected, then the handlers'. */
  function SessionWrites(deviceId: string, a: Attempt): (us: seq<Update>)
    ensures !Subscribed(deviceId, a) ==> us == []
  {
    if Subscribed(deviceId, a) then [Update.SetConnected(true)] + ReadWrites(a.messages) else []
  }

  // ---------------------------------------------------------------------------
  // The reconnect loop

  /** The wait after the current one: doubled, capped at a minute. */
  function NextBackoff(b: int): (n: int)
    ensures b <= MaxBackoff ==> n <= MaxBackoff
    ensures b >= InitialBackoff ==> n >= 2 * InitialBackoff
    ensures 2 * b <= MaxBackoff ==> n == 2 * b
  {
    if 2 * b > MaxBackoff then MaxBackoff else 2 * b
  }

  /** The backoff side of Run's loop: the next wait, the waits so far, and
      whether Run has returned. */
  datatype Pace = Pace(backoff: int, waits: seq<int>, stopped: bool)

  /** How one pass of the loop moves the backoff. */
  function Pacing(p: Pace, a: Attempt): Pace
  {
    if p.stopped then p
    else if a.cancelled then p.(stopped := true)
    else
      var b := if a.elapsed > StableSession then InitialBackoff else p.backoff;
      Pace(if a.cancelledInWait then b else NextBackoff(b), p.waits + [b], a.cancelledInWait)
  }

  function PaceAll(p: Pace, attempts: seq<Attempt>): Pace
    decreases |attempts|
  {
    if attempts == [] then p else PaceAll(Pacing(p, attempts[0]), attempts[1..])
  }

  /** The loop variables of Run, with the collector writes, the errors logged
      and the parse-error counter so far. */
  datatype RunState = RunState(pace: Pace, writes: seq<Update>, errors: seq<ConnError>, parseErrors: int)

  function Start(parseErrors: int): RunState
  {
    RunState(Pace(InitialBackoff, [], false), [], [], parseErrors)
  }

  /** One pass of Run's loop: a session, then (unless the context is done)
      the disconnect report and the wait. */
  function Cycle(r: RunState, a: Attempt, token: string, deviceId: string): RunState
  {
    if r.pace.stopped then r
    else
      var pe := if Subscribed(deviceId, a) then Unparseable(a.messages) else r.parseErrors;
      var w := r.writes + SessionWrites(deviceId, a);
      if a.cancelled then RunState(Pacing(r.pace, a), w, r.errors, pe)
      else
        RunState(Pacing(r.pace, a), w + [Update.SetConnected(false), Update.IncrReconnects],
          r.errors + [SessionError(token, deviceId, a)], pe)
  }

  /** Run over the attempts made before the context is cancelled. */
  function RunAll(r: RunState, attempts: seq<Attempt>, token: string, deviceId: string): RunState
    decreases |attempts|
  {
    if attempts == [] then r else RunAll(Cycle(r, attempts[0], token, deviceId), attempts[1..], token, deviceId)
  }

  /** The waits of a run depend on the attempts' timing alone. */
  lemma {:induction false} RunAllPace(r: RunState, attempts: seq<Attempt>, token: string, deviceId: string)
    ensures RunAll(r, attempts, token, deviceId).pace == PaceAll(r.pace, attempts)
    decreases |attempts|
  {
    if attempts != [] {
      RunAllPace(Cycle(r, attempts[0], token, deviceId), attempts[1..], token, deviceId);
    }
  }

  /** Once Run has returned, nothing more happens. */
  lemma {:induction false} StoppedStays(r: RunState, attempts: seq<Attempt>, token: string, deviceId: string)
    requires r.pace.stopped
    ensures RunAll(r, attempts, token, deviceId) == r
    decreases |attempts|
  {
    if attempts != [] {
      StoppedStays(Cycle(r, attempts[0], token, deviceId), attempts[1..], token, deviceId);
    }
  }

  /** Every wait lies between one second and one minute. */
  lemma {:induction false} WaitsBounded(p: Pace, attempts: seq<Attempt>)
    requires InitialBackoff <= p.backoff <= MaxBackoff
    requires forall i :: 0 <= i < |p.waits| ==> InitialBackoff <= p.waits[i] <= MaxBackoff
    ensures var f := PaceAll(p, attempts);
      InitialBackoff <= f.backoff <= MaxBackoff &&
      forall i :: 0 <= i < |f.waits| ==> InitialBackoff <= f.waits[i] <= MaxBackoff
    decreases |attempts|
  {
    if attempts != [] {
      WaitsBounded(Pacing(p, attempts[0]), attempts[1..]);
    }
  }

  function Pow2(k: nat): (p: nat)
    ensures p >= 1
  {
    if k == 0 then 1 else 2 * Pow2(k - 1)
  }

  /** The k-th wait of a run of quick failures: 1, 2, 4, 8, 16, 32 seconds,
      then a minute for good. */
  function ScheduleAt(k: nat): int
  {
    if k >= 6 then MaxBackoff else Pow2(k) * Second
  }

  lemma NextSchedule(k: nat)
    ensures NextBackoff(ScheduleAt(k)) == ScheduleAt(k + 1)
  {
    if k < 6 {
      assert Pow2(k + 1) == 2 * Pow2(k);
      assert Pow2(5) == 32;
      if k < 5 {
        assert Pow2(k) <= 16 by {
          assert Pow2(0) == 1 && Pow2(1) == 2 && Pow2(2) == 4 && Pow2(3) == 8 && Pow2(4) == 16;
        }
      }
    }
  }

  /** A session that neither was cancelled nor lasted past two minutes. */
  predicate QuickFailure(a: Attempt)
  {
    !a.cancelled && !a.cancelledInWait && a.elapsed <= StableSession
  }

  /** n waits of the schedule, from the j-th on. */
  function Schedule(j: nat, n: nat): (ws: seq<int>)
    ensures |ws| == n
    decreases n
  {
    if n == 0 then [] else [ScheduleAt(j)] + Schedule(j + 1, n - 1)
  }

  /** Consecutive quick failures wait 1, 2, 4, 8, 16, 32, 60, 60, ... seconds. */
  lemma {:induction false} QuickFailureSchedule(p: Pace, j: nat, attempts: seq<Attempt>)
    requires !p.stopped && p.backoff == ScheduleAt(j)
    requires forall i :: 0 <= i < |attempts| ==> QuickFailure(attempts[i])
    ensures var f := PaceAll(p, attempts);
      f.waits == p.waits + Schedule(j, |attempts|) && f.backoff == ScheduleAt(j + |attempts|) && !f.stopped
    decreases |attempts|
  {
    if attempts != [] {
      NextSchedule(j);
      var next := Pacing(p, attempts[0]);
      assert next.waits == p.waits + [ScheduleAt(j)];
      assert forall i :: 0 <= i < |attempts[1..]| ==> attempts[1..][i] == attempts[i + 1];
      QuickFailureSchedule(next, j + 1, attempts[1..]);
      assert p.waits + [ScheduleAt(j)] + Schedule(j + 1, |attempts| - 1) == p.waits + Schedule(j, |attempts|);
    } else {
      assert p.waits + [] == p.waits;
    }
  }

  /** The first eight waits, in seconds. */
  lemma ScheduleValues()
    ensures Schedule(0, 8) == [1 * Second, 2 * Second, 4 * Second, 8 * Second, 16 * Second,
      32 * Second, 60 * Second, 60 * Second]
  {
    assert Pow2(1) == 2 && Pow2(2) == 4 && Pow2(3) == 8 && Pow2(4) == 16 && Pow2(5) == 32;
  }

  /** A session longer than two minutes resets the wait to a second, and the
      wait after it to two. */
  lemma StableSessionResets(p: Pace, a: Attempt)
    requires !p.stopped && !a.cancelled && !a.cancelledInWait && a.elapsed > StableSession
    ensures Pacing(p, a).waits == p.waits + [InitialBackoff]
    ensures Pacing(p, a).backoff == 2 * InitialBackoff
  {
  }

  lemma {:induction false} CountReconnectsAppend(us: seq<Update>, vs: seq<Update>)
    ensures CountReconnects(us + vs) == CountReconnects(us) + CountReconnects(vs)
    decreases |us|
  {
    if us == [] {
      assert us + vs == vs;
    } else {
      assert (us + vs)[1..] == us[1..] + vs;
      CountReconnectsAppend(us[1..], vs);
    }
  }

  /** The handlers never touch the reconnect counter. */
  lemma {:induction false} NoReconnectsInSession(deviceId: string, a: Attempt)
    ensures CountReconnects(SessionWrites(deviceId, a)) == 0
  {
    var us := SessionWrites(deviceId, a);
    NoReconnectsAmong(us);
  }

  lemma {:induction false} NoReconnectsAmong(us: seq<Update>)
    requires forall i :: 0 < i < |us| ==> us[i].UpdateObservation? || us[i].SetRainStart?
    requires |us| > 0 ==> !us[0].IncrReconnects?
    ensures CountReconnects(us) == 0
    decreases |us|
  {
    if us != [] {
      assert forall i :: 0 < i < |us[1..]| ==> us[1..][i] == us[i + 1];
      NoReconnectsAmong(us[1..]);
    }
  }

  /** Each cycle that ends without cancellation counts one reconnect, and
      nothing else does: the counter moves by the number of waits. */
  lemma {:induction false} ReconnectsCountCycles(r: RunState, attempts: seq<Attempt>, token: string, deviceId: string)
    ensures var f := RunAll(r, attempts, token, deviceId);
      |f.pace.waits| >= |r.pace.waits| &&
      CountReconnects(f.writes) == CountReconnects(r.writes) + |f.pace.waits| - |r.pace.waits|
    decreases |attempts|
  {
    if attempts != [] {
      var a := attempts[0];
      var next := Cycle(r, a, token, deviceId);
      if !r.pace.stopped {
        var w := r.writes + SessionWrites(deviceId, a);
        CountReconnectsAppend(r.writes, SessionWrites(deviceId, a));
        NoReconnectsInSession(deviceId, a);
        if !a.cancelled {
          CountReconnectsAppend(w, [Update.SetConnected(false), Update.IncrReconnects]);
          assert CountReconnects([Update.SetConnected(false), Update.IncrReconnects]) == 1;
        }
      }
      ReconnectsCountCycles(next, attempts[1..], token, deviceId);
    }
  }

  /** No connection reported so far, and only dial or device-id errors. */
  predicate NeverConnected(r: RunState)
  {
    (forall i :: 0 <= i < |r.writes| ==> r.writes[i] != Update.SetConnected(true)) &&
    (forall i :: 0 <= i < |r.errors| ==> r.errors[i].DialFailed? || r.errors[i].InvalidDeviceId?)
  }

  /** With a device id that is not an integer the client never reports a
      connection, and every attempt whose dial succeeds ends with the
      invalid device id error. */
  lemma {:induction false} InvalidDeviceIdNeverConnects(r: RunState, attempts: seq<Attempt>, token: string, deviceId: string)
    requires ParseInt64(deviceId).None?
    requires NeverConnected(r)
    ensures NeverConnected(RunAll(r, attempts, token, deviceId))
    decreases |attempts|
  {
    if attempts != [] {
      var a := attempts[0];
      var next := Cycle(r, a, token, deviceId);
      assert SessionWrites(deviceId, a) == [];
      assert r.writes + [] == r.writes;
      assert NeverConnected(next);
      InvalidDeviceIdNeverConnects(next, attempts[1..], token, deviceId);
    }
  }

  /** Two quick failures from the start: waits of one and two seconds and two
      reconnects. */
  lemma BackoffIncreases(s: State, a0: Attempt, a1: Attempt, pe: int, token: string, deviceId: string)
    requires QuickFailure(a0) && QuickFailure(a1)
    ensures var f := RunAll(Start(pe), [a0, a1], token, deviceId);
      f.pace.waits == [Second, 2 * Second] && ApplyAll(s, f.writes).reconnects == s.reconnects + 2
  {
    var attempts := [a0, a1];
    assert forall i :: 0 <= i < |attempts| ==> QuickFailure(attempts[i]);
    QuickFailureSchedule(Start(pe).pace, 0, attempts);
    RunAllPace(Start(pe), attempts, token, deviceId);
    var f := RunAll(Start(pe), attempts, token, deviceId);
    assert Schedule(0, 2) == [Second, 2 * Second];
    ReconnectsCountCycles(Start(pe), attempts, token, deviceId);
    CountersCountIncrements(s, f.writes);
  }

  /** A frame of the message-types test: control, observation, rain start,
      strike, unknown; the observation and the rain start are stored. */
  lemma MultipleMessageTypes(s: State, o: Observation, rain: real)
    requires o.timestamp == 1700000000
    ensures var ms := [
        Message(Some("connection_opened"), None, None),
        Message(Some("obs_st"), Some([Frame(o)]), None),
        Message(Some("evt_precip"), None, Some([Num(Finite(rain))])),
        Message(Some("evt_strike"), None, Some([Num(Finite(1700000600.0)), Num(Finite(15.5)), Num(Finite(100.0))])),
        Message(Some("unknown_type"), None, None)];
      var t := ApplyAll(s, ReadWrites(ms));
      t.hasObs && t.obs == o && t.rainStart == Finite(rain)
  {
    var ms := [
        Message(Some("connection_opened"), None, None),
        Message(Some("obs_st"), Some([Frame(o)]), None),
        Message(Some("evt_precip"), None, Some([Num(Finite(rain))])),
        Message(Some("evt_strike"), None, Some([Num(Finite(1700000600.0)), Num(Finite(15.5)), Num(Finite(100.0))])),
        Message(Some("unknown_type"), None, None)];
    ParseFrame(o);
    var obsWrite, rainWrite := Update.UpdateObservation(o), Update.SetRainStart(Finite(rain));
    assert Dispatch(ms[0]) == None;
    assert Dispatch(ms[1]) == Some(obsWrite);
    assert Dispatch(ms[2]) == Some(rainWrite);
    assert Dispatch(ms[3]) == None;
    assert Dispatch(ms[4]) == None;
    assert ms[..1][..0] == [];
    assert ReadWrites(ms[..1]) == [];
    assert ms[..2][..1] == ms[..1];
    assert ReadWrites(ms[..2]) == [obsWrite];
    assert ms[..3][..2] == ms[..2];
    assert ReadWrites(ms[..3]) == [obsWrite, rainWrite];
    assert ms[..4][..3] == ms[..3];
    assert ReadWrites(ms[..4]) == [obsWrite, rainWrite];
    assert ms[..5][..4] == ms[..4];
    assert ms[..5] == ms;
    assert ReadWrites(ms) == [obsWrite, rainWrite];
    assert [obsWrite, rainWrite][1..] == [rainWrite];
    assert ApplyAll(s, [obsWrite, rainWrite]) == ApplyAll(Apply(s, obsWrite), [rainWrite]);
    assert ApplyAll(Apply(s, obsWrite), [rainWrite]) == Apply(Apply(s, obsWrite), rainWrite);
  }

  // ---------------------------------------------------------------------------
  // The client

  /** Client: the token and device id it subscribes with, the collector it
      reports to, and the count of unparseable frames. */
  class Client {
    const token: string
    const deviceId: string
    const collector: Collector
    var parseErrors: int

    /** NewClient. */
    constructor (token: string, deviceId: string, collector: Collector)
      ensures this.token == token && this.deviceId == deviceId && this.collector == collector
      ensures parseErrors == 0
    {
      this.token := token;
      this.deviceId := deviceId;
      this.collector := collector;
      parseErrors := 0;
    }

    /** readLoop over the frames read before a read fails: unparseable
        frames are counted (and logged at the ShouldLog counts, which are
        returned), the others dispatched. */
    method ReadLoop(messages: seq<Message>, readError: string) returns (err: ConnError, logged: seq<int>)
      modifies this, collector
      ensures err == ReadFailed(RedactToken(readError, token))
      ensures parseErrors == old(parseErrors) + Unparseable(messages)
      ensures logged == LoggedCounts(old(parseErrors), parseErrors)
      ensures collector.Current() == ApplyAll(old(collector.Current()), ReadWrites(messages))
    {
      ghost var s0 := collector.Current();
      ghost var p0 := parseErrors;
      logged := [];
      var k := 0;
      while k < |messages|
        invariant 0 <= k <= |messages|
        invariant parseErrors == p0 + Unparseable(messages[..k])
        invariant logged == LoggedCounts(p0, parseErrors)
        invariant collector.Current() == ApplyAll(s0, ReadWrites(messages[..k]))
      {
        var m := messages[k];
        assert messages[..k + 1][..k] == messages[..k];
        if m.kind.None? {
          parseErrors := parseErrors + 1;
          if ShouldLog(parseErrors) {
            logged := logged + [parseErrors];
          }
        } else {
          var u := Dispatch(m);
          if u.Some? {
            ApplyAllAppend(s0, ReadWrites(messages[..k]), [u.value]);
            collector.Perform(u.value);
          }
        }
        k := k + 1;
      }
      assert messages[..k] == messages;
      err := ReadFailed(RedactToken(readError, token));
    }

    /** connectAndRead: dial, check the device id, subscribe, mark the
        collector connected, reset the parse-error counter, read. */
    method ConnectAndRead(a: Attempt) returns (err: ConnError)
      modifies this, collector
      ensures err == SessionError(token, deviceId, a)
      ensures parseErrors == if Subscribed(deviceId, a) then Unparseable(a.messages) else old(parseErrors)
      ensures collector.Current() == ApplyAll(old(collector.Current()), SessionWrites(deviceId, a))
    {
      if a.dial.Some? {
        return DialFailed(RedactToken(a.dial.value, token));
      }
      var id := ParseInt64(deviceId);
      if id.None? {
        return InvalidDeviceId(deviceId);
      }
      if a.write.Some? {
        return SendFailed(RedactToken(a.write.value, token));
      }
      ghost var s0 := collector.Current();
      collector.SetConnected(true);
      parseErrors := 0;
      var logged;
      err, logged := ReadLoop(a.messages, a.readError);
      ApplyAllAppend(s0, [Update.SetConnected(true)], ReadWrites(a.messages));
    }

    /** Run over the attempts made before the context is cancelled; returns
        the waits slept (or begun) and the errors logged. */
    method Run(attempts: seq<Attempt>) returns (waits: seq<int>, errors: seq<ConnError>)
      modifies this, collector
      ensures var f := RunAll(Start(old(parseErrors)), attempts, token, deviceId);
        waits == f.pace.waits && errors == f.errors && parseErrors == f.parseErrors &&
        collector.Current() == ApplyAll(old(collector.Current()), f.writes)
    {
      ghost var s0 := collector.Current();
      ghost var goal := RunAll(Start(parseErrors), attempts, token, deviceId);
      ghost var writes: seq<Update> := [];
      var backoff := InitialBackoff;
      waits, errors := [], [];
      var k := 0;
      while k < |attempts|
        invariant 0 <= k <= |attempts|
        invariant collector.Current() == ApplyAll(s0, writes)
        invariant RunAll(RunState(Pace(backoff, waits, false), writes, errors, parseErrors), attempts[k..], token, deviceId) == goal
      {
        var a := attempts[k];
        ghost var cur := RunState(Pace(backoff, waits, false), writes, errors, parseErrors);
        assert attempts[k..][1..] == attempts[k + 1..];
        var err := ConnectAndRead(a);
        ApplyAllAppend(s0, writes, SessionWrites(deviceId, a));
        writes := writes + SessionWrites(deviceId, a);
        if a.cancelled {
          StoppedStays(Cycle(cur, a, token, deviceId), attempts[k + 1..], token, deviceId);
          return;
        }
        collector.SetConnected(false);
        collector.IncrReconnects();
        ApplyAllAppend(s0, writes, [Update.SetConnected(false), Update.IncrReconnects]);
        writes := writes + [Update.SetConnected(false), Update.IncrReconnects];
        if a.elapsed > StableSession {
          backoff := InitialBackoff;
        }
        errors := errors + [err];
        waits := waits + [backoff];
        if a.cancelledInWait {
          StoppedStays(Cycle(cur, a, token, deviceId), attempts[k + 1..], token, deviceId);
          return;
        }
        backoff := NextBackoff(backoff);
        k := k + 1;
      }
    }
  }
}
