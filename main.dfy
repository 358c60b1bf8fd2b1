/** Startup checks of the exporter and its two probe endpoints: the required
    environment variables, the station-name pattern, the defaults, and the
    /healthz and /readyz answers. */
module Startup {
  import opened Wrappers
  import opened Tempest
  import opened Metrics

  const DefaultStationName := "tempest"
  const DefaultListenAddr := ":8080"

  const StatusOK := 200
  const StatusServiceUnavailable := 503

  // ---------------------------------------------------------------------------
  // The station-name pattern ^[a-zA-Z0-9_.\-]+$

  /** One character of the bracket class [a-zA-Z0-9_.\-]. */
  predicate NameChar(c: char)
  {
    ('a' <= c <= 'z') || ('A' <= c <= 'Z') || ('0' <= c <= '9') || c == '_' || c == '.' || c == '-'
  }

  /** The anchored pattern "class, one or more times", matched the way a
      backtracking-free matcher walks it: the first character must be in the
      class, and then either the end is reached or the rest matches again. */
  predicate MatchPlus(s: string)
    decreases |s|
  {
    |s| >= 1 && NameChar(s[0]) && (|s| == 1 || MatchPlus(s[1..]))
  }

  /** A station name the exporter accepts: non-empty and drawn from the class
      alone, since it ends up in every metric's labels. */
  lemma {:induction false} MatchPlusIff(s: string)
    ensures MatchPlus(s) <==> |s| >= 1 && forall i :: 0 <= i < |s| ==> NameChar(s[i])
    decreases |s|
  {
    if |s| > 1 {
      MatchPlusIff(s[1..]);
      assert forall i :: 1 <= i < |s| ==> s[i] == s[1..][i - 1];
    }
  }

  /** A non-empty name drawn from the class matches. */
  lemma {:induction false} ClassNameMatches(s: string)
    requires |s| >= 1 && forall i :: 0 <= i < |s| ==> NameChar(s[i])
    ensures MatchPlus(s)
  {
    MatchPlusIff(s);
  }

  /** The default name passes the pattern. */
  lemma DefaultNameValid()
    ensures MatchPlus(DefaultStationName)
  {
    ClassNameMatches(DefaultStationName);
  }

  /** Names with a hyphen, an underscore and a dot pass, as the exporter's
      own table expects. */
  lemma HyphenAccepted()
    ensures MatchPlus("my-station")
  {
    ClassNameMatches("my-station");
  }

  lemma UnderscoreAccepted()
    ensures MatchPlus("station_1")
  {
    ClassNameMatches("station_1");
  }

  lemma DotAccepted()
    ensures MatchPlus("station.name")
  {
    ClassNameMatches("station.name");
  }

  /** The names the exporter's own table refuses. */
  lemma RefusedNames()
    ensures !MatchPlus("bad station") && !MatchPlus("bad;injection") && !MatchPlus("")
  {
    SeparatorRefused("bad station", 3);
    SeparatorRefused("bad;injection", 3);
  }

  /** Any name holding a space or a semicolon is refused. */
  lemma {:induction false} SeparatorRefused(s: string, i: nat)
    requires i < |s| && (s[i] == ' ' || s[i] == ';')
    ensures !MatchPlus(s)
  {
    MatchPlusIff(s);
  }

  // ---------------------------------------------------------------------------
  // Configuration from the environment

  /** The environment variables read at startup; an unset variable reads as
      the empty string. */
  datatype Env = Env(token: string, deviceId: string, stationId: string, stationName: string, listenAddr: string)

  datatype Config = Config(token: string, deviceId: string, stationId: string, stationName: string, listenAddr: string)

  /** Why startup stops with exit status 1. */
  datatype ConfigError = MissingRequired | InvalidStationName(value: string)

  /** An unset (empty) variable takes the default; a set one is kept. */
  function OrDefault(s: string, d: string): (r: string)
    ensures s == "" ==> r == d
    ensures s != "" ==> r == s
  {
    if s == "" then d else s
  }

  /** The checks main performs before anything starts: the three required
      variables, then the station name (defaulted first), then the listen
      address default. */
  function LoadConfig(env: Env): (r: Result<Config, ConfigError>)
    ensures r == Err(MissingRequired) <==> env.token == "" || env.deviceId == "" || env.stationId == ""
    ensures r.Err? && r.error.InvalidStationName? <==>
      env.token != "" && env.deviceId != "" && env.stationId != "" && env.stationName != "" && !MatchPlus(env.stationName)
    ensures r.Ok? ==>
      r.value.token == env.token && r.value.deviceId == env.deviceId && r.value.stationId == env.stationId &&
      MatchPlus(r.value.stationName) && r.value.listenAddr != "" &&
      r.value.stationName == OrDefault(env.stationName, DefaultStationName) &&
      r.value.listenAddr == OrDefault(env.listenAddr, DefaultListenAddr)
  {
    if env.token == "" || env.deviceId == "" || env.stationId == "" then Err(MissingRequired)
    else
      var name := OrDefault(env.stationName, DefaultStationName);
      if !MatchPlus(name) then
        assert name == env.stationName by {
          if env.stationName == "" {
            DefaultNameValid();
          }
        }
        Err(InvalidStationName(name))
      else
        Ok(Config(env.token, env.deviceId, env.stationId, name, OrDefault(env.listenAddr, DefaultListenAddr)))
  }

  /** With only the three required variables set, the defaults are used and
      startup goes on. */
  lemma {:induction false} DefaultsApply(token: string, deviceId: string, stationId: string)
    requires token != "" && deviceId != "" && stationId != ""
    ensures LoadConfig(Env(token, deviceId, stationId, "", "")) ==
      Ok(Config(token, deviceId, stationId, DefaultStationName, DefaultListenAddr))
  {
    DefaultNameValid();
  }

  /** Set values are kept as given when the station name is valid. */
  lemma {:induction false} GivenValuesKept(env: Env)
    requires env.token != "" && env.deviceId != "" && env.stationId != ""
    requires MatchPlus(env.stationName) && env.listenAddr != ""
    ensures LoadConfig(env) == Ok(Config(env.token, env.deviceId, env.stationId, env.stationName, env.listenAddr))
  {
  }

  // ---------------------------------------------------------------------------
  // Probe endpoints

  datatype Reply = Reply(status: int, body: string)

  /** /healthz: the process is up. */
  function Healthz(): (r: Reply)
    ensures r.status == StatusOK
  {
    Reply(StatusOK, "ok\n")
  }

  /** /readyz as a function of whether an observation has been stored. */
  function Readyz(hasObs: bool): (r: Reply)
    ensures r.status == StatusOK <==> hasObs
    ensures !hasObs ==> r.status == StatusServiceUnavailable
  {
    if hasObs then Reply(StatusOK, "ready\n")
    else Reply(StatusServiceUnavailable, "not ready: no observations received\n")
  }

  /** The /readyz handler, which asks the collector under its lock. */
  method ServeReadyz(c: Collector) returns (r: Reply)
    ensures r == Readyz(c.Current().hasObs)
  {
    var has := c.HasObservation();
    r := Readyz(has);
  }

  /** A fresh collector is not ready; after one observation it is, and it
      stays ready whatever the other writers do. */
  lemma {:induction false} ReadyAfterObservation(o: Observation, us: seq<Update>)
    ensures Readyz(Initial.hasObs).status == StatusServiceUnavailable
    ensures Readyz(ApplyAll(Initial, [Update.UpdateObservation(o)] + us).hasObs).status == StatusOK
    decreases |us|
  {
    StaysReady(Apply(Initial, Update.UpdateObservation(o)), us);
    assert ([Update.UpdateObservation(o)] + us)[1..] == us;
  }

  lemma {:induction false} StaysReady(s: State, us: seq<Update>)
    requires s.hasObs
    ensures ApplyAll(s, us).hasObs
    decreases |us|
  {
    if us != [] {
      StaysReady(Apply(s, us[0]), us[1..]);
    }
  }
}
