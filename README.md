# tempest-exporter, modelled in Dafny

tempest-exporter is a Prometheus exporter for a WeatherFlow Tempest weather station. It gets observations from two sources:

- a WebSocket stream, which subscribes with `listen_start` and then reads `obs_st`, `evt_precip` and `evt_strike` frames;
- a REST fallback, which polls the station observation endpoint once the stream has been down for longer than a threshold.

Both sources write into one mutex-guarded collector. A scrape of `/metrics` turns a snapshot of that collector into gauges and counters. `/healthz` and `/readyz` report liveness and readiness. Startup validates the environment before anything runs.

The model follows the program file by file:

| Dafny module | file | form |
|---|---|---|
| `Tempest` (tempest.dfy) | tempest.go | pure functions and lemmas |
| `Metrics` (collector.dfy) | collector.go | `Collector` class with the six state fields and the five writers; `Collect` specified by the pure `Exposition` |
| `Rest` (rest.dfy) | rest.go | pure field mapping and fetch; `RestClient` class whose `Tick` and `RunFallback` methods drive the collector |
| `Stream` (websocket.dfy) | websocket.go | `Client` class whose `Run`, `ConnectAndRead` and `ReadLoop` methods are loops proved against pure specification functions |
| `Startup` (main.dfy) | main.go | configuration checks and probe handlers |
| `Decimal` (decimal.dfy) | strconv, as `json.Number` calls it | decimal parsing and printing |
| `Wrappers` (wrappers.dfy) | — | `Option` and `Result` |

Some conventions run through the whole model:

- A float64 is `Float = NaN | Inf(negative) | Finite(r)`. NaN is the "unknown" sentinel, every comparison with NaN is false, and rounding is not modelled.
- Decoded JSON is the `Json` datatype (`Null | Num | NumText | Str | Bool | Composite`).
- Time is an integer clock of nanoseconds that the caller passes in.
- The stream's and the fallback's endless loops run over the finite sequence of events that happen before the context is cancelled: connection attempts and ticks.

## Model

| member | source | states |
|---|---|---|
| Tempest.ToFloat | tempest.go:72-88 | a float64 passes through unchanged; numeric text is its ParseFloat value; null, strings, bools, composites and unparsable text are unknown (NaN), and nothing else is |
| Tempest.Truncate | tempest.go:100 | the int64 conversion truncates toward zero: the result is within one of x, on the side of zero |
| Tempest.ToInt64 | tempest.go:91-110 | succeeds exactly for a finite float64 inside the int64 range (truncated) or numeric text ParseInt accepts (its value); null is NilTimestamp and strings, bools and composites are InvalidType |
| Tempest.ToInt64Exact | tempest.go:91-110 | every int64 timestamp comes back exactly, both as a float64 and as numeric text |
| Tempest.ToInt64Refuses | tempest_test.go:190-255 | null, NaN, both infinities, any string and unparsable text are refused; 1700000000 comes back exactly |
| Tempest.ToFloatExamples | tempest_test.go:219-269 | "3.14" reads as 3.14 and integer text reads back exactly; "not-a-number", null, bools and strings are unknown |
| Tempest.ParseObservation | tempest.go:38-68 | fewer than 18 slots is TooShort; otherwise it succeeds iff slot 0 passes toInt64 (its error is kept), and then field i is toFloat(raw[i]) for every slot 1..17 |
| Tempest.ObservationBySlots | tempest.go:13-31 | an observation is determined by its timestamp and its seventeen slots |
| Tempest.Frame | tempest.go:38-68 | the frame of an observation has 18 slots, slot i carrying field i |
| Tempest.ParseFrame | tempest.go:38-68 | decoding the frame of any observation with an int64 timestamp gives that observation back, unknown fields included |
| Tempest.ParseObservationSlotLocal | tempest.go:48-67 | rewriting one value slot, even with null or a wrong type, changes only that field and the frame still decodes |
| Tempest.ParseObservationIgnoresTail | tempest.go:39-67 | slots past the eighteenth never affect the result |
| Tempest.RedactToken | tempest.go:189-194 | identity for an empty token and for text without the token; a safe token (no brackets, not inside "REDACTED") never survives |
| Tempest.ReplaceAllAbsent | tempest.go:193 | replace-all leaves text without the pattern unchanged |
| Tempest.ReplaceAllFirst | tempest.go:193 | the leftmost occurrence is replaced, the text before it is copied and the scan resumes after it |
| Tempest.RedactedPrefixCopied | tempest.go:193 | up to the first '[' of the output, redaction copies its input |
| Tempest.PlaceholderOccurrence | tempest.go:189-194 | a token found in "[REDACTED]" + rest lies in rest, or starts with '[', holds ']' or lies inside "REDACTED" |
| Tempest.NoLeakAfterPlaceholder | tempest.go:189-194 | the placeholder followed by token-free text is token-free, for a safe token |
| Tempest.NoLeakAfterChar | tempest.go:189-194 | a non-matching first character followed by a token-free redaction is token-free |
| Tempest.ReplaceAllNoLeak | tempest.go:189-194 | after redaction a safe token occurs nowhere in the output |
| Tempest.RedactSingleOccurrence | tempest_test.go:271-283 | a message carrying the token once keeps all its text, with the token replaced by "[REDACTED]" |
| Tempest.DewPoint | tempest.go:114-122 | unknown when temperature or humidity is unknown or humidity is at most 0; otherwise the Magnus formula of the two |
| Tempest.HeatIndex | tempest.go:144-156 | the Rothfusz regression is unknown exactly when an input is not finite |
| Tempest.FeelsLike | tempest.go:128-160 | unknown for an unknown temperature; wind chill iff temp < 10 and wind*3.6 > 4.8; otherwise heat index iff temp >= 27 and humidity >= 40; otherwise the temperature itself |
| Tempest.FeelsLikeExamples | tempest_test.go:156-188 | (20, 50, 2) feels like 20; (5, 50, 5.56) is in the wind chill tier; (35, 60, 1) feels hotter than 35 |
| Decimal.ParseInt64 | tempest.go:101-106 | accepted text is a sign and decimal digits only, with a value in the int64 range |
| Decimal.ParseFloatNeedsDigit | tempest.go:79-84 | accepted text holds at least one decimal digit |
| Decimal.ParseUnsigned | tempest.go:79-84 | accepted unsigned text starts with a digit, or with one character (the point) and then a digit |
| Decimal.ParseFloatPoint | tempest.go:79-84 | for all digit runs d (non-empty) and f, "d.f" reads as the value of d plus the value of f divided by ten to the length of f |
| Decimal.ParseFloatPointValue | tempest.go:79-84 | "d.f" reads as the decimal value of its integer digits and fraction digits |
| Decimal.UnsignedPoint | tempest.go:79-84 | unsigned "d.f" reads as the decimal value of its integer digits and fraction digits |
| Decimal.ParseFloatExponent | tempest.go:79-84 | for every natural i and integer e, i printed, then "e", then e printed, reads as i times ten to the e |
| Decimal.UnsignedExponent | tempest.go:79-84 | unsigned digits followed by "e" and a printed integer read as those digits scaled by ten to it |
| Decimal.ExponentFormatInt | tempest.go:79-84 | the exponent suffix "e" followed by any printed integer reads as that integer |
| Decimal.ParseFloatNegative | tempest.go:79-84 | a leading minus on text that starts with a digit parses iff the text does, to the negated value |
| Decimal.DecimalValuePoint | tempest.go:79-84 | without exponent, the decimal value is the integer part plus the fraction digits scaled down by ten to their count |
| Decimal.DecimalValueWhole | tempest.go:79-84 | without fraction digits, the decimal value is the integer part scaled by ten to the exponent |
| Decimal.DigitsValueAppend | tempest.go:79-84 | the value of two digit runs joined is the first shifted left by the length of the second, plus the second |
| Decimal.ScaledShift | tempest.go:79-84 | scaling down by k undoes a shift left by k digits, the appended digits becoming the fraction |
| Decimal.ScaledUp | tempest.go:79-84 | scaling up by k is multiplying by ten to the k |
| Decimal.ScaledDown | tempest.go:79-84 | scaling down by k is dividing by ten to the k |
| Decimal.LeadingDigitsStop | tempest.go:79-84 | the leading digit run of digits followed by a non-digit is exactly those digits |
| Decimal.ParseInt64FormatInt | tempest.go:101-106 | every int64 printed in decimal parses back to itself |
| Decimal.ParseFloatFormatInt | tempest.go:79-84 | every integer printed in decimal parses back as that real |
| Decimal.DigitsValueFormatNat | tempest.go:101-106 | the digits printed for a natural number read back as it |
| Decimal.ParseFloatPointExample | tempest_test.go:219-231 | "3.14" is exactly 3.14 |
| Decimal.ParseFloatWordExample | tempest_test.go:219-231 | "not-a-number" does not parse |
| Metrics.LastObservationUpdate | collector.go:174-179 | picks the index of the last observation write, with none after it |
| Metrics.ApplyAllAppend | collector.go:174-207 | applying writes in two batches is applying them in one |
| Metrics.CountersCountIncrements | collector.go:189-207 | the two counters grow by exactly the number of their own increments in any run of writes |
| Metrics.LastObservationWins | collector.go:174-179 | hasObs never returns to false, and the stored observation is that of the last observation write |
| Metrics.ConnectedIsLastWritten | collector.go:182-186 | the connection flag is the value the last SetConnected wrote |
| Metrics.AllDescsComplete | collector.go:67-75 | Describe announces every descriptor |
| Metrics.GaugeIndexInverse | collector.go:145-166 | gauge position and gauge name are inverse on the 17 observation gauges |
| Metrics.FindSound | collector.go:108-171 | a name lookup in a scrape returns a metric of that name from the scrape, and fails only when none carries the name |
| Metrics.FindGauges | collector.go:139-166 | a gauge is among the first n emitted iff its position is below n and its value is known, and it carries that value |
| Metrics.GaugesNames | collector.go:145-166 | the observation gauges are emitted under observation-gauge names, none twice |
| Metrics.GaugesInOrder | collector.go:145-166 | the gauges are the seventeen emitGauge calls in the order Collect makes them, dew point and feels-like last |
| Metrics.ExpositionWithObservation | collector.go:127-170 | with an observation a scrape is health, timestamp, gauges and rain start, in that order |
| Metrics.ExpositionHealth | collector.go:123-137 | every scrape starts with up, reconnects and scrape errors; up is 1 iff connected; before the first observation those three are all |
| Metrics.FindInExposition | collector.go:131-170 | no metric other than health is emitted before the first observation; after it, the timestamp, then a gauge, then rain start is found |
| Metrics.ExpositionGauge | collector.go:139-166 | each observation or derived gauge is emitted iff an observation exists and its value is known, with that value |
| Metrics.GaugeIsNotOther | collector.go:13-64 | an observation gauge is none of the health, timestamp or rain start descriptors |
| Metrics.ExpositionRainStart | collector.go:168-170 | the rain start gauge is emitted iff an observation exists and the epoch is positive, with that epoch |
| Metrics.ExpositionLastObservation | collector.go:131-133 | the last-observation timestamp is emitted iff an observation exists, with its timestamp |
| Metrics.ExpositionNames | collector.go:67-171 | a scrape names each descriptor at most once, and only descriptors Describe announces |
| Metrics.ExpositionDistinct | collector.go:108-171 | no two metrics of a scrape share a name |
| Metrics.ExpositionIgnoresIntervals | collector.go:145-166 | wind sample interval and report interval never reach a scrape |
| Metrics.GaugesAgree | collector.go:145-166 | observations that agree on the gauge values emit the same gauges |
| Metrics.Collector.constructor | collector.go:93-98 | a new collector is not connected, holds no observation, has both counters at 0 and rain start 0 |
| Metrics.Collector.UpdateObservation | collector.go:174-179 | stores the whole observation and sets hasObs; nothing else changes |
| Metrics.Collector.SetConnected | collector.go:182-186 | writes the connection flag only |
| Metrics.Collector.IncrReconnects | collector.go:189-193 | adds one to the reconnect counter only |
| Metrics.Collector.SetRainStart | collector.go:196-200 | writes the rain start epoch only |
| Metrics.Collector.IncrScrapeErrors | collector.go:203-207 | adds one to the scrape error counter only |
| Metrics.Collector.Perform | collector.go:174-207 | runs any one writer with its effect on the state |
| Metrics.Collector.HasObservation | collector.go:210-214 | reports whether an observation has been stored |
| Metrics.Collector.IsConnected | rest.go:190-194 | reports the last connection flag written |
| Metrics.Collector.Collect | collector.go:108-171 | emits exactly the scrape of the current state with the station labels |
| Rest.Deref | rest.go:109-114 | a null field reads as 0, a present one as its value; the result is always known |
| Rest.RestTimestamp | rest.go:135-140 | a present timestamp in [0, 2^63] (2^63 being float64(MaxInt64)) is truncated toward zero; null or out of range leaves 0 |
| Rest.RestObsToObservation | rest.go:116-142 | each of the sixteen value fields is its own payload value when present and 0 when null or absent, whatever the others hold; the wind sample interval is 0; the timestamp is the payload's through RestTimestamp |
| Rest.NullFieldsPayload | rest_test.go:104-139 | timestamp 1700000000, temperature 22.5 and battery 2.65 come through; null humidity and null average wind read as 0 |
| Rest.RestTimestampExact | rest.go:135-140 | an integral timestamp in range comes through unchanged |
| Rest.RestRoundTrip | rest.go:116-142 | every observation the REST path can carry survives encoding as a payload and converting back |
| Rest.RestRoundTripPayload | rest.go:116-142 | every complete payload is the encoding of the observation it converts to |
| Rest.NullPayloadIsZero | rest_test.go:104-139 | a payload of nulls converts to the zero observation |
| Rest.TimestampOutOfRangeIsZero | rest.go:137-139 | a negative or too large timestamp reads as 0 |
| Rest.QuoteChar | rest.go:77-79 | printable characters other than quote and backslash are copied; the rest are backslash escapes |
| Rest.Quote | rest.go:77-79 | a quoted string is wrapped in double quotes |
| Rest.QuoteBodyAppend | rest.go:77-79 | quoting distributes over concatenation |
| Rest.QuoteBodyPlain | rest.go:77-79 | quoting leaves plain text unchanged |
| Rest.RequestUrl | rest.go:75 | the request URL ends with the token |
| Rest.Prefix | rest.go:90 | the limited read is a prefix of the body of at most n bytes, the whole body when it is shorter |
| Rest.BeforeFragment | rest.go:77-79 | the part url.Parse parses is the longest prefix of the URL without '#', ended by a '#' or by the end of the URL |
| Rest.BeforeFragmentWhole | rest.go:77-79 | a URL without '#' is parsed whole |
| Rest.BeforeFragmentAppend | rest.go:77-79 | a head without '#' is parsed whole and the cut falls in the tail |
| Rest.ControlBeforeFragment | rest.go:77-79 | a control byte in the parsed part is one of the URL |
| Rest.CreationErrorAsWritten | rest.go:77-79 | request creation fails iff the URL before its first '#' holds a control byte, and then the error quotes exactly that part |
| Rest.CreationError | rest.go:77-79 | the same failure, with a safe token absent from its cause text |
| Rest.FetchObservation | rest.go:74-107 | succeeds iff the request can be built (no control byte before the first '#'), the status is 200, the first MiB decodes and holds an observation, and then yields obs[0] converted; a non-200 error carries that status and at most 512 bytes of the body; the cause of a creation or transport error never holds a safe token |
| Rest.FetchObservationAsWritten | rest.go:74-107 | agrees with the corrected fetch whenever the URL can be parsed |
| Rest.ControlByteInUrl | rest.go:75-77 | a control byte in the station id, with no '#' before it, makes request creation fail |
| Rest.ParseErrorTextHolds | rest.go:77-79 | the quoted URL of a parse error spells out a plain token |
| Rest.AsWrittenLeaksToken | rest.go:77-79 | as written, a control byte in the station id makes the error text carry a plain token, when no '#' cuts the URL |
| Rest.CorrectedHidesToken | rest.go:77-79 | corrected, a control byte in the station id with no '#' before it fails without the token in the text |
| Rest.DefaultBaseUrlPlain | rest.go:15 | the default base URL is plain text without '#' |
| Rest.LeakExample | rest.go:77-79 | station id "1\n" with token "abc" leaks "abc" as written, for any base URL without '#' |
| Rest.FragmentInStationId | rest.go:75-79 | bytes after a '#' in the station id lie in the fragment: with plain text before it the request is built |
| Rest.FragmentControlAccepted | rest.go:75-79 | station id "1#\n" builds the request, so the code as written and the corrected code agree |
| Rest.TokenCutAtFragment | rest.go:75-79 | a '#' in the token: creation fails, and with the same error, exactly as for the token cut at the '#' |
| Rest.FragmentCutsToken | rest.go:75-79 | station id "1\n" with token "a#b" fails with the error of token "a" |
| Rest.PlainHasNoControl | rest.go:77 | plain text holds no control byte |
| Rest.PlainUrl | rest.go:75-77 | a URL built from plain parts can be requested |
| Rest.FetchFixture | rest_test.go:34-68 | a 200 response decoding to the test fixture yields its timestamp, temperature, battery and pressure |
| Rest.FetchUnauthorized | rest_test.go:70-85 | a 401 is an unexpected-status error with the body excerpt |
| Rest.TestTokenIsSafe | rest_test.go:141-154 | the token of the redaction test cannot be spelled by the placeholder |
| Rest.FetchRedactsTransportError | rest_test.go:141-154 | a transport error quoting the URL comes back with the token absent from its cause |
| Rest.FetchReadsAtMostLimit | rest.go:94-98 | bytes past the first MiB of a 200 body never change the result |
| Rest.Decide | rest.go:158-175 | connected clears the marker; the first disconnected tick only records it; later ones poll iff the threshold has passed since the marker |
| Rest.TickStep | rest.go:152-185 | a fallback tick never touches the connection flag, the counters or the rain start |
| Rest.Actions | rest.go:152-185 | one action per tick |
| Rest.PollOutcome | rest.go:175-181 | a successful poll stores the fetched observation; a failed one changes nothing |
| Rest.ConnectedTickClears | rest.go:158-161 | a connected tick clears the marker, does not fetch and changes nothing else |
| Rest.DisconnectedRunState | rest.go:163-167 | while the stream stays down, the marker holds the clock of the first tick and is never reset |
| Rest.DisconnectedRun | rest.go:163-175 | with the stream down, the first tick records, and tick k polls iff the threshold has passed since the first tick, so every later tick polls again |
| Rest.ConnectedRun | rest_test.go:210-240 | while connected, no tick polls and the collector is unchanged |
| Rest.RunKeepsObservation | rest.go:146-187 | once an observation is held, no run of the fallback or of the stream removes it |
| Rest.PollsWhenDisconnected | rest_test.go:173-208 | with threshold 0, the second disconnected tick polls and stores the fetched observation |
| Rest.RestClient.constructor | rest.go:30-45 | the client keeps the token, station and collector and aims at the default base URL |
| Rest.RestClient.Tick | rest.go:156-185 | one tick acts as Decide says and leaves the collector and marker as TickStep gives |
| Rest.RestClient.Interleave | collector.go:174-207 | the stream's writes between two ticks land in order |
| Rest.RestClient.RunFallback | rest.go:146-187 | the collector and the actions after a run of ticks are those of the tick specification, starting with no marker |
| Stream.HandleObsSt | websocket.go:171-193 | an observation is stored iff the message decodes, obs is non-empty and its first frame parses, and it is that frame's observation |
| Stream.StrikeReport | websocket.go:195-211 | a strike is logged iff at least three values and a known distance; it never writes to the collector |
| Stream.HandlePrecip | websocket.go:213-226 | the rain start is set iff evt is non-empty and its first value is known, to that value |
| Stream.Dispatch | websocket.go:156-167 | obs_st goes to handleObsST and evt_precip to handlePrecip; only those two ever write |
| Stream.ReadWrites | websocket.go:132-169 | reading writes only observations and rain starts |
| Stream.LoggedCounts | websocket.go:145-152 | the warnings fire at the counts 1 and multiples of 100, within the range |
| Stream.LoggedCountsFromZero | websocket.go:145-152 | n parse errors from a fresh counter log 1 + n/100 warnings |
| Stream.SessionError | websocket.go:86-129 | invalid device id iff the dial succeeded and the id is not an integer; a read error iff subscribed; a safe token is absent from the cause of every other error |
| Stream.SessionWrites | websocket.go:120-128 | a session that never subscribed writes nothing |
| Stream.NextBackoff | websocket.go:77-80 | doubles the wait, capped at a minute |
| Stream.RunAllPace | websocket.go:47-82 | the waits of a run depend only on the attempts' timing and cancellation |
| Stream.StoppedStays | websocket.go:54-56 | once Run returns, nothing more happens |
| Stream.WaitsBounded | websocket.go:48-80 | every wait lies between one second and one minute |
| Stream.Pow2 | websocket.go:77 | powers of two are positive |
| Stream.NextSchedule | websocket.go:77-80 | the backoff steps through 1, 2, 4, 8, 16, 32, 60, 60, ... seconds |
| Stream.Schedule | websocket.go:71-80 | the schedule has one wait per attempt |
| Stream.QuickFailureSchedule | websocket.go:47-82 | consecutive quick failures wait 1, 2, 4, 8, 16, 32, 60, 60, ... seconds |
| Stream.ScheduleValues | websocket_test.go:445-483 | the first eight waits are 1, 2, 4, 8, 16, 32, 60, 60 seconds |
| Stream.StableSessionResets | websocket.go:61-64 | after a session longer than two minutes the wait is 1 s and the next one 2 s |
| Stream.CountReconnectsAppend | collector.go:189-193 | reconnect increments add up over concatenation |
| Stream.NoReconnectsInSession | websocket.go:124-168 | a session's own writes never count a reconnect |
| Stream.ReconnectsCountCycles | websocket.go:53-59 | the reconnect counter moves by exactly the number of cycles that end without cancellation |
| Stream.InvalidDeviceIdNeverConnects | websocket.go:107-110 | with a non-integer device id the client never reports a connection and only dial or device-id errors occur |
| Stream.BackoffIncreases | websocket_test.go:445-483 | two quick failures from the start wait 1 s then 2 s and count two reconnects |
| Stream.MultipleMessageTypes | websocket_test.go:339-370 | of a control, observation, rain, strike and unknown frame, the observation and the rain start are stored |
| Stream.Client.constructor | websocket.go:36-43 | a new client keeps token, device id and collector, with no parse errors |
| Stream.Client.ReadLoop | websocket.go:132-169 | counts unparseable frames, logs at the rate-limited counts, applies the dispatched writes in order, and returns the redacted read error |
| Stream.Client.ConnectAndRead | websocket.go:86-129 | returns the session's error; on subscribe marks connected, resets the parse-error counter, then reads |
| Stream.Client.Run | websocket.go:47-82 | the waits, errors, parse-error count and collector state are those of the run specification |
| Startup.MatchPlusIff | main.go:24 | a name matches iff it is non-empty and every character is in [a-zA-Z0-9_.-] |
| Startup.ClassNameMatches | main.go:24 | a non-empty name of class characters matches |
| Startup.DefaultNameValid | main.go:51-55 | the default name "tempest" passes the pattern |
| Startup.HyphenAccepted | main_test.go:75-78 | "my-station" passes |
| Startup.UnderscoreAccepted | main_test.go:75-78 | "station_1" passes |
| Startup.DotAccepted | main_test.go:75-78 | "station.name" passes |
| Startup.RefusedNames | main_test.go:79-81 | "bad station", "bad;injection" and "" are refused |
| Startup.SeparatorRefused | main.go:24 | any name with a space or a semicolon is refused |
| Startup.LoadConfig | main.go:41-64 | refuses iff a required variable is empty; reports an invalid name iff a given name fails the pattern; otherwise keeps the token and device and station ids, takes the given name and listen address or "tempest" and ":8080" when they are empty, with a valid name and a non-empty listen address |
| Startup.DefaultsApply | main.go:51-64 | with only the required variables set, the name is "tempest" and the address ":8080" |
| Startup.GivenValuesKept | main.go:51-64 | a valid name and a given address are kept as they are |
| Startup.Healthz | main.go:133-136 | /healthz always answers 200 |
| Startup.Readyz | main.go:137-145 | /readyz answers 200 iff an observation is held, else 503 |
| Startup.ServeReadyz | main.go:137-145 | the handler answers from the collector's observation flag |
| Startup.ReadyAfterObservation | main_test.go:26-55 | a fresh collector is not ready; after an observation it is, whatever follows |
| Startup.StaysReady | main.go:137-145 | readiness, once reached, is never lost |

## Left out

- Network and TLS: dialling, socket reads and writes, HTTP round trips, TLS settings and the per-read timeout. Their outcomes are inputs: `Attempt` for a stream session and `Exchange` for an HTTP round trip.
- JSON decoding: envelopes arrive already decoded as `Message`. The REST body is decoded by a `Decoder` parameter that sees at most the first MiB. The `listen_start` marshal cannot fail and is not modelled.
- Concurrency: the mutex, the atomic parse-error counter, the goroutines, the ticker and context cancellation. Each collector method is one atomic step. Cancellation is a flag of the attempt or the end of the tick sequence. The stream's writes between two fallback ticks are applied by `RestClient.Interleave`, which stands for the other goroutine, not for a loop of rest.go.
- Rest.RestClient.RunFallback: the tick reads the clock once, where the source reads `time.Now` for a new marker and `time.Since` for the threshold check.
- Floating point: finite values are exact reals, so rounding and overflow to infinity are not modelled. The Magnus dew point (`math.Log`) and the wind chill (`math.Pow`) are the uninterpreted functions of `Formulas`. The heat-index polynomial is computed exactly.
- Tempest.ToInt64: takes the range check literally against float64(MaxInt64) = 2^63. The value 2^63 itself passes and its conversion does not fit in an int64; the model returns 2^63 there.
- Rest.RestTimestamp: takes the range check at rest.go:137 literally against float64(MaxInt64) = 2^63. The value 2^63 itself passes, and Go's conversion of it to int64 is implementation-defined (MinInt64 on amd64, a negative timestamp). The model returns 2^63 there. So RestObsToObservation's "timestamp never negative" holds for the model, not for the source at exactly 2^63.
- Decimal.ParseFloat: covers decimal notation only. Hexadecimal floats, "Inf"/"NaN" text, underscores and out-of-range values (which Go reports as an error and toFloat turns into NaN) are not modelled.
- Rest.CreationErrorAsWritten: `url.Parse` is modelled as its cut at the first '#', the control-byte check of the part before it and the quoting of that part; control bytes are the only parse failure modelled, and a bad percent escape in the fragment is not; other malformed URLs are treated as requests that can be built. `strconv.Quote` is modelled for ASCII; non-ASCII characters are copied.
- Startup.LoadConfig: the `net.SplitHostPort` check of the listen address (main.go:65-68) is not modelled; any non-empty address is accepted.
- Logging: only the parse-error rate limit (`ShouldLog`, `LoggedCounts`) and the strike report (`StrikeReport`) are modelled; other `slog` calls are not.
- `Describe` is represented only by the descriptor list `AllDescs`; the channel sends are not modelled.
- Prometheus library details: a metric is a name, value type, value and label values.
- Process wiring in `main`: flags, logging setup, registration, the `/metrics` handler, the HTTP server and signal handling.
- `NewClient`'s WebSocket URL and the HTTP client timeout are not modelled, because the URL and the timeout only matter to the network layer.

## Findings

| source | as written | input that shows it | evidently intended | confidence | as-written member | corrected member |
|---|---|---|---|---|---|---|
| rest.go:77-79 | the request-creation error is returned unredacted; the `url.Error` it wraps quotes the URL up to any '#', token included | station id "1\n" and token "abc": the control byte makes parsing fail, and the error text carries "?token=abc" | redact the token as the transport-error path at rest.go:84-86 does | not executed | Rest.FetchObservationAsWritten, Rest.AsWrittenLeaksToken, Rest.LeakExample | Rest.FetchObservation, Rest.CorrectedHidesToken |
