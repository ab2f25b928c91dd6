# Stabilizer exercise chart, modelled in Dafny

Stabilizer is a Next.js application for pressure-biofeedback exercise. A
physiotherapist (or a client at home) pairs a pressure sensor over MQTT,
picks an exercise mode, and runs a session. The session counts down work
and rest phases for a number of repetitions. It charts every new pressure
reading, warns when the reading exceeds the mode's band, and finally shows
a summary. The therapist's readings are stored in a hosted database.

This project models the core of that application:

- `session.dfy` (module `Session`): the chart page's session controller
  as a pure state machine, in both variants. The therapist's page
  (`Chart.tsx`) waits for the sensor's start message and stores readings.
  The client's page (`ClientChart.tsx`) starts counting at once and plays a
  cue at each phase change. The page's React effects (device lookup, broker
  set-up, countdown, finish cue) re-run after a handler exactly when one of
  their dependencies changed; `Settle` composes them in declaration order.
- `controller.dfy` (module `Controller`): the same page as a `class Chart`
  whose fields are the component's state. Every handler is a method proved
  to move the object exactly as the `Session` function of the same event.
  `RunClientSession` drives a whole client session on the object.
- `countdown.dfy` (module `Countdown`): the interval's phase arithmetic
  (work, rest, done) and the sequence of phases a countdown visits.
- `bands.dfy` (module `Bands`): the pressure bands, the gauge and the
  end-of-session summary.
- `telemetry.dfy` (module `Telemetry`): the `MQTT` class, with a log of
  subscriptions and publications standing in for the broker.
- `firebase.dfy`, `data_action.dfy`, `chart_action.dfy`: the server
  actions `getDbFirebase`, `storeData`, `saveDevice`, `getDevice`,
  `saveTimer`, `getTimer`. The hosted database is a JSON tree served with
  REST semantics (read, shallow read, push, merge, replace, delete).
- `modes.dfy`, `middleware.dfy`: the mode whitelists and the request
  middleware.
- `text.dfy`, `json.dfy`: JavaScript truthiness, `toLowerCase`,
  `includes`, path splitting and JSON values.

Time, the signed-in user, environment variables and the database's
reachability are parameters. Sounds, broker messages and server calls that
the page starts are appended to the state's `effects` log instead of being
performed. Two handlers wait for a server call before they change state:
`handleEditSubmit` (src/components/Chart.tsx:282-288,
src/components/ClientChart.tsx:238-245) and the client's timer confirmation
(src/components/ClientChart.tsx:894). `Session.EditSubmit` and
`Session.TimerConfirm` log the request and apply the later state changes in
one step, so events arriving while the call is pending are not interleaved.

## Model

| member | source | states |
|---|---|---|
| Text.Lower | src/lib/utils.ts:13 | `toLowerCase` keeps the length and lowers every character on its own (ASCII capitals only) |
| Text.LowerIdempotent | src/lib/utils.ts:13 | lowering twice is lowering once |
| Text.ReplaceChar | src/actions/data.action.ts:15 | the result has the input's length; each `from` becomes `to` and every other character is kept |
| Json.PatchThenGet | src/actions/data.action.ts:133 | after the database merges fields into a node, each merged field reads back as written |
| Json.PatchKeeps | src/actions/chart.action.ts:19 | a merge keeps every child of the node that it does not name |
| Json.SetAtElsewhere | src/actions/data.action.ts:32 | writing at one path leaves every location on a diverging path unchanged |
| ModeLists.CheckAvailableModeIgnoresCase | src/lib/utils.ts:8-17 | `checkAvailableMode` gives the same answer for labels that differ only in letter case |
| ModeLists.ChartModeExamples | src/lib/utils.ts:9-13 | "Custom" and "CLIENT" are accepted; "Cervical Extension" is refused |
| ModeLists.CheckAvailableIgnoresCase | src/app/modes/page.tsx:19-28 | `checkAvailable` ignores letter case |
| ModeLists.PageRejectsLinkedModes | src/app/modes/page.tsx:20-24 | the page's list refuses "client" and the app's own "Cervical Flexion" and "Thoracic Extension" links, which the chart list accepts |
| ModeLists.IntendedAcceptsLinkedModes | src/components/Modes.tsx:24 | the corrected list accepts both refused links |
| ModeLists.IntendedWithinChartModes | src/lib/utils.ts:9-12 | the corrected list still refuses "client", and every label it accepts is a chart mode |
| ModeLists.CheckAvailableMode | src/lib/utils.ts:8-17 | `checkAvailableMode`: the lower-cased label is one of the ten chart modes (a definition; its properties are the lemmas below) |
| ModeLists.CheckAvailable | src/app/modes/page.tsx:19-28 | `checkAvailable` as written: the lower-cased label is one of the page's nine listed modes (a definition) |
| ModeLists.ModesPageAsWritten | src/app/modes/page.tsx:5-17 | the page as written renders exactly for a non-empty mode `checkAvailable` accepts, and then for that mode; it redirects home otherwise |
| ModeLists.ModesPage | src/app/modes/page.tsx:5-17 | the page with the corrected list renders exactly for a non-empty mode that list accepts, and then for that mode; every mode it renders is also a chart mode |
| ModeLists.FlexionLinkRedirects | src/components/Modes.tsx:24 | the app's own "Cervical Flexion" link is sent home by the page as written and renders the patient list with the corrected list |
| Middleware.IsApi | src/middleware.ts:17 | a path under "/api" or "/trpc" (a definition) |
| Middleware.IsStatic | src/middleware.ts:18 | a path under "/_next" or one containing '.' (a definition) |
| Middleware.IsAvailable | src/middleware.ts:19 | a path that starts with one of the listed page prefixes, "/" included (a definition) |
| Middleware.Decide | src/middleware.ts:8-27 | as written, API and static requests pass on, and so does every path that begins with '/' |
| Middleware.NeverRedirects | src/middleware.ts:9-19 | because "/" is a prefix, every path starting with '/' passes, so the redirect is dead code |
| Middleware.UnknownPagePasses | src/middleware.ts:19-21 | "/unknown" passes as written |
| Middleware.DecideIntended | src/middleware.ts:19-25 | with "/" matched exactly: API and static requests and the home page pass on; a path is sent home exactly when it is none of these and matches none of the other page prefixes |
| Middleware.IntendedDecisions | src/middleware.ts:8-25 | with the intended check every listed page and its sub-pages pass and "/unknown" is redirected |
| Middleware.IntendedNarrows | src/middleware.ts:19 | whatever the intended check lets through, the written one does too |
| Firebase.QueryString | src/actions/firebase.action.ts:11 | the query part is empty iff the query is, else "?" then the query |
| Firebase.RequestOptions | src/actions/firebase.action.ts:16-23 | JSON content type always; a body iff the method is not GET or HEAD and the payload is not null, and then the body is the payload |
| Firebase.Serve | src/actions/firebase.action.ts:24-35 | the database's answer: reads change nothing; a push stores under a fresh key and returns it; replace and delete write the path; a merge patches it; a write without a body changes nothing and yields null |
| Firebase.Url | src/actions/firebase.action.ts:14 | the request URL: the address, '/', the path, ".json", then the query part (a definition) |
| Firebase.Database.RequestsFor | src/actions/firebase.action.ts:12-14 | one request, with the call's options, is sent iff the address is set and non-empty; an unset or empty address sends nothing |
| Firebase.Database.GetDbFirebase | src/actions/firebase.action.ts:3-40 | an unset or empty address means nothing is sent and the result is null; a failed response means null and an unchanged tree; otherwise the database serves the request at the path's segments |
| DataActions.SessionKey | src/actions/data.action.ts:15 | the key exists iff the start time does, has its length, contains no '/', and keeps every other character |
| DataActions.SessionKeyTruthy | src/actions/data.action.ts:15-18 | the key is truthy iff the start time is |
| DataActions.CheckRecord | src/actions/data.action.ts:17-20 | the checks pass iff patient, start, mode and user are all truthy; otherwise the first failing check, in the source's order, gives its reply |
| DataActions.UserPath | src/actions/data.action.ts:23 | the user's node, "users/" then the user id (a definition; see UserPathSegments) |
| DataActions.DevicePath | src/actions/data.action.ts:158 | the user's node followed by "/device" (a definition; see DevicePathSegments) |
| DataActions.DataPath | src/actions/data.action.ts:32 | "data", the user, the lower-cased patient, and mode_key, joined by '/' (a definition; see DataPathSegments) |
| DataActions.KeyCount | src/actions/data.action.ts:24 | a positive key count means the reply is an object |
| DataActions.StoredValue | src/actions/data.action.ts:28-31 | the posted value has exactly the timestamp and pressure of the sample |
| DataActions.ShallowUserKnown | src/actions/data.action.ts:23-27 | the shallow read finds keys iff the user's node has some |
| DataActions.DataPathSegments | src/actions/data.action.ts:32 | the sample location splits into data, user, lower-cased patient, and mode_key |
| DataActions.UserPathSegments | src/actions/data.action.ts:23 | the user's node is read at the two segments "users" and the user id |
| DataActions.DevicePathSegments | src/actions/data.action.ts:158 | the device entry lies one segment below the user's node |
| DataActions.StoreData | src/actions/data.action.ts:9-47 | a failed check returns its reply and touches nothing; for a known user the sample is pushed under the session node; otherwise "Cannot Insert Data" |
| DataActions.SaveDevice | src/actions/data.action.ts:116-149 | an empty name or a missing user are refused first; a known user's node gets `device` merged in; otherwise "Cannot Insert Device" |
| DataActions.GetDevice | src/actions/data.action.ts:151-175 | a truthy stored device is returned; a falsy or unreachable one is "Device Not Found"; without a user, "User not found" |
| DataActions.DeviceRoundTrip | src/actions/data.action.ts:151-162 | a merged device name reads back from the device entry, truthy iff non-empty |
| DataActions.StoredSampleReadable | src/actions/data.action.ts:28-32 | a stored sample reads back at its pushed key below the session node |
| DataActions.SaveThenGetDevice | src/actions/data.action.ts:116-175 | saving a device for a known user and reading it back yields that device |
| Json.ToNumber | src/actions/chart.action.ts:46-52 | `Number` of a stored value: a number is itself, an object is NaN, a string is finite iff it is all digits (then non-negative), and "" is 0 |
| Json.ToNumberOfRendered | src/actions/chart.action.ts:48-50 | `Number` reads a natural number's decimal rendering back as that number |
| Text.DecimalOfNatToString | src/actions/chart.action.ts:48-50 | the decimal rendering of a natural number is all digits, and its value is the number |
| ChartActions.IsObjectWithKeys | src/actions/chart.action.ts:67-76 | an object that has every listed key |
| ChartActions.TimerFields | src/actions/chart.action.ts:14-19 | exactly the keys reps, timer and rest, with the given numbers |
| ChartActions.PresetOf | src/actions/chart.action.ts:46-52 | a preset exists iff the reply has all three keys, and then each field passes through `Number` |
| ChartActions.SaveTimer | src/actions/chart.action.ts:7-30 | ok iff a user is signed in; then the three fields are merged into the user's node when the database answers |
| ChartActions.GetTimer | src/actions/chart.action.ts:32-65 | defaults without a user; the stored preset when complete; otherwise the defaults, which are then saved |
| ChartActions.TimerRoundTrip | src/actions/chart.action.ts:19-52 | a saved preset reads back as saved |
| ChartActions.PresetAndDeviceCoexist | src/actions/chart.action.ts:19 | saving a preset keeps the device entry, and saving a device keeps the preset |
| ChartActions.GetTimerTwice | src/actions/chart.action.ts:41-56 | two reads in a row return the same preset, since a missing one is saved by the first |
| Telemetry.OrUndefined | src/components/MQTT.tsx:22-26 | a truthy setting is used as is, anything else reads "undefined" |
| Telemetry.DeviceTopic | src/components/MQTT.tsx:41-43 | the per-sensor topic is the prefix, '/', then the sensor name |
| Telemetry.DeviceTopicInjective | src/components/MQTT.tsx:41-43 | two sensors never share a per-sensor topic under one prefix |
| Telemetry.Active | src/components/MQTT.tsx:47-49 | a topic subscribed last is active; one unsubscribed last is not |
| Telemetry.ActiveAppend | src/components/MQTT.tsx:78-79 | subscribing adds a topic, unsubscribing removes it, publishing keeps the set |
| Telemetry.Route | src/components/MQTT.tsx:102-120 | data goes to the data callback iff it arrives on the data topic with `pressure` or on the device topic with `device`; start goes to the start callback iff `start` is exactly 1; malformed or other messages go nowhere |
| Telemetry.CommandPayload | src/components/MQTT.tsx:131-135 | the command carries message "ok", the pressure and the mode, and nothing else |
| Telemetry.OfferedName | src/components/MQTT.tsx:36-39 | a name is offered iff the reply is a non-empty device string (other truthy values: see Left out) |
| Telemetry.PairPayload | src/components/MQTT.tsx:141-144 | the pairing request carries the message "Pair Request" and nothing else |
| Telemetry.RebindIdempotent | src/components/MQTT.tsx:39 | `init` with a reply naming the sensor the client is already bound to leaves the client unchanged: the same log of operations and the same topics |
| Telemetry.Mqtt.Create | src/components/MQTT.tsx:18-33 | no client iff the pairing or announcement topic is unset; otherwise a fresh, unbound, unconnected client |
| Telemetry.Mqtt.OnConnect | src/components/MQTT.tsx:76-80 | connecting subscribes to the pairing and announcement topics |
| Telemetry.Mqtt.Disconnect | src/components/MQTT.tsx:122-127 | the client is disconnected and nothing else changes |
| Telemetry.Mqtt.Init | src/components/MQTT.tsx:35-62 | a new sensor name moves the three per-sensor topics to it, unsubscribing the old ones when already bound; any other reply changes nothing |
| Telemetry.Mqtt.SubscribeToDynamicTopics | src/components/MQTT.tsx:86-90 | the three per-sensor topics become active |
| Telemetry.Mqtt.OnMessageArrived | src/components/MQTT.tsx:102-120 | data is delivered only from the data or device topic, a start only from the start topic |
| Telemetry.Mqtt.PublishCommand | src/components/MQTT.tsx:129-138 | the command is published on the command topic iff connected |
| Telemetry.Mqtt.Pair | src/components/MQTT.tsx:140-147 | the pairing request is published on the pairing topic iff connected |
| Telemetry.BoundTopicsNonEmpty | src/components/MQTT.tsx:46 | once bound, the per-sensor topics are never empty |
| Telemetry.InitTwice | src/components/MQTT.tsx:35-62 | binding twice with one reply leaves the client exactly as one binding does: unchanged when the reply names no new sensor, otherwise bound to it, with its three topics subscribed after unsubscribing the old three when already bound |
| Telemetry.ActiveRebind | src/components/MQTT.tsx:45-56 | unsubscribing three topics and subscribing three leaves exactly the new three added to the rest |
| Telemetry.RebindMovesSubscriptions | src/components/MQTT.tsx:35-62 | after a rebind the old per-sensor topics are replaced by the new ones among the active subscriptions |
| Bands.FindFrom | src/components/Chart.tsx:187 | `modes.find`: the first index from `i` on whose band name occurs in the text, none iff no later band matches |
| Bands.ActiveMode | src/components/Chart.tsx:187 | the first band, in list order, whose name occurs in the lower-cased label; none iff no band matches |
| Bands.CommandBase | src/components/Chart.tsx:268 | the active band's lower limit, or 0 without one |
| Bands.SafePressure | src/components/Chart.tsx:191 | the reading clamped to [0, 100], unchanged inside it |
| Bands.GaugeColour | src/components/Chart.tsx:192-199 | red iff above the band, green iff within it, amber iff no band or below it |
| Bands.SetCustom | src/components/Chart.tsx:817 | only the "custom" entry takes the new limits; order and length are kept |
| Bands.NonZero | src/components/Chart.tsx:737 | exactly the non-zero readings are kept |
| Bands.SeqMin | src/components/Chart.tsx:738 | an element no greater than any other |
| Bands.SeqMax | src/components/Chart.tsx:739 | an element no smaller than any other |
| Bands.Summarize | src/components/Chart.tsx:729-745 | count and sum of all readings; least and greatest over the non-zero readings, absent iff there are none; elapsed time end minus begin when both instants are set and non-zero, and 0 otherwise |
| Countdown.Remaining | src/components/Chart.tsx:377 | never negative; zero iff the deadline has passed; otherwise now plus it is the deadline |
| Countdown.NextPhase | src/components/Chart.tsx:394-423 | with more than one repetition, work becomes rest with the same count and rest becomes work with one fewer; otherwise done |
| Countdown.Run | src/components/Chart.tsx:375-425 | a countdown visits `Steps` phases, none of them done |
| Countdown.RestCounts | src/components/Chart.tsx:394-415 | from a rest with n > 1 counted, n - 1 work phases and n - 1 rests remain |
| Countdown.WorkCounts | src/components/Chart.tsx:394-423 | a countdown begun with n repetitions works max(n, 1) times and rests once fewer |
| Countdown.RunAlternates | src/components/Chart.tsx:394-415 | each phase of a run is followed by its `NextPhase` |
| Session.TherapistInitial | src/components/Chart.tsx:65-79 | the therapist's page mounts idle, with 5 s work, 3 s rest, 3 repetitions, the device lookup pending, and the telemetry client's own binding requested (MQTT.tsx:32) |
| Session.ClientInitial | src/components/ClientChart.tsx:54-79 | the client's page mounts idle with its stored preset; `isReady` starts set, which disables Start; a sensor is paired iff one was given |
| Session.AppendIfNew | src/components/Chart.tsx:213-221 | a reading equal to the last is skipped, any other appended; no two adjacent readings are then equal |
| Session.AddCandidate | src/components/Chart.tsx:228-234 | an announced sensor is appended unless listed; the list stays free of repeats |
| Session.LookupEffect | src/components/Chart.tsx:169-185 | the lookup marks itself pending and requests the stored device iff the dialog or the selection changed on the therapist's page |
| Session.BrokerEffect | src/components/Chart.tsx:254-264 | the broker set-up is requested iff its dependency changed, the page has a label and no dialog is open |
| Session.CountdownEffect | src/components/ClientChart.tsx:349-361 | when flag, started or work time changed, a countdown starts exactly for an active session (the therapist's once started), with the displayed repetitions and no rest mark; otherwise it stops |
| Session.FinishEffect | src/components/Chart.tsx:430-437 | the end time is stamped and the finish cue requested iff flag or started changed and the session ended with its summary due |
| Session.Settle | src/components/Chart.tsx:363-437 | after any handler: the session flags, page, repetitions, chart and candidates are kept, and the countdown, finish and lookup behave as their effects say |
| Session.EffectsIndependent | src/components/Chart.tsx:363-437 | no effect changes a condition a later effect tests |
| Session.SettleFrame | src/components/Chart.tsx:169-185 | settling changes only what the effects set, and stamps the end time iff the finish effect fires |
| Session.SettleCountdown | src/components/Chart.tsx:363-374 | the countdown after settling matches the countdown effect's contract |
| Session.SettleAppends | src/components/ClientChart.tsx:349-427 | settling appends the effects' requests in declaration order after those already made |
| Session.SettleRequests | src/components/Chart.tsx:430-437 | earlier requests are kept; the lookup is requested when it re-runs; the finish cue sounds iff the finish effect fires |
| Session.AddedFinishes | src/components/Chart.tsx:430-437 | the finish cue is among the added requests iff the finish effect fires |
| Session.CommandsFor | src/components/Chart.tsx:266-272 | Start sends the band command (lower limit + 2, label) iff the page has a label and a band with a non-zero lower limit |
| Session.OpenPairing | src/components/Chart.tsx:516-523 | the dialog opens and the pairing request is sent when the page has a label; the session is untouched |
| Session.TherapistStart | src/components/Chart.tsx:489-509 | ignored while looking up or in a session; opens pairing without a sensor; otherwise a cleared, active, not yet started session with its repetitions reset, start time and band command |
| Session.ClientStart | src/components/ClientChart.tsx:305-325 | ignored in a session; opens pairing without a sensor; otherwise a started session in its first work phase with every repetition and the start cue |
| Session.StopAsWritten | src/components/Chart.tsx:510-515 | stop ends the session and the countdown, resets the gauge and makes the summary due, but keeps the rest mark |
| Session.Stop | src/components/Chart.tsx:510-515 | the corrected stop also clears the rest mark; stopping an active session stamps the end time and sounds the finish cue; the countdown is done |
| Session.ClientStartButton | src/components/ClientChart.tsx:469-472 | the client's Start does nothing while `isReady` is set (`disabled={isReady}`), else starts |
| Session.ClientSignal | src/components/ClientChart.tsx:195-201 | a zero timestamp stops; any other starts |
| Session.StartSignal | src/components/Chart.tsx:239-245 | the sensor's start message starts the countdown of an active, waiting, non-resting session with the start cue; otherwise it is ignored |
| Session.IsReading | src/components/Chart.tsx:207 | data the callback takes as a reading: a numeric `pressure` field (a definition) |
| Session.IsAnnouncement | src/components/Chart.tsx:228 | data the callback takes as an announcement: a string `device` field (a definition) |
| Session.RecordOf | src/components/Chart.tsx:222-226 | the stored record carries the reading, its time, the start time, the patient and the label |
| Session.CueBand | src/components/Chart.tsx:187-208 | the over-pressure cue compares with the band of the initial list, as the callback captured it at mount |
| Session.DataEvent | src/components/Chart.tsx:206-237 | a numeric reading during a running, non-resting session moves the gauge, is charted unless repeated, may sound the cue, and is stored on the therapist's page; a string announcement adds a candidate; anything else is ignored |
| Session.Tick | src/components/Chart.tsx:375-425 | before the deadline nothing changes; at it, work turns to rest and rest to work with one fewer repetition, or the session ends with none remaining |
| Session.CustomConfirm | src/components/Chart.tsx:811-822 | with both limits given and non-zero, only the "custom" band changes; otherwise nothing |
| Session.TimerConfirm | src/components/ClientChart.tsx:887-903 | with all three values non-zero, the work time, rest and repetitions take them, and the client saves the preset and its rest cue; otherwise nothing |
| Session.SelectDevice | src/components/Chart.tsx:699 | the choice is recorded; on the therapist's page a new choice re-runs the lookup |
| Session.DismissDialog | src/components/Chart.tsx:678 | the dialog closes; the session is untouched |
| Session.EditSubmit | src/components/ClientChart.tsx:236-247 | with a label and a choice, the choice is saved and the dialog closes; the client also pairs it at once |
| Session.DeviceLoaded | src/components/Chart.tsx:172-182 | the therapist's lookup completing pairs a stored sensor and enables Start |
| Session.PairPressed | src/components/Chart.tsx:516-523 | Pair is ignored during a session, else opens pairing |
| Session.Step | src/components/Chart.tsx:489-523 | every event preserves the page invariant |
| Session.Replay | src/components/Chart.tsx:363-437 | any sequence of events preserves the page invariant |
| Session.TickFollowsCountdown | src/components/Chart.tsx:394-423 | at the deadline the page moves to the phase `NextPhase` names |
| Session.TickBeforeDeadline | src/components/Chart.tsx:377-394 | before the deadline a firing changes nothing |
| Session.WaitingIgnoresReadings | src/components/Chart.tsx:207 | while the therapist's session waits for the sensor, readings are neither charted nor shown |
| Session.StoredRecordsPassChecks | src/components/Chart.tsx:223-226 | a stored reading passes `storeData`'s checks iff a user is signed in |
| Session.StopDuringRestStrands | src/components/Chart.tsx:510-515 | stop during rest, Start, start message: as written the session never starts; corrected, it starts its first work phase |
| Session.Expire | src/components/Chart.tsx:375-425 | firing at the deadline preserves the invariant |
| Session.ExpireN | src/components/Chart.tsx:375-425 | any number of deadlines preserve the invariant |
| Session.ExpireNNext | src/components/Chart.tsx:375-425 | one more deadline after k is one expiry of the state after k |
| Session.ExpireFollowsCountdown | src/components/Chart.tsx:394-423 | each deadline moves the page to the next phase |
| Session.SessionFollowsRun | src/components/Chart.tsx:375-425 | deadline after deadline the page visits exactly the phases of `Countdown.Run` |
| Session.SessionEnds | src/components/Chart.tsx:416-423 | after as many deadlines as its countdown has phases, a running session has ended with its summary due |
| Session.ClientSessionCounts | src/components/ClientChart.tsx:349-418 | a client session started with n repetitions works max(n, 1) times, rests once fewer, and ends |
| Session.Gauge | src/components/ClientChart.tsx:140-152 | the gauge shows the clamped reading and the colour of the band the current list selects |
| Session.Pressures | src/components/Chart.tsx:736-737 | the readings of the chart in order |
| Session.SummaryOf | src/components/Chart.tsx:719 | the summary is taken over the chart and the session's two instants |
| Session.StopStampsSummary | src/components/Chart.tsx:741-744 | stopping a running session makes the elapsed time run from the countdown's start to the stop |
| Controller.Chart.Therapist | src/components/Chart.tsx:60-79 | the object starts in the therapist's initial state, with the lookup and the telemetry binding requested, which satisfies the invariant |
| Controller.Chart.Client | src/components/ClientChart.tsx:54-79 | the object starts in the client's initial state, which satisfies the invariant |
| Controller.Chart.RunEffects | src/components/Chart.tsx:363-437 | the effects leave the object in `Session.Settle` of its state |
| Controller.Chart.Lookup | src/components/Chart.tsx:169-185 | the object takes `LookupEffect` of its state |
| Controller.Chart.BrokerInit | src/components/Chart.tsx:254-264 | the object takes `BrokerEffect` of its state |
| Controller.Chart.RunCountdown | src/components/Chart.tsx:363-374 | the object takes `CountdownEffect` of its state |
| Controller.Chart.BeginCountdown | src/components/ClientChart.tsx:353-361 | the countdown starts its first work phase and nothing else changes |
| Controller.Chart.Finish | src/components/Chart.tsx:430-437 | the object takes `FinishEffect` of its state |
| Controller.Chart.OpenPairing | src/components/Chart.tsx:516-523 | the object moves as `Session.OpenPairing` |
| Controller.Chart.StartPressed | src/components/Chart.tsx:489-509 | the object moves as the variant's Start and keeps the invariant |
| Controller.Chart.TherapistStartPressed | src/components/Chart.tsx:489-509 | the object moves as `Session.TherapistStart` |
| Controller.Chart.Start | src/components/ClientChart.tsx:305-325 | the object moves as `Session.ClientStart` |
| Controller.Chart.Stop | src/components/Chart.tsx:510-515 | the object moves as the corrected `Session.Stop` and keeps the invariant |
| Controller.Chart.ClientStartMessage | src/components/ClientChart.tsx:195-201 | the object moves as `Session.ClientSignal` |
| Controller.Chart.StartMessage | src/components/Chart.tsx:239-245 | the object moves as `Session.StartSignal` |
| Controller.Chart.DataMessage | src/components/Chart.tsx:206-237 | the object moves as `Session.DataEvent` |
| Controller.Chart.Reading | src/components/Chart.tsx:207-227 | an accepted reading moves the object as `Session.DataEvent` |
| Controller.Chart.TimerFired | src/components/Chart.tsx:375-425 | the object moves as `Session.Tick` and keeps the invariant |
| Controller.Chart.BeginRest | src/components/Chart.tsx:396-402 | a work phase expiring moves the object as `Session.Tick` |
| Controller.Chart.EndRest | src/components/Chart.tsx:403-415 | a rest expiring moves the object as `Session.Tick` |
| Controller.Chart.LastExpiry | src/components/Chart.tsx:416-423 | the last phase expiring moves the object as `Session.Tick` |
| Controller.Chart.CustomConfirmed | src/components/Chart.tsx:811-822 | the object moves as `Session.CustomConfirm` |
| Controller.Chart.TimerConfirmed | src/components/ClientChart.tsx:887-903 | the object moves as `Session.TimerConfirm` and keeps the invariant |
| Controller.Chart.DeviceChosen | src/components/Chart.tsx:699 | the object moves as `Session.SelectDevice` |
| Controller.Chart.DialogDismissed | src/components/Chart.tsx:678 | the object moves as `Session.DismissDialog` |
| Controller.Chart.EditSubmitted | src/components/ClientChart.tsx:236-247 | the object moves as `Session.EditSubmit` |
| Controller.Chart.DeviceFetched | src/components/Chart.tsx:172-182 | the object moves as `Session.DeviceLoaded` |
| Controller.Chart.PairButton | src/components/Chart.tsx:516-523 | the object moves as `Session.PairPressed` |
| Controller.Chart.Handle | src/components/Chart.tsx:489-523 | any event moves the object as `Session.Step` |
| Controller.Chart.HandleDialog | src/components/Chart.tsx:678-714 | a dialog event moves the object as `Session.Step` |
| Controller.RunClientSession | src/components/ClientChart.tsx:349-418 | driving a client session to its end visits exactly the phases of `Countdown.Run` for the page's repetitions, and ends with the summary due |

## Left out

- Letter case: `toLowerCase` is modelled for ASCII letters only.
- Floating point: the ring percentages, the average pressure and the elapsed seconds are not modelled. The summary keeps the sum, the count and the elapsed milliseconds instead.
- Display-only state: the timer ring (`timeLeft`, `percent`), `setWaiting`, the ring colours and the locale-formatted dates.
- Dialogs, toasts and warnings are not modelled; only their effect on the state is.
- Audio: playback, the preloaded cache and the "skip if playing" check are left out. Every cue is a `Play` entry in `effects`, and whether the warning already plays is a parameter.
- The client's start message is delivered to a `start` function captured when the page mounted. The model runs the current `start` instead.
- The client's numeric start time (`setTime`) is left out. The client's data callback copies it into a reading record (src/components/ClientChart.tsx:174), but that record is never sent anywhere.
- MQTT transport: connection, reconnection, the random client id and the broker address are outside the model. The broker is a log of operations. JSON parsing yields `Message` values.
- The client page's mount-time telemetry binding is not in `Session.ClientInitial`: the client page constructs `MQTT` with five arguments (including a ready flag and the client start callback). The `MQTT.tsx` file in this model takes two. The readiness and client-start messages are modelled as page events, `ReadyChanged` and `ClientStartMessage`.
- Sign-in (`auth`, `currentUser`) is a parameter `Option<string>`. Both must be present, so they are one value.
- The dialogs read their numbers with `valueAsNumber` (src/components/Chart.tsx:813-814 and 897-899, src/components/ClientChart.tsx:889-891), which can be fractional. Here the seconds, repetitions and pressure limits entered are integers, and an empty field is `None`.
- `Number()` on strings that are not plain digits, on floats and on exponents is NaN or left out. JSON arrays and non-integer numbers are not modelled.
- The database's push keys are "-N" plus a counter, not its timestamp-based format.
- `try`/`catch`: the thrown errors of the server actions (other than a failed fetch, which yields null) are left out.
- Cache tags and `revalidateTag` are not modelled.
- The middleware's `matcher` configuration is not modelled. The decision function is modelled on its own.
- Telemetry.OfferedName: only a non-empty string reply is offered as a sensor name. `init` also rebinds to any other truthy stored value (a number 7 would bind ".../7"), which the model does not render. `saveDevice` only ever stores strings. `Telemetry.Mqtt.Init` inherits this.
- ModeLists.IntendedAcceptsLinkedModes: states only the two links the written list refuses, not all nine linked labels.
- Session.Stop: is the corrected stop, used for both variants. For the client, the written stop is harmless, because the client's countdown clears the rest mark when it starts.

## Findings

| source | as written | input that shows it | evidently intended | confidence | as-written member | corrected member |
|---|---|---|---|---|---|---|
| src/app/modes/page.tsx:20-23 | the whitelist lists "cervical extension" and the misspelt "thoracic extention" | the app's own link `/modes?mode=Cervical Flexion` (src/components/Modes.tsx:24) redirects home | the list of the modes the application links to | medium, not executed | ModeLists.PageRejectsLinkedModes | ModeLists.IntendedAcceptsLinkedModes |
| src/middleware.ts:9-19 | "/" is one of the prefixes matched with `startsWith` | "/unknown" is passed on, not redirected; no path is ever redirected | "/" matched exactly, the other pages by prefix | high, not executed | Middleware.NeverRedirects | Middleware.IntendedDecisions |
| src/components/Chart.tsx:510-515 | Stop clears `flag` and `started` but not the rest mark | stop during a rest, press Start, receive the sensor's start message: the start is ignored and the session never counts down | stop also clears the rest mark | high, not executed | Session.StopAsWritten | Session.Stop |
