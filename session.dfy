/** The exercise-session controller of the chart page, in both variants:
    the therapist's (src/components/Chart.tsx), which waits for the sensor's
    start message before counting down and stores every reading, and the
    client's (src/components/ClientChart.tsx), which starts counting at once
    and plays a cue at every phase change.

    The component's state is a `State` value. Every handler is one atomic
    step from a state to the next; the effects the page declares (the
    countdown, the finish cue, the device lookup and the broker set-up) run
    after a step exactly when one of the values they depend on changed, as
    `Settle` states. Sounds, broker messages and server calls the page
    starts are appended to `effects`. */
module Session {
  import opened Text
  import opened Json
  import opened Bands
  import opened Countdown
  import DataActions

  datatype Variant = Therapist | Client

  /** The page's parameters: the variant, the mode label and the patient
      id (the client's page has none). */
  datatype Page = Page(variant: Variant, title: string, patient: string)

  /** One stored reading of the session's chart. */
  datatype Sample = Sample(pressure: int, timestamp: string)

  /** The repetition display and the count it is reset to. */
  datatype Reps = Reps(remaining: int, total: int)

  /** The rest length in seconds and whether a rest phase is in progress. */
  datatype Sleep = Sleep(duration: int, resting: bool)

  /** The running countdown: its wall-clock deadline (absent when no
      countdown runs), its own repetition counter, and the work length,
      rest length and rest cue fixed when it was set up. */
  datatype Clock = Clock(target: Option<int>, repsLeft: int, workMs: int, restMs: int, cue: string)

  /** The paired sensor, the pairing dialog, the sensor chosen in it and
      whether the therapist's lookup of the stored sensor is pending. */
  datatype Pairing = Pairing(activeDevice: Option<Json>, dialogOpen: bool, selected: Option<string>, fetching: bool)

  /** What the page asks of the world outside it. */
  datatype Effect =
    | Play(sound: string)
    | Command(pressure: int, mode: string)
    | PairRequest
    | Store(record: DataActions.PressureRecord)
    | SavePreset(reps: int, timer: int, rest: int)
    | SaveDevice(device: string)
    | FetchDevice
    | InitTelemetry

  const StartSound: string := "/sounds/oplata.m4a"
  const WarningSound: string := "/sounds/warning.m4a"
  const FinishSound: string := "/sounds/cizem.m4a"
  const DefaultRestSound: string := "/sounds/rest.m4a"

  /** The pressure the gauge shows before and after a session. */
  const Baseline: int := 25

  /** The page's state: `flag` (a session is active), `started` (its
      countdown runs), `isFinish` (the summary is due), the work time in
      seconds, the gauge reading, the chart, the announced sensors, whether
      the client's Start is disabled (`isReady`), the client's rest cue,
      the therapist's session start time and the summary's instants. */
  datatype State = State(
    page: Page,
    modes: seq<Mode>,
    flag: bool,
    started: bool,
    isFinish: bool,
    timeValue: int,
    reps: Reps,
    sleep: Sleep,
    clock: Clock,
    pressure: int,
    samples: seq<Sample>,
    devices: seq<string>,
    pairing: Pairing,
    isReady: bool,
    restSound: string,
    startStamp: Option<string>,
    beginTime: Option<int>,
    endTime: Option<int>,
    effects: seq<Effect>)

  /** `!activeDevice` is false: a sensor is paired. */
  predicate Present(d: Option<Json>) {
    d.Some? && TruthyValue(d.value)
  }

  /** The therapist's page as mounted: 5 s of work, 3 s of rest, 3
      repetitions, the lookup of the stored sensor under way, and the
      telemetry client's own binding to the stored sensor (its constructor
      starts `init`; the broker effect's first run returns early). */
  function TherapistInitial(title: string, patient: string): (s: State)
    ensures Inv(s) && PhaseOf(s) == Done && !s.flag
    ensures s.page.variant == Therapist && s.pairing.fetching && s.effects == [FetchDevice, InitTelemetry]
    ensures s.timeValue == 5 && s.sleep.duration == 3 && s.reps == Reps(3, 3)
  {
    State(Page(Therapist, title, patient), InitialModes, false, false, false, 5, Reps(3, 3),
      Sleep(3, false), Clock(None, 3, 0, 0, DefaultRestSound), Baseline, [], [],
      Pairing(None, false, None, true), false, DefaultRestSound, None, None, None, [FetchDevice, InitTelemetry])
  }

  /** The client's page as mounted with its stored preset and paired
      sensor; `isReady` starts set, and Start is disabled while it is. */
  function ClientInitial(title: string, reps: int, timer: int, rest: int, device: Option<string>): (s: State)
    ensures Inv(s) && PhaseOf(s) == Done && !s.flag
    ensures s.page.variant == Client && s.isReady && s.effects == []
    ensures s.timeValue == timer && s.sleep.duration == rest && s.reps == Reps(reps, reps)
    ensures Present(s.pairing.activeDevice) <==> Truthy(device)
  {
    State(Page(Client, title, ""), InitialModes, false, false, false, timer, Reps(reps, reps),
      Sleep(rest, false), Clock(None, reps, 0, 0, DefaultRestSound), Baseline, [], [],
      Pairing(if device.Some? then Some(JStr(device.value)) else None, false, None, false),
      true, DefaultRestSound, None, None, None, [])
  }

  // ---------------------------------------------------------------------
  // Lists kept by the page

  /** No two consecutive samples carry the same pressure. */
  predicate NoAdjacentRepeats(xs: seq<Sample>) {
    forall i :: 0 < i < |xs| ==> xs[i - 1].pressure != xs[i].pressure
  }

  /** The chart's update: a reading equal to the last stored one is
      skipped, any other is appended. */
  function AppendIfNew(xs: seq<Sample>, x: Sample): (r: seq<Sample>)
    ensures xs != [] && xs[|xs| - 1].pressure == x.pressure ==> r == xs
    ensures xs == [] || xs[|xs| - 1].pressure != x.pressure ==> r == xs + [x]
    ensures NoAdjacentRepeats(xs) ==> NoAdjacentRepeats(r)
  {
    if xs != [] && xs[|xs| - 1].pressure == x.pressure then xs else xs + [x]
  }

  predicate NoRepeats(ds: seq<string>) {
    forall i, j :: 0 <= i < j < |ds| ==> ds[i] != ds[j]
  }

  /** The candidate list's update: an announced sensor is appended unless
      it is already listed; the list keeps its order. */
  function AddCandidate(ds: seq<string>, d: string): (r: seq<string>)
    ensures d in r && (d in ds ==> r == ds) && (d !in ds ==> r == ds + [d])
    ensures NoRepeats(ds) ==> NoRepeats(r)
  {
    if d in ds then ds else ds + [d]
  }

  // ---------------------------------------------------------------------
  // Effects

  /** The countdown effect depends on these. */
  predicate TimerDepsChanged(before: State, s: State) {
    before.flag != s.flag || before.started != s.started || before.timeValue != s.timeValue
  }

  /** The countdown effect sets up a countdown: its dependencies changed
      and the session is active (for the therapist, also started). */
  predicate CountdownBegins(before: State, s: State) {
    TimerDepsChanged(before, s) && s.flag && (s.page.variant == Client || s.started)
  }

  /** The finish effect fires: `flag` or `started` changed and the session
      has ended with its summary due. */
  predicate FinishFires(before: State, s: State) {
    (before.flag != s.flag || before.started != s.started) && !s.flag && !s.started && s.isFinish
  }

  /** The therapist's lookup of the stored sensor re-runs: the dialog
      opened or closed, or another sensor was chosen. */
  predicate LookupRuns(before: State, s: State) {
    s.page.variant == Therapist
    && (before.pairing.dialogOpen != s.pairing.dialogOpen || before.pairing.selected != s.pairing.selected)
  }

  /** The broker set-up re-runs: the therapist's dialog or the client's
      sensor changed, the page has a label and no dialog is open. */
  predicate BrokerInitRuns(before: State, s: State) {
    (if s.page.variant == Therapist then before.pairing.dialogOpen != s.pairing.dialogOpen
     else before.pairing.activeDevice != s.pairing.activeDevice)
    && s.page.title != "" && !s.pairing.dialogOpen
  }

  /** The effects whose dependencies changed between `before` and `s`, in
      the order the page declares them:
      - the device lookup marks itself pending;
      - the broker set-up initialises the telemetry link;
      - the countdown effect clears any running countdown and, for an
        active session (the therapist's only once started), sets up a fresh
        one in its first work phase with the displayed repetition count,
        ending any rest mark and, for the client, sounding the start cue;
      - the finish effect records the end time and sounds the finish cue. */
  function Settle(before: State, s: State, now: int): (r: State)
    ensures r.flag == s.flag && r.started == s.started && r.samples == s.samples && r.devices == s.devices
    ensures r.page == s.page && r.pairing.activeDevice == s.pairing.activeDevice
    ensures r.pairing.dialogOpen == s.pairing.dialogOpen && r.reps == s.reps && r.timeValue == s.timeValue
    ensures !TimerDepsChanged(before, s) ==> r.clock == s.clock && r.sleep == s.sleep
    ensures TimerDepsChanged(before, s) ==> (r.clock.target.Some? <==> CountdownBegins(before, s))
    ensures CountdownBegins(before, s) ==>
      r.clock.target == Some(now + s.timeValue * 1000) && r.clock.repsLeft == s.reps.remaining
      && !r.sleep.resting && r.beginTime == Some(now)
    ensures !CountdownBegins(before, s) ==> r.sleep == s.sleep
    ensures |r.effects| >= |s.effects| && r.effects[..|s.effects|] == s.effects
    ensures FinishFires(before, s) ==> r.endTime == Some(now) && Play(FinishSound) in r.effects[|s.effects|..]
    ensures !FinishFires(before, s) ==> r.endTime == s.endTime && Play(FinishSound) !in r.effects[|s.effects|..]
  {
    SettleFrame(before, s, now);
    SettleCountdown(before, s, now);
    SettleRequests(before, s, now);
    FinishEffect(before, CountdownEffect(before, BrokerEffect(before, LookupEffect(before, s)), now), now)
  }

  /** What no effect changes: the session flags, the page, the
      repetitions, the chart, the candidates, the gauge and the settings. */
  predicate SessionKept(s: State, r: State) {
    && r.flag == s.flag && r.started == s.started && r.isFinish == s.isFinish && r.timeValue == s.timeValue
    && r.page == s.page && r.reps == s.reps && r.samples == s.samples && r.devices == s.devices
    && r.restSound == s.restSound && r.pressure == s.pressure && r.modes == s.modes && r.isReady == s.isReady
    && r.startStamp == s.startStamp
  }

  /** The device lookup, when it re-runs, marks itself pending. */
  function LookupEffect(before: State, s: State): (r: State)
    ensures SessionKept(s, r) && r.clock == s.clock && r.sleep == s.sleep
    ensures r.beginTime == s.beginTime && r.endTime == s.endTime
    ensures r.pairing == s.pairing.(fetching := LookupRuns(before, s) || s.pairing.fetching)
    ensures r.effects == s.effects + (if LookupRuns(before, s) then [FetchDevice] else [])
  {
    if LookupRuns(before, s) then s.(pairing := s.pairing.(fetching := true), effects := s.effects + [FetchDevice])
    else s
  }

  /** The broker set-up, when it re-runs, initialises the telemetry link. */
  function BrokerEffect(before: State, s: State): (r: State)
    ensures SessionKept(s, r) && r.clock == s.clock && r.sleep == s.sleep && r.pairing == s.pairing
    ensures r.beginTime == s.beginTime && r.endTime == s.endTime
    ensures r.effects == s.effects + (if BrokerInitRuns(before, s) then [InitTelemetry] else [])
  {
    if BrokerInitRuns(before, s) then s.(effects := s.effects + [InitTelemetry]) else s
  }

  /** The countdown effect, when it re-runs, clears the running countdown
      and, for an active session, sets up a fresh one. */
  function CountdownEffect(before: State, s: State, now: int): (r: State)
    ensures SessionKept(s, r) && r.pairing == s.pairing && r.endTime == s.endTime
    ensures !TimerDepsChanged(before, s) ==> r == s
    ensures TimerDepsChanged(before, s) ==> (r.clock.target.Some? <==> CountdownBegins(before, s))
    ensures CountdownBegins(before, s) ==>
      r.clock.target == Some(now + s.timeValue * 1000) && r.clock.repsLeft == s.reps.remaining
      && !r.sleep.resting && r.beginTime == Some(now)
    ensures !CountdownBegins(before, s) ==> r.sleep == s.sleep && r.beginTime == s.beginTime && r.effects == s.effects
    ensures r.effects == s.effects + (if CountdownBegins(before, s) && s.page.variant == Client then [Play(StartSound)] else [])
  {
    if CountdownBegins(before, s) then
      s.(sleep := s.sleep.(resting := false),
         clock := Clock(Some(now + s.timeValue * 1000), s.reps.remaining, s.timeValue * 1000,
                        s.sleep.duration * 1000, s.restSound),
         beginTime := Some(now),
         effects := s.effects + (if s.page.variant == Client then [Play(StartSound)] else []))
    else if TimerDepsChanged(before, s) then s.(clock := s.clock.(target := None))
    else s
  }

  /** The finish effect, when it fires, records the end time and sounds the
      finish cue. */
  function FinishEffect(before: State, s: State, now: int): (r: State)
    ensures SessionKept(s, r) && r.clock == s.clock && r.sleep == s.sleep && r.pairing == s.pairing
    ensures r.beginTime == s.beginTime
    ensures r.endTime == if FinishFires(before, s) then Some(now) else s.endTime
    ensures r.effects == s.effects + (if FinishFires(before, s) then [Play(FinishSound)] else [])
  {
    if FinishFires(before, s) then s.(endTime := Some(now), started := false, effects := s.effects + [Play(FinishSound)])
    else s
  }

  /** No effect changes what a later one depends on, so each decides on
      the state the page's handler left. */
  lemma EffectsIndependent(before: State, s: State, now: int)
    ensures var a := LookupEffect(before, s);
      BrokerInitRuns(before, a) == BrokerInitRuns(before, s)
    ensures var b := BrokerEffect(before, LookupEffect(before, s));
      CountdownBegins(before, b) == CountdownBegins(before, s) && TimerDepsChanged(before, b) == TimerDepsChanged(before, s)
    ensures var c := CountdownEffect(before, BrokerEffect(before, LookupEffect(before, s)), now);
      FinishFires(before, c) == FinishFires(before, s)
  {
  }

  /** Settling changes only what the effects set: the session flags, the
      page, the repetitions, the chart, the candidates and the pairing
      (but its pending mark, which the lookup sets) stay as they were, and
      the end time is recorded exactly when the finish effect fires. */
  lemma SettleFrame(before: State, s: State, now: int)
    ensures var r := FinishEffect(before, CountdownEffect(before, BrokerEffect(before, LookupEffect(before, s)), now), now);
      SessionKept(s, r) && r.pairing == s.pairing.(fetching := LookupRuns(before, s) || s.pairing.fetching)
      && r.endTime == if FinishFires(before, s) then Some(now) else s.endTime
  {
    EffectsIndependent(before, s, now);
    var c := CountdownEffect(before, BrokerEffect(before, LookupEffect(before, s)), now);
  }

  /** The countdown after settling: untouched unless its dependencies
      changed; then set up, with the displayed repetitions and no rest
      mark, exactly for an active session (the therapist's once started),
      and stopped otherwise. */
  lemma SettleCountdown(before: State, s: State, now: int)
    ensures var r := FinishEffect(before, CountdownEffect(before, BrokerEffect(before, LookupEffect(before, s)), now), now);
      && (!TimerDepsChanged(before, s) ==> r.clock == s.clock && r.sleep == s.sleep && r.beginTime == s.beginTime)
      && (TimerDepsChanged(before, s) ==> (r.clock.target.Some? <==> CountdownBegins(before, s)))
      && (CountdownBegins(before, s) ==>
            r.clock.target == Some(now + s.timeValue * 1000) && r.clock.repsLeft == s.reps.remaining
            && !r.sleep.resting && r.beginTime == Some(now))
      && (!CountdownBegins(before, s) ==> r.sleep == s.sleep)
  {
    EffectsIndependent(before, s, now);
  }

  /** The requests the effects add, in the order the page declares them. */
  function Added(before: State, s: State): seq<Effect> {
    (if LookupRuns(before, s) then [FetchDevice] else [])
    + (if BrokerInitRuns(before, s) then [InitTelemetry] else [])
    + (if CountdownBegins(before, s) && s.page.variant == Client then [Play(StartSound)] else [])
    + (if FinishFires(before, s) then [Play(FinishSound)] else [])
  }

  lemma SettleAppends(before: State, s: State, now: int)
    ensures FinishEffect(before, CountdownEffect(before, BrokerEffect(before, LookupEffect(before, s)), now), now).effects == s.effects + Added(before, s)
  {
    EffectsIndependent(before, s, now);
    var c := CountdownEffect(before, BrokerEffect(before, LookupEffect(before, s)), now);
    var la: seq<Effect> := if LookupRuns(before, s) then [FetchDevice] else [];
    var lb: seq<Effect> := if BrokerInitRuns(before, s) then [InitTelemetry] else [];
    var lc: seq<Effect> := if CountdownBegins(before, s) && s.page.variant == Client then [Play(StartSound)] else [];
    var ld: seq<Effect> := if FinishFires(before, s) then [Play(FinishSound)] else [];
    assert c.effects == s.effects + la + lb + lc;
    assert FinishEffect(before, c, now).effects == s.effects + la + lb + lc + ld;
    assert Added(before, s) == la + lb + lc + ld;
    assert s.effects + la + lb + lc + ld == s.effects + (la + lb + lc + ld);
  }

  /** The page's requests after settling: those made so far are kept, the
      lookup is requested whenever it re-runs, and the finish cue sounds,
      with the end time recorded, exactly when the finish effect fires. */
  lemma SettleRequests(before: State, s: State, now: int)
    ensures var r := FinishEffect(before, CountdownEffect(before, BrokerEffect(before, LookupEffect(before, s)), now), now);
      && |r.effects| >= |s.effects| && r.effects[..|s.effects|] == s.effects
      && (LookupRuns(before, s) ==> FetchDevice in r.effects[|s.effects|..])
      && (FinishFires(before, s) ==> r.endTime == Some(now) && Play(FinishSound) in r.effects[|s.effects|..])
      && (!FinishFires(before, s) ==> r.endTime == s.endTime && Play(FinishSound) !in r.effects[|s.effects|..])
  {
    SettleAppends(before, s, now);
    var r := FinishEffect(before, CountdownEffect(before, BrokerEffect(before, LookupEffect(before, s)), now), now);
    assert r.effects[|s.effects|..] == Added(before, s);
    AddedFinishes(before, s);
  }

  /** The finish cue is among the added requests exactly when the finish
      effect fires; the lookup is whenever it re-runs. */
  lemma AddedFinishes(before: State, s: State)
    ensures Play(FinishSound) in Added(before, s) <==> FinishFires(before, s)
    ensures LookupRuns(before, s) ==> FetchDevice in Added(before, s)
  {
    var head := (if LookupRuns(before, s) then [FetchDevice] else [])
      + (if BrokerInitRuns(before, s) then [InitTelemetry] else [])
      + (if CountdownBegins(before, s) && s.page.variant == Client then [Play(StartSound)] else []);
    assert Play(FinishSound) !in head;
    if LookupRuns(before, s) {
      assert Added(before, s)[0] == FetchDevice;
    }
  }

  // ---------------------------------------------------------------------
  // Handlers

  /** The commands Start sends: the active band's lower limit plus 2 and
      the label, unless the page has no label, no band matches or its
      lower limit is 0. */
  function CommandsFor(s: State): (es: seq<Effect>)
    ensures es == [] || es == [Command(CommandBase(s.modes, s.page.title) + 2, s.page.title)]
    ensures es != [] <==> s.page.title != "" && CommandBase(s.modes, s.page.title) != 0
  {
    var base := CommandBase(s.modes, s.page.title);
    if s.page.title == "" || base == 0 then [] else [Command(base + 2, s.page.title)]
  }

  /** Opening the pairing dialog, which also asks the sensors to announce
      themselves when the page has a label. */
  function OpenPairing(s: State, now: int): (r: State)
    ensures r.pairing.dialogOpen && r.flag == s.flag && r.started == s.started && r.clock == s.clock
    ensures r.samples == s.samples && r.pairing.activeDevice == s.pairing.activeDevice
    ensures s.page.title != "" ==> |r.effects| > |s.effects| && r.effects[|s.effects|] == PairRequest
    ensures Inv(s) ==> Inv(r)
  {
    Settle(s, s.(pairing := s.pairing.(dialogOpen := true),
                 effects := s.effects + (if s.page.title != "" then [PairRequest] else [])), now)
  }

  /** The therapist's Start: disabled while the stored sensor is being
      looked up and ignored during a session; without a paired sensor it
      only opens pairing; otherwise it clears the chart, resets the
      repetitions, marks the session active but not started (no countdown
      runs until the sensor's start message), records the start time and
      sends the band command. */
  function TherapistStart(s: State, stamp: string, now: int): (r: State)
    requires s.page.variant == Therapist
    ensures s.pairing.fetching || s.flag ==> r == s
    ensures !s.pairing.fetching && !s.flag && !Present(s.pairing.activeDevice) ==> r == OpenPairing(s, now)
    ensures !s.pairing.fetching && !s.flag && Present(s.pairing.activeDevice) ==>
      r.flag && !r.started && !r.isFinish && r.clock.target.None? && r.samples == []
      && r.reps == Reps(s.reps.total, s.reps.total) && r.startStamp == Some(stamp)
      && r.effects == s.effects + CommandsFor(s)
    ensures Inv(s) ==> Inv(r)
  {
    if s.pairing.fetching || s.flag then s
    else if !Present(s.pairing.activeDevice) then OpenPairing(s, now)
    else
      Settle(s, s.(samples := [], reps := s.reps.(remaining := s.reps.total), flag := true, started := false,
        isFinish := false, startStamp := Some(stamp), effects := s.effects + CommandsFor(s)), now)
  }

  /** The client's `start`: ignored during a session; without a paired
      sensor it only opens pairing; otherwise it clears the chart, resets
      the repetitions and starts the countdown at once. */
  function ClientStart(s: State, now: int): (r: State)
    requires s.page.variant == Client
    ensures s.flag ==> r == s
    ensures !s.flag && !Present(s.pairing.activeDevice) ==> r == OpenPairing(s, now)
    ensures !s.flag && Present(s.pairing.activeDevice) ==>
      r.flag && r.started && !r.isFinish && r.samples == [] && r.reps == Reps(s.reps.total, s.reps.total)
      && PhaseOf(r) == Work(s.reps.total) && r.clock.target == Some(now + s.timeValue * 1000)
      && r.effects == s.effects + [Play(StartSound)]
    ensures Inv(s) ==> Inv(r)
  {
    if s.flag then s
    else if !Present(s.pairing.activeDevice) then OpenPairing(s, now)
    else
      Settle(s, s.(samples := [], reps := s.reps.(remaining := s.reps.total), flag := true, started := true,
        isFinish := false), now)
  }

  /** `stop` as the page has it: the session ends, the gauge returns to
      the baseline and the summary is due, but a rest phase in progress
      stays marked. */
  function StopAsWritten(s: State, now: int): (r: State)
    ensures !r.flag && !r.started && r.isFinish && r.pressure == Baseline
    ensures s.flag || s.started ==> r.clock.target.None?
    ensures r.sleep.resting == s.sleep.resting
  {
    Settle(s, s.(flag := false, started := false, pressure := Baseline, isFinish := true), now)
  }

  /** `stop` with the rest mark cleared as well, so that the sensor can
      start the next session. Stopping an active session ends its
      countdown, records the end time and sounds the finish cue. */
  function Stop(s: State, now: int): (r: State)
    ensures !r.flag && !r.started && r.isFinish && r.pressure == Baseline && !r.sleep.resting
    ensures s.flag || s.started ==>
      r.clock.target.None? && r.endTime == Some(now)
      && |r.effects| >= |s.effects| && Play(FinishSound) in r.effects[|s.effects|..]
    ensures Inv(s) ==> Inv(r) && PhaseOf(r) == Done
  {
    Settle(s, s.(flag := false, started := false, pressure := Baseline, isFinish := true,
      sleep := s.sleep.(resting := false)), now)
  }

  /** The client's Start button is disabled while `isReady` is set
      (`disabled={isReady}`). */
  function ClientStartButton(s: State, now: int): (r: State)
    requires s.page.variant == Client
    ensures s.isReady ==> r == s
    ensures !s.isReady ==> r == ClientStart(s, now)
    ensures Inv(s) ==> Inv(r)
  {
    if s.isReady then s else ClientStart(s, now)
  }

  /** `clientStartCallback`: a zero timestamp stops, any other starts. */
  function ClientSignal(s: State, timestamp: int, now: int): (r: State)
    requires s.page.variant == Client
    ensures timestamp == 0 ==> r == Stop(s, now)
    ensures timestamp != 0 ==> r == ClientStart(s, now)
    ensures Inv(s) ==> Inv(r)
  {
    if timestamp != 0 then ClientStart(s, now) else Stop(s, now)
  }

  /** `startCallback`: the sensor's start message starts the countdown of
      an active session that is neither resting nor already started,
      sounding the start cue; in any other state it is ignored. */
  function StartSignal(s: State, now: int): (r: State)
    ensures !(s.flag && !s.sleep.resting && !s.started) ==> r == s
    ensures s.flag && !s.sleep.resting && !s.started ==>
      r.started && r.flag && r.clock.target == Some(now + s.timeValue * 1000)
      && PhaseOf(r) == Work(s.reps.remaining)
      && |r.effects| > |s.effects| && r.effects[|s.effects|] == Play(StartSound)
    ensures Inv(s) ==> Inv(r)
  {
    if s.flag && !s.sleep.resting && !s.started then
      Settle(s, s.(started := true, effects := s.effects + [Play(StartSound)]), now)
    else s
  }

  /** Sensor data the data callback takes as a reading: a numeric `pressure`. */
  predicate IsReading(payload: Json) {
    Has(payload, "pressure") && payload.fields["pressure"].JNum?
  }

  /** Sensor data the data callback takes as an announcement: a string `device`. */
  predicate IsAnnouncement(payload: Json) {
    Has(payload, "device") && payload.fields["device"].JStr?
  }

  /** The record the therapist's page sends to `storeData` for a reading. */
  function RecordOf(s: State, p: int, stamp: string): (d: DataActions.PressureRecord)
    ensures d.pressure == p && d.timestamp == stamp && d.start == s.startStamp
    ensures d.patient == Some(s.page.patient) && d.mode == Some(s.page.title)
  {
    DataActions.PressureRecord(p, stamp, s.startStamp, Some(s.page.patient), Some(s.page.title))
  }

  /** The band the over-pressure cue compares with. The data callback is
      set up once, when the page mounts, so it keeps the band of the
      initial band list. */
  function CueBand(s: State): (m: Option<Mode>)
    ensures m == ActiveMode(InitialModes, s.page.title)
  {
    ActiveMode(InitialModes, s.page.title)
  }

  /** `dataCallback`: a numeric reading during an active, started session
      that is not resting moves the gauge, goes into the chart unless it
      repeats the last one, sounds the over-pressure cue when it exceeds
      the band and the cue is not already playing, and (therapist) is sent
      to storage; otherwise a string announcement adds a candidate sensor;
      anything else changes nothing. */
  function DataEvent(s: State, payload: Json, stamp: string, warningPlaying: bool): (r: State)
    ensures IsReading(payload) && s.flag && !s.sleep.resting && s.started ==>
      var p := payload.fields["pressure"].n;
      var cue := CueBand(s).Some? && p > CueBand(s).value.high && !warningPlaying;
      r == s.(samples := AppendIfNew(s.samples, Sample(p, stamp)), pressure := p,
        effects := s.effects + (if cue then [Play(WarningSound)] else [])
          + (if s.page.variant == Therapist then [Store(RecordOf(s, p, stamp))] else []))
    ensures !(IsReading(payload) && s.flag && !s.sleep.resting && s.started) ==>
      if IsAnnouncement(payload) then r == s.(devices := AddCandidate(s.devices, payload.fields["device"].s))
      else r == s
    ensures Inv(s) ==> Inv(r)
  {
    if IsReading(payload) && s.flag && !s.sleep.resting && s.started then
      var p := payload.fields["pressure"].n;
      var band := CueBand(s);
      var cue := if band.Some? && p > band.value.high && !warningPlaying then [Play(WarningSound)] else [];
      var store := if s.page.variant == Therapist then [Store(RecordOf(s, p, stamp))] else [];
      s.(samples := AppendIfNew(s.samples, Sample(p, stamp)), pressure := p, effects := s.effects + cue + store)
    else if IsAnnouncement(payload) then
      s.(devices := AddCandidate(s.devices, payload.fields["device"].s))
    else s
  }

  /** One firing of the countdown's interval at `now`. Before the deadline
      nothing changes. At the deadline, with more than one repetition
      counted, work turns into rest (the client hears the rest cue) and
      rest into work with one repetition fewer (the client hears the start
      cue), each with a fresh deadline; with one or none left the session
      ends with no repetitions remaining. */
  function Tick(s: State, now: int): (r: State)
    ensures s.clock.target.None? || Remaining(s.clock.target.value, now) > 0 ==> r == s
    ensures s.clock.target.Some? && Remaining(s.clock.target.value, now) == 0 && s.clock.repsLeft > 1 && !s.sleep.resting ==>
      r == s.(sleep := s.sleep.(resting := true), clock := s.clock.(target := Some(now + s.clock.restMs)),
              effects := s.effects + (if s.page.variant == Client then [Play(s.clock.cue)] else []))
    ensures s.clock.target.Some? && Remaining(s.clock.target.value, now) == 0 && s.clock.repsLeft > 1 && s.sleep.resting ==>
      r == s.(sleep := s.sleep.(resting := false),
              clock := s.clock.(target := Some(now + s.clock.workMs), repsLeft := s.clock.repsLeft - 1),
              reps := s.reps.(remaining := s.clock.repsLeft - 1),
              effects := s.effects + (if s.page.variant == Client then [Play(StartSound)] else []))
    ensures s.clock.target.Some? && Remaining(s.clock.target.value, now) == 0 && s.clock.repsLeft <= 1 ==>
      !r.flag && !r.started && r.isFinish && r.reps.remaining == 0 && r.clock.target.None? && r.pressure == Baseline
    ensures Inv(s) ==> Inv(r)
  {
    if s.clock.target.None? || Remaining(s.clock.target.value, now) > 0 then s
    else if s.clock.repsLeft > 1 then
      if !s.sleep.resting then
        s.(sleep := s.sleep.(resting := true), clock := s.clock.(target := Some(now + s.clock.restMs)),
           effects := s.effects + (if s.page.variant == Client then [Play(s.clock.cue)] else []))
      else
        s.(sleep := s.sleep.(resting := false),
           clock := s.clock.(target := Some(now + s.clock.workMs), repsLeft := s.clock.repsLeft - 1),
           reps := s.reps.(remaining := s.clock.repsLeft - 1),
           effects := s.effects + (if s.page.variant == Client then [Play(StartSound)] else []))
    else
      Settle(s, s.(clock := s.clock.(target := None), flag := false, started := false, pressure := Baseline,
        isFinish := true, reps := s.reps.(remaining := 0)), now)
  }

  /** The custom band's confirm: both limits must be given and non-zero,
      or nothing changes; then only the "custom" entry takes them. */
  function CustomConfirm(s: State, lo: Option<int>, hi: Option<int>): (r: State)
    ensures !TruthyNum(lo) || !TruthyNum(hi) ==> r == s
    ensures TruthyNum(lo) && TruthyNum(hi) ==> r == s.(modes := SetCustom(s.modes, lo.value, hi.value))
    ensures Inv(s) ==> Inv(r)
  {
    if !TruthyNum(lo) || !TruthyNum(hi) then s else s.(modes := SetCustom(s.modes, lo.value, hi.value))
  }

  /** The timer dialog's confirm: all three values must be given and
      non-zero (negative values pass), or nothing changes; then the work
      and rest times are set and both repetition counts become the new
      count. The client saves the preset first and takes the chosen rest
      cue. A changed work time restarts a running countdown. */
  function TimerConfirm(s: State, time: Option<int>, reps: Option<int>, rest: Option<int>, sound: string, now: int): (r: State)
    ensures !TruthyNum(time) || !TruthyNum(reps) || !TruthyNum(rest) ==> r == s
    ensures TruthyNum(time) && TruthyNum(reps) && TruthyNum(rest) ==>
      r.timeValue == time.value && r.sleep.duration == rest.value && r.reps == Reps(reps.value, reps.value)
      && r.restSound == (if s.page.variant == Client then sound else s.restSound)
      && r.flag == s.flag && r.started == s.started
      && (s.page.variant == Client ==>
            |r.effects| > |s.effects| && r.effects[|s.effects|] == SavePreset(reps.value, time.value, rest.value))
    ensures Inv(s) ==> Inv(r)
  {
    if !TruthyNum(time) || !TruthyNum(reps) || !TruthyNum(rest) then s
    else
      var saved := if s.page.variant == Client then [SavePreset(reps.value, time.value, rest.value)] else [];
      Settle(s, s.(timeValue := time.value, sleep := s.sleep.(duration := rest.value),
        reps := Reps(reps.value, reps.value),
        restSound := if s.page.variant == Client then sound else s.restSound,
        effects := s.effects + saved), now)
  }

  /** Choosing a sensor in the pairing dialog; the therapist's page looks
      the stored sensor up again. */
  function SelectDevice(s: State, d: string, now: int): (r: State)
    ensures r.pairing.selected == Some(d) && r.flag == s.flag && r.started == s.started && r.clock == s.clock
    ensures s.page.variant == Therapist && s.pairing.selected != Some(d) ==>
      r.pairing.fetching && |r.effects| >= |s.effects| && FetchDevice in r.effects[|s.effects|..]
    ensures Inv(s) ==> Inv(r)
  {
    Settle(s, s.(pairing := s.pairing.(selected := Some(d))), now)
  }

  /** Closing the pairing dialog without saving. */
  function DismissDialog(s: State, now: int): (r: State)
    ensures !r.pairing.dialogOpen && r.flag == s.flag && r.started == s.started && r.clock == s.clock
    ensures Inv(s) ==> Inv(r)
  {
    Settle(s, s.(pairing := s.pairing.(dialogOpen := false)), now)
  }

  /** `handleEditSubmit`: with a label and a chosen sensor, the choice is
      sent to `saveDevice` and the dialog closes; the client also takes the
      choice as its sensor at once, while the therapist's page reads it
      back through its lookup. */
  function EditSubmit(s: State, now: int): (r: State)
    ensures s.page.title == "" || !Truthy(s.pairing.selected) ==> r == s
    ensures s.page.title != "" && Truthy(s.pairing.selected) ==>
      !r.pairing.dialogOpen && |r.effects| > |s.effects| && r.effects[|s.effects|] == SaveDevice(s.pairing.selected.value)
      && r.pairing.activeDevice == (if s.page.variant == Client then Some(JStr(s.pairing.selected.value))
                                    else s.pairing.activeDevice)
    ensures Inv(s) ==> Inv(r)
  {
    if s.page.title == "" || !Truthy(s.pairing.selected) then s
    else
      var device := if s.page.variant == Client then Some(JStr(s.pairing.selected.value)) else s.pairing.activeDevice;
      Settle(s, s.(pairing := s.pairing.(activeDevice := device, dialogOpen := false),
        effects := s.effects + [SaveDevice(s.pairing.selected.value)]), now)
  }

  /** The therapist's lookup of the stored sensor completing: a stored
      sensor becomes the paired one, and Start is enabled again. */
  function DeviceLoaded(s: State, reply: DataActions.DeviceReply): (r: State)
    ensures s.page.variant == Client ==> r == s
    ensures s.page.variant == Therapist ==>
      r == s.(pairing := s.pairing.(fetching := false,
        activeDevice := if reply.Device? then Some(reply.value) else s.pairing.activeDevice))
    ensures Inv(s) ==> Inv(r)
  {
    if s.page.variant == Client then s
    else if reply.Device? then s.(pairing := s.pairing.(activeDevice := Some(reply.value), fetching := false))
    else s.(pairing := s.pairing.(fetching := false))
  }

  /** The Pair button: ignored during a session, otherwise opens pairing. */
  function PairPressed(s: State, now: int): (r: State)
    ensures s.flag ==> r == s
    ensures !s.flag ==> r == OpenPairing(s, now)
    ensures Inv(s) ==> Inv(r)
  {
    if s.flag then s else OpenPairing(s, now)
  }

  // ---------------------------------------------------------------------
  // Events and the invariant

  datatype Event =
    | StartPressed(stamp: string)
    | StopPressed
    | PairButton
    | StartMessage
    | ClientStartMessage(timestamp: int)
    | ReadyChanged(ready: bool)
    | DataMessage(payload: Json, stamp: string, warningPlaying: bool)
    | TimerFired
    | CustomConfirmed(lo: Option<int>, hi: Option<int>)
    | TimerConfirmed(time: Option<int>, reps: Option<int>, rest: Option<int>, sound: string)
    | DeviceChosen(device: string)
    | DialogDismissed
    | EditSubmitted
    | DeviceFetched(reply: DataActions.DeviceReply)

  /** One event at wall-clock time `now`. Events a variant does not have
      (the client's start message and readiness, on the therapist's page)
      change nothing. */
  function Step(s: State, e: Event, now: int): (r: State)
    ensures Inv(s) ==> Inv(r)
  {
    match e
    case StartPressed(stamp) =>
      if s.page.variant == Therapist then TherapistStart(s, stamp, now) else ClientStartButton(s, now)
    case StopPressed => Stop(s, now)
    case PairButton => PairPressed(s, now)
    case StartMessage => StartSignal(s, now)
    case ClientStartMessage(t) => if s.page.variant == Client then ClientSignal(s, t, now) else s
    case ReadyChanged(b) => if s.page.variant == Client then s.(isReady := b) else s
    case DataMessage(payload, stamp, playing) => DataEvent(s, payload, stamp, playing)
    case TimerFired => Tick(s, now)
    case CustomConfirmed(lo, hi) => CustomConfirm(s, lo, hi)
    case TimerConfirmed(time, reps, rest, sound) => TimerConfirm(s, time, reps, rest, sound, now)
    case DeviceChosen(d) => SelectDevice(s, d, now)
    case DialogDismissed => DismissDialog(s, now)
    case EditSubmitted => EditSubmit(s, now)
    case DeviceFetched(reply) => DeviceLoaded(s, reply)
  }

  /** What holds of the page between events:
      - the chart has no two consecutive equal readings, and the candidate
        list no repeated sensor;
      - a session is started only while active, and the client's session
        is started exactly when it is active;
      - a countdown runs exactly while a session is active and started;
      - a rest phase is marked only while a countdown runs, with more than
        one repetition counted. */
  predicate Inv(s: State) {
    && NoAdjacentRepeats(s.samples)
    && NoRepeats(s.devices)
    && (s.started ==> s.flag)
    && (s.page.variant == Client ==> s.flag == s.started)
    && (s.clock.target.Some? <==> s.flag && s.started)
    && (s.sleep.resting ==> s.clock.target.Some? && s.clock.repsLeft > 1)
  }

  /** The countdown's phase in a state. */
  function PhaseOf(s: State): Phase {
    if s.clock.target.None? then Done else if s.sleep.resting then Rest(s.clock.repsLeft) else Work(s.clock.repsLeft)
  }

  /** The state after a sequence of timed events. */
  function Replay(s: State, es: seq<(Event, int)>): (r: State)
    ensures Inv(s) ==> Inv(r)
    decreases |es|
  {
    if es == [] then s else Replay(Step(s, es[0].0, es[0].1), es[1..])
  }

  /** A firing of the interval at the deadline moves the countdown to the
      phase `NextPhase` names, so a countdown set up with n repetitions
      passes through the phases of `Countdown.Run`. */
  lemma TickFollowsCountdown(s: State, now: int)
    requires Inv(s) && s.clock.target.Some? && Remaining(s.clock.target.value, now) == 0
    ensures PhaseOf(Tick(s, now)) == NextPhase(PhaseOf(s))
  {
  }

  /** Before the deadline a firing changes nothing. */
  lemma TickBeforeDeadline(s: State, now: int)
    requires s.clock.target.Some? && now < s.clock.target.value
    ensures Tick(s, now) == s
  {
  }

  /** While the therapist's session waits for the sensor, readings are
      neither charted nor shown on the gauge. */
  lemma WaitingIgnoresReadings(s: State, payload: Json, stamp: string, playing: bool)
    requires s.flag && !s.started
    ensures DataEvent(s, payload, stamp, playing).samples == s.samples
    ensures DataEvent(s, payload, stamp, playing).pressure == s.pressure
  {
  }

  /** A reading the therapist's page stores during a session that has a
      start time, a patient and a label passes `storeData`'s checks except
      the signed-in user's. */
  lemma StoredRecordsPassChecks(s: State, p: int, stamp: string, user: Option<string>)
    requires Truthy(s.startStamp) && s.page.patient != "" && s.page.title != ""
    ensures DataActions.CheckRecord(RecordOf(s, p, stamp), user).None? <==> Truthy(user)
  {
  }

  /** Stopping during a rest phase, then pressing Start, then receiving the
      sensor's start message: with `stop` as written the session is active
      but never starts and no countdown runs; with the rest mark cleared it
      starts in its first work phase with every repetition. */
  lemma StopDuringRestStrands(s: State, stamp: string, now1: int, now2: int, now3: int)
    requires Inv(s) && s.page.variant == Therapist && s.sleep.resting
    requires !s.pairing.fetching && Present(s.pairing.activeDevice)
    ensures var a := StartSignal(TherapistStart(StopAsWritten(s, now1), stamp, now2), now3);
      a.flag && !a.started && a.clock.target.None? && a.sleep.resting
    ensures var b := StartSignal(TherapistStart(Stop(s, now1), stamp, now2), now3);
      b.flag && b.started && PhaseOf(b) == Work(s.reps.total)
  {
  }

  // ---------------------------------------------------------------------
  // A whole countdown

  /** The interval firing exactly at the deadline. */
  function Expire(s: State): (r: State)
    ensures Inv(s) ==> Inv(r)
  {
    if s.clock.target.Some? then Tick(s, s.clock.target.value) else s
  }

  lemma ExpireFollowsCountdown(s: State)
    requires Inv(s)
    ensures PhaseOf(Expire(s)) == NextPhase(PhaseOf(s))
  {
    if s.clock.target.Some? {
      TickFollowsCountdown(s, s.clock.target.value);
    }
  }

  /** `k` deadlines in a row. */
  function ExpireN(s: State, k: nat): (r: State)
    ensures Inv(s) ==> Inv(r)
    decreases k
  {
    if k == 0 then s else ExpireN(Expire(s), k - 1)
  }

  /** One more deadline after `k` of them. */
  lemma {:induction false} ExpireNNext(s: State, k: nat)
    ensures ExpireN(s, k + 1) == Expire(ExpireN(s, k))
    decreases k
  {
    if k > 0 {
      ExpireNNext(Expire(s), k - 1);
    }
  }

  /** The phases a session passes through, deadline after deadline, are
      those of `Countdown.Run` from its current phase. */
  lemma {:induction false} SessionFollowsRun(s: State, k: nat)
    requires Inv(s) && k < |Run(PhaseOf(s))|
    ensures PhaseOf(ExpireN(s, k)) == Run(PhaseOf(s))[k]
    decreases k
  {
    var p := PhaseOf(s);
    assert Run(p) == [p] + Run(NextPhase(p));
    if k > 0 {
      ExpireFollowsCountdown(s);
      SessionFollowsRun(Expire(s), k - 1);
    }
  }

  /** After as many deadlines as its countdown has phases, a running
      session has ended. */
  lemma {:induction false} SessionEnds(s: State, k: nat)
    requires Inv(s) && k == Steps(PhaseOf(s))
    ensures PhaseOf(ExpireN(s, k)) == Done
    ensures PhaseOf(s) != Done ==> !ExpireN(s, k).flag && ExpireN(s, k).isFinish
    decreases k
  {
    if k > 0 {
      ExpireFollowsCountdown(s);
      SessionEnds(Expire(s), k - 1);
    }
  }

  /** The phases visited over the first `k` deadlines. */
  function Visited(s: State, k: nat): (ps: seq<Phase>)
    ensures |ps| == k
  {
    seq(k, i requires 0 <= i < k => PhaseOf(ExpireN(s, i)))
  }

  /** One more deadline adds the phase reached after `k` of them. */
  lemma VisitedNext(s: State, k: nat)
    ensures Visited(s, k + 1) == Visited(s, k) + [PhaseOf(ExpireN(s, k))]
  {
  }

  /** A client session started with `n` repetitions works max(n, 1) times
      and rests once fewer before it ends. */
  lemma ClientSessionCounts(s: State, now: int)
    requires Inv(s) && s.page.variant == Client && !s.flag && Present(s.pairing.activeDevice)
    ensures var r := ClientStart(s, now);
      var k := Steps(Work(s.reps.total));
      Visited(r, k) == Run(Work(s.reps.total))
      && CountWork(Visited(r, k)) == (if s.reps.total > 1 then s.reps.total else 1)
      && CountRest(Visited(r, k)) == (if s.reps.total > 1 then s.reps.total - 1 else 0)
      && PhaseOf(ExpireN(r, k)) == Done
  {
    var r := ClientStart(s, now);
    var k := Steps(Work(s.reps.total));
    forall i | 0 <= i < k ensures Visited(r, k)[i] == Run(Work(s.reps.total))[i] {
      SessionFollowsRun(r, i);
    }
    WorkCounts(s.reps.total);
    SessionEnds(r, k);
  }

  // ---------------------------------------------------------------------
  // What the page shows

  /** The gauge: the reading clamped to the scale and its colour against
      the band the page's label selects in the current band list. */
  function Gauge(s: State): (g: (int, Colour))
    ensures 0 <= g.0 <= MaxPressure
    ensures g.1 == GaugeColour(ActiveMode(s.modes, s.page.title), s.pressure)
  {
    (SafePressure(s.pressure), GaugeColour(ActiveMode(s.modes, s.page.title), s.pressure))
  }

  function Pressures(xs: seq<Sample>): (ps: seq<int>)
    ensures |ps| == |xs| && forall i :: 0 <= i < |xs| ==> ps[i] == xs[i].pressure
  {
    seq(|xs|, i requires 0 <= i < |xs| => xs[i].pressure)
  }

  /** The end-of-session summary of the chart and the session's instants. */
  function SummaryOf(s: State): (r: Summary)
    ensures r == Summarize(Pressures(s.samples), s.beginTime, s.endTime)
    ensures r.count == |s.samples|
  {
    Summarize(Pressures(s.samples), s.beginTime, s.endTime)
  }

  /** Stopping a running session stamps the summary: its elapsed time runs
      from the countdown's set-up to the stop, when both instants are
      non-zero. */
  lemma StopStampsSummary(s: State, now: int)
    requires Inv(s) && s.flag && s.beginTime.Some? && s.beginTime.value != 0 && now != 0
    ensures SummaryOf(Stop(s, now)).elapsedMs == now - s.beginTime.value
  {
  }
}
