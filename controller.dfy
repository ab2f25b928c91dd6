/** The chart page as an object whose handlers update its state in place,
    one state variable at a time through its setters, as the component's
    state hooks and refs do (src/components/Chart.tsx and
    src/components/ClientChart.tsx). Every handler is proved to leave the
    state the matching `Session` function describes, so what is proved of
    those functions holds of the object. */
module Controller {
  import opened Text
  import opened Json
  import opened Bands
  import opened Countdown
  import opened Session
  import DataActions

  class Chart {
    const page: Page
    var modes: seq<Mode>
    var flag: bool
    var started: bool
    var isFinish: bool
    var timeValue: int
    var reps: Reps
    var sleep: Sleep
    var clock: Clock
    var pressure: int
    var samples: seq<Sample>
    var devices: seq<string>
    var pairing: Pairing
    var isReady: bool
    var restSound: string
    var startStamp: Option<string>
    var beginTime: Option<int>
    var endTime: Option<int>
    var effects: seq<Effect>

    /** The object's state as a value. */
    function State(): Session.State
      reads this
    {
      Session.State(page, modes, flag, started, isFinish, timeValue, reps, sleep, clock, pressure,
        samples, devices, pairing, isReady, restSound, startStamp, beginTime, endTime, effects)
    }

    /** The page keeps the session invariant between events. */
    predicate Valid()
      reads this
    {
      Inv(State())
    }

    /** The therapist's page for a mode label and a patient, as mounted. */
    constructor Therapist(title: string, patient: string)
      ensures State() == TherapistInitial(title, patient) && Valid()
    {
      page := Page(Session.Therapist, title, patient);
      modes := InitialModes;
      flag, started, isFinish := false, false, false;
      timeValue := 5;
      reps := Reps(3, 3);
      sleep := Sleep(3, false);
      clock := Clock(None, 3, 0, 0, DefaultRestSound);
      pressure := Baseline;
      samples, devices := [], [];
      pairing := Pairing(None, false, None, true);
      isReady := false;
      restSound := DefaultRestSound;
      startStamp, beginTime, endTime := None, None, None;
      effects := [FetchDevice, InitTelemetry];
    }

    /** The client's page with its stored preset and paired sensor, as mounted. */
    constructor Client(title: string, repetitions: int, timer: int, rest: int, device: Option<string>)
      ensures State() == ClientInitial(title, repetitions, timer, rest, device) && Valid()
    {
      page := Page(Session.Client, title, "");
      modes := InitialModes;
      flag, started, isFinish := false, false, false;
      timeValue := timer;
      reps := Reps(repetitions, repetitions);
      sleep := Sleep(rest, false);
      clock := Clock(None, repetitions, 0, 0, DefaultRestSound);
      pressure := Baseline;
      samples, devices := [], [];
      pairing := Pairing(if device.Some? then Some(JStr(device.value)) else None, false, None, false);
      isReady := true;
      restSound := DefaultRestSound;
      startStamp, beginTime, endTime := None, None, None;
      effects := [];
    }

    // -------------------------------------------------------------------
    // Setters, one per state variable

    method SetFlag(v: bool)
      modifies this
      ensures State() == old(State()).(flag := v)
    {
      flag := v;
    }

    method SetStarted(v: bool)
      modifies this
      ensures State() == old(State()).(started := v)
    {
      started := v;
    }

    method SetIsFinish(v: bool)
      modifies this
      ensures State() == old(State()).(isFinish := v)
    {
      isFinish := v;
    }

    method SetTimeValue(v: int)
      modifies this
      ensures State() == old(State()).(timeValue := v)
    {
      timeValue := v;
    }

    method SetReps(v: Reps)
      modifies this
      ensures State() == old(State()).(reps := v)
    {
      reps := v;
    }

    method SetSleep(v: Sleep)
      modifies this
      ensures State() == old(State()).(sleep := v)
    {
      sleep := v;
    }

    /** The interval and the values its closure holds. */
    method SetClock(v: Clock)
      modifies this
      ensures State() == old(State()).(clock := v)
    {
      clock := v;
    }

    method SetPressure(v: int)
      modifies this
      ensures State() == old(State()).(pressure := v)
    {
      pressure := v;
    }

    method SetData(v: seq<Sample>)
      modifies this
      ensures State() == old(State()).(samples := v)
    {
      samples := v;
    }

    method SetDevices(v: seq<string>)
      modifies this
      ensures State() == old(State()).(devices := v)
    {
      devices := v;
    }

    method SetPairing(v: Pairing)
      modifies this
      ensures State() == old(State()).(pairing := v)
    {
      pairing := v;
    }

    method SetIsReady(v: bool)
      modifies this
      ensures State() == old(State()).(isReady := v)
    {
      isReady := v;
    }

    method SetRestSound(v: string)
      modifies this
      ensures State() == old(State()).(restSound := v)
    {
      restSound := v;
    }

    method SetModes(v: seq<Mode>)
      modifies this
      ensures State() == old(State()).(modes := v)
    {
      modes := v;
    }

    method SetTime(v: Option<string>)
      modifies this
      ensures State() == old(State()).(startStamp := v)
    {
      startStamp := v;
    }

    method SetBeginTime(v: Option<int>)
      modifies this
      ensures State() == old(State()).(beginTime := v)
    {
      beginTime := v;
    }

    method SetEndTime(v: Option<int>)
      modifies this
      ensures State() == old(State()).(endTime := v)
    {
      endTime := v;
    }

    /** Sounds, broker messages and server calls the page starts. */
    method Request(es: seq<Effect>)
      modifies this
      ensures State() == old(State()).(effects := old(effects) + es)
    {
      effects := effects + es;
    }

    // -------------------------------------------------------------------
    // Effects

    /** The effects whose dependencies differ between `before` and the
        current state, run in the order the page declares them. */
    method RunEffects(before: Session.State, now: int)
      modifies this
      ensures State() == Settle(before, old(State()), now)
    {
      Lookup(before);
      BrokerInit(before);
      RunCountdown(before, now);
      Finish(before, now);
    }

    /** The therapist's device lookup effect. */
    method Lookup(before: Session.State)
      modifies this
      ensures State() == LookupEffect(before, old(State()))
    {
      if LookupRuns(before, State()) {
        SetPairing(pairing.(fetching := true));
        Request([FetchDevice]);
      }
    }

    /** The broker set-up effect. */
    method BrokerInit(before: Session.State)
      modifies this
      ensures State() == BrokerEffect(before, old(State()))
    {
      if BrokerInitRuns(before, State()) {
        Request([InitTelemetry]);
      }
    }

    /** The countdown effect: its clean-up stops the running countdown, and
        an active session (the therapist's once started) gets a fresh one. */
    method RunCountdown(before: Session.State, now: int)
      modifies this
      ensures State() == CountdownEffect(before, old(State()), now)
    {
      if !TimerDepsChanged(before, State()) {
        return;
      }
      if flag && (page.variant == Session.Client || started) {
        BeginCountdown(now);
      } else {
        SetClock(clock.(target := None));
      }
    }

    /** The countdown's first phase: work for the configured seconds with
        every remaining repetition counted. */
    method BeginCountdown(now: int)
      modifies this
      ensures State() == old(State()).(sleep := old(sleep).(resting := false),
        clock := Clock(Some(now + old(timeValue) * 1000), old(reps).remaining, old(timeValue) * 1000,
                       old(sleep).duration * 1000, old(restSound)),
        beginTime := Some(now),
        effects := old(effects) + (if page.variant == Session.Client then [Play(StartSound)] else []))
    {
      SetClock(Clock(Some(now + timeValue * 1000), reps.remaining, timeValue * 1000, sleep.duration * 1000, restSound));
      SetSleep(sleep.(resting := false));
      SetBeginTime(Some(now));
      if page.variant == Session.Client {
        Request([Play(StartSound)]);
      }
    }

    /** The finish effect. */
    method Finish(before: Session.State, now: int)
      modifies this
      ensures State() == FinishEffect(before, old(State()), now)
    {
      if FinishFires(before, State()) {
        SetEndTime(Some(now));
        SetStarted(false);
        Request([Play(FinishSound)]);
      }
    }

    // -------------------------------------------------------------------
    // Handlers

    /** Opening the pairing dialog and asking the sensors to announce themselves. */
    method OpenPairing(now: int)
      modifies this
      ensures State() == Session.OpenPairing(old(State()), now)
    {
      var before := State();
      SetPairing(pairing.(dialogOpen := true));
      if page.title != "" {
        Request([PairRequest]);
      }
      ghost var mid := State();
      assert mid == before.(pairing := before.pairing.(dialogOpen := true),
                            effects := before.effects + (if before.page.title != "" then [PairRequest] else []));
      RunEffects(before, now);
      assert Session.OpenPairing(before, now) == Settle(before, mid, now);
    }

    /** The Start button of either variant. */
    method StartPressed(stamp: string, now: int)
      modifies this
      ensures page.variant == Session.Therapist ==> State() == TherapistStart(old(State()), stamp, now)
      ensures page.variant == Session.Client ==> State() == ClientStartButton(old(State()), now)
      ensures old(Valid()) ==> Valid()
    {
      if page.variant == Session.Therapist {
        TherapistStartPressed(stamp, now);
      } else if !isReady {
        Start(now);
      }
    }

    /** The therapist's Start button. */
    method TherapistStartPressed(stamp: string, now: int)
      requires page.variant == Session.Therapist
      modifies this
      ensures State() == TherapistStart(old(State()), stamp, now)
    {
      if pairing.fetching || flag {
        return;
      }
      if !Present(pairing.activeDevice) {
        OpenPairing(now);
        return;
      }
      var before := State();
      SetData([]);
      SetReps(reps.(remaining := reps.total));
      SetFlag(true);
      SetStarted(false);
      SetIsFinish(false);
      SetTime(Some(stamp));
      Request(CommandsFor(before));
      ghost var mid := State();
      RunEffects(before, now);
      assert TherapistStart(before, stamp, now) == Settle(before, mid, now);
    }

    /** The client's `start`. */
    method Start(now: int)
      requires page.variant == Session.Client
      modifies this
      ensures State() == ClientStart(old(State()), now)
    {
      if flag {
        return;
      }
      if !Present(pairing.activeDevice) {
        OpenPairing(now);
        return;
      }
      var before := State();
      SetData([]);
      SetReps(reps.(remaining := reps.total));
      SetFlag(true);
      SetStarted(true);
      SetIsFinish(false);
      ghost var mid := State();
      RunEffects(before, now);
      assert ClientStart(before, now) == Settle(before, mid, now);
    }

    /** `stop`, with the rest mark cleared. */
    method Stop(now: int)
      modifies this
      ensures State() == Session.Stop(old(State()), now)
      ensures old(Valid()) ==> Valid() && PhaseOf(State()) == Done
    {
      var before := State();
      SetFlag(false);
      SetStarted(false);
      SetPressure(Baseline);
      SetIsFinish(true);
      SetSleep(sleep.(resting := false));
      ghost var mid := State();
      RunEffects(before, now);
      assert Session.Stop(before, now) == Settle(before, mid, now);
    }

    /** `clientStartCallback`. */
    method ClientStartMessage(timestamp: int, now: int)
      requires page.variant == Session.Client
      modifies this
      ensures State() == ClientSignal(old(State()), timestamp, now)
      ensures old(Valid()) ==> Valid()
    {
      if timestamp != 0 {
        Start(now);
      } else {
        Stop(now);
      }
    }

    /** `startCallback`. */
    method StartMessage(now: int)
      modifies this
      ensures State() == StartSignal(old(State()), now)
      ensures old(Valid()) ==> Valid()
    {
      if flag && !sleep.resting && !started {
        var before := State();
        SetStarted(true);
        Request([Play(StartSound)]);
        ghost var mid := State();
        RunEffects(before, now);
        assert StartSignal(before, now) == Settle(before, mid, now);
      }
    }

    /** `dataCallback`. */
    method DataMessage(payload: Json, stamp: string, warningPlaying: bool)
      modifies this
      ensures State() == DataEvent(old(State()), payload, stamp, warningPlaying)
      ensures old(Valid()) ==> Valid()
    {
      if IsReading(payload) && flag && !sleep.resting && started {
        Reading(payload, stamp, warningPlaying);
      } else if IsAnnouncement(payload) {
        SetDevices(AddCandidate(devices, payload.fields["device"].s));
      }
    }

    /** A reading taken during a running session that is not resting. */
    method Reading(payload: Json, stamp: string, warningPlaying: bool)
      requires IsReading(payload) && flag && !sleep.resting && started
      modifies this
      ensures State() == DataEvent(old(State()), payload, stamp, warningPlaying)
    {
      var before := State();
      var p := payload.fields["pressure"].n;
      var band := CueBand(before);
      var cue: seq<Effect> := [];
      if band.Some? && p > band.value.high && !warningPlaying {
        cue := [Play(WarningSound)];
      }
      var store: seq<Effect> := [];
      if page.variant == Session.Therapist {
        store := [Store(RecordOf(before, p, stamp))];
      }
      assert DataEvent(before, payload, stamp, warningPlaying)
        == before.(samples := AppendIfNew(before.samples, Sample(p, stamp)), pressure := p,
                   effects := before.effects + cue + store);
      assert before.effects + (cue + store) == before.effects + cue + store;
      Request(cue + store);
      SetData(AppendIfNew(samples, Sample(p, stamp)));
      SetPressure(p);
    }

    /** One firing of the countdown's interval. */
    method TimerFired(now: int)
      modifies this
      ensures State() == Tick(old(State()), now)
      ensures old(Valid()) ==> Valid()
    {
      if clock.target.None? || Remaining(clock.target.value, now) > 0 {
        return;
      }
      if clock.repsLeft > 1 {
        if !sleep.resting {
          BeginRest(now);
        } else {
          EndRest(now);
        }
      } else {
        LastExpiry(now);
      }
    }

    /** A work phase expiring with repetitions left: the rest begins. */
    method BeginRest(now: int)
      requires clock.target.Some? && Remaining(clock.target.value, now) == 0
      requires clock.repsLeft > 1 && !sleep.resting
      modifies this
      ensures State() == Tick(old(State()), now)
    {
      if page.variant == Session.Client {
        Request([Play(clock.cue)]);
      }
      SetSleep(sleep.(resting := true));
      SetClock(clock.(target := Some(now + clock.restMs)));
    }

    /** A rest expiring: the next work phase begins, one repetition fewer. */
    method EndRest(now: int)
      requires clock.target.Some? && Remaining(clock.target.value, now) == 0
      requires clock.repsLeft > 1 && sleep.resting
      modifies this
      ensures State() == Tick(old(State()), now)
    {
      if page.variant == Session.Client {
        Request([Play(StartSound)]);
      }
      SetSleep(sleep.(resting := false));
      SetReps(reps.(remaining := clock.repsLeft - 1));
      SetClock(clock.(target := Some(now + clock.workMs), repsLeft := clock.repsLeft - 1));
    }

    /** The last phase expiring: the session ends and the effects settle. */
    method LastExpiry(now: int)
      requires clock.target.Some? && Remaining(clock.target.value, now) == 0
      requires clock.repsLeft <= 1
      modifies this
      ensures State() == Tick(old(State()), now)
    {
      var before := State();
      SetClock(clock.(target := None));
      SetFlag(false);
      SetStarted(false);
      SetPressure(Baseline);
      SetIsFinish(true);
      SetReps(reps.(remaining := 0));
      ghost var mid := State();
      assert mid == before.(clock := before.clock.(target := None), flag := false, started := false,
        pressure := Baseline, isFinish := true, reps := before.reps.(remaining := 0));
      RunEffects(before, now);
      assert Tick(before, now) == Settle(before, mid, now);
    }

    /** The custom band's confirm. */
    method CustomConfirmed(lo: Option<int>, hi: Option<int>)
      modifies this
      ensures State() == CustomConfirm(old(State()), lo, hi)
    {
      if TruthyNum(lo) && TruthyNum(hi) {
        SetModes(SetCustom(modes, lo.value, hi.value));
      }
    }

    /** The timer dialog's confirm. */
    method TimerConfirmed(time: Option<int>, repetitions: Option<int>, rest: Option<int>, sound: string, now: int)
      modifies this
      ensures State() == TimerConfirm(old(State()), time, repetitions, rest, sound, now)
      ensures old(Valid()) ==> Valid()
    {
      if !TruthyNum(time) || !TruthyNum(repetitions) || !TruthyNum(rest) {
        return;
      }
      var before := State();
      var saved := if page.variant == Session.Client then [SavePreset(repetitions.value, time.value, rest.value)] else [];
      Request(saved);
      SetRestSound(if page.variant == Session.Client then sound else restSound);
      SetTimeValue(time.value);
      SetSleep(sleep.(duration := rest.value));
      SetReps(Reps(repetitions.value, repetitions.value));
      ghost var mid := State();
      RunEffects(before, now);
      assert TimerConfirm(before, time, repetitions, rest, sound, now) == Settle(before, mid, now);
    }

    /** Choosing a sensor in the pairing dialog. */
    method DeviceChosen(d: string, now: int)
      modifies this
      ensures State() == SelectDevice(old(State()), d, now)
    {
      var before := State();
      SetPairing(pairing.(selected := Some(d)));
      ghost var mid := State();
      RunEffects(before, now);
      assert SelectDevice(before, d, now) == Settle(before, mid, now);
    }

    /** Closing the pairing dialog without saving. */
    method DialogDismissed(now: int)
      modifies this
      ensures State() == DismissDialog(old(State()), now)
    {
      var before := State();
      SetPairing(pairing.(dialogOpen := false));
      ghost var mid := State();
      RunEffects(before, now);
      assert DismissDialog(before, now) == Settle(before, mid, now);
    }

    /** `handleEditSubmit`. */
    method EditSubmitted(now: int)
      modifies this
      ensures State() == EditSubmit(old(State()), now)
    {
      if page.title == "" || !Truthy(pairing.selected) {
        return;
      }
      var before := State();
      var chosen := pairing.selected.value;
      var device := if page.variant == Session.Client then Some(JStr(chosen)) else pairing.activeDevice;
      Request([SaveDevice(chosen)]);
      SetPairing(pairing.(activeDevice := device, dialogOpen := false));
      ghost var mid := State();
      RunEffects(before, now);
      assert EditSubmit(before, now) == Settle(before, mid, now);
    }

    /** The therapist's lookup of the stored sensor completing. */
    method DeviceFetched(reply: DataActions.DeviceReply)
      modifies this
      ensures State() == DeviceLoaded(old(State()), reply)
    {
      if page.variant == Session.Client {
        return;
      }
      if reply.Device? {
        SetPairing(pairing.(activeDevice := Some(reply.value)));
      }
      SetPairing(pairing.(fetching := false));
    }

    /** The Pair button. */
    method PairButton(now: int)
      modifies this
      ensures State() == PairPressed(old(State()), now)
    {
      if !flag {
        OpenPairing(now);
      }
    }

    /** Any event, dispatched to its handler. */
    method Handle(e: Event, now: int)
      modifies this
      ensures State() == Step(old(State()), e, now)
    {
      match e
      case StartPressed(stamp) => StartPressed(stamp, now);
      case StopPressed => Stop(now);
      case PairButton => PairButton(now);
      case StartMessage => StartMessage(now);
      case ClientStartMessage(t) =>
        if page.variant == Session.Client {
          ClientStartMessage(t, now);
        }
      case ReadyChanged(b) =>
        if page.variant == Session.Client {
          SetIsReady(b);
        }
      case DataMessage(payload, stamp, playing) => DataMessage(payload, stamp, playing);
      case TimerFired => TimerFired(now);
      case _ => HandleDialog(e, now);
    }

    /** The events of the band, timer and pairing dialogs. */
    method HandleDialog(e: Event, now: int)
      requires e.CustomConfirmed? || e.TimerConfirmed? || e.DeviceChosen? || e.DialogDismissed?
        || e.EditSubmitted? || e.DeviceFetched?
      modifies this
      ensures State() == Step(old(State()), e, now)
    {
      ghost var s := State();
      match e
      case CustomConfirmed(lo, hi) =>
        assert Step(s, e, now) == CustomConfirm(s, lo, hi);
        CustomConfirmed(lo, hi);
      case TimerConfirmed(time, n, rest, sound) =>
        assert Step(s, e, now) == TimerConfirm(s, time, n, rest, sound, now);
        TimerConfirmed(time, n, rest, sound, now);
      case DeviceChosen(d) =>
        assert Step(s, e, now) == SelectDevice(s, d, now);
        DeviceChosen(d, now);
      case DialogDismissed =>
        assert Step(s, e, now) == DismissDialog(s, now);
        DialogDismissed(now);
      case EditSubmitted =>
        assert Step(s, e, now) == EditSubmit(s, now);
        EditSubmitted(now);
      case DeviceFetched(reply) =>
        assert Step(s, e, now) == DeviceLoaded(s, reply);
        DeviceFetched(reply);
    }
  }

  /** A client session driven on the object: after the start, the interval
      fires at each deadline until the session ends. The phases the object
      passes through are exactly those of the countdown started with the
      page's repetition count, and the session ends with its summary due. */
  method RunClientSession(c: Chart, now: int) returns (phases: seq<Phase>)
    requires c.Valid() && c.page.variant == Session.Client && !c.flag && Present(c.pairing.activeDevice)
    modifies c
    ensures phases == Countdown.Run(Work(old(c.reps.total)))
    ensures !c.flag && c.isFinish && PhaseOf(c.State()) == Done && c.Valid()
  {
    ghost var s0 := c.State();
    var total := c.reps.total;
    c.Start(now);
    var k := Steps(Work(total));
    ghost var start := c.State();
    ClientSessionCounts(s0, now);
    SessionEnds(start, k);
    phases := [];
    var i := 0;
    while i < k
      invariant 0 <= i <= k
      invariant c.State() == ExpireN(start, i) && c.Valid()
      invariant phases == Visited(start, i)
      decreases k - i
    {
      VisitedNext(start, i);
      phases := phases + [PhaseOf(c.State())];
      var t := if c.clock.target.Some? then c.clock.target.value else now;
      ghost var s := c.State();
      c.TimerFired(t);
      assert c.State() == Expire(s);
      ExpireNNext(start, i);
      i := i + 1;
    }
  }
}
