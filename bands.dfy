/** The pressure bands of the exercise chart (src/components/Chart.tsx and
    src/components/ClientChart.tsx): the band list, the band that applies to
    a mode label, the gauge reading and colour, the command pressure sent to
    the sensor, the custom-band update and the end-of-session summary. */
module Bands {
  import opened Text

  /** A pressure band: the lower-case fragment it matches and its limits in mmHg. */
  datatype Mode = Mode(name: string, low: int, high: int)

  /** The bands both chart variants start with. */
  const InitialModes: seq<Mode> := [
    Mode("cervical", 20 - 2, 30 + 2),
    Mode("thoracic", 30 - 2, 40 + 2),
    Mode("lumbar extension", 30 - 2, 40 + 2),
    Mode("lumbar", 40 - 2, 50 + 2),
    Mode("custom", 40 - 2, 50 + 2)
  ]

  /** The gauge's full scale. */
  const MaxPressure: int := 100

  /** The first band, from index `i` on, whose fragment occurs in `text`. */
  function FindFrom(modes: seq<Mode>, text: string, i: nat): (r: Option<nat>)
    requires i <= |modes|
    ensures r.Some? ==> (i <= r.value < |modes| && Contains(text, modes[r.value].name)
      && forall j :: i <= j < r.value ==> !Contains(text, modes[j].name))
    ensures r.None? ==> forall j :: i <= j < |modes| ==> !Contains(text, modes[j].name)
    decreases |modes| - i
  {
    if i == |modes| then None
    else if Contains(text, modes[i].name) then Some(i)
    else FindFrom(modes, text, i + 1)
  }

  /** `modes.find(m => label.toLowerCase().includes(m.name))`: the first
      band, in list order, whose fragment occurs in the lower-cased label. */
  function ActiveMode(modes: seq<Mode>, title: string): (r: Option<Mode>)
    ensures r.Some? ==> exists i :: (0 <= i < |modes| && modes[i] == r.value
      && Contains(Lower(title), modes[i].name)
      && forall j :: 0 <= j < i ==> !Contains(Lower(title), modes[j].name))
    ensures r.None? ==> forall j :: 0 <= j < |modes| ==> !Contains(Lower(title), modes[j].name)
  {
    var k := FindFrom(modes, Lower(title), 0);
    if k.Some? then Some(modes[k.value]) else None
  }

  /** `find(...)?.min || 0`: the active band's lower limit, or 0 without one. */
  function CommandBase(modes: seq<Mode>, title: string): (p: int)
    ensures ActiveMode(modes, title).None? ==> p == 0
    ensures ActiveMode(modes, title).Some? ==> p == ActiveMode(modes, title).value.low
  {
    var m := ActiveMode(modes, title);
    if m.Some? then m.value.low else 0
  }

  /** The pressure shown on the gauge: the reading clamped to [0, 100]. */
  function SafePressure(p: int): (r: int)
    ensures 0 <= r <= MaxPressure
    ensures 0 <= p <= MaxPressure ==> r == p
    ensures p < 0 ==> r == 0
    ensures p > MaxPressure ==> r == MaxPressure
  {
    if p < 0 then 0 else if p > MaxPressure then MaxPressure else p
  }

  datatype Colour = Red | Green | Amber

  /** The gauge colour: red above the band, green within it, amber below
      it or without a band (a band whose limits are crossed, which the
      custom editor allows, shows red above its upper limit and amber
      otherwise). */
  function GaugeColour(mode: Option<Mode>, p: int): (c: Colour)
    ensures c == Red <==> mode.Some? && SafePressure(p) > mode.value.high
    ensures c == Green <==> mode.Some? && mode.value.low <= SafePressure(p) <= mode.value.high
    ensures c == Amber <==> mode.None? || (SafePressure(p) < mode.value.low && SafePressure(p) <= mode.value.high)
  {
    var safe := SafePressure(p);
    if mode.Some? && safe > mode.value.high then Red
    else if mode.Some? && mode.value.low <= safe <= mode.value.high then Green
    else Amber
  }

  /** The custom-band update: the entry labelled "custom" takes the new
      limits, every other entry and the order stay as they were. */
  function SetCustom(modes: seq<Mode>, lo: int, hi: int): (r: seq<Mode>)
    ensures |r| == |modes|
    ensures forall i :: 0 <= i < |modes| && modes[i].name == "custom" ==> r[i] == Mode("custom", lo, hi)
    ensures forall i :: 0 <= i < |modes| && modes[i].name != "custom" ==> r[i] == modes[i]
  {
    seq(|modes|, i requires 0 <= i < |modes| => if modes[i].name == "custom" then modes[i].(low := lo, high := hi) else modes[i])
  }

  /** The readings other than 0, in order. */
  function NonZero(ps: seq<int>): (r: seq<int>)
    ensures |r| <= |ps|
    ensures forall i :: 0 <= i < |r| ==> r[i] != 0 && r[i] in ps
    ensures forall i :: 0 <= i < |ps| && ps[i] != 0 ==> ps[i] in r
  {
    if ps == [] then []
    else
      var rest := NonZero(ps[1..]);
      assert forall i :: 1 <= i < |ps| ==> ps[i] == ps[1..][i - 1];
      if ps[0] != 0 then [ps[0]] + rest else rest
  }

  /** The least element of a non-empty sequence. */
  function SeqMin(s: seq<int>): (m: int)
    requires s != []
    ensures m in s && forall i :: 0 <= i < |s| ==> m <= s[i]
  {
    if |s| == 1 then s[0]
    else
      var rest := SeqMin(s[1..]);
      assert forall i :: 1 <= i < |s| ==> s[i] == s[1..][i - 1];
      if s[0] <= rest then s[0] else rest
  }

  /** The greatest element of a non-empty sequence. */
  function SeqMax(s: seq<int>): (m: int)
    requires s != []
    ensures m in s && forall i :: 0 <= i < |s| ==> s[i] <= m
  {
    if |s| == 1 then s[0]
    else
      var rest := SeqMax(s[1..]);
      assert forall i :: 1 <= i < |s| ==> s[i] == s[1..][i - 1];
      if s[0] >= rest then s[0] else rest
  }

  function Sum(ps: seq<int>): int {
    if ps == [] then 0 else ps[0] + Sum(ps[1..])
  }

  /** The end-of-session summary: the number of samples and their sum (the
      average is the quotient), the least and greatest non-zero reading, and
      the elapsed milliseconds. */
  datatype Summary = Summary(count: nat, sum: int, least: Option<int>, greatest: Option<int>, elapsedMs: int)

  /** `Summarize`: the extremes are taken over the non-zero readings only
      and are absent when there are none; the elapsed time is counted only
      when both instants are set and non-zero. */
  function Summarize(ps: seq<int>, begin: Option<int>, end: Option<int>): (r: Summary)
    ensures r.count == |ps| && r.sum == Sum(ps)
    ensures r.least.Some? <==> NonZero(ps) != []
    ensures r.least.Some? <==> r.greatest.Some?
    ensures r.least.Some? ==> r.least.value <= r.greatest.value && r.least.value != 0 && r.greatest.value != 0
    ensures r.least.Some? ==> forall i :: 0 <= i < |ps| && ps[i] != 0 ==> r.least.value <= ps[i] <= r.greatest.value
    ensures r.least.Some? ==> r.least.value in ps && r.greatest.value in ps
    ensures r.elapsedMs != 0 ==> begin.Some? && end.Some? && r.elapsedMs == end.value - begin.value
    ensures TruthyNum(begin) && TruthyNum(end) ==> r.elapsedMs == end.value - begin.value
    ensures !(TruthyNum(begin) && TruthyNum(end)) ==> r.elapsedMs == 0
  {
    var nz := NonZero(ps);
    var elapsed := if TruthyNum(begin) && TruthyNum(end) then end.value - begin.value else 0;
    if nz == [] then Summary(|ps|, Sum(ps), None, None, elapsed)
    else
      var lo := SeqMin(nz);
      var hi := SeqMax(nz);
      assert nz[0] in nz;
      Summary(|ps|, Sum(ps), Some(lo), Some(hi), elapsed)
  }
}
