/** The countdown engine of the exercise chart (the interval set up by the
    timer effect in src/components/Chart.tsx and
    src/components/ClientChart.tsx): a wall-clock target in integer
    milliseconds and a repetition counter that alternate work and rest
    phases until the repetitions run out. */
module Countdown {

  /** Milliseconds left until `target`, never negative. */
  function Remaining(target: int, now: int): (r: int)
    ensures r >= 0
    ensures r == 0 <==> target <= now
    ensures r > 0 ==> now + r == target
  {
    if target - now > 0 then target - now else 0
  }

  /** The phase the countdown is in: working or resting with `left`
      repetitions still counted, or finished. */
  datatype Phase = Work(left: int) | Rest(left: int) | Done

  /** What an expiring phase turns into: with more than one repetition
      left, work gives way to rest with the count unchanged and rest to work
      with the count decremented; otherwise the session ends. */
  function NextPhase(p: Phase): (q: Phase)
    ensures p.Work? && p.left > 1 ==> q == Rest(p.left)
    ensures p.Rest? && p.left > 1 ==> q == Work(p.left - 1)
    ensures p.Done? || p.left <= 1 ==> q == Done
  {
    match p
    case Work(l) => if l > 1 then Rest(l) else Done
    case Rest(l) => if l > 1 then Work(l - 1) else Done
    case Done => Done
  }

  /** How many expiries are still ahead of a phase. */
  function Steps(p: Phase): nat {
    match p
    case Work(l) => if l > 1 then 2 * l - 1 else 1
    case Rest(l) => if l > 1 then 2 * l - 2 else 1
    case Done => 0
  }

  /** The phases a countdown passes through from `p`, up to the end. */
  function Run(p: Phase): (r: seq<Phase>)
    ensures |r| == Steps(p)
    ensures forall i :: 0 <= i < |r| ==> !r[i].Done?
    decreases Steps(p)
  {
    if p.Done? then [] else [p] + Run(NextPhase(p))
  }

  function CountWork(ps: seq<Phase>): nat {
    if ps == [] then 0 else (if ps[0].Work? then 1 else 0) + CountWork(ps[1..])
  }

  function CountRest(ps: seq<Phase>): nat {
    if ps == [] then 0 else (if ps[0].Rest? then 1 else 0) + CountRest(ps[1..])
  }

  /** Starting a rest with `n` > 1 repetitions counted leaves `n` - 1 work
      phases and as many rests. */
  lemma {:induction false} RestCounts(n: int)
    requires n > 1
    ensures CountWork(Run(Rest(n))) == n - 1
    ensures CountRest(Run(Rest(n))) == n - 1
    decreases n
  {
    var r := Run(Rest(n));
    assert r == [Rest(n)] + Run(Work(n - 1));
    assert r[1..] == Run(Work(n - 1));
    if n - 1 > 1 {
      var w := Run(Work(n - 1));
      assert w == [Work(n - 1)] + Run(Rest(n - 1));
      assert w[1..] == Run(Rest(n - 1));
      RestCounts(n - 1);
    } else {
      var w := Run(Work(n - 1));
      assert w == [Work(n - 1)];
      assert w[1..] == [];
      assert CountWork(w) == 1 && CountRest(w) == 0;
    }
  }

  /** A countdown begun with `n` repetitions works max(n, 1) times and
      rests once fewer: a count of 0 or less still runs one work phase. */
  lemma {:induction false} WorkCounts(n: int)
    ensures CountWork(Run(Work(n))) == (if n > 1 then n else 1)
    ensures CountRest(Run(Work(n))) == (if n > 1 then n - 1 else 0)
  {
    var r := Run(Work(n));
    assert r == [Work(n)] + Run(NextPhase(Work(n)));
    assert r[1..] == Run(NextPhase(Work(n)));
    if n > 1 {
      RestCounts(n);
    } else {
      assert r[1..] == [];
    }
  }

  /** Phases strictly alternate: every work phase but the last is followed
      by a rest with the same count, every rest by a work phase with one
      fewer. */
  lemma {:induction false} RunAlternates(p: Phase, i: nat)
    requires i + 1 < |Run(p)|
    ensures Run(p)[i + 1] == NextPhase(Run(p)[i])
    decreases Steps(p)
  {
    var r := Run(p);
    assert r == [p] + Run(NextPhase(p));
    if i > 0 {
      RunAlternates(NextPhase(p), i - 1);
    } else {
      assert r[1] == Run(NextPhase(p))[0];
    }
  }
}
