/** Clip scheduler: the planning loop of processVideos (script.js:113-141).
    It keeps choosing a source file, never the one chosen just before when
    there is a choice, and appends a clip of random length and start until
    the planned lengths add up to the requested output length.
    Source files are identified by their index; the duration that
    getVideoDuration reports for file f is `durations[f]`. The random draws
    of the i-th round come from three streams indexed by i. */
module Scheduler {
  import Planner

  /** One planned clip: which file, where in it to start, how long to play. */
  datatype ClipConf = ClipConf(file: nat, startTime: real, clipLength: real)

  /** Sum of the planned clip lengths. */
  function Total(plan: seq<ClipConf>): real {
    if plan == [] then 0.0 else Total(plan[..|plan| - 1]) + plan[|plan| - 1].clipLength
  }

  /** The file indices 0..n-1 other than `last`, in increasing order: the
      reference list of the indices a round may choose from. */
  function Eligible(n: nat, last: int): (e: seq<nat>)
    ensures forall i: int :: i in e <==> 0 <= i < n && i != last
    ensures forall j, k | 0 <= j < k < |e| :: e[j] < e[k]
    ensures |e| == if 0 <= last < n then n - 1 else n
  {
    if n == 0 then []
    else
      var front := Eligible(n - 1, last);
      assert forall j | 0 <= j < |front| :: front[j] < n - 1 by {
        forall j | 0 <= j < |front| ensures front[j] < n - 1 {
          assert front[j] in front;
        }
      }
      front + (if n - 1 != last then [n - 1] else [])
  }

  /** The loop that collects the eligible indices (script.js:123-128). */
  method EligibleIndices(n: nat, last: int) returns (e: seq<nat>)
    ensures e == Eligible(n, last)
  {
    e := [];
    var i := 0;
    while i < n
      invariant i <= n
      invariant e == Eligible(i, last)
    {
      if i != last {
        e := e + [i];
      }
      i := i + 1;
    }
  }

  /** Math.floor(r * m): a uniform position in a list of m elements. */
  function Pick(r: real, m: nat): (k: nat)
    requires 0.0 <= r < 1.0 && m > 0
    ensures k < m
  {
    var x := r * (m as real);
    Planner.ScaledBelow(r, m as real);
    assert 0.0 <= x < m as real;
    x.Floor
  }

  /** The file chosen in one round, given the previous round's choice
      (-1 before the first round) and the round's index draw. */
  function ChooseIndex(n: nat, last: int, r: real): (k: nat)
    requires n >= 1 && 0.0 <= r < 1.0
    ensures k < n
    ensures n == 1 ==> k == 0
    ensures n > 1 ==> k != last
  {
    if n > 1 then
      var e := Eligible(n, last);
      var j := Pick(r, |e|);
      assert e[j] in e;
      e[j]
    else
      0
  }

  /** The clip planned in one round, from the previous round's choice and
      the round's three draws (file index, length, start). */
  function NextClip(durations: seq<real>, minPct: int, maxPct: int, last: int,
                    rIndex: real, rLength: real, rStart: real): (c: ClipConf)
    requires |durations| >= 1
    requires 0.0 <= rIndex < 1.0 && 0.0 <= rLength < 1.0 && 0.0 <= rStart < 1.0
    ensures c.file < |durations|
    ensures |durations| > 1 ==> c.file != last
    ensures |durations| == 1 ==> c.file == 0
  {
    var f := ChooseIndex(|durations|, last, rIndex);
    var d := durations[f];
    var len := Planner.ClipLength(minPct, maxPct, d, rLength);
    ClipConf(f, Planner.StartTime(d, len, rStart), len)
  }

  /** One round of the planning loop (script.js:120-138). */
  method PlanRound(durations: seq<real>, minPct: int, maxPct: int, lastIndex: int,
                   rIndex: real, rLength: real, rStart: real) returns (clip: ClipConf)
    requires |durations| >= 1
    requires 0.0 <= rIndex < 1.0 && 0.0 <= rLength < 1.0 && 0.0 <= rStart < 1.0
    ensures clip == NextClip(durations, minPct, maxPct, lastIndex, rIndex, rLength, rStart)
  {
    var candidateIndex;
    if |durations| > 1 {
      var eligibleIndices := EligibleIndices(|durations|, lastIndex);
      var j := Pick(rIndex, |eligibleIndices|);
      assert eligibleIndices[j] in eligibleIndices;
      candidateIndex := eligibleIndices[j];
    } else {
      candidateIndex := 0;
    }
    var duration := durations[candidateIndex];
    var clipLength := Planner.ClipLength(minPct, maxPct, duration, rLength);
    var startTime := Planner.StartTime(duration, clipLength, rStart);
    clip := ClipConf(candidateIndex, startTime, clipLength);
  }

  /** A planned clip is at least minPct percent of its source long and, with
      bounds inside 0..100 percent, lies within its source. */
  lemma NextClipBounds(durations: seq<real>, minPct: int, maxPct: int, last: int,
                       rIndex: real, rLength: real, rStart: real)
    requires |durations| >= 1
    requires forall f | 0 <= f < |durations| :: durations[f] > 0.0
    requires 0 <= minPct <= maxPct
    requires 0.0 <= rIndex < 1.0 && 0.0 <= rLength < 1.0 && 0.0 <= rStart < 1.0
    ensures var c := NextClip(durations, minPct, maxPct, last, rIndex, rLength, rStart);
      c.clipLength >= Planner.Share(minPct, durations[c.file]) &&
      (maxPct <= 100 ==> 0.0 <= c.startTime && c.startTime + c.clipLength <= durations[c.file])
  {
    var c := NextClip(durations, minPct, maxPct, last, rIndex, rLength, rStart);
    var d := durations[c.file];
    assert c.clipLength == Planner.ClipLength(minPct, maxPct, d, rLength);
    if maxPct <= 100 {
      Planner.PlannedClipFitsSource(minPct, maxPct, d, rLength, rStart);
    }
  }

  /** The choice made in the round before round i of `plan`. */
  function PreviousFile(plan: seq<ClipConf>, i: nat): int
    requires i <= |plan|
  {
    if i == 0 then -1 else plan[i - 1].file
  }

  /** The shortest of the source durations. */
  ghost function MinDuration(durations: seq<real>): (m: real)
    requires |durations| >= 1
    ensures forall i | 0 <= i < |durations| :: m <= durations[i]
    ensures (forall i | 0 <= i < |durations| :: durations[i] > 0.0) ==> m > 0.0
  {
    if |durations| == 1 then durations[0]
    else
      var m := MinDuration(durations[1..]);
      assert forall i | 1 <= i < |durations| :: durations[i] == durations[1..][i - 1];
      if durations[0] < m then durations[0] else m
  }

  lemma TotalAppend(plan: seq<ClipConf>, c: ClipConf)
    ensures Total(plan + [c]) == Total(plan) + c.clipLength
  {
    assert (plan + [c])[..|plan|] == plan;
  }

  lemma ShareGrows(pct: int, d: real, e: real)
    requires pct >= 0 && 0.0 <= d <= e
    ensures Planner.Share(pct, d) <= Planner.Share(pct, e)
  {
    assert Planner.Share(pct, e) - Planner.Share(pct, d) == (pct as real / 100.0) * (e - d);
  }

  /** How many more steps of at least `delta` fit between `total` and
      `target`, rounded down: the termination measure of the planning loop. */
  ghost function StepsLeft(target: real, total: real, delta: real): int
    requires delta > 0.0
  {
    ((target - total) / delta).Floor
  }

  /** A positive lower bound on every round's clip length. */
  ghost function MinStep(durations: seq<real>, minPct: int): (delta: real)
    requires |durations| >= 1
    requires forall f | 0 <= f < |durations| :: durations[f] > 0.0
    requires minPct > 0
    ensures delta > 0.0
  {
    Planner.Share(minPct, MinDuration(durations))
  }

  lemma MinStepBelow(durations: seq<real>, minPct: int, f: nat)
    requires |durations| >= 1
    requires forall g | 0 <= g < |durations| :: durations[g] > 0.0
    requires minPct > 0 && f < |durations|
    ensures MinStep(durations, minPct) <= Planner.Share(minPct, durations[f])
  {
    ShareGrows(minPct, MinDuration(durations), durations[f]);
  }

  lemma FloorDrops(target: real, total: real, next: real, delta: real)
    requires total < target && delta > 0.0 && next >= total + delta
    ensures StepsLeft(target, next, delta) < StepsLeft(target, total, delta)
    ensures StepsLeft(target, total, delta) >= 0
  {
    var x, y := target - total, target - next;
    var q, p := x / delta, y / delta;
    assert q * delta == x;
    assert p * delta == y;
    var d := q - 1.0 - p;
    assert d * delta == x - delta - y;
    ProductSign(d, delta);
    ProductSign(q, delta);
  }

  lemma ProductSign(a: real, b: real)
    requires b > 0.0
    ensures a < 0.0 ==> a * b < 0.0
    ensures a <= 0.0 ==> a * b <= 0.0
  {
  }

  /** The first k rounds of the planning process, with the draws of round
      i taken from the three streams at position i: the reference definition
      of what the planning loop builds. */
  function Rounds(durations: seq<real>, minPct: int, maxPct: int,
                  indexDraw: nat -> real, lengthDraw: nat -> real, startDraw: nat -> real, k: nat)
    : (p: seq<ClipConf>)
    requires |durations| >= 1
    requires forall i: nat :: 0.0 <= indexDraw(i) < 1.0
    requires forall i: nat :: 0.0 <= lengthDraw(i) < 1.0
    requires forall i: nat :: 0.0 <= startDraw(i) < 1.0
    ensures |p| == k
  {
    if k == 0 then []
    else
      var prev := Rounds(durations, minPct, maxPct, indexDraw, lengthDraw, startDraw, k - 1);
      prev + [NextClip(durations, minPct, maxPct, PreviousFile(prev, k - 1),
                       indexDraw(k - 1), lengthDraw(k - 1), startDraw(k - 1))]
  }

  /** No proper prefix of `plan` already reaches `target`. */
  ghost predicate ShortBefore(plan: seq<ClipConf>, target: real) {
    forall i | 0 <= i < |plan| :: Total(plan[..i]) < target
  }

  /** Every clip lies within its source file. */
  ghost predicate FitsSources(plan: seq<ClipConf>, durations: seq<real>) {
    forall i | 0 <= i < |plan| ::
      plan[i].file < |durations| &&
      0.0 <= plan[i].startTime && plan[i].startTime + plan[i].clipLength <= durations[plan[i].file]
  }

  lemma ShortBeforeAppend(plan: seq<ClipConf>, target: real, c: ClipConf)
    requires ShortBefore(plan, target) && Total(plan) < target
    ensures ShortBefore(plan + [c], target)
  {
    var p := plan + [c];
    forall i | 0 <= i < |p| ensures Total(p[..i]) < target {
      assert p[..i] == plan[..i];
    }
  }

  /** A plan that needs a first round was asked for a positive length. */
  lemma ShortBeforePositive(plan: seq<ClipConf>, target: real)
    requires ShortBefore(plan, target) && plan != []
    ensures target > 0.0
  {
    assert plan[..0] == [];
  }

  /** Files of consecutive clips differ when there is more than one file,
      and only file 0 is used when there is one. */
  ghost predicate NoImmediateRepeat(plan: seq<ClipConf>, n: nat) {
    (forall i | 0 <= i < |plan| :: plan[i].file < n) &&
    (n > 1 ==> forall i | 0 < i < |plan| :: plan[i].file != plan[i - 1].file) &&
    (n == 1 ==> forall i | 0 <= i < |plan| :: plan[i].file == 0)
  }

  lemma NoImmediateRepeatAppend(plan: seq<ClipConf>, n: nat, c: ClipConf)
    requires NoImmediateRepeat(plan, n)
    requires c.file < n
    requires n > 1 && plan != [] ==> c.file != plan[|plan| - 1].file
    requires n == 1 ==> c.file == 0
    ensures NoImmediateRepeat(plan + [c], n)
  {
    var p := plan + [c];
    assert forall i | 0 <= i < |plan| :: p[i] == plan[i];
    assert p[|plan|] == c;
  }

  /** Planned rounds never repeat a file in consecutive rounds when there is
      more than one file, and use only file 0 when there is one. */
  lemma {:induction false} RoundsNoImmediateRepeat(durations: seq<real>, minPct: int, maxPct: int,
                                                   indexDraw: nat -> real, lengthDraw: nat -> real,
                                                   startDraw: nat -> real, k: nat)
    requires |durations| >= 1
    requires forall i: nat :: 0.0 <= indexDraw(i) < 1.0
    requires forall i: nat :: 0.0 <= lengthDraw(i) < 1.0
    requires forall i: nat :: 0.0 <= startDraw(i) < 1.0
    ensures NoImmediateRepeat(Rounds(durations, minPct, maxPct, indexDraw, lengthDraw, startDraw, k), |durations|)
  {
    if k > 0 {
      RoundsNoImmediateRepeat(durations, minPct, maxPct, indexDraw, lengthDraw, startDraw, k - 1);
      var prev := Rounds(durations, minPct, maxPct, indexDraw, lengthDraw, startDraw, k - 1);
      var c := NextClip(durations, minPct, maxPct, PreviousFile(prev, k - 1),
                        indexDraw(k - 1), lengthDraw(k - 1), startDraw(k - 1));
      NoImmediateRepeatAppend(prev, |durations|, c);
    }
  }

  /** With bounds inside 0..100 percent every planned clip lies within its
      source file. */
  lemma {:induction false} RoundsFitSources(durations: seq<real>, minPct: int, maxPct: int,
                                            indexDraw: nat -> real, lengthDraw: nat -> real,
                                            startDraw: nat -> real, k: nat)
    requires |durations| >= 1
    requires forall f | 0 <= f < |durations| :: durations[f] > 0.0
    requires 0 <= minPct <= maxPct <= 100
    requires forall i: nat :: 0.0 <= indexDraw(i) < 1.0
    requires forall i: nat :: 0.0 <= lengthDraw(i) < 1.0
    requires forall i: nat :: 0.0 <= startDraw(i) < 1.0
    ensures FitsSources(Rounds(durations, minPct, maxPct, indexDraw, lengthDraw, startDraw, k), durations)
  {
    if k > 0 {
      RoundsFitSources(durations, minPct, maxPct, indexDraw, lengthDraw, startDraw, k - 1);
      var prev := Rounds(durations, minPct, maxPct, indexDraw, lengthDraw, startDraw, k - 1);
      var p := Rounds(durations, minPct, maxPct, indexDraw, lengthDraw, startDraw, k);
      NextClipBounds(durations, minPct, maxPct, PreviousFile(prev, k - 1),
                     indexDraw(k - 1), lengthDraw(k - 1), startDraw(k - 1));
      assert forall i | 0 <= i < k - 1 :: p[i] == prev[i];
    }
  }

  /** What every plan the loop can return satisfies: no clips for a
      non-positive target, no file twice in a row when there is a choice,
      and with bounds inside 0..100 percent every clip within its source. */
  lemma PlanProperties(durations: seq<real>, finalLength: int, minPct: int, maxPct: int,
                       indexDraw: nat -> real, lengthDraw: nat -> real, startDraw: nat -> real,
                       plan: seq<ClipConf>)
    requires |durations| >= 1
    requires forall f | 0 <= f < |durations| :: durations[f] > 0.0
    requires 0 <= minPct <= maxPct
    requires forall i: nat :: 0.0 <= indexDraw(i) < 1.0
    requires forall i: nat :: 0.0 <= lengthDraw(i) < 1.0
    requires forall i: nat :: 0.0 <= startDraw(i) < 1.0
    requires plan == Rounds(durations, minPct, maxPct, indexDraw, lengthDraw, startDraw, |plan|)
    requires ShortBefore(plan, finalLength as real)
    ensures finalLength <= 0 ==> plan == []
    ensures NoImmediateRepeat(plan, |durations|)
    ensures maxPct <= 100 ==> FitsSources(plan, durations)
  {
    RoundsNoImmediateRepeat(durations, minPct, maxPct, indexDraw, lengthDraw, startDraw, |plan|);
    if plan != [] {
      ShortBeforePositive(plan, finalLength as real);
    }
    if maxPct <= 100 {
      RoundsFitSources(durations, minPct, maxPct, indexDraw, lengthDraw, startDraw, |plan|);
    }
  }

  /** The planning loop. It stops in the first round whose clip brings the
      total to at least finalLength, and its clips are exactly the rounds the
      draws select. Termination needs every round to make progress, hence
      positive durations and a positive minimum percentage. */
  method BuildPlan(durations: seq<real>, finalLength: int, minPct: int, maxPct: int,
                   indexDraw: nat -> real, lengthDraw: nat -> real, startDraw: nat -> real)
    returns (plan: seq<ClipConf>)
    requires |durations| >= 1
    requires forall f | 0 <= f < |durations| :: durations[f] > 0.0
    requires 0 < minPct <= maxPct
    requires forall i: nat :: 0.0 <= indexDraw(i) < 1.0
    requires forall i: nat :: 0.0 <= lengthDraw(i) < 1.0
    requires forall i: nat :: 0.0 <= startDraw(i) < 1.0
    ensures plan == Rounds(durations, minPct, maxPct, indexDraw, lengthDraw, startDraw, |plan|)
    ensures Total(plan) >= finalLength as real
    ensures ShortBefore(plan, finalLength as real)
  {
    ghost var delta := MinStep(durations, minPct);
    var target := finalLength as real;
    var totalDuration := 0.0;
    var lastIndex: int := -1;
    plan := [];
    while totalDuration < target
      invariant totalDuration == Total(plan)
      invariant lastIndex == PreviousFile(plan, |plan|)
      invariant ShortBefore(plan, target)
      invariant plan == Rounds(durations, minPct, maxPct, indexDraw, lengthDraw, startDraw, |plan|)
      decreases StepsLeft(target, totalDuration, delta)
    {
      var round := |plan|;
      var clip := PlanRound(durations, minPct, maxPct, lastIndex, indexDraw(round), lengthDraw(round), startDraw(round));
      ghost var before, total, last := plan, totalDuration, lastIndex;
      lastIndex := clip.file;
      plan := plan + [clip];
      totalDuration := totalDuration + clip.clipLength;
      RoundProgress(durations, minPct, maxPct, indexDraw, lengthDraw, startDraw, before, target, total, totalDuration, clip);
      RoundShrinksGap(durations, minPct, maxPct, last, indexDraw(round), lengthDraw(round), startDraw(round),
                      target, total, totalDuration, delta);
    }
  }

  /** One round of the planning loop keeps its invariants: the plan is still
      the rounds drawn so far, no proper prefix reaches the target, and the
      running total and last file index follow the new clip. */
  lemma RoundProgress(durations: seq<real>, minPct: int, maxPct: int,
                      indexDraw: nat -> real, lengthDraw: nat -> real, startDraw: nat -> real,
                      plan: seq<ClipConf>, target: real, total: real, next: real, clip: ClipConf)
    requires |durations| >= 1
    requires forall i: nat :: 0.0 <= indexDraw(i) < 1.0
    requires forall i: nat :: 0.0 <= lengthDraw(i) < 1.0
    requires forall i: nat :: 0.0 <= startDraw(i) < 1.0
    requires plan == Rounds(durations, minPct, maxPct, indexDraw, lengthDraw, startDraw, |plan|)
    requires total == Total(plan) && total < target && ShortBefore(plan, target)
    requires next == total + clip.clipLength
    requires clip == NextClip(durations, minPct, maxPct, PreviousFile(plan, |plan|),
                              indexDraw(|plan|), lengthDraw(|plan|), startDraw(|plan|))
    ensures plan + [clip] == Rounds(durations, minPct, maxPct, indexDraw, lengthDraw, startDraw, |plan| + 1)
    ensures ShortBefore(plan + [clip], target)
    ensures Total(plan + [clip]) == next
    ensures PreviousFile(plan + [clip], |plan| + 1) == clip.file
  {
    TotalAppend(plan, clip);
    ShortBeforeAppend(plan, target, clip);
  }

  /** Every round's clip is at least `delta` long, so the number of whole
      steps of `delta` still missing to the target drops. */
  lemma RoundShrinksGap(durations: seq<real>, minPct: int, maxPct: int, last: int,
                        rIndex: real, rLength: real, rStart: real,
                        target: real, total: real, next: real, delta: real)
    requires |durations| >= 1
    requires forall f | 0 <= f < |durations| :: durations[f] > 0.0
    requires 0 < minPct <= maxPct
    requires 0.0 <= rIndex < 1.0 && 0.0 <= rLength < 1.0 && 0.0 <= rStart < 1.0
    requires total < target && delta == MinStep(durations, minPct)
    requires next == total + NextClip(durations, minPct, maxPct, last, rIndex, rLength, rStart).clipLength
    ensures 0 <= StepsLeft(target, total, delta)
    ensures StepsLeft(target, next, delta) < StepsLeft(target, total, delta)
  {
    var clip := NextClip(durations, minPct, maxPct, last, rIndex, rLength, rStart);
    NextClipBounds(durations, minPct, maxPct, last, rIndex, rLength, rStart);
    MinStepBelow(durations, minPct, clip.file);
    FloorDrops(target, total, next, delta);
  }

  lemma ZeroBoundsZeroClip(durations: seq<real>, last: int, rIndex: real, rLength: real, rStart: real)
    requires |durations| >= 1
    requires 0.0 <= rIndex < 1.0 && 0.0 <= rLength < 1.0 && 0.0 <= rStart < 1.0
    ensures NextClip(durations, 0, 0, last, rIndex, rLength, rStart).clipLength == 0.0
  {
    var d := durations[ChooseIndex(|durations|, last, rIndex)];
    assert Planner.Share(0, d) == 0.0;
  }

  /** Both clip-length bounds at 0 percent, which the input check lets
      through: every round plans a clip of length 0, so after any number of
      rounds the total is still 0. */
  lemma {:induction false} ZeroBoundsTotal(durations: seq<real>,
                                           indexDraw: nat -> real, lengthDraw: nat -> real,
                                           startDraw: nat -> real, k: nat)
    requires |durations| >= 1
    requires forall i: nat :: 0.0 <= indexDraw(i) < 1.0
    requires forall i: nat :: 0.0 <= lengthDraw(i) < 1.0
    requires forall i: nat :: 0.0 <= startDraw(i) < 1.0
    ensures Total(Rounds(durations, 0, 0, indexDraw, lengthDraw, startDraw, k)) == 0.0
  {
    if k > 0 {
      ZeroBoundsTotal(durations, indexDraw, lengthDraw, startDraw, k - 1);
      var prev := Rounds(durations, 0, 0, indexDraw, lengthDraw, startDraw, k - 1);
      var c := NextClip(durations, 0, 0, PreviousFile(prev, k - 1), indexDraw(k - 1), lengthDraw(k - 1), startDraw(k - 1));
      ZeroBoundsZeroClip(durations, PreviousFile(prev, k - 1), indexDraw(k - 1), lengthDraw(k - 1), startDraw(k - 1));
      TotalAppend(prev, c);
    }
  }

  /** So for a positive finalLength every plan of zero-length clips is still
      short of it, whatever the number of rounds: the planning loop never
      ends. */
  lemma {:induction false} ZeroBoundsNeverReachTarget(durations: seq<real>, target: real,
                                                      indexDraw: nat -> real, lengthDraw: nat -> real,
                                                      startDraw: nat -> real, k: nat)
    requires |durations| >= 1 && target > 0.0
    requires forall i: nat :: 0.0 <= indexDraw(i) < 1.0
    requires forall i: nat :: 0.0 <= lengthDraw(i) < 1.0
    requires forall i: nat :: 0.0 <= startDraw(i) < 1.0
    ensures ShortBefore(Rounds(durations, 0, 0, indexDraw, lengthDraw, startDraw, k), target)
  {
    if k > 0 {
      var prev := Rounds(durations, 0, 0, indexDraw, lengthDraw, startDraw, k - 1);
      var c := NextClip(durations, 0, 0, PreviousFile(prev, k - 1), indexDraw(k - 1), lengthDraw(k - 1), startDraw(k - 1));
      ZeroBoundsNeverReachTarget(durations, target, indexDraw, lengthDraw, startDraw, k - 1);
      ZeroBoundsTotal(durations, indexDraw, lengthDraw, startDraw, k - 1);
      ShortBeforeAppend(prev, target, c);
    }
  }
}
