/** Decode-slot ring: the four video players of processVideos and the queue
    of planned clips they are fed from (script.js:145-225). Preloading a clip
    into a player is modelled as binding the clip to the slot at once (the
    decoder's metadata and seek callbacks are not modelled), and rendering a
    clip as appending it to the list of rendered clips. The wall clock that
    ends the playback loop is a budget: the number of loop rounds that begin
    before the deadline. */
module SlotRing {
  import opened Wrappers
  import opened Scheduler

  /** Number of video players (script.js:146). */
  const SlotCount: nat := 4

  /** Which slot an upcoming clip is preloaded into during playback. */
  datatype Policy =
    | AsWritten  // the slot after the current one, (current + 1) % 4, as script.js:209 does
    | Refill     // the slot the current clip has just vacated; the queue's end leaves it unbound

  /** The players' bound clips, the queue of clips still to preload, and the
      index of the player whose clip plays next. */
  datatype Ring = Ring(slots: seq<Option<ClipConf>>, queue: seq<ClipConf>, current: nat)

  ghost predicate WellFormed(r: Ring) {
    |r.slots| == SlotCount && r.current < SlotCount
  }

  /** The slot after `current` around the ring, (current + 1) % 4. */
  function Next(current: nat): (n: nat)
    requires current < 4
    ensures n < 4 && n == (current + 1) % 4
  {
    if current == 3 then 0 else current + 1
  }

  /** The slot k places after slot `current` around the ring. */
  function Ahead(current: nat, k: nat): (j: nat)
    ensures j < 4
  {
    (current + k) % 4
  }

  lemma AheadOfNext(current: nat, k: nat)
    requires current < 4
    ensures Ahead(current, 0) == current
    ensures Ahead(Next(current), k) == Ahead(current, k + 1)
  {
  }

  /** Ahead for the four slots of one turn of the ring, without modulo. */
  function Offset(current: nat, k: nat): (j: nat)
    requires current < 4 && k < 4
    ensures j < 4 && j == Ahead(current, k)
  {
    if current + k < 4 then current + k else current + k - 4
  }

  function Min(a: nat, b: nat): nat {
    if a <= b then a else b
  }

  /** The clips bound to the slots, in slot order. */
  function Bound(slots: seq<Option<ClipConf>>): (b: seq<ClipConf>)
    ensures |b| <= |slots|
  {
    if slots == [] then []
    else (if slots[0].Some? then [slots[0].value] else []) + Bound(slots[1..])
  }

  /** The initial preload (script.js:157-176): nothing when the plan is empty,
      otherwise the first clip in slot 0 and the next ones in slots 1..3 while
      the queue lasts. */
  function InitialPreload(plan: seq<ClipConf>): (r: Option<Ring>)
    ensures r.None? <==> plan == []
    ensures r.Some? ==> WellFormed(r.value) && r.value.current == 0
  {
    if plan == [] then None
    else
      Some(Ring(seq(SlotCount, k requires 0 <= k < 4 => if k < |plan| then Some(plan[k]) else None),
                plan[Min(SlotCount, |plan|)..], 0))
  }

  /** One round of the playback loop (script.js:191-224) with a bound current
      slot: the next queued clip, if any, is preloaded into the slot the
      policy names, and the current index advances modulo 4. */
  function Step(r: Ring, policy: Policy): (s: Ring)
    requires WellFormed(r) && r.slots[r.current].Some?
    ensures WellFormed(s)
  {
    var next := Next(r.current);
    match policy
    case AsWritten =>
      if r.queue != [] then Ring(r.slots[next := Some(r.queue[0])], r.queue[1..], next)
      else Ring(r.slots, r.queue, next)
    case Refill =>
      if r.queue != [] then Ring(r.slots[r.current := Some(r.queue[0])], r.queue[1..], next)
      else Ring(r.slots[r.current := None], r.queue, next)
  }

  /** What one round changes: the current index moves to (current + 1) % 4
      and the queue loses its first clip, which is bound to the next slot as
      written, or to the slot just played under the refill; every other slot
      keeps its clip, and with an empty queue the refill unbinds the slot just
      played. */
  lemma StepRebinds(r: Ring, policy: Policy)
    requires WellFormed(r) && r.slots[r.current].Some?
    ensures var s := Step(r, policy);
      s.current == (r.current + 1) % 4 &&
      s.queue == (if r.queue == [] then [] else r.queue[1..]) &&
      (policy == AsWritten && r.queue != [] ==> s.slots[s.current] == Some(r.queue[0])) &&
      (policy == AsWritten ==> forall k | 0 <= k < 4 && k != s.current :: s.slots[k] == r.slots[k]) &&
      (policy == Refill ==> s.slots[r.current] == if r.queue == [] then None else Some(r.queue[0])) &&
      (policy == Refill ==> forall k | 0 <= k < 4 && k != r.current :: s.slots[k] == r.slots[k])
  {
  }

  datatype Playback = Playback(ring: Ring, rendered: seq<ClipConf>)

  /** The playback loop: at most `budget` rounds, stopping early at the first
      current slot with no clip bound (script.js:189-190). */
  function Run(r: Ring, budget: nat, policy: Policy): (p: Playback)
    requires WellFormed(r)
    ensures WellFormed(p.ring)
    ensures |p.rendered| <= budget
    ensures |p.rendered| < budget ==> p.ring.slots[p.ring.current].None?
    decreases budget
  {
    if budget == 0 || r.slots[r.current].None? then Playback(r, [])
    else
      var rest := Run(Step(r, policy), budget - 1, policy);
      Playback(rest.ring, [r.slots[r.current].value] + rest.rendered)
  }

  /** The initial preload binds the plan's first min(4, |plan|) clips to slots
      0, 1, 2, 3 in queue order, leaves the later slots unbound, and queues the
      rest. */
  lemma PreloadPopsInQueueOrder(plan: seq<ClipConf>)
    requires plan != []
    ensures var r := InitialPreload(plan).value;
      Bound(r.slots) == plan[..Min(SlotCount, |plan|)] &&
      Bound(r.slots) + r.queue == plan &&
      (forall k | 0 <= k < 4 :: r.slots[k].Some? <==> k < |plan|)
  {
    var r := InitialPreload(plan).value;
    var s := r.slots;
    assert s[1..][1..][1..][1..] == [];
    assert Bound(s[1..][1..][1..]) == (if |plan| > 3 then [plan[3]] else []);
    assert Bound(s[1..][1..]) == (if |plan| > 2 then [plan[2]] else []) + Bound(s[1..][1..][1..]);
    assert Bound(s[1..]) == (if |plan| > 1 then [plan[1]] else []) + Bound(s[1..][1..]);
    assert Bound(s) == [plan[0]] + Bound(s[1..]);
    assert plan[..Min(SlotCount, |plan|)] + plan[Min(SlotCount, |plan|)..] == plan;
  }

  /** `pending` are the clips still to play, in order: the slots from the
      current one on hold the first four of them and the queue holds the rest. */
  ghost predicate Holds(r: Ring, pending: seq<ClipConf>) {
    WellFormed(r) &&
    (forall k | 0 <= k < 4 ::
      r.slots[Offset(r.current, k)] == if k < |pending| then Some(pending[k]) else None) &&
    r.queue == pending[Min(SlotCount, |pending|)..]
  }

  lemma PreloadHolds(plan: seq<ClipConf>)
    requires plan != []
    ensures Holds(InitialPreload(plan).value, plan)
  {
    var r := InitialPreload(plan).value;
    forall k | 0 <= k < 4
      ensures r.slots[Offset(r.current, k)] == if k < |plan| then Some(plan[k]) else None
    {
    }
  }

  /** A refill round plays the first pending clip and keeps the ring holding
      the remaining ones. */
  lemma RefillStepHolds(r: Ring, pending: seq<ClipConf>)
    requires Holds(r, pending) && pending != []
    ensures r.slots[r.current] == Some(pending[0])
    ensures Holds(Step(r, Refill), pending[1..])
  {
    assert r.slots[Offset(r.current, 0)] == Some(pending[0]);
    var s := Step(r, Refill);
    var rest := pending[1..];
    forall k | 0 <= k < 4
      ensures s.slots[Offset(s.current, k)] == if k < |rest| then Some(rest[k]) else None
    {
      if k < 3 {
        assert Offset(s.current, k) == Offset(r.current, k + 1) != r.current;
      } else {
        assert Offset(s.current, k) == r.current;
        if |pending| > 4 {
          assert r.queue[0] == pending[4];
        }
      }
    }
    if |pending| > 4 {
      assert s.queue == rest[Min(4, |rest|)..];
    } else {
      assert s.queue == [];
    }
  }

  /** With the corrected refill, the playback loop renders the pending clips
      exactly in plan order, as many as the deadline allows, and stops on an
      unbound slot once all are played. */
  lemma {:induction false} RefillRendersInOrder(r: Ring, pending: seq<ClipConf>, budget: nat)
    requires Holds(r, pending)
    ensures Run(r, budget, Refill).rendered == pending[..Min(budget, |pending|)]
    ensures budget > |pending| ==> |Run(r, budget, Refill).rendered| == |pending|
    decreases budget
  {
    if budget > 0 && pending != [] {
      RefillStepHolds(r, pending);
      RefillRendersInOrder(Step(r, Refill), pending[1..], budget - 1);
      assert [pending[0]] + pending[1..][..Min(budget - 1, |pending| - 1)] == pending[..Min(budget, |pending|)];
    } else if budget > 0 {
      assert r.slots[Offset(r.current, 0)] == None;
    }
  }

  /** The whole pipeline with the corrected refill: every planned clip is
      rendered once, in plan order, when the deadline allows. */
  lemma RefillPlaysWholePlan(plan: seq<ClipConf>, budget: nat)
    requires plan != []
    ensures Run(InitialPreload(plan).value, budget, Refill).rendered == plan[..Min(budget, |plan|)]
  {
    PreloadHolds(plan);
    RefillRendersInOrder(InitialPreload(plan).value, plan, budget);
  }

  /** Each round advances the current slot by one modulo 4, so the k-th
      rendered clip is the one bound to slot k % 4 (counting from the start
      slot). */
  lemma {:induction false} CurrentCycles(r: Ring, budget: nat, policy: Policy)
    requires WellFormed(r)
    ensures Run(r, budget, policy).ring.current == Ahead(r.current, |Run(r, budget, policy).rendered|)
    decreases budget
  {
    AheadOfNext(r.current, 0);
    if budget > 0 && r.slots[r.current].Some? {
      var rest := Run(Step(r, policy), budget - 1, policy);
      CurrentCycles(Step(r, policy), budget - 1, policy);
      AheadOfNext(r.current, |rest.rendered|);
    }
  }

  /** As written, once all four slots are bound none is ever unbound again. */
  lemma AsWrittenKeepsSlotsBound(r: Ring)
    requires WellFormed(r) && forall k | 0 <= k < 4 :: r.slots[k].Some?
    ensures forall k | 0 <= k < 4 :: Step(r, AsWritten).slots[k].Some?
  {
  }

  /** So with four or more planned clips the as-written loop never stops on an
      unbound slot: it renders a clip in every round the deadline allows. */
  lemma {:induction false} AsWrittenRunsUntilDeadline(r: Ring, budget: nat)
    requires WellFormed(r) && forall k | 0 <= k < 4 :: r.slots[k].Some?
    ensures |Run(r, budget, AsWritten).rendered| == budget
    decreases budget
  {
    if budget > 0 {
      AsWrittenKeepsSlotsBound(r);
      AsWrittenRunsUntilDeadline(Step(r, AsWritten), budget - 1);
    }
  }

  lemma AsWrittenLongPlanNeverStops(plan: seq<ClipConf>, budget: nat)
    requires |plan| >= SlotCount
    ensures |Run(InitialPreload(plan).value, budget, AsWritten).rendered| == budget
  {
    AsWrittenRunsUntilDeadline(InitialPreload(plan).value, budget);
  }

  /** As written, with more than four planned clips the first upcoming clip
      overwrites slot 1 before plan[1] has played: the second clip rendered
      is plan[4], and plan[1] is lost. */
  lemma AsWrittenSkipsPreloadedClips(plan: seq<ClipConf>)
    requires |plan| > SlotCount
    ensures Run(InitialPreload(plan).value, 2, AsWritten).rendered == [plan[0], plan[4]]
  {
    var r0 := InitialPreload(plan).value;
    var r1 := Step(r0, AsWritten);
    assert r1.slots[1] == Some(plan[4]);
    assert Run(r1, 1, AsWritten).rendered == [plan[4]];
  }

  /** With exactly five planned clips only plan[1] is lost: the as-written
      loop renders clips 0, 4, 2 and 3, and with the queue empty and every
      slot still bound it then replays clip 0 if the deadline has not come. */
  lemma AsWrittenFiveClips(plan: seq<ClipConf>)
    requires |plan| == 5
    ensures Run(InitialPreload(plan).value, 5, AsWritten).rendered == [plan[0], plan[4], plan[2], plan[3], plan[0]]
  {
    var r0 := InitialPreload(plan).value;
    var r1 := Step(r0, AsWritten);
    assert r1 == Ring([Some(plan[0]), Some(plan[4]), Some(plan[2]), Some(plan[3])], [], 1);
    var r2 := Step(r1, AsWritten);
    var r3 := Step(r2, AsWritten);
    var r4 := Step(r3, AsWritten);
    assert r4 == Ring(r1.slots, [], 0);
    assert Run(r4, 1, AsWritten).rendered == [plan[0]];
    assert Run(r3, 2, AsWritten).rendered == [plan[3], plan[0]];
    assert Run(r2, 3, AsWritten).rendered == [plan[2], plan[3], plan[0]];
    assert Run(r1, 4, AsWritten).rendered == [plan[4], plan[2], plan[3], plan[0]];
  }

  /** A concrete plan of five distinct clips on which the as-written ring
      departs from the plan order that the corrected refill keeps. */
  lemma AsWrittenDropsClipOne()
    ensures var plan := [ClipConf(0, 0.0, 1.0), ClipConf(1, 0.0, 1.0), ClipConf(0, 1.0, 1.0),
                         ClipConf(1, 1.0, 1.0), ClipConf(0, 2.0, 1.0)];
      Run(InitialPreload(plan).value, 2, AsWritten).rendered != plan[..2] &&
      Run(InitialPreload(plan).value, 2, Refill).rendered == plan[..2]
  {
    var plan := [ClipConf(0, 0.0, 1.0), ClipConf(1, 0.0, 1.0), ClipConf(0, 1.0, 1.0),
                 ClipConf(1, 1.0, 1.0), ClipConf(0, 2.0, 1.0)];
    AsWrittenSkipsPreloadedClips(plan);
    RefillPlaysWholePlan(plan, 2);
    assert plan[4] != plan[1];
  }

  /** The players and the queue as processVideos updates them in place:
      `players[i]` is `videoPlayers[i].clipConf`, `clipConfs` the plan not yet
      preloaded, and `rendered` records the clips handed to playActiveClip. */
  class DecodeRing {
    var players: array<Option<ClipConf>>
    var clipConfs: seq<ClipConf>
    var currentPlayerIndex: nat
    var previousClip: Option<ClipConf>
    ghost var rendered: seq<ClipConf>

    ghost predicate Valid()
      reads this
    {
      players.Length == SlotCount && currentPlayerIndex < SlotCount
    }

    ghost function State(): Ring
      reads this, players
    {
      Ring(players[..], clipConfs, currentPlayerIndex)
    }

    /** Four players with nothing bound, fed from `plan`. */
    constructor (plan: seq<ClipConf>)
      ensures Valid() && fresh(players)
      ensures State() == Ring([None, None, None, None], plan, 0)
      ensures previousClip == None && rendered == []
    {
      players := new Option<ClipConf>[SlotCount](_ => None);
      clipConfs := plan;
      currentPlayerIndex := 0;
      previousClip := None;
      rendered := [];
      new;
      assert players[..] == [None, None, None, None];
    }

    /** The initial preload (script.js:157-176); `started` is false, and
        nothing changes, when there are no clips to process. */
    method Preload() returns (started: bool)
      requires Valid() && currentPlayerIndex == 0
      requires forall k | 0 <= k < players.Length :: players[k] == None
      modifies this, players
      ensures Valid() && players == old(players)
      ensures started <==> old(clipConfs) != []
      ensures started ==> State() == InitialPreload(old(clipConfs)).value
      ensures !started ==> State() == old(State())
      ensures previousClip == old(previousClip) && rendered == old(rendered)
    {
      if clipConfs == [] {
        return false;
      }
      ghost var plan := clipConfs;
      players[0] := Some(clipConfs[0]);
      clipConfs := clipConfs[1..];
      var i := 1;
      while i < SlotCount
        invariant Valid() && players == old(players)
        invariant currentPlayerIndex == 0 && previousClip == old(previousClip) && rendered == old(rendered)
        invariant 1 <= i <= SlotCount
        invariant clipConfs == plan[Min(i, |plan|)..]
        invariant forall k | 0 <= k < i :: players[k] == if k < |plan| then Some(plan[k]) else None
        invariant forall k | i <= k < SlotCount :: players[k] == None
      {
        if clipConfs != [] {
          players[i] := Some(clipConfs[0]);
          clipConfs := clipConfs[1..];
        }
        i := i + 1;
      }
      assert players[..] == InitialPreload(plan).value.slots;
      return true;
    }

    /** One round of the playback loop with a bound current player: the
        current clip is rendered, the next queued clip is preloaded where the
        policy says, the clip becomes the previous clip and the index advances. */
    method Advance(policy: Policy)
      requires Valid() && players[currentPlayerIndex].Some?
      modifies this, players
      ensures Valid() && players == old(players)
      ensures State() == Step(old(State()), policy)
      ensures previousClip == old(players[currentPlayerIndex])
      ensures rendered == old(rendered) + [old(players[currentPlayerIndex]).value]
    {
      var currentClip := players[currentPlayerIndex];
      rendered := rendered + [currentClip.value];
      var nextIndex := (currentPlayerIndex + 1) % SlotCount;
      if clipConfs != [] {
        var upcoming := clipConfs[0];
        clipConfs := clipConfs[1..];
        match policy
        case AsWritten => players[nextIndex] := Some(upcoming);
        case Refill => players[currentPlayerIndex] := Some(upcoming);
      } else if policy == Refill {
        players[currentPlayerIndex] := None;
      }
      previousClip := currentClip;
      currentPlayerIndex := nextIndex;
    }

    /** The playback loop (script.js:189-225): rounds while the deadline
        allows (`budget` of them) and the current player has a clip bound. */
    method Play(budget: nat, policy: Policy)
      requires Valid()
      modifies this, players
      ensures Valid() && players == old(players)
      ensures State() == Run(old(State()), budget, policy).ring
      ensures rendered == old(rendered) + Run(old(State()), budget, policy).rendered
      ensures Run(old(State()), budget, policy).rendered != [] ==>
        previousClip == Some(Last(Run(old(State()), budget, policy).rendered))
      ensures Run(old(State()), budget, policy).rendered == [] ==> previousClip == old(previousClip)
    {
      ghost var start := State();
      ghost var ring := start;
      ghost var played: seq<ClipConf> := [];
      var rounds := 0;
      ResumeStart(start, budget, policy);
      while rounds < budget && players[currentPlayerIndex].Some?
        invariant Valid() && players == old(players) && ring == State()
        invariant Resumes(start, budget, played, ring, rounds, policy)
        invariant rendered == old(rendered) + played
        invariant previousClip == if played == [] then old(previousClip) else Some(Last(played))
      {
        ghost var clip := ring.slots[ring.current].value;
        Advance(policy);
        ResumeStep(start, budget, played, ring, rounds, policy);
        ring := Step(ring, policy);
        played := played + [clip];
        rounds := rounds + 1;
      }
      ResumeEnd(start, budget, played, ring, rounds, policy);
    }
  }

  /** After `rounds` rounds of a playback of `start` with `budget` rounds,
      `played` has been rendered and the rest is the playback of `r` with the
      rounds left. */
  ghost predicate Resumes(start: Ring, budget: nat, played: seq<ClipConf>, r: Ring, rounds: nat, policy: Policy) {
    WellFormed(start) && WellFormed(r) && rounds <= budget &&
    Run(start, budget, policy).ring == Run(r, budget - rounds, policy).ring &&
    Run(start, budget, policy).rendered == played + Run(r, budget - rounds, policy).rendered
  }

  lemma ResumeStart(start: Ring, budget: nat, policy: Policy)
    requires WellFormed(start)
    ensures Resumes(start, budget, [], start, 0, policy)
  {
    assert [] + Run(start, budget, policy).rendered == Run(start, budget, policy).rendered;
  }

  lemma ResumeStep(start: Ring, budget: nat, played: seq<ClipConf>, r: Ring, rounds: nat, policy: Policy)
    requires Resumes(start, budget, played, r, rounds, policy)
    requires rounds < budget && r.slots[r.current].Some?
    ensures Resumes(start, budget, played + [r.slots[r.current].value], Step(r, policy), rounds + 1, policy)
  {
    RunStep(r, budget - rounds, policy);
    Concat(played, [r.slots[r.current].value], Run(Step(r, policy), budget - rounds - 1, policy).rendered);
  }

  lemma ResumeEnd(start: Ring, budget: nat, played: seq<ClipConf>, r: Ring, rounds: nat, policy: Policy)
    requires Resumes(start, budget, played, r, rounds, policy)
    requires rounds == budget || r.slots[r.current].None?
    ensures Run(start, budget, policy).ring == r && Run(start, budget, policy).rendered == played
  {
    RunStops(r, budget - rounds, policy);
    assert played + [] == played;
  }

  /** One round of Run, unfolded. */
  lemma RunStep(r: Ring, budget: nat, policy: Policy)
    requires WellFormed(r) && budget > 0 && r.slots[r.current].Some?
    ensures Run(r, budget, policy).ring == Run(Step(r, policy), budget - 1, policy).ring
    ensures Run(r, budget, policy).rendered ==
      [r.slots[r.current].value] + Run(Step(r, policy), budget - 1, policy).rendered
  {
  }

  /** Run at the deadline or at an unbound current slot does nothing. */
  lemma RunStops(r: Ring, budget: nat, policy: Policy)
    requires WellFormed(r) && (budget == 0 || r.slots[r.current].None?)
    ensures Run(r, budget, policy) == Playback(r, [])
  {
  }

  lemma Concat(a: seq<ClipConf>, b: seq<ClipConf>, c: seq<ClipConf>)
    ensures a + (b + c) == (a + b) + c
  {
  }

  function Last(s: seq<ClipConf>): ClipConf
    requires s != []
  {
    s[|s| - 1]
  }
}
