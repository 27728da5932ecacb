/** The recorder's chunk accumulation (script.js:86-90): a delivered chunk
    is kept only when it is present and non-empty, after the ones kept
    before it. A chunk is modelled by its bytes. */
module Chunks {
  import opened Wrappers

  type Chunk = seq<bv8>

  /** The chunks of `events` that are kept, in arrival order. */
  function Kept(events: seq<Option<Chunk>>): (kept: seq<Chunk>)
    ensures |kept| <= |events|
    ensures forall i | 0 <= i < |kept| :: |kept[i]| > 0
  {
    if events == [] then []
    else
      var e := events[|events| - 1];
      Kept(events[..|events| - 1]) + (if e.Some? && |e.value| > 0 then [e.value] else [])
  }

  /** The bytes of a sequence of chunks, concatenated. */
  function Bytes(chunks: seq<Chunk>): seq<bv8> {
    if chunks == [] then [] else Bytes(chunks[..|chunks| - 1]) + chunks[|chunks| - 1]
  }

  /** The bytes delivered by `events`, a missing chunk counting as none. */
  function Delivered(events: seq<Option<Chunk>>): seq<bv8> {
    if events == [] then []
    else
      var e := events[|events| - 1];
      Delivered(events[..|events| - 1]) + (if e.Some? then e.value else [])
  }

  /** Keeping is compositional over successive deliveries. */
  lemma {:induction false} KeptAppend(a: seq<Option<Chunk>>, b: seq<Option<Chunk>>)
    ensures Kept(a + b) == Kept(a) + Kept(b)
    decreases |b|
  {
    if b == [] {
      assert a + b == a;
    } else {
      var b' := b[..|b| - 1];
      assert (a + b)[..|a + b| - 1] == a + b';
      KeptAppend(a, b');
    }
  }

  /** Dropping empty and missing chunks loses no bytes: the kept chunks hold
      every delivered byte, in delivery order. */
  lemma {:induction false} KeptHoldsAllBytes(events: seq<Option<Chunk>>)
    ensures Bytes(Kept(events)) == Delivered(events)
  {
    if events != [] {
      var front := events[..|events| - 1];
      var e := events[|events| - 1];
      KeptHoldsAllBytes(front);
      if e.Some? && |e.value| > 0 {
        var k := Kept(front) + [e.value];
        assert k[..|k| - 1] == Kept(front);
      } else {
        assert Kept(events) == Kept(front) + [];
        assert Delivered(events) == Delivered(front) + (if e.Some? then e.value else []);
        assert (if e.Some? then e.value else []) == [];
        assert Kept(front) + [] == Kept(front);
        assert Delivered(front) + [] == Delivered(front);
      }
    }
  }

  /** The recorder's chunk list as ondataavailable updates it. */
  class ChunkLog {
    var chunks: seq<Chunk>

    constructor ()
      ensures chunks == []
    {
      chunks := [];
    }

    /** One dataavailable event (script.js:86-90). */
    method OnDataAvailable(data: Option<Chunk>)
      modifies this
      ensures chunks == old(chunks) + Kept([data])
      ensures data.Some? && |data.value| > 0 ==> chunks == old(chunks) + [data.value]
      ensures !(data.Some? && |data.value| > 0) ==> chunks == old(chunks)
    {
      if data.Some? && |data.value| > 0 {
        chunks := chunks + [data.value];
      }
    }
  }
}
