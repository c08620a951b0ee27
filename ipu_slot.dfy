/**
 * The IPU slot registry used by `ipu_single.c`: the output buffer is cut
 * into slots, and each slot id sits in one of three queues, free, busy
 * (being written by the hardware) and done (complete, waiting for the
 * consumer).  A slot handed to the consumer by `ipu_get_done_slot` leaves
 * the registry until `insert_slot_to_free` brings it back.
 *
 * `ipu_slot.h` is not part of this model.  The queues are first-in
 * first-out sequences of slot ids; a move takes the head of one queue and
 * appends it to another, and cleaning puts every slot back into free.  The
 * contracts say only what the callers rely on: which id moves, and that no
 * id is created or lost.
 */
module IpuSlot {
  import opened Optional

  /** The number of slots the registry manages. */
  const SLOT_COUNT: nat := 4

  datatype Slots = Slots(free: seq<int>, busy: seq<int>, done: seq<int>)

  /** Every id the registry holds, with repetitions. */
  function Held(s: Slots): multiset<int>
  {
    multiset(s.free) + multiset(s.busy) + multiset(s.done)
  }

  /** No id is in two places at once. */
  ghost predicate Disjoint(s: Slots)
  {
    forall x :: Held(s)[x] <= 1
  }

  /** The ids `0 .. n-1` in order. */
  function Ids(n: nat): (r: seq<int>)
    ensures |r| == n
    ensures forall i :: 0 <= i < n ==> r[i] == i
  {
    if n == 0 then [] else Ids(n - 1) + [n - 1]
  }

  /** Each id below `n` occurs exactly once in `Ids(n)`, and no other. */
  lemma {:induction false} IdsOnce(n: nat)
    ensures forall x :: multiset(Ids(n))[x] == if 0 <= x < n then 1 else 0
  {
    if n > 0 {
      IdsOnce(n - 1);
      assert Ids(n) == Ids(n - 1) + [n - 1];
      assert multiset(Ids(n)) == multiset(Ids(n - 1)) + multiset{n - 1};
    }
  }

  /** `init_ipu_slot` and `ipu_clean_slot`: every slot free, in id order. */
  function Cleaned(): (r: Slots)
    ensures Disjoint(r)
    ensures forall x :: x in Held(r) <==> 0 <= x < SLOT_COUNT
    ensures r.busy == [] && r.done == []
  {
    IdsOnce(SLOT_COUNT);
    Slots(Ids(SLOT_COUNT), [], [])
  }

  /** `slot_free_to_busy`: the oldest free slot starts to be written. */
  function FreeToBusy(s: Slots): (r: (Slots, Option<int>))
    ensures r.1.None? <==> s.free == []
    ensures r.1.None? ==> r.0 == s
    ensures r.1.Some? ==> r.1.value == s.free[0] && r.0.busy == s.busy + [r.1.value]
                          && r.0.free == s.free[1..] && r.0.done == s.done
    ensures Held(r.0) == Held(s)
  {
    if s.free == [] then (s, None)
    else
      assert s.free == [s.free[0]] + s.free[1..];
      (Slots(s.free[1..], s.busy + [s.free[0]], s.done), Some(s.free[0]))
  }

  /** `slot_busy_to_done`: the oldest busy slot is complete. */
  function BusyToDone(s: Slots): (r: (Slots, Option<int>))
    ensures r.1.None? <==> s.busy == []
    ensures r.1.None? ==> r.0 == s
    ensures r.1.Some? ==> r.1.value == s.busy[0] && r.0.done == s.done + [r.1.value]
                          && r.0.busy == s.busy[1..] && r.0.free == s.free
    ensures Held(r.0) == Held(s)
  {
    if s.busy == [] then (s, None)
    else
      assert s.busy == [s.busy[0]] + s.busy[1..];
      (Slots(s.free, s.busy[1..], s.done + [s.busy[0]]), Some(s.busy[0]))
  }

  /** `slot_busy_to_free`: the oldest busy slot is given up after an error. */
  function BusyToFree(s: Slots): (r: (Slots, Option<int>))
    ensures r.1.None? <==> s.busy == []
    ensures r.1.None? ==> r.0 == s
    ensures r.1.Some? ==> r.1.value == s.busy[0] && r.0.free == s.free + [r.1.value]
                          && r.0.busy == s.busy[1..] && r.0.done == s.done
    ensures Held(r.0) == Held(s)
  {
    if s.busy == [] then (s, None)
    else
      assert s.busy == [s.busy[0]] + s.busy[1..];
      (Slots(s.free + [s.busy[0]], s.busy[1..], s.done), Some(s.busy[0]))
  }

  /** `ipu_get_done_slot`: the oldest done slot is handed to the consumer. */
  function TakeDone(s: Slots): (r: (Slots, Option<int>))
    ensures r.1.None? <==> s.done == []
    ensures r.1.None? ==> r.0 == s
    ensures r.1.Some? ==> r.1.value == s.done[0] && r.0.done == s.done[1..]
                          && r.0.free == s.free && r.0.busy == s.busy
                          && Held(r.0) + multiset{r.1.value} == Held(s)
  {
    if s.done == [] then (s, None)
    else
      assert s.done == [s.done[0]] + s.done[1..];
      (Slots(s.free, s.busy, s.done[1..]), Some(s.done[0]))
  }

  /** `insert_slot_to_free`: the id is appended to free, whatever it is. */
  function InsertFree(s: Slots, id: int): (r: Slots)
    ensures r.free == s.free + [id] && r.busy == s.busy && r.done == s.done
    ensures Held(r) == Held(s) + multiset{id}
  {
    Slots(s.free + [id], s.busy, s.done)
  }

  /** The moves keep the registry disjoint. */
  lemma MovesKeepDisjoint(s: Slots)
    requires Disjoint(s)
    ensures Disjoint(FreeToBusy(s).0) && Disjoint(BusyToDone(s).0)
    ensures Disjoint(BusyToFree(s).0) && Disjoint(TakeDone(s).0)
  {
    var t := TakeDone(s);
    if t.1.Some? {
      forall x
        ensures Held(t.0)[x] <= 1
      {
        assert Held(t.0)[x] <= Held(s)[x];
      }
    }
  }

  /** In a disjoint registry no slot is both free and done. */
  lemma FreeDoneApart(s: Slots, i: nat, j: nat)
    requires Disjoint(s) && i < |s.free| && j < |s.done|
    ensures s.free[i] != s.done[j]
  {
    var x := s.free[i];
    assert x in multiset(s.free);
    assert Held(s)[x] <= 1;
    assert s.done[j] in multiset(s.done);
  }

  /**
   * Giving back a slot the consumer holds keeps the registry disjoint, but
   * giving back a slot that is still queued puts it in two places.
   */
  lemma InsertFreeDisjoint(s: Slots, id: int)
    requires Disjoint(s)
    ensures Disjoint(InsertFree(s, id)) <==> id !in Held(s)
  {
    var r := InsertFree(s, id);
    if id in Held(s) {
      assert Held(r)[id] == Held(s)[id] + 1;
    } else {
      forall x
        ensures Held(r)[x] <= 1
      {
        if x == id {
          assert Held(r)[x] == 1;
        }
      }
    }
  }
}
