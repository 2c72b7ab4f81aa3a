/**
 * How the transfer workers add their records to the shared ledger (main.go,
 * the goroutine body's `output = append(output, ...)`). Each append reads the
 * shared slice and writes back a longer one; without a lock two workers can
 * read the same slice, and the second write-back then drops the first
 * worker's record. Under a lock each worker's read and write-back are
 * adjacent, and the final ledger holds every record once, in completion order.
 */
module Join {
  import opened Names
  import opened Sequences

  /** The two halves of one worker's append: reading the shared ledger, writing it back. */
  datatype Step = Load(worker: nat) | Store(worker: nat)

  /** The shared ledger, and the ledger each worker read before its write-back. */
  datatype Memory = Memory(shared: seq<Record>, loaded: map<nat, seq<Record>>)

  /** A schedule in which each of `n` workers reads once and later writes back once. */
  predicate IsSchedule(steps: seq<Step>, n: nat)
  {
    && |steps| == 2 * n
    && (forall i :: 0 <= i < |steps| ==> steps[i].worker < n)
    && forall w :: 0 <= w < n ==>
         exists i, j :: 0 <= i < j < |steps| && steps[i] == Load(w) && steps[j] == Store(w)
  }

  /** One step: worker `w` reads the shared ledger, or writes back what it read plus `records[w]`. */
  function Exec(records: seq<Record>, step: Step, m: Memory): Memory
  {
    match step
    case Load(w) => m.(loaded := m.loaded[w := m.shared])
    case Store(w) =>
      if w < |records| && w in m.loaded then m.(shared := m.loaded[w] + [records[w]]) else m
  }

  /** Runs the steps in order from `m`. */
  function Interleave(records: seq<Record>, steps: seq<Step>, m: Memory): Memory
    decreases |steps|
  {
    if steps == [] then m else Interleave(records, steps[1..], Exec(records, steps[0], m))
  }

  /**
   * As written: two workers that both completed their transfer, both reading
   * the empty ledger before either writes back, leave a ledger that holds only
   * the second worker's record.
   */
  lemma LostUpdate(a: Record, b: Record)
    ensures IsSchedule([Load(0), Load(1), Store(0), Store(1)], 2)
    ensures Interleave([a, b], [Load(0), Load(1), Store(0), Store(1)], Memory([], map[])).shared == [b]
  {
    var steps := [Load(0), Load(1), Store(0), Store(1)];
    assert steps[0] == Load(0) && steps[2] == Store(0);
    assert steps[1] == Load(1) && steps[3] == Store(1);
  }

  /** The schedule of appends under a lock: workers finish in `order`, one whole append at a time. */
  function Locked(order: seq<nat>): (steps: seq<Step>)
    ensures |steps| == 2 * |order|
  {
    if order == [] then [] else [Load(order[0]), Store(order[0])] + Locked(order[1..])
  }

  /** The `p`-th worker to finish holds the lock for steps 2p and 2p + 1. */
  lemma {:induction false} LockedAt(order: seq<nat>, p: nat)
    requires p < |order|
    ensures Locked(order)[2 * p] == Load(order[p]) && Locked(order)[2 * p + 1] == Store(order[p])
    decreases p
  {
    if p > 0 {
      LockedAt(order[1..], p - 1);
    }
  }

  /** Finishing in any order of the workers 0 .. n - 1 under a lock is a schedule of the n workers. */
  lemma LockedIsSchedule(order: seq<nat>, n: nat)
    requires multiset(order) == multiset(Workers(n))
    ensures IsSchedule(Locked(order), n)
  {
    var steps := Locked(order);
    assert |order| == n by {
      assert |multiset(order)| == |multiset(Workers(n))|;
    }
    forall p | 0 <= p < |order| ensures order[p] < n {
      assert order[p] in multiset(Workers(n));
    }
    forall i | 0 <= i < |steps| ensures steps[i].worker < n {
      LockedAt(order, i / 2);
    }
    forall w | 0 <= w < n
      ensures exists i, j :: 0 <= i < j < |steps| && steps[i] == Load(w) && steps[j] == Store(w)
    {
      assert Workers(n)[w] == w;
      assert w in multiset(order);
      var p :| 0 <= p < |order| && order[p] == w;
      LockedAt(order, p);
    }
  }

  /** The records of the workers in `order`; a worker with no record adds nothing. */
  function Picked(records: seq<Record>, order: seq<nat>): seq<Record>
  {
    if order == [] then []
    else (if order[0] < |records| then [records[order[0]]] else []) + Picked(records, order[1..])
  }

  /** Under a lock, each completed worker appends exactly its record, in completion order. */
  lemma {:induction false} LockedAppends(records: seq<Record>, order: seq<nat>, m: Memory)
    ensures Interleave(records, Locked(order), m).shared == m.shared + Picked(records, order)
    decreases |order|
  {
    if order == [] {
      assert m.shared + [] == m.shared;
    } else {
      var w := order[0];
      var steps := Locked(order);
      assert steps[1..][1..] == Locked(order[1..]);
      var m1 := Exec(records, Load(w), m);
      var m2 := Exec(records, Store(w), m1);
      var own := if w < |records| then [records[w]] else [];
      assert m2.shared == m.shared + own;
      LockedAppends(records, order[1..], m2);
      assert Picked(records, order) == own + Picked(records, order[1..]);
    }
  }

  lemma {:induction false} PickedAppend(records: seq<Record>, a: seq<nat>, b: seq<nat>)
    ensures Picked(records, a + b) == Picked(records, a) + Picked(records, b)
    decreases |a|
  {
    if a == [] {
      assert a + b == b;
    } else {
      assert (a + b)[1..] == a[1..] + b;
      PickedAppend(records, a[1..], b);
    }
  }

  /** Taking the j-th worker out of an order takes its record, if any, out of the ledger. */
  lemma PickedSplit(records: seq<Record>, order: seq<nat>, j: nat)
    requires j < |order|
    ensures multiset(Picked(records, order))
         == multiset(Picked(records, [order[j]])) + multiset(Picked(records, order[..j] + order[j + 1..]))
  {
    var before, after := order[..j], order[j + 1..];
    Around(order, j);
    PickedAppend(records, before, [order[j]]);
    PickedAppend(records, before + [order[j]], after);
    PickedAppend(records, before, after);
  }

  /** Reordering the workers reorders their records and nothing more. */
  lemma {:induction false} PickedPermutation(records: seq<Record>, o1: seq<nat>, o2: seq<nat>)
    requires multiset(o1) == multiset(o2)
    ensures multiset(Picked(records, o1)) == multiset(Picked(records, o2))
    decreases |o1|
  {
    if o1 != [] {
      var w := o1[0];
      assert w in multiset(o2);
      var j :| 0 <= j < |o2| && o2[j] == w;
      RemoveMatched(o1, o2, j);
      PickedSplit(records, o1, 0);
      PickedSplit(records, o2, j);
      assert o1[..0] + o1[1..] == o1[1..];
      PickedPermutation(records, o1[1..], o2[..j] + o2[j + 1..]);
    } else {
      assert o2 == [];
    }
  }

  /** The workers 0, 1, ..., n - 1. */
  function Workers(n: nat): seq<nat>
  {
    seq(n, i => i)
  }

  /** Picking the workers from, ..., n - 1 in request order gives their records as they are. */
  lemma {:induction false} PickedInOrder(records: seq<Record>, from: nat)
    requires from <= |records|
    ensures Picked(records, Workers(|records|)[from..]) == records[from..]
    decreases |records| - from
  {
    var ws := Workers(|records|)[from..];
    if from < |records| {
      assert ws[1..] == Workers(|records|)[from + 1..];
      PickedInOrder(records, from + 1);
      assert records[from..] == [records[from]] + records[from + 1..];
    } else {
      assert ws == [];
    }
  }

  /**
   * Under a lock, whatever order the workers finish in, the final ledger holds
   * every completed worker's record exactly once: it is a permutation of the
   * records, and the sequential ledger is the case of finishing in request order.
   */
  lemma LockedAppendsKeepEveryRecord(records: seq<Record>, order: seq<nat>)
    requires multiset(order) == multiset(Workers(|records|))
    ensures multiset(Interleave(records, Locked(order), Memory([], map[])).shared) == multiset(records)
    ensures Interleave(records, Locked(Workers(|records|)), Memory([], map[])).shared == records
  {
    var n := |records|;
    PickedPermutation(records, Workers(n), order);
    LockedAppends(records, order, Memory([], map[]));
    LockedAppends(records, Workers(n), Memory([], map[]));
    PickedInOrder(records, 0);
    assert Workers(n)[0..] == Workers(n);
  }
}
