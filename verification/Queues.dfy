/** The scheduler's queues, ordered by arrival time
    (runtime/src/llm_engine/scheduler.rs, lines 39-72). */
module Queues {
  import opened Prelude

  /** A task of one sequence, named by the id of that sequence, in the session that its client gave it. */
  datatype Task = Task(id: SeqId, arrival: nat, session: SessionId)

  ghost predicate Sorted(q: seq<Task>) {
    forall i, j :: 0 <= i < j < |q| ==> q[i].arrival <= q[j].arrival
  }

  lemma SortedPrefix(p: seq<Task>, q: seq<Task>)
    requires p <= q
    ensures Sorted(q) ==> Sorted(p)
  {
    assert forall i :: 0 <= i < |p| ==> p[i] == q[i];
  }

  /** Every task of `q` arrived at time `a` or later. */
  ghost predicate AllFrom(q: seq<Task>, a: int) {
    forall i :: 0 <= i < |q| ==> a <= q[i].arrival
  }

  /** Every task of `q` arrived at time `a` or earlier. */
  ghost predicate AllUpTo(q: seq<Task>, a: int) {
    forall i :: 0 <= i < |q| ==> q[i].arrival <= a
  }

  /** How many tasks of `q` are newer than `a`. */
  function CountNewer(q: seq<Task>, a: int): nat {
    if q == [] then 0 else (if q[0].arrival > a then 1 else 0) + CountNewer(q[1..], a)
  }

  lemma {:induction false} CountNewerAppend(p: seq<Task>, q: seq<Task>, a: int)
    ensures CountNewer(p + q, a) == CountNewer(p, a) + CountNewer(q, a)
  {
    if p == [] {
      assert p + q == q;
    } else {
      CountNewerAppend(p[1..], q, a);
      assert (p + q)[1..] == p[1..] + q;
    }
  }

  lemma {:induction false} CountNewerMono(q: seq<Task>, a: int, b: int)
    requires a <= b
    ensures CountNewer(q, b) <= CountNewer(q, a) <= |q|
  {
    if q != [] {
      CountNewerMono(q[1..], a, b);
    }
  }

  lemma {:induction false} CountNewerNone(q: seq<Task>, a: int)
    requires AllUpTo(q, a)
    ensures CountNewer(q, a) == 0
  {
    if q != [] {
      CountNewerNone(q[1..], a);
    }
  }

  /** `q` with `t` inserted at position `k`. */
  function InsertAt(q: seq<Task>, t: Task, k: nat): seq<Task>
    requires k <= |q|
  {
    q[..k] + [t] + q[k..]
  }

  lemma InsertAtTasks(q: seq<Task>, t: Task, k: nat)
    requires k <= |q|
    ensures multiset(InsertAt(q, t, k)) == multiset(q) + multiset{t}
  {
    assert q == q[..k] + q[k..];
  }

  lemma InsertAtFrom(aside: seq<Task>, q: seq<Task>, t: Task, k: nat)
    requires k <= |q|
    ensures InsertAt(aside + q, t, |aside| + k) == aside + InsertAt(q, t, k) && |InsertAt(q, t, k)| == |q| + 1
    ensures forall a :: AllFrom(q, a) && a <= t.arrival ==> AllFrom(InsertAt(q, t, k), a)
  {
  }

  lemma InsertAtSorted(q: seq<Task>, t: Task, k: nat)
    requires Sorted(q) && k <= |q|
    requires forall i :: 0 <= i < k ==> q[i].arrival <= t.arrival
    requires k < |q| ==> q[k].arrival > t.arrival
    ensures Sorted(InsertAt(q, t, k))
  {
    var r := InsertAt(q, t, k);
    forall i, j | 0 <= i < j < |r|
      ensures r[i].arrival <= r[j].arrival
    {
      assert r[i] == if i < k then q[i] else if i == k then t else q[i - 1];
      assert r[j] == if j < k then q[j] else if j == k then t else q[j - 1];
      assert k < j ==> t.arrival <= q[j - 1].arrival;
    }
  }

  /** The position of the first task of `q` that is newer than `t`. */
  function PlaceOf(q: seq<Task>, t: Task): (k: nat)
    ensures k <= |q|
  {
    if q == [] || q[0].arrival > t.arrival then 0 else 1 + PlaceOf(q[1..], t)
  }

  /** `q` with `t` in its place. */
  function Insert(q: seq<Task>, t: Task): seq<Task> { InsertAt(q, t, PlaceOf(q, t)) }

  /** `q` with the tasks of `ts` in their places, inserted from the back. */
  function InsertBack(q: seq<Task>, ts: seq<Task>): seq<Task> {
    if ts == [] then q else Insert(InsertBack(q, ts[1..]), ts[0])
  }

  /** `insert_sorted_by`: in front of the first task that is newer. */
  method InsertSorted(q: seq<Task>, t: Task) returns (r: seq<Task>, ghost k: nat)
    ensures k <= |q| && r == InsertAt(q, t, k) && r == Insert(q, t)
    ensures Sorted(q) ==> Sorted(r)
    ensures forall i :: 0 <= i < k ==> q[i].arrival <= t.arrival
    ensures k < |q| ==> q[k].arrival > t.arrival
  {
    var i := 0;
    assert q[0..] == q;
    while i < |q| && q[i].arrival <= t.arrival
      invariant 0 <= i <= |q|
      invariant forall j :: 0 <= j < i ==> q[j].arrival <= t.arrival
      invariant PlaceOf(q, t) == i + PlaceOf(q[i..], t)
    {
      assert q[i..][0] == q[i] && q[i..][1..] == q[i + 1..];
      i := i + 1;
    }
    k := i;
    r := InsertAt(q, t, i);
    if Sorted(q) {
      InsertAtSorted(q, t, i);
    }
  }

  /** `q` without its last task, with its first task in front of the rest. */
  function WithoutLast(q: seq<Task>): seq<Task>
    requires q != []
  {
    if |q| == 1 then [] else [q[0]] + q[1..][..|q| - 2]
  }

  lemma WithoutLastIs(q: seq<Task>)
    requires q != []
    ensures WithoutLast(q) == q[..|q| - 1]
  {
    var l, r := WithoutLast(q), q[..|q| - 1];
    assert |l| == |r| && forall i :: 0 <= i < |l| ==> l[i] == r[i];
  }

  lemma FirstMoves(kept: seq<Task>, q: seq<Task>)
    requires q != []
    ensures (kept + [q[0]]) + q[1..] == kept + q
  {
    var l, r := (kept + [q[0]]) + q[1..], kept + q;
    assert |l| == |r| && forall i :: 0 <= i < |l| ==> l[i] == r[i];
  }

  lemma LastDrops(kept: seq<Task>, q: seq<Task>)
    requires q != []
    ensures (kept + q)[..|kept + q| - 1] == kept + q[..|q| - 1]
  {
    var l, r := (kept + q)[..|kept + q| - 1], kept + q[..|q| - 1];
    assert |l| == |r| && forall i :: 0 <= i < |l| ==> l[i] == r[i];
  }

  /** The ways the decode loop shortens its queue. */
  lemma QueueSteps(kept: seq<Task>, q: seq<Task>)
    requires q != []
    ensures var all := kept + q; var n := |all| - 1;
      && all[..|kept|] == kept && all[|kept|] == q[0] && all[n] == q[|q| - 1]
      && (kept + [q[0]]) + q[1..] == all
      && all[..n] == kept + WithoutLast(q)
  {
    hide WithoutLast;
    WithoutLastIs(q);
    FirstMoves(kept, q);
    LastDrops(kept, q);
  }
}
