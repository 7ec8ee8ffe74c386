/**
 Transactions that take locks one by one and release them all at commit: what can be held at once, when one
 can step, and whole schedules of any number of them.
 */
module Locks {
  datatype Resource =
    | RequestRow(id: nat)
    | DisputeRow(id: nat)
    | PairKey(key: int)
    | UserKey(key: int)
    | FundingRow(id: nat)
    | WithdrawalRow(id: nat)
    | AttemptRow(id: nat)
    | ChargebackRow(id: nat)
    | AccountRow(id: nat)
    | UserRow(id: nat)

  // ----- An order of the locks -----

  /**
   The rank of a lock's kind. Funding rows rank before the accounts, except those in `late`, which rank
   after them.
   */
  function Rank(late: set<nat>, r: Resource): nat {
    match r
    case RequestRow(_) => 0
    case DisputeRow(_) => 1
    case PairKey(_) => 2
    case UserKey(_) => 3
    case FundingRow(id) => if id in late then 9 else 4
    case WithdrawalRow(_) => 5
    case AttemptRow(_) => 6
    case ChargebackRow(_) => 7
    case AccountRow(_) => 8
    case UserRow(_) => 10
  }

  function Key(r: Resource): int {
    match r
    case PairKey(key) => key
    case UserKey(key) => key
    case _ => r.id
  }

  predicate Before(late: set<nat>, a: Resource, b: Resource) {
    Rank(late, a) < Rank(late, b) || (Rank(late, a) == Rank(late, b) && Key(a) < Key(b))
  }

  predicate Ascending(late: set<nat>, plan: seq<Resource>) {
    forall i, j :: 0 <= i < j < |plan| ==> Before(late, plan[i], plan[j])
  }

  lemma AscendingConcat(late: set<nat>, a: seq<Resource>, b: seq<Resource>)
    requires Ascending(late, a) && Ascending(late, b)
    requires forall x, y :: x in a && y in b ==> Before(late, x, y)
    ensures Ascending(late, a + b)
  {
    assert forall i :: 0 <= i < |a| ==> a[i] in a;
    assert forall j :: 0 <= j < |b| ==> b[j] in b;
  }

  // ----- Transactions running at once -----

  /** A transaction that has taken the first `taken` locks of its plan, or has committed and released them all. */
  datatype Worker = Worker(plan: seq<Resource>, taken: nat, done: bool)

  predicate Holds(w: Worker, r: Resource)
    requires w.taken <= |w.plan|
  {
    !w.done && r in w.plan[..w.taken]
  }

  predicate WorkersFit(ws: seq<Worker>) { forall i :: 0 <= i < |ws| ==> ws[i].taken <= |ws[i].plan| }

  /** No lock is held twice. */
  ghost predicate LocksOk(ws: seq<Worker>) {
    && WorkersFit(ws)
    && (forall i, j, r :: 0 <= i < j < |ws| && Holds(ws[i], r) ==> !Holds(ws[j], r))
  }

  ghost predicate Ordered(late: set<nat>, ws: seq<Worker>) {
    forall i :: 0 <= i < |ws| ==> Ascending(late, ws[i].plan)
  }

  predicate Free(ws: seq<Worker>, i: nat, r: Resource)
    requires WorkersFit(ws)
  {
    forall j :: 0 <= j < |ws| && j != i ==> !Holds(ws[j], r)
  }

  /** It commits, or the next lock of its plan is free. */
  ghost predicate CanStep(ws: seq<Worker>, i: nat)
    requires LocksOk(ws) && i < |ws|
  {
    && !ws[i].done
    && (ws[i].taken == |ws[i].plan| || Free(ws, i, ws[i].plan[ws[i].taken]))
  }

  ghost function Stepped(ws: seq<Worker>, i: nat): (r: seq<Worker>)
    requires LocksOk(ws) && i < |ws| && CanStep(ws, i)
    ensures LocksOk(r) && |r| == |ws|
  {
    var w := ws[i];
    if w.taken == |w.plan| then ws[i := w.(done := true)]
    else
      var r := ws[i := w.(taken := w.taken + 1)];
      TakingKeepsLocks(ws, i, r);
      r
  }

  lemma TakingKeepsLocks(ws: seq<Worker>, i: nat, r: seq<Worker>)
    requires LocksOk(ws) && i < |ws| && CanStep(ws, i) && ws[i].taken < |ws[i].plan|
    requires r == ws[i := ws[i].(taken := ws[i].taken + 1)]
    ensures LocksOk(r)
  {
  }

  ghost predicate AllDone(ws: seq<Worker>) { forall i :: 0 <= i < |ws| ==> ws[i].done }

  /** All have committed, or one of them can step. */
  ghost predicate Progresses(ws: seq<Worker>)
    requires LocksOk(ws)
  {
    AllDone(ws) || exists i :: 0 <= i < |ws| && CanStep(ws, i)
  }

  // ----- Progress under an order -----

  ghost predicate Waits(ws: seq<Worker>, i: nat)
    requires LocksOk(ws) && i < |ws|
  {
    !ws[i].done && ws[i].taken < |ws[i].plan|
  }

  function Wanted(w: Worker): Resource
    requires w.taken < |w.plan|
  {
    w.plan[w.taken]
  }

  /** Among the waiting transactions of a prefix, one that wants the last lock in the order. */
  lemma {:induction false} WantsTheLast(late: set<nat>, ws: seq<Worker>, n: nat) returns (i: nat)
    requires LocksOk(ws) && n <= |ws| && exists k :: 0 <= k < n && Waits(ws, k)
    ensures i < n && Waits(ws, i)
    ensures forall k :: 0 <= k < n && Waits(ws, k) ==> !Before(late, Wanted(ws[i]), Wanted(ws[k]))
  {
    if exists k :: 0 <= k < n - 1 && Waits(ws, k) {
      i := WantsTheLast(late, ws, n - 1);
      if Waits(ws, n - 1) && Before(late, Wanted(ws[i]), Wanted(ws[n - 1])) {
        i := n - 1;
      }
    } else {
      i := n - 1;
    }
  }

  /** Whoever holds a lock wants only later ones. */
  lemma HolderWantsLater(late: set<nat>, w: Worker, r: Resource)
    requires w.taken < |w.plan| && Ascending(late, w.plan) && Holds(w, r)
    ensures Before(late, r, Wanted(w))
  {
  }

  /** No deadlock: unless all have committed, someone can take its next lock or commit. */
  lemma SomeoneCanStep(late: set<nat>, ws: seq<Worker>)
    requires LocksOk(ws) && Ordered(late, ws)
    ensures Progresses(ws)
  {
    if !AllDone(ws) {
      if k :| 0 <= k < |ws| && !ws[k].done && ws[k].taken == |ws[k].plan| {
        assert CanStep(ws, k);
      } else {
        var k :| 0 <= k < |ws| && !ws[k].done;
        assert Waits(ws, k);
        var i := WantsTheLast(late, ws, |ws|);
        var r := Wanted(ws[i]);
        if j :| 0 <= j < |ws| && j != i && Holds(ws[j], r) {
          HolderWantsLater(late, ws[j], r);
          assert Waits(ws, j);
        }
        assert CanStep(ws, i);
      }
    }
  }

  // ----- Whole schedules -----

  /** Locks still to take, and commits still to make. */
  function Remaining(ws: seq<Worker>): nat
    requires WorkersFit(ws)
  {
    if ws == [] then 0
    else
      var w := ws[|ws| - 1];
      Remaining(ws[..|ws| - 1]) + (|w.plan| - w.taken) + if w.done then 0 else 1
  }

  lemma {:induction false} SteppingRemains(ws: seq<Worker>, i: nat, w: Worker)
    requires i < |ws| && WorkersFit(ws) && w.taken <= |w.plan|
    requires (|w.plan| - w.taken) + (if w.done then 0 else 1) + 1
             == (|ws[i].plan| - ws[i].taken) + if ws[i].done then 0 else 1
    ensures WorkersFit(ws[i := w]) && Remaining(ws[i := w]) + 1 == Remaining(ws)
  {
    var n := |ws| - 1;
    if i == n {
      assert ws[i := w][..n] == ws[..n];
    } else {
      assert ws[i := w][..n] == ws[..n][i := w];
      SteppingRemains(ws[..n], i, w);
    }
  }

  ghost predicate Legal(ws: seq<Worker>, schedule: seq<nat>)
    requires LocksOk(ws)
    decreases |schedule|
  {
    schedule == []
    || (schedule[0] < |ws| && CanStep(ws, schedule[0]) && Legal(Stepped(ws, schedule[0]), schedule[1..]))
  }

  ghost function After(ws: seq<Worker>, schedule: seq<nat>): (r: seq<Worker>)
    requires LocksOk(ws) && Legal(ws, schedule)
    ensures LocksOk(r) && |r| == |ws|
    decreases |schedule|
  {
    if schedule == [] then ws else After(Stepped(ws, schedule[0]), schedule[1..])
  }

  /** Every step uses up one lock or one commit, whoever is chosen. */
  lemma {:induction false} SchedulesAreBounded(ws: seq<Worker>, schedule: seq<nat>)
    requires LocksOk(ws) && Legal(ws, schedule)
    ensures |schedule| + Remaining(After(ws, schedule)) == Remaining(ws)
    decreases |schedule|
  {
    if schedule != [] {
      var i := schedule[0];
      SteppingRemains(ws, i, Stepped(ws, i)[i]);
      SchedulesAreBounded(Stepped(ws, i), schedule[1..]);
    }
  }

  /** Plans taken in one order progress after every schedule. */
  lemma {:induction false} OrderedSchedulesProgress(late: set<nat>, ws: seq<Worker>, schedule: seq<nat>)
    requires LocksOk(ws) && Ordered(late, ws) && Legal(ws, schedule)
    ensures Progresses(After(ws, schedule))
    decreases |schedule|
  {
    if schedule == [] {
      SomeoneCanStep(late, ws);
    } else {
      OrderedSchedulesProgress(late, Stepped(ws, schedule[0]), schedule[1..]);
    }
  }

  lemma {:induction false} NoneRemaining(ws: seq<Worker>)
    requires WorkersFit(ws)
    ensures Remaining(ws) == 0 ==> AllDone(ws)
  {
    if ws != [] {
      NoneRemaining(ws[..|ws| - 1]);
    }
  }

  lemma {:induction false} LegalConcat(ws: seq<Worker>, a: seq<nat>, b: seq<nat>)
    requires LocksOk(ws) && Legal(ws, a) && Legal(After(ws, a), b)
    ensures Legal(ws, a + b) && After(ws, a + b) == After(After(ws, a), b)
    decreases |a|
  {
    if a == [] {
      assert a + b == b;
    } else {
      assert (a + b)[1..] == a[1..] + b;
      LegalConcat(Stepped(ws, a[0]), a[1..], b);
    }
  }

  // ----- Reaching a deadlock -----

  function Turns(i: nat, n: nat): seq<nat> { seq(n, k => i) }

  /** One transaction alone can take its next locks, as long as nobody holds any of them. */
  lemma {:induction false} TakesFreeLocks(ws: seq<Worker>, i: nat, n: nat)
    requires LocksOk(ws) && i < |ws| && !ws[i].done && ws[i].taken + n <= |ws[i].plan|
    requires forall k :: ws[i].taken <= k < ws[i].taken + n ==> Free(ws, i, ws[i].plan[k])
    ensures Legal(ws, Turns(i, n)) && After(ws, Turns(i, n)) == ws[i := ws[i].(taken := ws[i].taken + n)]
    decreases n
  {
    if n == 0 {
      assert Turns(i, n) == [];
    } else {
      var next := Stepped(ws, i);
      assert Turns(i, n)[0] == i && Turns(i, n)[1..] == Turns(i, n - 1);
      forall k | next[i].taken <= k < next[i].taken + (n - 1)
        ensures Free(next, i, next[i].plan[k])
      {
        assert Free(ws, i, ws[i].plan[k]);
      }
      TakesFreeLocks(next, i, n - 1);
    }
  }

  /** Each wants a lock the other holds. */
  ghost predicate BlockEachOther(ws: seq<Worker>, i: nat, j: nat)
    requires LocksOk(ws)
  {
    && i < |ws| && j < |ws| && i != j && Waits(ws, i) && Waits(ws, j)
    && Holds(ws[j], Wanted(ws[i])) && Holds(ws[i], Wanted(ws[j]))
  }

  /** The others may go on, but in the end nobody can, with the two still waiting. */
  lemma {:induction false} BlockedForEver(ws: seq<Worker>, i: nat, j: nat) returns (schedule: seq<nat>)
    requires LocksOk(ws) && BlockEachOther(ws, i, j)
    ensures Legal(ws, schedule) && !Progresses(After(ws, schedule))
    decreases Remaining(ws)
  {
    if k :| 0 <= k < |ws| && CanStep(ws, k) {
      assert k != i && k != j;
      var next := Stepped(ws, k);
      SteppingRemains(ws, k, next[k]);
      var rest := BlockedForEver(next, i, j);
      schedule := [k] + rest;
      assert schedule[1..] == rest;
    } else {
      schedule := [];
    }
  }

  /**
   From the start, the first takes its locks up to what the second holds, and the second up to what the first
   holds.
   */
  lemma OpposedPlansDeadlock(ws: seq<Worker>, i: nat, j: nat, n: nat, m: nat) returns (schedule: seq<nat>)
    requires LocksOk(ws) && (forall k :: 0 <= k < |ws| ==> !ws[k].done && ws[k].taken == 0)
    requires i < |ws| && j < |ws| && i != j && n < |ws[i].plan| && m < |ws[j].plan|
    requires ws[i].plan[n] in ws[j].plan[..m] && ws[j].plan[m] in ws[i].plan[..n]
    requires forall r :: r in ws[i].plan[..n] ==> r !in ws[j].plan[..m]
    ensures Legal(ws, schedule) && !Progresses(After(ws, schedule))
  {
    TakesFreeLocks(ws, i, n);
    var half := After(ws, Turns(i, n));
    forall k | 0 <= k < m
      ensures Free(half, j, half[j].plan[k])
    {
      assert half[j].plan[k] in ws[j].plan[..m];
    }
    TakesFreeLocks(half, j, m);
    var blocked := After(half, Turns(j, m));
    LegalConcat(ws, Turns(i, n), Turns(j, m));
    var rest := BlockedForEver(blocked, i, j);
    LegalConcat(ws, Turns(i, n) + Turns(j, m), rest);
    schedule := Turns(i, n) + Turns(j, m) + rest;
  }
}
