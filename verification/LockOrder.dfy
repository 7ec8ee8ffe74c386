/**
 The order each transaction that moves money takes its locks in: rows and advisory locks, then the account
 rows in ascending id, then what it writes last, all held until commit.
 */
module LockOrder {
  import opened Tables
  import opened Postings
  import opened Locks

  // ----- The locks each transaction takes -----

  /** Two users' keys: taken once when they collide, and by key rather than by user otherwise. */
  function KeysInOrder(first: int, second: int): (keys: seq<Resource>)
    ensures forall late: set<nat> :: Ascending(late, keys)
    ensures forall r :: r in keys <==> r in {UserKey(first), UserKey(second)}
  {
    if first == second then [UserKey(first)]
    else if first < second then [UserKey(first), UserKey(second)]
    else [UserKey(second), UserKey(first)]
  }

  /** `SELECT ... WHERE id IN (ids) ORDER BY id FOR UPDATE` over the first `n` rows. */
  function RowsInOrder(ids: set<nat>, n: nat): (rows: seq<Resource>)
    ensures forall r :: r in rows <==> r.AccountRow? && r.id in ids && r.id < n
    ensures forall i, j :: 0 <= i < j < |rows| ==> rows[i].AccountRow? && rows[j].AccountRow? && rows[i].id < rows[j].id
  {
    if n == 0 then []
    else if n - 1 in ids then RowsInOrder(ids, n - 1) + [AccountRow(n - 1)]
    else RowsInOrder(ids, n - 1)
  }

  function AccountsOf(legs: seq<Leg>): set<nat> { set l | l in legs :: l.account }

  /**
   A transaction by the rows it touches. A settled refund may fail one later attempt still in flight; a
   chargeback may freeze its user, and a ruling in Cliqpay's favour may lift the freeze.
   */
  datatype Task =
    | SendsMoney(request: Option<nat>, sender: nat, recipient: nat, amount: int, fee: int)
    | Withdraws(user: nat, amount: int, platformFee: int, providerFee: int)
    | ReversesWithdrawal(withdrawal: nat, user: nat, amount: int, platformFee: int, providerFee: int)
    | CompletesWithdrawal(withdrawal: nat)
    | InitiatesFunding(user: nat)
    | CreditsFunding(funding: nat, user: nat, net: int, fee: int)
    | HoldsFunding(funding: nat, user: nat, net: int, fee: int)
    | StartsRefund(funding: nat)
    | SettlesRefund(funding: nat, attempt: nat, superseded: Option<nat>, amount: int)
    | FailsRefund(attempt: nat)
    | RecordsChargeback(original: nat, user: nat, amount: int, freezes: bool)
    | RulesInFavour(dispute: nat, chargeback: nat, original: nat, user: nat, amount: int, unfreezes: bool)
    | Upholds(dispute: nat, original: nat)
    | RaisesTier(user: nat)

  function LegsToPost(t: Task): seq<Leg> {
    match t
    case SendsMoney(_, sender, recipient, amount, fee) => TransferLegs(WalletOf(sender), WalletOf(recipient), amount,
        fee)
    case Withdraws(user, amount, platformFee, providerFee) =>
      WithdrawalLegs(WalletOf(user), amount, platformFee, providerFee)
    case ReversesWithdrawal(_, user, amount, platformFee, providerFee) =>
      Mirror(WithdrawalLegs(WalletOf(user), amount, platformFee, providerFee))
    case CreditsFunding(_, user, net, fee) => FundingLegs(WalletOf(user), net, fee)
    case HoldsFunding(_, user, net, fee) => FundingLegs(SUSPENSE, net, fee)
    case SettlesRefund(_, _, _, amount) => RefundLegs(amount)
    case RecordsChargeback(_, user, amount, _) => WalletAndFloatLegs(WalletOf(user), amount, Debit)
    case RulesInFavour(_, _, _, user, amount, _) => WalletAndFloatLegs(WalletOf(user), amount, Credit)
    case _ => []
  }

  /** The text a user's or a pair's lock key is hashed from is not modelled; any two of them may collide. */
  datatype Hash = Hash(ofUser: nat -> int, ofPair: (nat, nat) -> int)

  /** What is locked before the accounts. */
  function Early(h: Hash, t: Task): seq<Resource> {
    match t
    case SendsMoney(request, sender, recipient, _, _) =>
      var pair := if sender < recipient then h.ofPair(sender, recipient) else h.ofPair(recipient, sender);
      (if request.Some? then [RequestRow(request.value)] else [])
      + [PairKey(pair)] + KeysInOrder(h.ofUser(sender), h.ofUser(recipient))
    case Withdraws(user, _, _, _) => [UserKey(h.ofUser(user))]
    case ReversesWithdrawal(withdrawal, _, _, _, _) => [WithdrawalRow(withdrawal)]
    case CompletesWithdrawal(withdrawal) => [WithdrawalRow(withdrawal)]
    case InitiatesFunding(user) => [UserKey(h.ofUser(user))]
    case CreditsFunding(funding, user, _, _) => [UserKey(h.ofUser(user)), FundingRow(funding)]
    case HoldsFunding(funding, user, _, _) => [UserKey(h.ofUser(user)), FundingRow(funding)]
    case StartsRefund(funding) => [FundingRow(funding)]
    case SettlesRefund(funding, attempt, superseded, _) =>
      [FundingRow(funding), AttemptRow(attempt)] + if superseded.Some? then [AttemptRow(superseded.value)] else []
    case FailsRefund(attempt) => [AttemptRow(attempt)]
    case RecordsChargeback(original, _, _, _) => [FundingRow(original)]
    case RulesInFavour(dispute, chargeback, _, _, _, _) => [DisputeRow(dispute), ChargebackRow(chargeback)]
    case Upholds(dispute, original) => [DisputeRow(dispute), FundingRow(original)]
    case RaisesTier(user) => [UserKey(h.ofUser(user))]
  }

  /** What is locked after the accounts. */
  function Last(t: Task): seq<Resource> {
    match t
    case RecordsChargeback(_, user, _, freezes) => if freezes then [UserRow(user)] else []
    case RulesInFavour(_, _, original, user, _, unfreezes) =>
      [FundingRow(original)] + if unfreezes then [UserRow(user)] else []
    case RaisesTier(user) => [UserRow(user)]
    case _ => []
  }

  /** The accounts it posts to; a new funding's row locks its wallet by the foreign key. */
  function LockedAccounts(t: Task): set<nat> {
    AccountsOf(LegsToPost(t)) + if t.InitiatesFunding? then {WalletOf(t.user)} else {}
  }

  /** Every row and advisory lock a transaction waits for, in the order it takes them. */
  function LockPlan(h: Hash, t: Task, accounts: nat): seq<Resource> {
    Early(h, t) + RowsInOrder(LockedAccounts(t), accounts) + Last(t)
  }

  /** No transaction changes a balance whose row it has not locked. */
  lemma LockPlanCoversPosting(h: Hash, t: Task, b: Books, txn: nat, a: nat)
    requires AccountsExist(b.balances, LegsToPost(t)) && a < |b.balances|
    requires Post(b, txn, LegsToPost(t)).balances[a] != b.balances[a]
    ensures AccountRow(a) in LockPlan(h, t, |b.balances|)
  {
    if a !in AccountsOf(LegsToPost(t)) {
      PostFrame(b, txn, LegsToPost(t), a);
    }
    assert AccountRow(a) in RowsInOrder(LockedAccounts(t), |b.balances|);
  }

  // ----- When one order fits all -----

  /** The funding a task locks before the accounts it goes on to lock. */
  function LockedFirst(t: Task): Option<nat> {
    match t
    case CreditsFunding(funding, _, _, _) => Some(funding)
    case HoldsFunding(funding, _, _, _) => Some(funding)
    case SettlesRefund(funding, _, _, _) => Some(funding)
    case RecordsChargeback(original, _, _, _) => Some(original)
    case _ => None
  }

  /** The funding a task locks after the accounts. */
  function LockedLast(t: Task): Option<nat> { if t.RulesInFavour? then Some(t.original) else None }

  /** At most one later attempt is in flight beside the one that settles. */
  predicate TaskOk(t: Task) { t.SettlesRefund? && t.superseded.Some? ==> t.attempt < t.superseded.value }

  /** No funding is locked before the accounts by one task and after them by another. */
  ghost predicate Apart(tasks: seq<Task>) {
    forall i, j :: 0 <= i < |tasks| && 0 <= j < |tasks| && LockedFirst(tasks[i]).Some? ==>
      LockedFirst(tasks[i]) != LockedLast(tasks[j])
  }

  function RuledOn(tasks: seq<Task>): set<nat> { set t | t in tasks && t.RulesInFavour? :: t.original }

  lemma RowsAscend(late: set<nat>, ids: set<nat>, n: nat)
    ensures Ascending(late, RowsInOrder(ids, n))
  {
  }

  /** Where a task's locks stand in the order, given where the fundings it locks stand. */
  ghost predicate Placed(late: set<nat>, t: Task) {
    && TaskOk(t)
    && (LockedFirst(t).Some? ==> LockedFirst(t).value !in late)
    && (LockedLast(t).Some? ==> LockedLast(t).value in late)
  }

  lemma PlanAscends(h: Hash, late: set<nat>, t: Task, accounts: nat)
    requires Placed(late, t)
    ensures Ascending(late, LockPlan(h, t, accounts))
  {
    hide RowsInOrder, Early, Last, Before, Ascending;
    var rows := RowsInOrder(LockedAccounts(t), accounts);
    EarlyAscends(h, late, t);
    RowsAscend(late, LockedAccounts(t), accounts);
    EarlyBeforeRows(h, late, t, rows);
    AscendingConcat(late, Early(h, t), rows);
    LastIsLast(h, late, t, rows);
    AscendingConcat(late, Early(h, t) + rows, Last(t));
  }

  lemma EarlyBeforeRows(h: Hash, late: set<nat>, t: Task, rows: seq<Resource>)
    requires Placed(late, t) && forall r :: r in rows ==> r.AccountRow? && r.id in LockedAccounts(t)
    ensures forall x, y :: x in Early(h, t) && y in rows ==> Before(late, x, y)
  {
  }

  lemma LastIsLast(h: Hash, late: set<nat>, t: Task, rows: seq<Resource>)
    requires Placed(late, t) && forall r :: r in rows ==> r.AccountRow?
    ensures Ascending(late, Last(t))
    ensures forall x, y :: x in Early(h, t) + rows && y in Last(t) ==> Before(late, x, y)
  {
  }

  lemma EarlyAscends(h: Hash, late: set<nat>, t: Task)
    requires Placed(late, t)
    ensures Ascending(late, Early(h, t))
  {
    if t.SendsMoney? {
      var keys := KeysInOrder(h.ofUser(t.sender), h.ofUser(t.recipient));
      var pair := PairKey(if t.sender < t.recipient then h.ofPair(t.sender, t.recipient) else h.ofPair(t.recipient,
          t.sender));
      AscendingConcat(late, [pair], keys);
      if t.request.Some? {
        AscendingConcat(late, [RequestRow(t.request.value)], [pair] + keys);
        assert Early(h, t) == [RequestRow(t.request.value)] + ([pair] + keys);
      } else {
        assert Early(h, t) == [pair] + keys;
      }
    }
  }

  /** Any tasks, starting with no lock taken. */
  ghost function Start(h: Hash, tasks: seq<Task>, accounts: nat): (ws: seq<Worker>)
    ensures LocksOk(ws)
  {
    seq(|tasks|, i requires 0 <= i < |tasks| => Worker(LockPlan(h, tasks[i], accounts), 0, false))
  }

  ghost predicate TasksOk(tasks: seq<Task>) { forall i :: 0 <= i < |tasks| ==> TaskOk(tasks[i]) }

  lemma ApartPlaces(tasks: seq<Task>, i: nat)
    requires TasksOk(tasks) && Apart(tasks) && i < |tasks|
    ensures Placed(RuledOn(tasks), tasks[i])
  {
    assert tasks[i] in tasks;
  }

  /** Tasks that stay apart progress whatever the schedule, and have all committed after a bounded number of steps. */
  lemma ApartNeverDeadlocks(h: Hash, tasks: seq<Task>, accounts: nat, schedule: seq<nat>)
    requires TasksOk(tasks) && Apart(tasks) && Legal(Start(h, tasks, accounts), schedule)
    ensures Progresses(After(Start(h, tasks, accounts), schedule))
    ensures |schedule| <= Remaining(Start(h, tasks, accounts))
    ensures |schedule| == Remaining(Start(h, tasks, accounts)) ==> AllDone(After(Start(h, tasks, accounts), schedule))
  {
    hide LockPlan, Legal, After, Progresses, Remaining;
    var ws := Start(h, tasks, accounts);
    var late := RuledOn(tasks);
    forall i | 0 <= i < |ws|
      ensures Ascending(late, ws[i].plan)
    {
      ApartPlaces(tasks, i);
      PlanAscends(h, late, tasks[i], accounts);
    }
    OrderedSchedulesProgress(late, ws, schedule);
    SchedulesAreBounded(ws, schedule);
    NoneRemaining(After(ws, schedule));
  }

  lemma {:induction false} FloatFirst(ids: set<nat>, n: nat)
    requires FLOAT in ids && 0 < n
    ensures RowsInOrder(ids, n) != [] && RowsInOrder(ids, n)[0] == AccountRow(FLOAT)
  {
    if n > 1 {
      FloatFirst(ids, n - 1);
    } else {
      assert RowsInOrder(ids, 0) == [];
    }
  }

  lemma LocksFloat(t: Task, accounts: nat)
    requires (LockedFirst(t).Some? || LockedLast(t).Some?) && 0 < accounts
    ensures var rows := RowsInOrder(LockedAccounts(t), accounts); rows != [] && rows[0] == AccountRow(FLOAT)
  {
    var legs := LegsToPost(t);
    assert legs[0].account == FLOAT || legs[1].account == FLOAT;
    assert FLOAT in AccountsOf(legs);
    FloatFirst(AccountsOf(legs), accounts);
  }

  /** A task that locked a funding first, and a ruling that locked the accounts, wait for each other for ever. */
  lemma SharedFundingDeadlocks(h: Hash, tasks: seq<Task>, accounts: nat, i: nat, j: nat) returns (schedule: seq<nat>)
    requires i < |tasks| && j < |tasks| && 0 < accounts
    requires LockedFirst(tasks[i]).Some? && LockedFirst(tasks[i]) == LockedLast(tasks[j])
    ensures Legal(Start(h, tasks, accounts), schedule) && !Progresses(After(Start(h, tasks, accounts), schedule))
  {
    var ws := Start(h, tasks, accounts);
    var n := |Early(h, tasks[i])|;
    var m := PlanUpToLast(h, tasks[j], accounts);
    PlanUpToRows(h, tasks[i], accounts);
    schedule := OpposedPlansDeadlock(ws, i, j, n, m);
  }

  /** What a task that locks a funding first holds when it comes to the accounts. */
  lemma PlanUpToRows(h: Hash, t: Task, accounts: nat)
    requires LockedFirst(t).Some? && 0 < accounts
    ensures var plan, n := LockPlan(h, t, accounts), |Early(h, t)|;
            && n < |plan| && plan[n] == AccountRow(FLOAT) && FundingRow(LockedFirst(t).value) in plan[..n]
            && forall r :: r in plan[..n] ==> r.UserKey? || r.FundingRow? || r.AttemptRow?
  {
    LocksFloat(t, accounts);
    assert LockPlan(h, t, accounts)[..|Early(h, t)|] == Early(h, t);
    assert FundingRow(LockedFirst(t).value) in Early(h, t);
  }

  /** What a ruling in Cliqpay's favour holds when it comes to its original. */
  lemma PlanUpToLast(h: Hash, t: Task, accounts: nat) returns (m: nat)
    requires t.RulesInFavour? && 0 < accounts
    ensures var plan := LockPlan(h, t, accounts);
            && m < |plan| && plan[m] == FundingRow(t.original) && AccountRow(FLOAT) in plan[..m]
            && forall r :: r in plan[..m] ==> r.DisputeRow? || r.ChargebackRow? || r.AccountRow?
  {
    var rows := RowsInOrder(LockedAccounts(t), accounts);
    m := |Early(h, t) + rows|;
    LocksFloat(t, accounts);
    assert LockPlan(h, t, accounts)[..m] == Early(h, t) + rows;
    assert AccountRow(FLOAT) in rows;
  }

  /**
   Any number of postings, chargebacks and rulings, under any hash: no schedule deadlocks exactly when no
   funding that one of them locks first is the original of another's ruling in Cliqpay's favour. A pending
   or held funding has no dispute, its disputes' originals being credited, so in practice those that lock it
   first are chargebacks.
   */
  lemma NeverDeadlockIffApart(h: Hash, tasks: seq<Task>, accounts: nat)
    requires TasksOk(tasks) && 0 < accounts
    ensures (forall schedule :: Legal(Start(h, tasks, accounts), schedule) ==>
               Progresses(After(Start(h, tasks, accounts), schedule)))
            <==> Apart(tasks)
  {
    if Apart(tasks) {
      forall schedule | Legal(Start(h, tasks, accounts), schedule)
        ensures Progresses(After(Start(h, tasks, accounts), schedule))
      {
        ApartNeverDeadlocks(h, tasks, accounts, schedule);
      }
    } else {
      var i, j :| 0 <= i < |tasks| && 0 <= j < |tasks| && LockedFirst(tasks[i]).Some?
                  && LockedFirst(tasks[i]) == LockedLast(tasks[j]);
      var schedule := SharedFundingDeadlocks(h, tasks, accounts, i, j);
    }
  }

  // ----- Why the keys are sorted, and not the users -----

  /** The same two locks, taken in the order of the user ids. */
  function KeysInUserOrder(h: Hash, first: nat, second: nat): seq<Resource> {
    var low, high := if first < second then first else second, if first < second then second else first;
    if h.ofUser(low) == h.ofUser(high) then [UserKey(h.ofUser(low))] else [UserKey(h.ofUser(low)),
        UserKey(h.ofUser(high))]
  }

  /** The lower user of each pair has the key of the higher user of the other, and the two keys differ. */
  predicate Crossed(h: Hash, low: nat, high: nat, low': nat, high': nat) {
    h.ofUser(low) == h.ofUser(high') && h.ofUser(high) == h.ofUser(low') && h.ofUser(low) != h.ofUser(high)
  }

  ghost function Pairs(h: Hash, low: nat, high: nat, low': nat, high': nat): (ws: seq<Worker>)
    ensures LocksOk(ws)
  {
    [Worker(KeysInUserOrder(h, low, high), 0, false), Worker(KeysInUserOrder(h, low', high'), 0, false)]
  }

  /** Two transactions that block each other under plans of at most two locks have them the other way round. */
  lemma {:induction false} StuckPairIsOpposed(ws: seq<Worker>, schedule: seq<nat>)
    requires LocksOk(ws) && |ws| == 2 && |ws[0].plan| <= 2 && |ws[1].plan| <= 2
    requires Legal(ws, schedule) && !Progresses(After(ws, schedule))
    ensures |ws[0].plan| == 2 && |ws[1].plan| == 2 && ws[0].plan[0] == ws[1].plan[1] && ws[0].plan[1] == ws[1].plan[0]
    ensures ws[0].plan[0] != ws[0].plan[1]
    decreases |schedule|
  {
    if schedule == [] {
      assert !CanStep(ws, 0) && !CanStep(ws, 1);
    } else {
      StuckPairIsOpposed(Stepped(ws, schedule[0]), schedule[1..]);
    }
  }

  /**
   Ordered by user, the key locks of two transfers can deadlock exactly when their keys cross, which takes two
   users with one key; ordered by key they never do.
   */
  lemma UserOrderDeadlocksIffCrossed(h: Hash, low: nat, high: nat, low': nat, high': nat)
    requires low < high && low' < high'
    ensures (exists schedule :: Legal(Pairs(h, low, high, low', high'), schedule)
               && !Progresses(After(Pairs(h, low, high, low', high'), schedule)))
            <==> Crossed(h, low, high, low', high')
    ensures Crossed(h, low, high, low', high') ==> low != high' || high != low'
  {
    var ws := Pairs(h, low, high, low', high');
    if Crossed(h, low, high, low', high') {
      assert ws[0].plan[..1] == [ws[0].plan[0]] && ws[1].plan[..1] == [ws[1].plan[0]];
      var schedule := OpposedPlansDeadlock(ws, 0, 1, 1, 1);
    }
    forall schedule | Legal(ws, schedule) && !Progresses(After(ws, schedule))
      ensures Crossed(h, low, high, low', high')
    {
      StuckPairIsOpposed(ws, schedule);
    }
  }
}
