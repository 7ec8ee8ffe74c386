/**
 The daily limit and the balance cap, statement by statement: a transaction takes the keys of the users it
 checks, reads committed totals, and changes them at commit, when its keys are released. Reversals, chargebacks
 and their resolutions change totals without any user key. What is sent or withdrawn is checked against the
 balance under the account rows' own locks, which is not part of this.
 */
module LimitLocks {
  import opened Tables
  import opened Kyc

  type UserId = nat

  /** A user's limits, what counts against the daily one today, the balance, and the credits no cap check guards. */
  datatype Wallet = Wallet(daily: int, cap: Option<int>, debited: int, balance: int, exempt: int)

  datatype Kind =
    | Sends(sender: UserId, recipient: UserId, amount: int)
    | Withdraws(user: UserId, amount: int)
    | Credits(user: UserId, amount: int)
    | Reverses(user: UserId, amount: int)
    | ChargesBack(user: UserId, amount: int)
    | GivesBack(user: UserId, amount: int)

  datatype Statement = TakeKey(key: int) | CheckDebits(user: UserId, amount: int) | CheckCap(user: UserId, amount: int)

  /** The user's keys in ascending order, once each. */
  function Keys(hash: UserId -> int, a: UserId, b: UserId): seq<Statement> {
    if hash(a) == hash(b) then [TakeKey(hash(a))]
    else if hash(a) < hash(b) then [TakeKey(hash(a)), TakeKey(hash(b))]
    else [TakeKey(hash(b)), TakeKey(hash(a))]
  }

  function Locking(hash: UserId -> int, kind: Kind): seq<Statement> {
    match kind
    case Sends(sender, recipient, _) => Keys(hash, sender, recipient)
    case Withdraws(user, _) => [TakeKey(hash(user))]
    case Credits(user, _) => [TakeKey(hash(user))]
    case _ => []
  }

  function Checking(kind: Kind): seq<Statement> {
    match kind
    case Sends(sender, recipient, amount) => [CheckDebits(sender, amount), CheckCap(recipient, amount)]
    case Withdraws(user, amount) => [CheckDebits(user, amount)]
    case Credits(user, amount) => [CheckCap(user, amount)]
    case _ => []
  }

  /** With `locked` false, what the same transaction would do without its keys. */
  function Program(hash: UserId -> int, locked: bool, kind: Kind): seq<Statement> {
    (if locked then Locking(hash, kind) else []) + Checking(kind)
  }

  datatype Session = Session(kind: Kind, program: seq<Statement>, at: nat, live: bool)

  datatype World = World(wallets: seq<Wallet>, sessions: seq<Session>)

  predicate Admitted(kind: Kind, users: nat) {
    && 0 < kind.amount
    && if kind.Sends? then kind.sender < users && kind.recipient < users
        && kind.sender != kind.recipient else kind.user < users
  }

  // ----- Statements -----

  predicate DebitsFit(w: Wallet, amount: int) { w.debited + amount <= w.daily }

  predicate CapFits(w: Wallet, amount: int) { w.cap.Some? ==> w.balance + amount <= w.cap.value + w.exempt }

  /**
   The cap check: against the cap alone, exempt credits included in the balance. The code also counts pending
   fundings for a transfer and refuses every credit under a cap of zero, which only refuses more.
   */
  predicate CapAdmits(w: Wallet, amount: int) { w.cap.Some? ==> w.balance + amount <= w.cap.value }

  predicate Passes(wallets: seq<Wallet>, st: Statement) {
    match st
    case TakeKey(_) => true
    case CheckDebits(user, amount) => user < |wallets| && DebitsFit(wallets[user], amount)
    case CheckCap(user, amount) => user < |wallets| && CapAdmits(wallets[user], amount)
  }

  function Debited(w: Wallet, amount: int): Wallet { w.(debited := w.debited + amount, balance := w.balance - amount) }

  function Credited(w: Wallet, amount: int): Wallet { w.(balance := w.balance + amount) }

  function Exempted(w: Wallet, amount: int): Wallet { w.(balance := w.balance + amount, exempt := w.exempt + amount) }

  function Effect(wallets: seq<Wallet>, kind: Kind): seq<Wallet>
    requires Admitted(kind, |wallets|)
  {
    match kind
    case Sends(sender, recipient, amount) =>
      wallets[sender := Debited(wallets[sender], amount)][recipient := Credited(wallets[recipient], amount)]
    case Withdraws(user, amount) => wallets[user := Debited(wallets[user], amount)]
    case Credits(user, amount) => wallets[user := Credited(wallets[user], amount)]
    case Reverses(user, amount) =>
      var w := Exempted(wallets[user], amount); wallets[user := w.(debited := w.debited - amount)]
    case ChargesBack(user, amount) => wallets[user := Credited(wallets[user], -amount)]
    case GivesBack(user, amount) => wallets[user := Exempted(wallets[user], amount)]
  }

  predicate Holds(s: Session, key: int)
    requires s.at <= |s.program|
  {
    s.live && TakeKey(key) in s.program[..s.at]
  }

  ghost predicate SessionsFit(w: World) { forall i :: 0 <= i < |w.sessions| ==>
      w.sessions[i].at <= |w.sessions[i].program| }

  /** A key that another session holds is waited for. */
  ghost predicate Ready(w: World, i: nat)
    requires SessionsFit(w)
  {
    && i < |w.sessions| && w.sessions[i].live
    && var s := w.sessions[i];
       (s.at < |s.program| && s.program[s.at].TakeKey? ==>
          forall j :: 0 <= j < |w.sessions| && j != i ==> !Holds(w.sessions[j], s.program[s.at].key))
  }

  /** A limit only rises, as the tier does. */
  datatype Event = Opens(kind: Kind) | Runs(i: nat) | Dies(i: nat) | Raises(user: UserId, daily: int, cap: Option<int>)

  ghost function Step(hash: UserId -> int, locked: bool, w: World, event: Event): World
    requires SessionsFit(w)
  {
    match event
    case Opens(kind) =>
      if Admitted(kind, |w.wallets|) then w.(sessions := w.sessions
          + [Session(kind, Program(hash, locked, kind), 0, true)]) else w
    case Dies(i) => if i < |w.sessions| then w.(sessions := w.sessions[i := w.sessions[i].(live := false)]) else w
    case Raises(user, daily, cap) =>
      if user < |w.wallets| && w.wallets[user].daily <= daily && CapAtMost(w.wallets[user].cap, cap)
      then w.(wallets := w.wallets[user := w.wallets[user].(daily := daily, cap := cap)]) else w
    case Runs(i) =>
      if !Ready(w, i) then w
      else
        var s := w.sessions[i];
        if s.at < |s.program| then
          w.(sessions := w.sessions[i := if Passes(w.wallets, s.program[s.at]) then s.(at := s.at
              + 1) else s.(live := false)])
        else if Admitted(s.kind, |w.wallets|) then
          World(Effect(w.wallets, s.kind), w.sessions[i := s.(live := false)])
        else w
  }

  // ----- What every interleaving under the keys keeps -----

  /** Every user is within the daily limit, and within the cap but for exempt credits. */
  ghost predicate Safe(wallets: seq<Wallet>) {
    forall u :: 0 <= u < |wallets| ==> DebitsFit(wallets[u], 0) && CapFits(wallets[u], 0) && 0 <= wallets[u].exempt
  }

  /** What an executed check established still holds. */
  ghost predicate StillPasses(wallets: seq<Wallet>, st: Statement) {
    match st
    case TakeKey(_) => true
    case CheckDebits(user, amount) => user < |wallets| && DebitsFit(wallets[user], amount)
    case CheckCap(user, amount) => user < |wallets| && CapFits(wallets[user], amount)
  }

  ghost predicate SessionOk(hash: UserId -> int, wallets: seq<Wallet>, s: Session) {
    && s.at <= |s.program| && s.program == Program(hash, true, s.kind) && Admitted(s.kind, |wallets|)
    && (s.live ==> forall st :: st in s.program[..s.at] ==> StillPasses(wallets, st))
  }

  ghost predicate Exclusive(sessions: seq<Session>)
    requires forall i :: 0 <= i < |sessions| ==> sessions[i].at <= |sessions[i].program|
  {
    forall i, j, key :: 0 <= i < |sessions| && 0 <= j < |sessions| && i != j && Holds(sessions[i], key) ==>
      !Holds(sessions[j], key)
  }

  ghost predicate Inv(hash: UserId -> int, w: World) {
    && SessionsFit(w) && Safe(w.wallets) && Exclusive(w.sessions)
    && forall i :: 0 <= i < |w.sessions| ==> SessionOk(hash, w.wallets, w.sessions[i])
  }

  /** The user a check is about. */
  function Subject(st: Statement): UserId
    requires !st.TakeKey?
  {
    st.user
  }

  /** A check comes after its user's key. */
  lemma ChecksUnderKey(hash: UserId -> int, s: Session, st: Statement)
    requires s.at <= |s.program| && s.program == Program(hash, true, s.kind) && !st.TakeKey? && st in s.program[..s.at]
    ensures TakeKey(hash(Subject(st))) in s.program[..s.at]
  {
    var locking := Locking(hash, s.kind);
    assert forall k :: 0 <= k < |locking| ==> s.program[k] == locking[k] && locking[k].TakeKey?;
    var k :| 0 <= k < s.at && s.program[k] == st;
    assert locking <= s.program[..s.at];
    assert TakeKey(hash(Subject(st))) in locking by {
      assert st in Checking(s.kind);
    }
  }

  /** The users whose checked totals a commit can push up. */
  function Pushes(kind: Kind): set<UserId> {
    match kind
    case Sends(sender, recipient, _) => {sender, recipient}
    case Withdraws(user, _) => {user}
    case Credits(user, _) => {user}
    case _ => {}
  }

  lemma PushesUnderKey(hash: UserId -> int, s: Session, u: UserId)
    requires s.program == Program(hash, true, s.kind) && u in Pushes(s.kind)
    ensures TakeKey(hash(u)) in s.program
  {
    assert TakeKey(hash(u)) in Locking(hash, s.kind);
  }

  lemma EffectLeavesOthersChecks(wallets: seq<Wallet>, kind: Kind, st: Statement)
    requires Admitted(kind, |wallets|) && StillPasses(wallets, st)
    requires !st.TakeKey? ==> Subject(st) !in Pushes(kind)
    ensures StillPasses(Effect(wallets, kind), st)
  {
  }

  /** A session that passed its checks leaves every user within the limits. */
  lemma EffectKeepsSafe(hash: UserId -> int, wallets: seq<Wallet>, s: Session)
    requires Safe(wallets) && SessionOk(hash, wallets, s) && s.live && s.at == |s.program|
    ensures Safe(Effect(wallets, s.kind))
  {
    assert s.program[..s.at] == s.program;
    assert forall st :: st in Checking(s.kind) ==> st in s.program;
    assert s.kind.Sends? ==>
        CheckDebits(s.kind.sender, s.kind.amount) in Checking(s.kind)
            && CheckCap(s.kind.recipient, s.kind.amount) in Checking(s.kind);
    assert s.kind.Withdraws? ==> CheckDebits(s.kind.user, s.kind.amount) in Checking(s.kind);
    assert s.kind.Credits? ==> CheckCap(s.kind.user, s.kind.amount) in Checking(s.kind);
  }

  lemma CommitKeepsOther(hash: UserId -> int, w: World, i: nat, j: nat)
    requires Inv(hash, w) && i < |w.sessions| && j < |w.sessions| && i != j
    requires w.sessions[i].live && w.sessions[i].at == |w.sessions[i].program|
    ensures SessionOk(hash, Effect(w.wallets, w.sessions[i].kind), w.sessions[j])
  {
    var s, other := w.sessions[i], w.sessions[j];
    assert SessionOk(hash, w.wallets, s) && SessionOk(hash, w.wallets, other);
    if other.live {
      forall st | st in other.program[..other.at]
        ensures StillPasses(Effect(w.wallets, s.kind), st)
      {
        if !st.TakeKey? {
          ChecksUnderKey(hash, other, st);
          assert Holds(other, hash(Subject(st)));
          forall u | u in Pushes(s.kind)
            ensures u != Subject(st)
          {
            PushesUnderKey(hash, s, u);
            assert s.program[..s.at] == s.program;
            assert Holds(s, hash(u)) && !Holds(other, hash(u));
          }
        }
        EffectLeavesOthersChecks(w.wallets, s.kind, st);
      }
    }
  }

  lemma CommitKeepsInv(hash: UserId -> int, w: World, i: nat)
    requires Inv(hash, w) && i < |w.sessions| && w.sessions[i].live && w.sessions[i].at == |w.sessions[i].program|
    ensures Inv(hash, Step(hash, true, w, Runs(i)))
  {
    var s := w.sessions[i];
    assert SessionOk(hash, w.wallets, s);
    EffectKeepsSafe(hash, w.wallets, s);
    var r := Step(hash, true, w, Runs(i));
    forall j | 0 <= j < |r.sessions|
      ensures SessionOk(hash, r.wallets, r.sessions[j])
    {
      if j != i {
        CommitKeepsOther(hash, w, i, j);
      }
    }
  }

  lemma StatementKeepsInv(hash: UserId -> int, w: World, i: nat)
    requires Inv(hash, w) && Ready(w, i) && w.sessions[i].at < |w.sessions[i].program|
    ensures Inv(hash, Step(hash, true, w, Runs(i)))
  {
    var s := w.sessions[i];
    var r := Step(hash, true, w, Runs(i));
    assert SessionOk(hash, w.wallets, s);
    assert s.program[..s.at + 1] == s.program[..s.at] + [s.program[s.at]];
    StatementKeepsExclusive(w, i, r.sessions[i]);
    assert SessionOk(hash, r.wallets, r.sessions[i]) by {
      if Passes(w.wallets, s.program[s.at]) && s.program[s.at].CheckCap? {
        assert 0 <= w.wallets[s.program[s.at].user].exempt;
      }
    }
  }

  lemma StatementKeepsExclusive(w: World, i: nat, next: Session)
    requires SessionsFit(w) && Exclusive(w.sessions) && Ready(w, i) && w.sessions[i].at < |w.sessions[i].program|
    requires next == w.sessions[i].(at := w.sessions[i].at + 1) || next == w.sessions[i].(live := false)
    ensures Exclusive(w.sessions[i := next])
  {
    var s := w.sessions[i];
    assert s.program[..s.at + 1] == s.program[..s.at] + [s.program[s.at]];
    forall j, key | 0 <= j < |w.sessions| && j != i && Holds(next, key)
      ensures !Holds(w.sessions[j], key)
    {
      assert Holds(s, key) || s.program[s.at] == TakeKey(key);
    }
  }

  lemma RaiseKeepsInv(hash: UserId -> int, w: World, user: UserId, daily: int, cap: Option<int>)
    requires Inv(hash, w)
    ensures Inv(hash, Step(hash, true, w, Raises(user, daily, cap)))
  {
    var r := Step(hash, true, w, Raises(user, daily, cap));
    forall i | 0 <= i < |r.sessions|
      ensures SessionOk(hash, r.wallets, r.sessions[i])
    {
      assert SessionOk(hash, w.wallets, w.sessions[i]);
      forall st | st in r.sessions[i].program[..r.sessions[i].at] && StillPasses(w.wallets, st)
        ensures StillPasses(r.wallets, st)
      {
      }
    }
  }

  lemma StepKeepsInv(hash: UserId -> int, w: World, event: Event)
    requires Inv(hash, w)
    ensures Inv(hash, Step(hash, true, w, event))
  {
    match event
    case Opens(kind) =>
    case Dies(i) =>
    case Raises(user, daily, cap) => RaiseKeepsInv(hash, w, user, daily, cap);
    case Runs(i) =>
      if Ready(w, i) {
        if w.sessions[i].at < |w.sessions[i].program| {
          StatementKeepsInv(hash, w, i);
        } else {
          CommitKeepsInv(hash, w, i);
        }
      }
  }

  ghost function Run(hash: UserId -> int, locked: bool, w: World, events: seq<Event>): World
    decreases |events|
  {
    if events == [] || !SessionsFit(w) then w else Run(hash, locked, Step(hash, locked, w, events[0]), events[1..])
  }

  /**
   Under the user keys, with any hash and however sessions interleave, nobody's debits of the day exceed the
   limit and nobody's balance exceeds the cap but for exempt credits.
   */
  lemma {:induction false} KeysKeepLimits(hash: UserId -> int, w: World, events: seq<Event>)
    requires Inv(hash, w)
    ensures Safe(Run(hash, true, w, events).wallets)
    decreases |events|
  {
    if events != [] {
      StepKeepsInv(hash, w, events[0]);
      KeysKeepLimits(hash, Step(hash, true, w, events[0]), events[1..]);
    }
  }

  // ----- Without the keys -----

  lemma RunOfPair(hash: UserId -> int, locked: bool, w: World, a: Event, b: Event)
    requires SessionsFit(w) && SessionsFit(Step(hash, locked, w, a))
    ensures Run(hash, locked, w, [a, b]) == Step(hash, locked, Step(hash, locked, w, a), b)
  {
    var x := Step(hash, locked, w, a);
    assert [a, b][1..] == [b] && [b][1..] == [];
    assert Run(hash, locked, Step(hash, locked, x, b), []) == Step(hash, locked, x, b);
  }

  lemma {:induction false} RunSplits(hash: UserId -> int, locked: bool, w: World, a: seq<Event>, b: seq<Event>)
    requires SessionsFit(Run(hash, locked, w, a))
    ensures Run(hash, locked, w, a + b) == Run(hash, locked, Run(hash, locked, w, a), b)
    decreases |a|
  {
    if a == [] {
      assert a + b == b;
    } else if SessionsFit(w) {
      assert (a + b)[1..] == a[1..] + b;
      RunSplits(hash, locked, Step(hash, locked, w, a[0]), a[1..], b);
    }
  }

  /** Both sessions open, both pass the check they make, both commit. */
  function BothAtOnce(kind: Kind): seq<Event> {
    [Opens(kind), Opens(kind)] + [Runs(0), Runs(1)] + [Runs(0), Runs(1)]
  }

  /** Two sessions of one kind, without keys, as far as the two numbers say. */
  function Twins(hash: UserId -> int, wallets: seq<Wallet>, kind: Kind, first: nat, second: nat): World {
    var p := Program(hash, false, kind);
    World(wallets, [Session(kind, p, first, true), Session(kind, p, second, true)])
  }

  predicate Passing(wallets: seq<Wallet>, kind: Kind) {
    && (kind.Withdraws? || kind.Credits?) && Admitted(kind, |wallets|)
    && if kind.Withdraws? then DebitsFit(wallets[kind.user], kind.amount) else CapAdmits(wallets[kind.user],
        kind.amount)
  }

  lemma OneStatement(hash: UserId -> int, kind: Kind)
    requires kind.Withdraws? || kind.Credits?
    ensures Program(hash, false, kind) == Checking(kind) && |Checking(kind)| == 1
  {
  }

  lemma TwinsOpen(hash: UserId -> int, wallets: seq<Wallet>, kind: Kind)
    requires Passing(wallets, kind)
    ensures Run(hash, false, World(wallets, []), [Opens(kind), Opens(kind)]) == Twins(hash, wallets, kind, 0, 0)
  {
    RunOfPair(hash, false, World(wallets, []), Opens(kind), Opens(kind));
  }

  lemma TwinsPass(hash: UserId -> int, wallets: seq<Wallet>, kind: Kind)
    requires Passing(wallets, kind)
    ensures Run(hash, false, Twins(hash, wallets, kind, 0, 0), [Runs(0), Runs(1)]) == Twins(hash, wallets, kind, 1, 1)
  {
    OneStatement(hash, kind);
    assert Step(hash, false, Twins(hash, wallets, kind, 0, 0), Runs(0)) == Twins(hash, wallets, kind, 1, 0);
    RunOfPair(hash, false, Twins(hash, wallets, kind, 0, 0), Runs(0), Runs(1));
  }

  lemma TwinsEnd(hash: UserId -> int, wallets: seq<Wallet>, kind: Kind)
    requires Passing(wallets, kind)
    ensures Run(hash, false, Twins(hash, wallets, kind, 1, 1), [Runs(0), Runs(1)]).wallets
            == Effect(Effect(wallets, kind), kind)
  {
    OneStatement(hash, kind);
    RunOfPair(hash, false, Twins(hash, wallets, kind, 1, 1), Runs(0), Runs(1));
  }

  lemma TwinsCommit(hash: UserId -> int, wallets: seq<Wallet>, kind: Kind)
    requires Passing(wallets, kind)
    ensures Run(hash, false, World(wallets, []), BothAtOnce(kind)).wallets == Effect(Effect(wallets, kind), kind)
  {
    hide Step, Run;
    var w := World(wallets, []);
    OneStatement(hash, kind);
    TwinsOpen(hash, wallets, kind);
    TwinsPass(hash, wallets, kind);
    TwinsEnd(hash, wallets, kind);
    RunSplits(hash, false, w, [Opens(kind), Opens(kind)], [Runs(0), Runs(1)]);
    RunSplits(hash, false, w, [Opens(kind), Opens(kind)] + [Runs(0), Runs(1)], [Runs(0), Runs(1)]);
  }

  /** Room for one withdrawal and not for two: without the keys two of them both pass the check. */
  lemma TwoWithdrawalsExceedLimit(hash: UserId -> int, wallets: seq<Wallet>, user: UserId, amount: int)
    requires user < |wallets| && 0 < amount && DebitsFit(wallets[user], amount) && !DebitsFit(wallets[user], 2 * amount)
    ensures !Safe(Run(hash, false, World(wallets, []), BothAtOnce(Withdraws(user, amount))).wallets)
  {
    TwinsCommit(hash, wallets, Withdraws(user, amount));
    assert !DebitsFit(Effect(Effect(wallets, Withdraws(user, amount)), Withdraws(user, amount))[user], 0);
  }

  /** Room under the cap for one funding and not for two, with no exempt credit: both are credited. */
  lemma TwoCreditsExceedCap(hash: UserId -> int, wallets: seq<Wallet>, user: UserId, amount: int)
    requires user < |wallets| && 0 < amount && CapAdmits(wallets[user], amount) && !CapFits(wallets[user], 2 * amount)
    ensures !Safe(Run(hash, false, World(wallets, []), BothAtOnce(Credits(user, amount))).wallets)
  {
    TwinsCommit(hash, wallets, Credits(user, amount));
    assert !CapFits(Effect(Effect(wallets, Credits(user, amount)), Credits(user, amount))[user], 0);
  }
}
