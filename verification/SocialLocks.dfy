/**
 Follows, blocks, interactions and transfers between users, statement by statement. Each transaction sees
 only committed rows and its own writes, its writes appear at commit, and the advisory locks it took are
 released then. Two lock names may hash to one key; that only excludes more.
 */
module SocialLocks {
  import opened FiniteSets

  type User = nat

  /** A directed edge of `follows` or `blocks`: who, whom. */
  datatype Edge = Edge(who: User, whom: User)

  function Opposite(e: Edge): Edge { Edge(e.whom, e.who) }

  const MAX_FOLLOWING: nat := 5_000

  datatype Lock = FollowsOfUser(user: User) | Pair(low: User, high: User)

  function PairOf(e: Edge): Lock { if e.who < e.whom then Pair(e.who, e.whom) else Pair(e.whom, e.who) }

  datatype Statement =
    | Take(lock: Lock)
    | StopIfBlocked(edge: Edge)
    | StopIfFollows(edge: Edge)
    | StopAtCap(user: User)
    | InsertFollow(edge: Edge)
    | DeleteFollow(edge: Edge)
    | InsertBlock(edge: Edge)
    | DeleteBlock(edge: Edge)
    | Record(user: User, others: set<User>)

  // ----- The service's transactions -----

  /** A reaction or a comment on a post, a transfer, or an edit of one's follows and blocks. */
  datatype Call =
    | Follow(e: Edge)
    | Unfollow(e: Edge)
    | Block(e: Edge)
    | Unblock(e: Edge)
    | SendMoney(e: Edge)
    | Interact(user: User, sender: User, recipient: User)

  /** Refused before any transaction opens: following or blocking oneself, or sending to oneself. */
  predicate Admitted(call: Call) {
    if call.Interact? then call.sender != call.recipient
    else call.Unfollow? || call.Unblock? || call.e.who != call.e.whom
  }

  function Program(call: Call): seq<Statement> {
    match call
    case Follow(e) =>
      [Take(FollowsOfUser(e.who)), Take(PairOf(e)), StopIfBlocked(e), StopIfBlocked(Opposite(e)),
       StopIfFollows(e), StopAtCap(e.who), InsertFollow(e)]
    case Unfollow(e) => [DeleteFollow(e)]
    case Block(e) => [Take(PairOf(e)), InsertBlock(e), DeleteFollow(e), DeleteFollow(Opposite(e))]
    case Unblock(e) => [DeleteBlock(e)]
    case SendMoney(e) => [Take(PairOf(e)), StopIfBlocked(e), StopIfBlocked(Opposite(e)), Record(e.who, {e.whom})]
    case Interact(user, sender, recipient) =>
      var others := Others(user, sender, recipient);
      Locking(user, others) + Checking(user, others) + [Record(user, set o | o in others)]
  }

  /** The participants of a post other than the user, sorted. */
  function Others(user: User, sender: User, recipient: User): (others: seq<User>)
    ensures forall o :: o in others <==> o in {sender, recipient} && o != user
  {
    if user == sender && user == recipient then []
    else if user == sender then [recipient]
    else if user == recipient then [sender]
    else if sender < recipient then [sender, recipient]
    else [recipient, sender]
  }

  function Locking(user: User, others: seq<User>): (p: seq<Statement>)
    ensures forall s :: s in p <==> s.Take? && exists o :: o in others && s.lock == PairOf(Edge(user, o))
  {
    if others == [] then [] else [Take(PairOf(Edge(user, others[0])))] + Locking(user, others[1..])
  }

  function Checking(user: User, others: seq<User>): (p: seq<Statement>)
    ensures forall s :: s in p <==> s.StopIfBlocked? && exists o ::
              o in others && s.edge in {Edge(user, o), Edge(o, user)}
  {
    if others == [] then []
    else [StopIfBlocked(Edge(user, others[0])), StopIfBlocked(Edge(others[0], user))] + Checking(user, others[1..])
  }

  // ----- The discipline the transactions keep -----

  /** Statement `k` comes with the locks and the checks it relies on, all before it. */
  predicate Backed(p: seq<Statement>, k: nat)
    requires k < |p|
  {
    var earlier := p[..k];
    match p[k]
    case StopIfBlocked(e) => Take(PairOf(e)) in earlier
    case StopAtCap(user) => Take(FollowsOfUser(user)) in earlier
    case InsertFollow(e) =>
      && Take(PairOf(e)) in earlier && Take(FollowsOfUser(e.who)) in earlier && StopAtCap(e.who) in earlier
      && StopIfBlocked(e) in earlier && StopIfBlocked(Opposite(e)) in earlier
      && forall j :: 0 <= j < |p| && p[j].InsertFollow? ==> j == k
    case InsertBlock(e) =>
      && Take(PairOf(e)) in earlier && DeleteFollow(e) in p[k..] && DeleteFollow(Opposite(e)) in p[k..]
      && forall j :: 0 <= j < |p| ==> !p[j].InsertFollow? && !p[j].Record?
    case Record(user, others) =>
      forall o :: o in others ==> StopIfBlocked(Edge(user, o)) in earlier && StopIfBlocked(Edge(o, user)) in earlier
    case _ => true
  }

  predicate Disciplined(p: seq<Statement>) { forall k :: 0 <= k < |p| ==> Backed(p, k) }

  /** Every transaction of the service locks before it reads and reads before it writes. */
  lemma ProgramsAreDisciplined(call: Call)
    requires Admitted(call)
    ensures Disciplined(Program(call))
  {
    var p := Program(call);
    match call
    case Interact(user, sender, recipient) =>
      InteractionIsDisciplined(user, Others(user, sender, recipient));
    case Follow(e) =>
      assert p[0] in p[..2] && p[1] in p[..2] && p[1] in p[..3] && p[0] in p[..5];
      assert p[0] in p[..6] && p[1] in p[..6] && p[2] in p[..6] && p[3] in p[..6] && p[5] in p[..6];
    case Block(e) =>
      assert p[0] in p[..1] && p[2] == p[1..][1] && p[3] == p[1..][2];
    case SendMoney(e) =>
      assert p[0] in p[..1] && p[0] in p[..2] && p[1] in p[..3] && p[2] in p[..3];
    case _ =>
  }

  lemma InteractionIsDisciplined(user: User, others: seq<User>)
    ensures Disciplined(Locking(user, others) + Checking(user, others) + [Record(user, set o | o in others)])
  {
    var locking, checking := Locking(user, others), Checking(user, others);
    var p := locking + checking + [Record(user, set o | o in others)];
    forall k | 0 <= k < |p|
      ensures Backed(p, k)
    {
      if k < |locking| {
        assert p[k] in locking;
      } else if k < |locking| + |checking| {
        assert p[k] in checking;
        assert locking <= p[..k];
        assert forall s :: s in locking ==> s in p[..k];
        assert Take(PairOf(p[k].edge)) in locking;
      } else {
        assert p[..k] == locking + checking;
        assert forall s :: s in checking ==> s in p[..k];
      }
    }
  }

  // ----- Transactions running at once -----

  /** An open transaction: how far it is, and the rows its commit will add and remove. */
  datatype Session = Session(program: seq<Statement>, at: nat, live: bool,
                             followed: set<Edge>, unfollowed: set<Edge>, blocked: set<Edge>, unblocked: set<Edge>)

  datatype World = World(follows: set<Edge>, blocks: set<Edge>, sessions: seq<Session>)

  predicate Holds(hash: Lock -> int, s: Session, key: int)
    requires s.at <= |s.program|
  {
    s.live && exists k :: 0 <= k < s.at && s.program[k].Take? && hash(s.program[k].lock) == key
  }

  function FollowedBy(follows: set<Edge>, user: User): set<Edge> { set e | e in follows && e.who == user }

  datatype Event = Opens(call: Call) | Runs(i: nat) | Dies(i: nat)

  ghost predicate SessionsFit(w: World) { forall i :: 0 <= i < |w.sessions| ==>
      w.sessions[i].at <= |w.sessions[i].program| }

  /** A lock that another session holds is waited for; everything else can always run. */
  ghost predicate Ready(hash: Lock -> int, w: World, i: nat)
    requires SessionsFit(w)
  {
    && i < |w.sessions| && w.sessions[i].live
    && var s := w.sessions[i];
       (s.at < |s.program| && s.program[s.at].Take? ==>
          forall j :: 0 <= j < |w.sessions| && j != i ==> !Holds(hash, w.sessions[j], hash(s.program[s.at].lock)))
  }

  /** The session after its next statement, reading committed rows; a stop ends it with nothing written. */
  function Executed(w: World, s: Session): Session
    requires s.at < |s.program|
  {
    var next := s.(at := s.at + 1);
    var stopped := s.(live := false);
    match s.program[s.at]
    case Take(_) => next
    case StopIfBlocked(e) => if e in w.blocks then stopped else next
    case StopIfFollows(e) => if e in w.follows then stopped else next
    case StopAtCap(user) => if MAX_FOLLOWING <= |FollowedBy(w.follows, user)| then stopped else next
    case InsertFollow(e) => next.(followed := s.followed + {e})
    case DeleteFollow(e) => if e in w.follows then next.(unfollowed := s.unfollowed + {e}) else next
    case InsertBlock(e) => next.(blocked := s.blocked + {e})
    case DeleteBlock(e) => if e in w.blocks then next.(unblocked := s.unblocked + {e}) else next
    case Record(_, _) => next
  }

  function Committed(w: World, i: nat): World
    requires i < |w.sessions|
  {
    var s := w.sessions[i];
    World(w.follows - s.unfollowed + s.followed, w.blocks - s.unblocked + s.blocked, w.sessions[i := s.(live := false)])
  }

  ghost function Step(hash: Lock -> int, w: World, event: Event): World
    requires SessionsFit(w)
  {
    match event
    case Opens(call) =>
      if Admitted(call) then w.(sessions := w.sessions + [Session(Program(call), 0, true, {}, {}, {}, {})]) else w
    case Dies(i) => if i < |w.sessions| then w.(sessions := w.sessions[i := w.sessions[i].(live := false)]) else w
    case Runs(i) =>
      if !Ready(hash, w, i) then w
      else if w.sessions[i].at < |w.sessions[i].program| then w.(sessions := w.sessions[i := Executed(w,
          w.sessions[i])])
      else Committed(w, i)
  }

  // ----- What every interleaving keeps -----

  /** What a session has written so far is what its executed statements write; a delete may have found nothing. */
  ghost predicate WritesOk(s: Session)
    requires s.at <= |s.program|
  {
    && (forall e :: e in s.followed <==> Done(s, InsertFollow(e)))
    && (forall e :: e in s.blocked <==> Done(s, InsertBlock(e)))
    && (forall e :: e in s.unfollowed ==> Done(s, DeleteFollow(e)))
    && (forall e :: e in s.unblocked ==> Done(s, DeleteBlock(e)))
  }

  predicate Done(s: Session, x: Statement)
    requires s.at <= |s.program|
  {
    x in s.program[..s.at]
  }

  /** What an executed check established still holds, as long as its lock is held. */
  ghost predicate ChecksOk(w: World, s: Session)
    requires s.at <= |s.program|
  {
    var done := s.program[..s.at];
    && (forall e :: StopIfBlocked(e) in done ==> e !in w.blocks)
    && (forall user :: StopAtCap(user) in done ==> |FollowedBy(w.follows, user)| < MAX_FOLLOWING)
    && (forall e :: LockedDelete(s.program, s.at, e) && e in w.follows ==> e in s.unfollowed)
  }

  /** A follow deleted under the lock of its pair. */
  predicate LockedDelete(p: seq<Statement>, at: nat, e: Edge)
    requires at <= |p|
  {
    exists k :: 0 <= k < at && p[k] == DeleteFollow(e) && Take(PairOf(e)) in p[..k]
  }

  ghost predicate SessionOk(w: World, s: Session) {
    && s.at <= |s.program| && Disciplined(s.program)
    && (s.live ==> WritesOk(s) && ChecksOk(w, s))
  }

  ghost predicate Exclusive(hash: Lock -> int, sessions: seq<Session>)
    requires forall i :: 0 <= i < |sessions| ==> sessions[i].at <= |sessions[i].program|
  {
    forall i, j, key :: 0 <= i < |sessions| && 0 <= j < |sessions| && i != j && Holds(hash, sessions[i], key) ==>
        !Holds(hash, sessions[j], key)
  }

  /** No edge of `follows` joins two users with a block either way, and no one follows too many. */
  ghost predicate Safe(w: World) {
    && (forall e :: e in w.follows ==> e !in w.blocks && Opposite(e) !in w.blocks)
    && (forall user :: |FollowedBy(w.follows, user)| <= MAX_FOLLOWING)
  }

  ghost predicate Inv(hash: Lock -> int, w: World) {
    && SessionsFit(w) && Safe(w) && Exclusive(hash, w.sessions)
    && (forall i :: 0 <= i < |w.sessions| ==> SessionOk(w, w.sessions[i]))
  }

  lemma HoldsTaken(hash: Lock -> int, s: Session, lock: Lock)
    requires s.at <= |s.program| && s.live && Take(lock) in s.program[..s.at]
    ensures Holds(hash, s, hash(lock))
  {
  }

  /** Two sessions never both have executed a `Take` of one lock. */
  lemma OneHolder(hash: Lock -> int, w: World, i: nat, j: nat, lock: Lock)
    requires SessionsFit(w) && Exclusive(hash, w.sessions) && i < |w.sessions| && j < |w.sessions| && i != j
    requires w.sessions[i].live && Take(lock) in w.sessions[i].program[..w.sessions[i].at] && w.sessions[j].live
    ensures Take(lock) !in w.sessions[j].program[..w.sessions[j].at]
  {
    HoldsTaken(hash, w.sessions[i], lock);
    if Take(lock) in w.sessions[j].program[..w.sessions[j].at] {
      HoldsTaken(hash, w.sessions[j], lock);
    }
  }

  lemma BackedEarlier(s: Session, x: Statement)
    requires s.at <= |s.program| && Disciplined(s.program) && x in s.program[..s.at]
    ensures exists k ::
              0 <= k < s.at && s.program[k] == x && Backed(s.program, k) && s.program[..k] <= s.program[..s.at]
  {
  }

  // ----- One statement -----

  lemma ExecutedWrites(w: World, s: Session)
    requires s.at < |s.program| && WritesOk(s)
    ensures WritesOk(Executed(w, s))
  {
    hide Done;
    OneMoreDone(s, Executed(w, s));
  }

  lemma OneMoreDone(s: Session, r: Session)
    requires s.at < |s.program| && r.program == s.program && r.at in {s.at, s.at + 1}
    ensures forall x :: Done(r, x) <==> Done(s, x) || (r.at > s.at && x == s.program[s.at])
  {
    assert s.program[..s.at + 1] == s.program[..s.at] + [s.program[s.at]];
  }

  lemma ExecutedOk(w: World, s: Session)
    requires SessionOk(w, s) && s.live && s.at < |s.program|
    ensures SessionOk(w, Executed(w, s))
  {
    hide Disciplined, FollowedBy, WritesOk;
    ExecutedWrites(w, s);
    var r := Executed(w, s);
    if r.live {
      assert s.program[..r.at] == s.program[..s.at] + [s.program[s.at]];
    }
  }

  lemma ExecutedKeepsExclusive(hash: Lock -> int, w: World, i: nat)
    requires Inv(hash, w) && Ready(hash, w, i) && w.sessions[i].at < |w.sessions[i].program|
    ensures Exclusive(hash, w.sessions[i := Executed(w, w.sessions[i])])
  {
  }

  // ----- A commit -----

  /** Two live sessions, the first about to commit. */
  ghost predicate Committing(hash: Lock -> int, w: World, i: nat, j: nat) {
    && Inv(hash, w) && i < |w.sessions| && j < |w.sessions| && i != j
    && w.sessions[i].live && w.sessions[i].at == |w.sessions[i].program| && w.sessions[j].live
  }

  lemma CommitKeepsBlockCheck(hash: Lock -> int, w: World, i: nat, j: nat, e: Edge)
    requires Committing(hash, w, i, j) && StopIfBlocked(e) in w.sessions[j].program[..w.sessions[j].at]
    ensures e !in Committed(w, i).blocks
  {
    var mine, other := w.sessions[i], w.sessions[j];
    assert SessionOk(w, mine) && SessionOk(w, other);
    if e in mine.blocked {
      BackedEarlier(other, StopIfBlocked(e));
      BackedEarlier(mine, InsertBlock(e));
      OneHolder(hash, w, i, j, PairOf(e));
    }
  }

  lemma CommitKeepsDelete(hash: Lock -> int, w: World, i: nat, j: nat, e: Edge)
    requires Committing(hash, w, i, j) && LockedDelete(w.sessions[j].program, w.sessions[j].at, e)
             && e in Committed(w, i).follows
    ensures e in w.sessions[j].unfollowed
  {
    var mine, other := w.sessions[i], w.sessions[j];
    assert SessionOk(w, mine) && SessionOk(w, other);
    if e in mine.followed {
      var k :| 0 <= k < other.at && other.program[k] == DeleteFollow(e) && Take(PairOf(e)) in other.program[..k];
      assert other.program[..k] <= other.program[..other.at];
      BackedEarlier(mine, InsertFollow(e));
      OneHolder(hash, w, i, j, PairOf(e));
    }
  }

  lemma CommitKeepsCapCheck(hash: Lock -> int, w: World, i: nat, j: nat, user: User)
    requires Committing(hash, w, i, j) && StopAtCap(user) in w.sessions[j].program[..w.sessions[j].at]
    ensures |FollowedBy(Committed(w, i).follows, user)| < MAX_FOLLOWING
  {
    var mine, other := w.sessions[i], w.sessions[j];
    assert SessionOk(w, mine) && SessionOk(w, other);
    BackedEarlier(other, StopAtCap(user));
    forall e | e in mine.followed
      ensures e.who != user
    {
      BackedEarlier(mine, InsertFollow(e));
      if e.who == user {
        OneHolder(hash, w, i, j, FollowsOfUser(user));
      }
    }
    SubsetIsSmaller(FollowedBy(Committed(w, i).follows, user), FollowedBy(w.follows, user));
  }

  /** The commit of one session leaves what another's checks established. */
  lemma CommitKeepsChecks(hash: Lock -> int, w: World, i: nat, j: nat)
    requires Committing(hash, w, i, j)
    ensures SessionOk(Committed(w, i), w.sessions[j])
  {
    var r, other := Committed(w, i), w.sessions[j];
    assert SessionOk(w, other);
    var done := other.program[..other.at];
    forall e | StopIfBlocked(e) in done
      ensures e !in r.blocks
    {
      CommitKeepsBlockCheck(hash, w, i, j, e);
    }
    forall e | LockedDelete(other.program, other.at, e) && e in r.follows
      ensures e in other.unfollowed
    {
      CommitKeepsDelete(hash, w, i, j, e);
    }
    forall user | StopAtCap(user) in done
      ensures |FollowedBy(r.follows, user)| < MAX_FOLLOWING
    {
      CommitKeepsCapCheck(hash, w, i, j, user);
    }
  }

  /** A session writes at most one follow, under the cap it checked. */
  lemma CommitKeepsCap(hash: Lock -> int, w: World, i: nat, user: User)
    requires Inv(hash, w) && i < |w.sessions| && w.sessions[i].live && w.sessions[i].at == |w.sessions[i].program|
    ensures |FollowedBy(Committed(w, i).follows, user)| <= MAX_FOLLOWING
  {
    hide Disciplined, Exclusive;
    var s := w.sessions[i];
    assert SessionOk(w, s);
    var before, after := FollowedBy(w.follows, user), FollowedBy(Committed(w, i).follows, user);
    if e :| e in s.followed && e.who == user {
      BackedEarlier(s, InsertFollow(e));
      assert StopAtCap(user) in s.program[..s.at];
      forall f | f in s.followed
        ensures f == e
      {
        BackedEarlier(s, InsertFollow(f));
      }
      SubsetIsSmaller(after, before + {e});
    } else {
      SubsetIsSmaller(after, before);
    }
  }

  lemma CommitKeepsApart(hash: Lock -> int, w: World, i: nat, e: Edge)
    requires Inv(hash, w) && i < |w.sessions| && w.sessions[i].live && w.sessions[i].at == |w.sessions[i].program|
    requires e in Committed(w, i).follows
    ensures e !in Committed(w, i).blocks && Opposite(e) !in Committed(w, i).blocks
  {
    var s := w.sessions[i];
    assert SessionOk(w, s);
    var all := s.program[..s.at];
    assert all == s.program;
    if e in s.followed {
      BackedEarlier(s, InsertFollow(e));
      assert StopIfBlocked(e) in all && StopIfBlocked(Opposite(e)) in all;
    }
    forall b | b in {e, Opposite(e)}
      ensures b !in s.blocked
    {
      if b in s.blocked {
        BackedEarlier(s, InsertBlock(b));
        DeletesUnderLock(s.program, b, e);
      }
    }
  }

  /** A program that writes a block deletes the follows of the pair afterwards, under its lock. */
  lemma DeletesUnderLock(p: seq<Statement>, b: Edge, e: Edge)
    requires Disciplined(p) && InsertBlock(b) in p && b in {e, Opposite(e)}
    ensures LockedDelete(p, |p|, e) && forall j :: 0 <= j < |p| ==> !p[j].InsertFollow?
  {
    var k :| 0 <= k < |p| && p[k] == InsertBlock(b);
    assert Backed(p, k) && DeleteFollow(e) in p[k..];
    var d :| k <= d < |p| && p[d] == DeleteFollow(e);
    assert p[..k] <= p[..d];
  }

  lemma CommitKeepsInv(hash: Lock -> int, w: World, i: nat)
    requires Inv(hash, w) && i < |w.sessions| && w.sessions[i].live && w.sessions[i].at == |w.sessions[i].program|
    ensures Inv(hash, Committed(w, i))
  {
    var r := Committed(w, i);
    forall e | e in r.follows
      ensures e !in r.blocks && Opposite(e) !in r.blocks
    {
      CommitKeepsApart(hash, w, i, e);
    }
    forall user: User
      ensures |FollowedBy(r.follows, user)| <= MAX_FOLLOWING
    {
      CommitKeepsCap(hash, w, i, user);
    }
    forall j | 0 <= j < |r.sessions|
      ensures SessionOk(r, r.sessions[j])
    {
      assert SessionOk(w, w.sessions[j]);
      if j != i && w.sessions[j].live {
        CommitKeepsChecks(hash, w, i, j);
      }
    }
  }

  // ----- Runs -----

  lemma StepKeepsInv(hash: Lock -> int, w: World, event: Event)
    requires Inv(hash, w)
    ensures Inv(hash, Step(hash, w, event))
  {
    hide Program, Disciplined;
    match event
    case Opens(call) =>
      if Admitted(call) {
        ProgramsAreDisciplined(call);
      }
    case Dies(i) =>
    case Runs(i) =>
      if Ready(hash, w, i) {
        if w.sessions[i].at < |w.sessions[i].program| {
          ExecutedOk(w, w.sessions[i]);
          ExecutedKeepsExclusive(hash, w, i);
        } else {
          CommitKeepsInv(hash, w, i);
        }
      }
  }

  ghost function Run(hash: Lock -> int, events: seq<Event>): World {
    if events == [] then World({}, {}, [])
    else
      var before := Run(hash, events[..|events| - 1]);
      if SessionsFit(before) then Step(hash, before, events[|events| - 1]) else before
  }

  lemma {:induction false} RunKeepsInv(hash: Lock -> int, events: seq<Event>)
    ensures Inv(hash, Run(hash, events))
  {
    if events != [] {
      RunKeepsInv(hash, events[..|events| - 1]);
      StepKeepsInv(hash, Run(hash, events[..|events| - 1]), events[|events| - 1]);
    }
  }

  /** No interleaving leaves a follow next to a block, or a user following more than the cap. */
  lemma BlocksAndFollowsStayApart(hash: Lock -> int, events: seq<Event>, a: User, b: User)
    ensures var w := Run(hash, events);
            && (Edge(a, b) in w.blocks ==> Edge(a, b) !in w.follows && Edge(b, a) !in w.follows)
            && |FollowedBy(w.follows, a)| <= MAX_FOLLOWING
  {
    RunKeepsInv(hash, events);
    assert Opposite(Edge(b, a)) == Edge(a, b);
  }

  // ----- What a commit leaves -----

  /** Session `i` of a run is about to commit the transaction of `call`. */
  ghost predicate AboutToCommit(hash: Lock -> int, w: World, i: nat, call: Call) {
    && SessionsFit(w) && Ready(hash, w, i)
    && w.sessions[i].program == Program(call) && w.sessions[i].at == |w.sessions[i].program|
  }

  lemma FollowWrites(s: Session, e: Edge)
    requires s.program == Program(Follow(e)) && s.at == |s.program| && WritesOk(s)
    ensures s.followed == {e} && s.unfollowed == s.blocked == s.unblocked == {}
  {
    var p := Program(Follow(e));
    assert s.program[..s.at] == p && p[6] == InsertFollow(e);
    forall x | Done(s, x)
      ensures x.Take? || x.StopIfBlocked? || x.StopIfFollows? || x.StopAtCap? || x == InsertFollow(e)
    {
      var k :| 0 <= k < 7 && p[k] == x;
    }
  }

  lemma BlockWrites(s: Session, e: Edge)
    requires s.program == Program(Block(e)) && s.at == |s.program| && WritesOk(s)
    ensures s.blocked == {e} && s.followed == s.unblocked == {} && s.unfollowed <= {e, Opposite(e)}
  {
    var p := Program(Block(e));
    assert s.program[..s.at] == p && p[1] == InsertBlock(e);
  }

  lemma BlockDeletesUnderLock(e: Edge)
    ensures var p := Program(Block(e)); LockedDelete(p, |p|, e) && LockedDelete(p, |p|, Opposite(e))
  {
    var p := Program(Block(e));
    assert p[0] in p[..2] && p[0] in p[..3];
    assert p[2] == DeleteFollow(e) && p[3] == DeleteFollow(Opposite(e));
  }

  /** A follow that commits adds its own edge and changes nothing else. */
  lemma CommittedFollowIsThere(hash: Lock -> int, events: seq<Event>, i: nat, e: Edge)
    requires AboutToCommit(hash, Run(hash, events), i, Follow(e))
    ensures var w := Run(hash, events);
            var r := Step(hash, w, Runs(i)); r.follows == w.follows + {e} && r.blocks == w.blocks
  {
    hide Program, Run, WritesOk, ChecksOk, Disciplined, Safe, Exclusive;
    RunKeepsInv(hash, events);
    var w := Run(hash, events);
    assert SessionOk(w, w.sessions[i]);
    FollowWrites(w.sessions[i], e);
  }

  /** A block that commits adds its own edge and removes the follows of the pair, and changes nothing else. */
  lemma CommittedBlockIsThere(hash: Lock -> int, events: seq<Event>, i: nat, e: Edge)
    requires AboutToCommit(hash, Run(hash, events), i, Block(e))
    ensures var w := Run(hash, events);
            var r := Step(hash, w, Runs(i));
            r.blocks == w.blocks + {e} && r.follows == w.follows - {e, Opposite(e)}
  {
    hide Program, Run, WritesOk, LockedDelete, Disciplined, Safe, Exclusive;
    RunKeepsInv(hash, events);
    var w := Run(hash, events);
    assert SessionOk(w, w.sessions[i]);
    BlockWrites(w.sessions[i], e);
    BlockDeletesUnderLock(e);
  }

  /** Events of other sessions leave a session where it is. */
  lemma {:induction false} OthersLeaveSession(hash: Lock -> int, events: seq<Event>, later: seq<Event>, i: nat)
    requires i < |Run(hash, events).sessions| && forall k :: 0 <= k < |later| ==> later[k] !in {Runs(i), Dies(i)}
    ensures var w, r := Run(hash, events), Run(hash, events + later);
            SessionsFit(r) && i < |r.sessions| && r.sessions[i] == w.sessions[i]
  {
    hide Program, Inv, Run, Step;
    if later == [] {
      assert events + later == events;
      RunFits(hash, events);
    } else {
      var n := |later| - 1;
      OthersLeaveSession(hash, events, later[..n], i);
      assert events + later[..n] + [later[n]] == events + later;
      RunStep(hash, events + later[..n], later[n]);
      OtherLeavesSession(hash, Run(hash, events + later[..n]), later[n], i);
      RunFits(hash, events + later);
    }
  }

  lemma OtherLeavesSession(hash: Lock -> int, w: World, event: Event, i: nat)
    requires SessionsFit(w) && i < |w.sessions| && event !in {Runs(i), Dies(i)}
    ensures var r := Step(hash, w, event); i < |r.sessions| && r.sessions[i] == w.sessions[i]
  {
    hide Program;
  }

  lemma RunFits(hash: Lock -> int, events: seq<Event>)
    ensures SessionsFit(Run(hash, events))
  {
    RunKeepsInv(hash, events);
  }

  lemma RunStep(hash: Lock -> int, events: seq<Event>, event: Event)
    ensures SessionsFit(Run(hash, events))
    ensures Run(hash, events + [event]) == Step(hash, Run(hash, events), event)
  {
    RunFits(hash, events);
    assert (events + [event])[..|events|] == events;
  }

  /** Session `i` of a run has just opened the transaction of `call`. */
  ghost predicate JustOpened(w: World, i: nat, call: Call) {
    && i < |w.sessions| && w.sessions[i].live && w.sessions[i].at == 0
    && w.sessions[i].program == Program(call)
    && w.sessions[i].followed == w.sessions[i].unfollowed == w.sessions[i].blocked == w.sessions[i].unblocked == {}
  }

  /**
   An unfollow or an unblock deletes at its one statement and commits after whatever else: the edge it found is gone
   after its commit, and no other edge is touched by it.
   */
  lemma CommittedDeleteIsGone(hash: Lock -> int, events: seq<Event>, later: seq<Event>, i: nat, call: Call)
    requires (call.Unfollow? || call.Unblock?) && JustOpened(Run(hash, events), i, call)
    requires forall k :: 0 <= k < |later| ==> later[k] !in {Runs(i), Dies(i)}
    ensures var w := Run(hash, events);
            var before := Run(hash, events + [Runs(i)] + later);
            var r := Run(hash, events + [Runs(i)] + later + [Runs(i)]);
            && r.follows == before.follows - (if call.Unfollow? && call.e in w.follows then {call.e} else {})
            && r.blocks == before.blocks - (if call.Unblock? && call.e in w.blocks then {call.e} else {})
  {
    var w := Run(hash, events);
    RunStep(hash, events, Runs(i));
    assert Ready(hash, w, i) && Run(hash, events + [Runs(i)]).sessions[i] == Executed(w, w.sessions[i]);
    OthersLeaveSession(hash, events + [Runs(i)], later, i);
    RunStep(hash, events + [Runs(i)] + later, Runs(i));
  }

  lemma CommitsUnblocked(hash: Lock -> int, w: World, i: nat, user: User, others: set<User>, other: User)
    requires Inv(hash, w) && i < |w.sessions| && w.sessions[i].live && w.sessions[i].at == |w.sessions[i].program|
    requires Record(user, others) in w.sessions[i].program && other in others
    ensures var r := Committed(w, i); Edge(user, other) !in r.blocks && Edge(other, user) !in r.blocks
  {
    var s := w.sessions[i];
    var all := s.program[..s.at];
    assert SessionOk(w, s) && all == s.program;
    BackedEarlier(s, Record(user, others));
    assert StopIfBlocked(Edge(user, other)) in all && StopIfBlocked(Edge(other, user)) in all;
    forall b | b in s.blocked
      ensures false
    {
      BackedEarlier(s, InsertBlock(b));
    }
  }

  /**
   When a reaction, a comment or a transfer commits, no block between its author and a participant is
   committed, either way.
   */
  lemma NothingCommitsAcrossABlock(hash: Lock -> int, events: seq<Event>, i: nat, user: User, others: set<User>,
      other: User)
    requires var w := Run(hash, events);
             SessionsFit(w) && Ready(hash, w, i) && w.sessions[i].at == |w.sessions[i].program|
                 && Record(user, others) in w.sessions[i].program
    requires other in others
    ensures var r := Step(hash, Run(hash, events), Runs(i));
            Edge(user, other) !in r.blocks && Edge(other, user) !in r.blocks
  {
    RunKeepsInv(hash, events);
    CommitsUnblocked(hash, Run(hash, events), i, user, others, other);
  }

  /** The two users an interaction or a transfer brings together. */
  predicate Joins(call: Call, user: User, other: User) {
    match call
    case SendMoney(e) => user == e.who && other == e.whom
    case Interact(who, sender, recipient) => user == who && other != who && (other == sender || other == recipient)
    case _ => false
  }

  lemma JoinedAreRecorded(call: Call, user: User, other: User)
    requires Joins(call, user, other)
    ensures exists others :: other in others && Record(user, others) in Program(call)
  {
    match call
    case SendMoney(e) =>
      assert Program(call)[3] == Record(user, {other});
    case Interact(who, sender, recipient) =>
      var others := Others(who, sender, recipient);
      assert other in others && Record(who, set o | o in others) in Program(call);
  }

  /** Neither a transfer nor a reaction or comment ever commits with a block between its author and a participant. */
  lemma NoInteractionAcrossABlock(hash: Lock -> int, events: seq<Event>, i: nat, call: Call, user: User, other: User)
    requires AboutToCommit(hash, Run(hash, events), i, call) && Joins(call, user, other)
    ensures var r := Step(hash, Run(hash, events), Runs(i));
            Edge(user, other) !in r.blocks && Edge(other, user) !in r.blocks
  {
    hide Program, Run, Step, Inv;
    JoinedAreRecorded(call, user, other);
    var others :| other in others && Record(user, others) in Program(call);
    NothingCommitsAcrossABlock(hash, events, i, user, others, other);
  }
}
