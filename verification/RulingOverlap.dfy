/**
 The status of one charged-back funding while rulings on its disputes and further chargebacks against it
 overlap, statement by statement. A ruling locks its dispute, posts under the float row's lock if it is in
 Cliqpay's favour, reads the sibling disputes, and only then waits for the funding's row to write what it
 read. A chargeback locks the funding's row first, then float. Each sees committed rows and its own writes.
 */
module RulingOverlap {
  import opened Tables
  import opened LedgerSpec

  datatype Kind = Uphold(dispute: nat) | Favour(dispute: nat) | Charge

  /**
   How far a session is, and, once it has read the siblings, whether one was open, the status it computed, and
   how many sessions had committed.
   */
  datatype Session = Session(kind: Kind, at: nat, live: bool, sawOpen: bool, read: Status, asOf: nat)

  /** The committed disputes and status of the funding, the sessions, how many committed, and the last of them. */
  datatype World = World(disputes: seq<DisputeStatus>, status: Status, sessions: seq<Session>,
                         commits: nat, last: Option<Session>)

  function Aggregate(disputes: seq<DisputeStatus>): Status {
    if Open in disputes then Disputed else if Upheld in disputes then Reversed else Completed
  }

  // ----- The siblings of the ledger's tables -----

  function Siblings(txns: seq<Transaction>, disputes: seq<Dispute>, o: nat): seq<DisputeStatus> {
    if disputes == [] then []
    else
      var d := disputes[|disputes| - 1];
      Siblings(txns, disputes[..|disputes| - 1], o) + if Against(txns, d, o) then [d.status] else []
  }

  lemma {:induction false} SiblingsHave(txns: seq<Transaction>, disputes: seq<Dispute>, o: nat, status: DisputeStatus)
    ensures status in Siblings(txns, disputes, o) <==> SomeDispute(txns, disputes, o, status)
  {
    if disputes != [] {
      var n := |disputes| - 1;
      SiblingsHave(txns, disputes[..n], o, status);
      if SomeDispute(txns, disputes, o, status) {
        var d :| 0 <= d < |disputes| && Against(txns, disputes[d], o) && disputes[d].status == status;
        assert d < n ==> disputes[..n][d] == disputes[d];
      }
    }
  }

  /** The aggregate the ledger's transactions write is that of the funding's siblings. */
  lemma AggregateOfSiblings(txns: seq<Transaction>, disputes: seq<Dispute>, o: nat)
    ensures AggregateStatus(txns, disputes, o) == Aggregate(Siblings(txns, disputes, o))
  {
    SiblingsHave(txns, disputes, o, Open);
    SiblingsHave(txns, disputes, o, Upheld);
  }

  // ----- Statements -----

  /** Statements before the commit: a ruling's dispute, float, read and write; a chargeback's row and float. */
  function Statements(kind: Kind): nat { if kind.Charge? then 2 else 4 }

  function RuledAs(kind: Kind): DisputeStatus
    requires !kind.Charge?
  {
    if kind.Uphold? then Upheld else Resolved
  }

  /** The siblings as a ruling's own session sees them. */
  function View(disputes: seq<DisputeStatus>, kind: Kind): seq<DisputeStatus>
    requires !kind.Charge? && kind.dispute < |disputes|
  {
    disputes[kind.dispute := RuledAs(kind)]
  }

  predicate HoldsDispute(s: Session, d: nat) { s.live && !s.kind.Charge? && s.kind.dispute == d && 1 <= s.at }

  predicate HoldsFloat(s: Session) { s.live && !s.kind.Uphold? && 2 <= s.at }

  predicate HoldsRow(s: Session) { s.live && if s.kind.Charge? then 1 <= s.at else 4 <= s.at }

  /** The lock the next statement takes is free. */
  predicate Unblocked(w: World, i: nat)
    requires i < |w.sessions|
  {
    var s := w.sessions[i];
    forall j :: 0 <= j < |w.sessions| && j != i ==>
      var other := w.sessions[j];
      match s.kind
      case Charge => (s.at == 0 ==> !HoldsRow(other)) && (s.at == 1 ==> !HoldsFloat(other))
      case _ =>
        && (s.at == 0 ==> !HoldsDispute(other, s.kind.dispute))
        && (s.at == 1 && s.kind.Favour? ==> !HoldsFloat(other))
        && (s.at == 3 ==> !HoldsRow(other))
  }

  /** A session after its next statement; a ruling on a dispute that is not open throws. */
  function Executed(w: World, s: Session): Session {
    var next := s.(at := s.at + 1);
    if s.kind.Charge? then next
    else if s.at == 0 && (|w.disputes| <= s.kind.dispute || w.disputes[s.kind.dispute] != Open) then s.(live := false)
    else if s.at == 2 && s.kind.dispute < |w.disputes| then
      next.(sawOpen := Open in View(w.disputes, s.kind), read := Aggregate(View(w.disputes, s.kind)), asOf := w.commits)
    else next
  }

  function Committed(w: World, i: nat): World
    requires i < |w.sessions|
  {
    var s := w.sessions[i];
    var sessions := w.sessions[i := s.(live := false)];
    if s.kind.Charge? then World(w.disputes + [Open], Disputed, sessions, w.commits + 1, Some(s))
    else if s.kind.dispute < |w.disputes| then World(View(w.disputes, s.kind), s.read, sessions, w.commits + 1, Some(s))
    else w
  }

  datatype Event = Opens(kind: Kind) | Runs(i: nat) | Dies(i: nat)

  function Step(w: World, event: Event): World {
    match event
    case Opens(kind) => w.(sessions := w.sessions + [Session(kind, 0, true, false, Completed, 0)])
    case Dies(i) => if i < |w.sessions| then w.(sessions := w.sessions[i := w.sessions[i].(live := false)]) else w
    case Runs(i) =>
      if |w.sessions| <= i || !w.sessions[i].live || !Unblocked(w, i) then w
      else if w.sessions[i].at < Statements(w.sessions[i].kind) then
        w.(sessions := w.sessions[i := Executed(w, w.sessions[i])])
      else Committed(w, i)
  }

  function Run(w: World, events: seq<Event>): World
    decreases |events|
  {
    if events == [] then w else Run(Step(w, events[0]), events[1..])
  }

  /** Any siblings with the right status, and nothing open. */
  function Start(disputes: seq<DisputeStatus>): World { World(disputes, Aggregate(disputes), [], 0, None) }

  // ----- What every interleaving keeps -----

  ghost predicate Exclusive(sessions: seq<Session>) {
    forall i, j :: 0 <= i < |sessions| && 0 <= j < |sessions| && i != j ==>
      && !(HoldsFloat(sessions[i]) && HoldsFloat(sessions[j]))
      && !(HoldsRow(sessions[i]) && HoldsRow(sessions[j]))
      && (forall d :: HoldsDispute(sessions[i], d) ==> !HoldsDispute(sessions[j], d))
  }

  /**
   A ruling's dispute stays open until it commits. What it read is `disputed` exactly when it saw one open;
   otherwise an uphold read `reversed`, and a ruling in Cliqpay's favour read what still is the aggregate,
   because no dispute can appear while it holds float and none was left to rule on.
   */
  ghost predicate SessionOk(w: World, s: Session) {
    && s.at <= Statements(s.kind)
    && (s.live && !s.kind.Charge? && 1 <= s.at ==>
          && s.kind.dispute < |w.disputes| && w.disputes[s.kind.dispute] == Open
          && (3 <= s.at ==>
                && (s.sawOpen <==> s.read == Disputed)
                && (!s.sawOpen && s.kind.Uphold? ==> s.read == Reversed)
                && (!s.sawOpen && s.kind.Favour? ==>
                      Open !in View(w.disputes, s.kind) && s.read == Aggregate(View(w.disputes, s.kind)))))
  }

  /** What the last commit saw of open siblings is what there is. */
  ghost predicate LastSawTruly(w: World) {
    w.last.Some? && !w.last.value.kind.Charge? ==> w.last.value.sawOpen == (Open in w.disputes)
  }

  ghost predicate Inv(w: World) {
    && Exclusive(w.sessions)
    && (forall i :: 0 <= i < |w.sessions| ==> SessionOk(w, w.sessions[i]))
    && (w.status == Aggregate(w.disputes) <==> LastSawTruly(w))
  }

  /** The commit of one session leaves what another relies on. */
  lemma CommitKeepsOther(w: World, i: nat, j: nat)
    requires Inv(w) && i < |w.sessions| && j < |w.sessions| && i != j
    requires w.sessions[i].live && w.sessions[i].at == Statements(w.sessions[i].kind)
    ensures SessionOk(Committed(w, i), w.sessions[j])
  {
    var s, other := w.sessions[i], w.sessions[j];
    assert SessionOk(w, s) && SessionOk(w, other);
    assert other.live && !other.kind.Charge? && 1 <= other.at ==> HoldsDispute(other, other.kind.dispute);
    assert !s.kind.Charge? ==> HoldsDispute(s, s.kind.dispute);
    var siblings := s.kind.Uphold? && !other.kind.Charge? && s.kind.dispute != other.kind.dispute;
    assert siblings && other.kind.dispute < |w.disputes| ==> View(w.disputes, other.kind)[s.kind.dispute] == Open;
  }

  lemma CommitKeepsInv(w: World, i: nat)
    requires Inv(w) && i < |w.sessions| && w.sessions[i].live && w.sessions[i].at == Statements(w.sessions[i].kind)
    ensures Inv(Committed(w, i))
  {
    var r, s := Committed(w, i), w.sessions[i];
    assert SessionOk(w, s);
    forall j | 0 <= j < |r.sessions|
      ensures SessionOk(r, r.sessions[j])
    {
      if j != i {
        CommitKeepsOther(w, i, j);
      }
    }
    if s.kind.Charge? {
      assert r.disputes[|w.disputes|] == Open;
    } else {
      assert r.disputes[s.kind.dispute] == RuledAs(s.kind);
    }
  }

  lemma ExecutedKeepsInv(w: World, i: nat)
    requires Inv(w) && i < |w.sessions| && w.sessions[i].live && Unblocked(w, i)
    requires w.sessions[i].at < Statements(w.sessions[i].kind)
    ensures Inv(w.(sessions := w.sessions[i := Executed(w, w.sessions[i])]))
  {
    var s := w.sessions[i];
    var r := w.(sessions := w.sessions[i := Executed(w, s)]);
    assert SessionOk(w, s);
    assert !s.kind.Charge? && 1 <= s.at ==> View(w.disputes, s.kind)[s.kind.dispute] == RuledAs(s.kind);
    forall j | 0 <= j < |r.sessions|
      ensures SessionOk(r, r.sessions[j])
    {
      assert SessionOk(w, w.sessions[j]);
    }
    ExecutedKeepsExclusive(w, i);
  }

  lemma ExecutedKeepsExclusive(w: World, i: nat)
    requires Inv(w) && i < |w.sessions| && w.sessions[i].live && Unblocked(w, i)
    requires w.sessions[i].at < Statements(w.sessions[i].kind)
    ensures Exclusive(w.sessions[i := Executed(w, w.sessions[i])])
  {
  }

  lemma StepKeepsInv(w: World, event: Event)
    requires Inv(w)
    ensures Inv(Step(w, event))
  {
    match event
    case Opens(kind) =>
    case Dies(i) =>
    case Runs(i) =>
      if i < |w.sessions| && w.sessions[i].live && Unblocked(w, i) {
        assert SessionOk(w, w.sessions[i]);
        if w.sessions[i].at < Statements(w.sessions[i].kind) {
          ExecutedKeepsInv(w, i);
        } else {
          CommitKeepsInv(w, i);
        }
      }
  }

  /**
   After any interleaving, the committed status is the aggregate of the committed disputes exactly when the
   last to commit was a chargeback, or a ruling that saw a dispute open if and only if one now is.
   */
  lemma {:induction false} StatusRightIffLastSawTruly(w: World, events: seq<Event>)
    requires Inv(w)
    ensures Inv(Run(w, events))
    ensures Run(w, events).status == Aggregate(Run(w, events).disputes) <==> LastSawTruly(Run(w, events))
    decreases |events|
  {
    if events != [] {
      StepKeepsInv(w, events[0]);
      StatusRightIffLastSawTruly(Step(w, events[0]), events[1..]);
    }
  }

  // ----- Rulings that are not overtaken -----

  /** A ruling nobody overtook since it read has read what still is. */
  ghost predicate TrueUnlessOvertaken(w: World) {
    && (forall i :: 0 <= i < |w.sessions| ==> UnovertakenReadHolds(w, w.sessions[i]))
    && (w.last.Some? && !w.last.value.kind.Charge? && w.last.value.asOf + 1 == w.commits ==> LastSawTruly(w))
  }

  ghost predicate UnovertakenReadHolds(w: World, s: Session) {
    s.live && !s.kind.Charge? && 3 <= s.at && s.kind.dispute < |w.disputes| ==>
      s.asOf <= w.commits && (s.asOf == w.commits ==> s.sawOpen == (Open in View(w.disputes, s.kind)))
  }

  lemma StepKeepsUnovertaken(w: World, event: Event)
    requires Inv(w) && TrueUnlessOvertaken(w)
    ensures TrueUnlessOvertaken(Step(w, event))
  {
    var r := Step(w, event);
    forall j | 0 <= j < |r.sessions|
      ensures UnovertakenReadHolds(r, r.sessions[j])
    {
      if j < |w.sessions| {
        assert UnovertakenReadHolds(w, w.sessions[j]) && SessionOk(w, w.sessions[j]);
      }
    }
    if event.Runs? && event.i < |w.sessions| {
      assert UnovertakenReadHolds(w, w.sessions[event.i]) && SessionOk(w, w.sessions[event.i]);
    }
  }

  /**
   The status is right after any run whose last ruling committed before any other session did since it read:
   rulings and chargebacks one after the other always leave the right one.
   */
  lemma {:induction false} RightUnlessOvertaken(w: World, events: seq<Event>)
    requires Inv(w) && TrueUnlessOvertaken(w)
    ensures var r := Run(w, events);
            r.last.Some? && (r.last.value.kind.Charge? || r.last.value.asOf + 1 == r.commits) ==>
              r.status == Aggregate(r.disputes)
    decreases |events|
  {
    if events != [] {
      StepKeepsInv(w, events[0]);
      StepKeepsUnovertaken(w, events[0]);
      RightUnlessOvertaken(Step(w, events[0]), events[1..]);
    }
  }

  // ----- Without upholds there is no overlap -----

  /** What every ruling has read is still so. */
  ghost predicate ReadsFresh(w: World) {
    forall i :: 0 <= i < |w.sessions| ==>
      var s := w.sessions[i];
      && !s.kind.Uphold?
      && (s.live && s.kind.Favour? && 3 <= s.at && s.kind.dispute < |w.disputes| ==>
            s.sawOpen == (Open in View(w.disputes, s.kind)))
  }

  lemma StepKeepsFresh(w: World, event: Event)
    requires Inv(w) && ReadsFresh(w) && LastSawTruly(w) && (event.Opens? ==> !event.kind.Uphold?)
    ensures ReadsFresh(Step(w, event)) && LastSawTruly(Step(w, event))
  {
    if event.Runs? && event.i < |w.sessions| && w.sessions[event.i].live
        && w.sessions[event.i].at == Statements(w.sessions[event.i].kind) {
      var s := w.sessions[event.i];
      assert SessionOk(w, s) && HoldsFloat(s);
    }
  }

  /**
   Rulings in Cliqpay's favour and chargebacks hold float from before they read or write until they commit,
   so among them alone the status always is the aggregate: only an uphold can leave it wrong.
   */
  lemma {:induction false} WithoutUpholdsAlwaysRight(w: World, events: seq<Event>)
    requires Inv(w) && ReadsFresh(w) && LastSawTruly(w)
    requires forall k :: 0 <= k < |events| && events[k].Opens? ==> !events[k].kind.Uphold?
    ensures Run(w, events).status == Aggregate(Run(w, events).disputes)
    decreases |events|
  {
    if events != [] {
      StepKeepsInv(w, events[0]);
      StepKeepsFresh(w, events[0]);
      WithoutUpholdsAlwaysRight(Step(w, events[0]), events[1..]);
    }
  }

  /** Any siblings with the right status are a start from which all of this holds. */
  lemma StartInv(disputes: seq<DisputeStatus>)
    ensures var w := Start(disputes); Inv(w) && ReadsFresh(w) && LastSawTruly(w) && TrueUnlessOvertaken(w)
  {
  }

  // ----- The two ways it goes wrong -----

  ghost predicate OnlyOpen(disputes: seq<DisputeStatus>, open: set<nat>) {
    forall k :: 0 <= k < |disputes| ==> (disputes[k] == Open <==> k in open)
  }

  lemma {:induction false} RunConcat(w: World, a: seq<Event>, b: seq<Event>)
    ensures Run(w, a + b) == Run(Run(w, a), b)
    decreases |a|
  {
    if a == [] {
      assert a + b == b;
    } else {
      assert (a + b)[1..] == a[1..] + b;
      RunConcat(Step(w, a[0]), a[1..], b);
    }
  }

  lemma RunOf2(w: World, a: Event, b: Event)
    ensures Run(w, [a, b]) == Step(Step(w, a), b)
  {
    assert [a, b][1..] == [b] && [b][1..] == [];
    assert Run(Step(Step(w, a), b), []) == Step(Step(w, a), b);
  }

  lemma RunOf3(w: World, a: Event, b: Event, c: Event)
    ensures Run(w, [a, b, c]) == Step(Step(Step(w, a), b), c)
  {
    assert [a, b, c][1..] == [b, c];
    RunOf2(Step(w, a), b, c);
  }

  const RULES: seq<Event> := [Runs(0), Runs(0)]

  const READS: seq<Event> := [Runs(0), Runs(0), Runs(0)]

  const RIVAL_ENDS: seq<Event> := [Runs(1), Runs(1)]

  const RIVAL_READS: seq<Event> := [Runs(1), Runs(1), Runs(1)]

  /** Two sessions, each as far as its number says; one that has read the siblings has read `sawOpen` and `read`. */
  function Racing(disputes: seq<DisputeStatus>, first: Session, second: Session): World {
    World(disputes, Disputed, [first, second], 0, None)
  }

  function At(kind: Kind, at: nat): Session { Session(kind, at, true, false, Completed, 0) }

  function HasRead(kind: Kind, at: nat, read: Status): Session { Session(kind, at, true, read == Disputed, read, 0) }

  /** The first session takes its dispute and reads the siblings while the second has got no further than `at`. */
  lemma FirstReads(disputes: seq<DisputeStatus>, d: nat, second: Session)
    requires d < |disputes| && disputes[d] == Open && second.live
    requires if second.kind.Charge? then second.at == 1 else second.at == 0
    ensures Run(Racing(disputes, At(Uphold(d), 0), second), READS)
            == Racing(disputes, HasRead(Uphold(d), 3, Aggregate(View(disputes, Uphold(d)))), second)
  {
    var w := Racing(disputes, At(Uphold(d), 0), second);
    RunOf3(w, Runs(0), Runs(0), Runs(0));
    assert Step(w, Runs(0)) == Racing(disputes, At(Uphold(d), 1), second);
    assert Step(Racing(disputes, At(Uphold(d), 1), second), Runs(0)) == Racing(disputes, At(Uphold(d), 2), second);
  }

  lemma ChargeEnds(disputes: seq<DisputeStatus>, first: Session)
    requires first.kind.Uphold? && first.at == 3
    ensures Run(Racing(disputes, first, At(Charge, 1)), RIVAL_ENDS)
            == World(disputes + [Open], Disputed, [first, At(Charge, 2).(live := false)], 1, Some(At(Charge, 2)))
  {
    var w := Racing(disputes, first, At(Charge, 1));
    RunOf2(w, Runs(1), Runs(1));
    assert Step(w, Runs(1)) == Racing(disputes, first, At(Charge, 2));
  }

  lemma UpholdEnds(w: World, i: nat, d: nat, read: Status)
    requires i < |w.sessions| && w.sessions[i] == HasRead(Uphold(d), 3, read) && d < |w.disputes|
    requires forall j :: 0 <= j < |w.sessions| && j != i ==> !HoldsRow(w.sessions[j])
    ensures var r := Run(w, [Runs(i), Runs(i)]);
            && r.disputes == View(w.disputes, Uphold(d)) && r.status == read && |r.sessions| == |w.sessions|
            && !r.sessions[i].live && forall j :: 0 <= j < |w.sessions| && j != i ==> r.sessions[j] == w.sessions[j]
  {
    RunOf2(w, Runs(i), Runs(i));
    var next := Step(w, Runs(i));
    assert next == w.(sessions := w.sessions[i := HasRead(Uphold(d), 4, read)]);
    assert Unblocked(next, i);
  }

  function UpholdAndCharge(d: nat): seq<Event> {
    [Opens(Uphold(d)), Opens(Charge), Runs(1)] + READS + RIVAL_ENDS + RULES
  }

  /**
   An uphold reads no open sibling while a chargeback holds the funding's row with its dispute uncommitted,
   then overwrites `disputed` with `reversed`.
   */
  lemma UpholdOverwritesChargeback(disputes: seq<DisputeStatus>, d: nat)
    requires d < |disputes| && OnlyOpen(disputes, {d})
    ensures var r := Run(Start(disputes), UpholdAndCharge(d)); r.status == Reversed && Aggregate(r.disputes) == Disputed
  {
    hide Step, Run, Unblocked;
    var begin := [Opens(Uphold(d)), Opens(Charge), Runs(1)];
    var w := Start(disputes);
    assert disputes[d] == Open;
    BothOpen(disputes, d);
    var x := Racing(disputes, At(Uphold(d), 0), At(Charge, 1));
    FirstReads(disputes, d, At(Charge, 1));
    assert View(disputes, Uphold(d))[d] == Upheld && Open !in View(disputes, Uphold(d));
    var reader := HasRead(Uphold(d), 3, Reversed);
    ChargeEnds(disputes, reader);
    RunConcat(w, begin, READS);
    RunConcat(w, begin + READS, RIVAL_ENDS);
    RunConcat(w, begin + READS + RIVAL_ENDS, RULES);
    var y := Run(Racing(disputes, reader, At(Charge, 1)), RIVAL_ENDS);
    UpholdEnds(y, 0, d, Reversed);
    assert View(y.disputes, Uphold(d))[|disputes|] == Open;
  }

  lemma BothOpen(disputes: seq<DisputeStatus>, d: nat)
    requires Open in disputes
    ensures Run(Start(disputes), [Opens(Uphold(d)), Opens(Charge), Runs(1)])
            == Racing(disputes, At(Uphold(d), 0), At(Charge, 1))
  {
    RunOf3(Start(disputes), Opens(Uphold(d)), Opens(Charge), Runs(1));
  }

  function TwoUpholds(d: nat, e: nat): seq<Event> {
    [Opens(Uphold(d)), Opens(Uphold(e))] + READS + RIVAL_READS + RULES + RIVAL_ENDS
  }

  lemma SecondReads(disputes: seq<DisputeStatus>, first: Session, e: nat)
    requires e < |disputes| && disputes[e] == Open && first.kind.Uphold? && first.kind.dispute != e && first.at == 3
    ensures Run(Racing(disputes, first, At(Uphold(e), 0)), RIVAL_READS)
            == Racing(disputes, first, HasRead(Uphold(e), 3, Aggregate(View(disputes, Uphold(e)))))
  {
    var w := Racing(disputes, first, At(Uphold(e), 0));
    RunOf3(w, Runs(1), Runs(1), Runs(1));
    assert Step(w, Runs(1)) == Racing(disputes, first, At(Uphold(e), 1));
    assert Step(Racing(disputes, first, At(Uphold(e), 1)), Runs(1)) == Racing(disputes, first, At(Uphold(e), 2));
  }

  lemma BothUphold(disputes: seq<DisputeStatus>, d: nat, e: nat)
    requires Open in disputes
    ensures Run(Start(disputes), [Opens(Uphold(d)), Opens(Uphold(e))])
            == Racing(disputes, At(Uphold(d), 0), At(Uphold(e), 0))
  {
    RunOf2(Start(disputes), Opens(Uphold(d)), Opens(Uphold(e)));
  }

  /** Two upholds each read the other's dispute as still open, and both write `disputed` although none is. */
  lemma UpholdsLeaveDisputed(disputes: seq<DisputeStatus>, d: nat, e: nat)
    requires d < |disputes| && e < |disputes| && d != e && OnlyOpen(disputes, {d, e})
    ensures var r := Run(Start(disputes), TwoUpholds(d, e)); r.status == Disputed && Aggregate(r.disputes) == Reversed
  {
    hide Step, Run, Unblocked;
    var begin := [Opens(Uphold(d)), Opens(Uphold(e))];
    var w := Start(disputes);
    assert disputes[d] == Open && disputes[e] == Open;
    assert View(disputes, Uphold(d))[e] == Open && View(disputes, Uphold(e))[d] == Open;
    BothUphold(disputes, d, e);
    FirstReads(disputes, d, At(Uphold(e), 0));
    var first, second := HasRead(Uphold(d), 3, Disputed), HasRead(Uphold(e), 3, Disputed);
    SecondReads(disputes, first, e);
    RunConcat(w, begin, READS);
    RunConcat(w, begin + READS, RIVAL_READS);
    RunConcat(w, begin + READS + RIVAL_READS, RULES);
    RunConcat(w, begin + READS + RIVAL_READS + RULES, RIVAL_ENDS);
    var x := Racing(disputes, first, second);
    UpholdEnds(x, 0, d, Disputed);
    var y := Run(x, RULES);
    UpholdEnds(y, 1, e, Disputed);
    var all := View(View(disputes, Uphold(d)), Uphold(e));
    assert all[d] == Upheld && Open !in all;
  }
}
