/**
 A viewer's feed: one page from each side of each followed user, merged, against the plain reading that
 sorts every matching post; and the walk along the cursors.
 */
module Feed {
  import opened Tables
  import opened FiniteSets

  datatype Cursor = Cursor(createdAt: int, id: nat)

  datatype Post = Post(at: Cursor, sender: nat, recipient: nat, isPublic: bool, hidden: bool)

  /** Row comparison: creation time first, then id. */
  predicate Earlier(a: Cursor, b: Cursor) { a.createdAt < b.createdAt || (a.createdAt == b.createdAt && a.id < b.id) }

  /** The id is a primary key. */
  ghost predicate Keyed(posts: set<Post>) { forall p, q :: p in posts && q in posts && p.at.id == q.at.id ==> p == q }

  datatype Side = Sending | Receiving

  function Participant(p: Post, side: Side): nat { if side.Sending? then p.sender else p.recipient }

  datatype Graph = Graph(follows: set<(nat, nat)>, blocks: set<(nat, nat)>)

  // ----- Who may read what -----

  predicate EffectivelyPublic(p: Post) { p.isPublic && !p.hidden }

  predicate NoBlockWith(g: Graph, viewer: nat, p: Post) {
    forall u :: u in {p.sender, p.recipient} ==> (viewer, u) !in g.blocks && (u, viewer) !in g.blocks
  }

  predicate ReadableBy(g: Graph, viewer: nat, p: Post) {
    viewer in {p.sender, p.recipient}
    || (EffectivelyPublic(p) && ((viewer, p.sender) in g.follows || (viewer, p.recipient) in g.follows)
        && NoBlockWith(g, viewer, p))
  }

  predicate After(cursor: Option<Cursor>, p: Post) { cursor.Some? ==> Earlier(p.at, cursor.value) }

  // ----- The newest of a set -----

  ghost predicate IsNewest(posts: set<Post>, p: Post) { p in posts && forall q :: q in posts && q != p ==>
      Earlier(q.at, p.at) }

  lemma {:induction false} NewestExists(posts: set<Post>)
    requires Keyed(posts) && posts != {}
    ensures exists p :: IsNewest(posts, p)
  {
    var p :| p in posts;
    if posts == {p} {
      assert IsNewest(posts, p);
    } else {
      assert posts - {p} != {} by {
        assert posts == (posts - {p}) + {p};
      }
      NewestExists(posts - {p});
      var q :| IsNewest(posts - {p}, q);
      assert IsNewest(posts, if Earlier(q.at, p.at) then p else q);
    }
  }

  ghost function Newest(posts: set<Post>): (p: Post)
    requires Keyed(posts) && posts != {}
    ensures IsNewest(posts, p)
  {
    NewestExists(posts);
    var p :| IsNewest(posts, p);
    p
  }

  /** `ORDER BY created_at DESC, id DESC LIMIT n`. */
  ghost function Top(posts: set<Post>, n: nat): (r: seq<Post>)
    requires Keyed(posts)
    ensures |r| <= n && forall p :: p in r ==> p in posts
    decreases n
  {
    if n == 0 || posts == {} then []
    else [Newest(posts)] + Top(posts - {Newest(posts)}, n - 1)
  }

  // ----- The feed's query -----

  ghost function Branch(posts: set<Post>, g: Graph, viewer: nat, cursor: Option<Cursor>, user: nat,
      side: Side): (r: set<Post>)
    ensures r <= posts
  {
    set p | p in posts && Participant(p, side) == user && EffectivelyPublic(p) && After(cursor, p)
        && NoBlockWith(g, viewer, p)
  }

  /** Those the viewer follows, and the viewer. */
  function Followed(g: Graph, viewer: nat): set<nat> { (set f | f in g.follows && f.0 == viewer :: f.1) + {viewer} }

  /** The union of one page per followed user and side: what the merge has to sort. */
  ghost function Pages(posts: set<Post>, g: Graph, viewer: nat, cursor: Option<Cursor>, n: nat): (r: set<Post>)
    requires Keyed(posts)
    ensures r <= posts
  {
    set user, side: Side, p | user in Followed(g, viewer) && p in posts
        && p in Top(Branch(posts, g, viewer, cursor, user, side), n) :: p
  }

  ghost function FeedRows(posts: set<Post>, g: Graph, viewer: nat, cursor: Option<Cursor>, n: nat): seq<Post>
    requires Keyed(posts)
  {
    Top(Pages(posts, g, viewer, cursor, n), n)
  }

  /** Every post the feed is about. */
  ghost function Matching(posts: set<Post>, g: Graph, viewer: nat, cursor: Option<Cursor>): (r: set<Post>)
    ensures r <= posts
  {
    set p | p in posts && EffectivelyPublic(p) && NoBlockWith(g, viewer, p) && After(cursor, p)
      && (p.sender in Followed(g, viewer) || p.recipient in Followed(g, viewer))
  }

  // ----- Merging pages -----

  lemma {:induction false} TopGrows(posts: set<Post>, n: nat, p: Post)
    requires Keyed(posts) && p in Top(posts, n)
    ensures p in Top(posts, n + 1)
    decreases n
  {
    if p != Newest(posts) {
      TopGrows(posts - {Newest(posts)}, n - 1, p);
    }
  }

  /** Among the first n of the whole, it is among the first n of any part it belongs to. */
  lemma {:induction false} TopOfPart(whole: set<Post>, part: set<Post>, n: nat, p: Post)
    requires Keyed(whole) && part <= whole && p in part && p in Top(whole, n)
    ensures p in Top(part, n)
    decreases n
  {
    var m := Newest(whole);
    if m in part {
      assert Newest(part) == m;
    }
    if p != m {
      TopOfPart(whole - {m}, part - {m}, n - 1, p);
      if m !in part {
        assert part - {m} == part;
        TopGrows(part, n - 1, p);
      }
    }
  }

  /** A part that has the first n of the whole has the same first n. */
  lemma {:induction false} TopOfEnough(whole: set<Post>, part: set<Post>, n: nat)
    requires Keyed(whole) && part <= whole && forall p :: p in Top(whole, n) ==> p in part
    ensures Top(part, n) == Top(whole, n)
    decreases n
  {
    if n > 0 && whole != {} {
      var m := Newest(whole);
      assert m in Top(whole, n);
      assert Newest(part) == m;
      forall p | p in Top(whole - {m}, n - 1)
        ensures p in part - {m}
      {
        assert p in Top(whole, n);
      }
      TopOfEnough(whole - {m}, part - {m}, n - 1);
    }
  }

  /** The page merged from one page per followed user and side is the first n of all matching posts. */
  lemma MergedPageIsPlainPage(posts: set<Post>, g: Graph, viewer: nat, cursor: Option<Cursor>, n: nat)
    requires Keyed(posts)
    ensures FeedRows(posts, g, viewer, cursor, n) == Top(Matching(posts, g, viewer, cursor), n)
  {
    var whole, part := Matching(posts, g, viewer, cursor), Pages(posts, g, viewer, cursor, n);
    forall p | p in part
      ensures p in whole
    {
      var user, side: Side :| user in Followed(g, viewer) && p in Top(Branch(posts, g, viewer, cursor, user, side), n);
    }
    forall p | p in Top(whole, n)
      ensures p in part
    {
      var side := if p.sender in Followed(g, viewer) then Sending else Receiving;
      var branch := Branch(posts, g, viewer, cursor, Participant(p, side), side);
      assert branch <= whole;
      TopOfPart(whole, branch, n, p);
    }
    TopOfEnough(whole, part, n);
  }

  // ----- Following the cursors -----

  /** One page and the cursor to the next, if the extra row says there is more. */
  function Paginated(rows: seq<Post>, limit: nat): (seq<Post>, Option<Cursor>) {
    var hasMore := |rows| > limit;
    var page := if hasMore then rows[..limit] else rows;
    (page, if hasMore && page != [] then Some(page[|page| - 1].at) else None)
  }

  ghost function Page(posts: set<Post>, g: Graph, viewer: nat, cursor: Option<Cursor>, limit: nat): (seq<Post>,
      Option<Cursor>)
    requires Keyed(posts)
  {
    Paginated(FeedRows(posts, g, viewer, cursor, limit + 1), limit)
  }

  /** Strictly newest first, so no post twice. */
  ghost predicate Descending(s: seq<Post>) { forall i, j :: 0 <= i < j < |s| ==> Earlier(s[j].at, s[i].at) }

  ghost predicate Lists(s: seq<Post>, posts: set<Post>) { Descending(s) && forall p :: p in s <==> p in posts }

  lemma {:induction false} TopDescends(posts: set<Post>, n: nat)
    requires Keyed(posts)
    ensures Descending(Top(posts, n))
    ensures forall p, q :: p in Top(posts, n) && q in posts && q !in Top(posts, n) ==> Earlier(q.at, p.at)
    ensures |Top(posts, n)| < n ==> forall q :: q in posts ==> q in Top(posts, n)
    decreases n
  {
    if n > 0 && posts != {} {
      TopDescends(posts - {Newest(posts)}, n - 1);
    }
  }

  lemma {:induction false} TopIsPrefix(posts: set<Post>, n: nat, k: nat)
    requires Keyed(posts) && n <= k
    ensures |Top(posts, n)| <= |Top(posts, k)| && Top(posts, k)[..|Top(posts, n)|] == Top(posts, n)
    ensures |Top(posts, n)| < n ==> Top(posts, k) == Top(posts, n)
    decreases n
  {
    if n > 0 && posts != {} {
      TopIsPrefix(posts - {Newest(posts)}, n - 1, k - 1);
    }
  }

  ghost function OlderThan(posts: set<Post>, at: Cursor): set<Post> { set p | p in posts && Earlier(p.at, at) }

  /** Everything older than the last of the first n is everything but the first n. */
  lemma CutAfterTop(all: set<Post>, n: nat)
    requires Keyed(all) && Top(all, n) != []
    ensures var page := Top(all, n); forall p :: p in OlderThan(all, page[|page| - 1].at) <==> p in all && p !in page
  {
  }

  lemma MatchingAfter(posts: set<Post>, g: Graph, viewer: nat, cursor: Option<Cursor>, last: Post)
    requires last in Matching(posts, g, viewer, cursor)
    ensures Matching(posts, g, viewer, Some(last.at)) == OlderThan(Matching(posts, g, viewer, cursor), last.at)
  {
  }

  /** The page is the first `limit`, and there is a next cursor exactly when that is not all. */
  lemma PageIsTop(posts: set<Post>, g: Graph, viewer: nat, cursor: Option<Cursor>, limit: nat)
    requires Keyed(posts) && 1 <= limit
    ensures var (page, next) := Page(posts, g, viewer, cursor, limit);
            var all := Matching(posts, g, viewer, cursor);
            && page == Top(all, limit)
            && (if next.Some? then page != [] && next.value == page[|page| - 1].at else forall p :: p in all ==>
                p in page)
  {
    hide Matching, Top, Pages, Paginated;
    MergedPageIsPlainPage(posts, g, viewer, cursor, limit + 1);
    PaginatedTop(Matching(posts, g, viewer, cursor), limit);
  }

  lemma PaginatedTop(all: set<Post>, limit: nat)
    requires Keyed(all) && 1 <= limit
    ensures var (page, next) := Paginated(Top(all, limit + 1), limit);
            && page == Top(all, limit)
            && (if next.Some? then page != [] && next.value == page[|page| - 1].at else forall p :: p in all ==>
                p in page)
  {
    TopIsPrefix(all, limit, limit + 1);
    TopDescends(all, limit + 1);
  }

  /** The page holds the next posts in order, and the cursor leads to exactly the ones left. */
  lemma PageSplits(posts: set<Post>, g: Graph, viewer: nat, cursor: Option<Cursor>, limit: nat)
    requires Keyed(posts) && 1 <= limit
    ensures var (page, next) := Page(posts, g, viewer, cursor, limit);
            var all := Matching(posts, g, viewer, cursor);
            && Descending(page) && (forall p :: p in page ==> p in all)
            && (next.None? ==> forall p :: p in all ==> p in page)
            && (next.Some? ==>
                  && page != []
                  && (forall p :: p in Matching(posts, g, viewer, next) <==> p in all && p !in page)
                  && (forall p, q :: p in page && q in Matching(posts, g, viewer, next) ==> Earlier(q.at, p.at)))
  {
    var all := Matching(posts, g, viewer, cursor);
    PageIsTop(posts, g, viewer, cursor, limit);
    TopDescends(all, limit);
    var (page, next) := Page(posts, g, viewer, cursor, limit);
    if next.Some? {
      CutAfterTop(all, limit);
      MatchingAfter(posts, g, viewer, cursor, page[|page| - 1]);
    }
  }

  /** What a client has read once it has followed the cursors to the end. */
  ghost function Walk(posts: set<Post>, g: Graph, viewer: nat, cursor: Option<Cursor>, limit: nat): seq<Post>
    requires Keyed(posts) && 1 <= limit
    decreases |Matching(posts, g, viewer, cursor)|
  {
    var (page, next) := Page(posts, g, viewer, cursor, limit);
    if next.None? then page
    else
      PageShrinks(posts, g, viewer, cursor, limit);
      page + Walk(posts, g, viewer, next, limit)
  }

  lemma PageShrinks(posts: set<Post>, g: Graph, viewer: nat, cursor: Option<Cursor>, limit: nat)
    requires Keyed(posts) && 1 <= limit && Page(posts, g, viewer, cursor, limit).1.Some?
    ensures |Matching(posts, g, viewer, Page(posts, g, viewer, cursor, limit).1)| < |Matching(posts, g, viewer, cursor)|
  {
    PageSplits(posts, g, viewer, cursor, limit);
    var (page, next) := Page(posts, g, viewer, cursor, limit);
    var rest, all := Matching(posts, g, viewer, next), Matching(posts, g, viewer, cursor);
    assert page[0] in all && page[0] !in rest;
    SubsetIsSmaller(rest, all - {page[0]});
  }

  /** Following the cursors to the end lists every matching post exactly once, newest first. */
  lemma {:induction false} WalkListsMatching(posts: set<Post>, g: Graph, viewer: nat, cursor: Option<Cursor>,
      limit: nat)
    requires Keyed(posts) && 1 <= limit
    ensures Lists(Walk(posts, g, viewer, cursor, limit), Matching(posts, g, viewer, cursor))
    decreases |Matching(posts, g, viewer, cursor)|
  {
    var (page, next) := Page(posts, g, viewer, cursor, limit);
    PageSplits(posts, g, viewer, cursor, limit);
    if next.Some? {
      PageShrinks(posts, g, viewer, cursor, limit);
      WalkListsMatching(posts, g, viewer, next, limit);
      var rest := Walk(posts, g, viewer, next, limit);
      var walk := page + rest;
      forall i, j | 0 <= i < j < |walk|
        ensures Earlier(walk[j].at, walk[i].at)
      {
        if i < |page| <= j {
          assert walk[i] in page && rest[j - |page|] in rest;
        }
      }
    }
  }

  /** The feed is what the viewer may read, less private and hidden posts and posts with a blocked participant. */
  lemma FeedIsReadable(posts: set<Post>, g: Graph, viewer: nat, p: Post)
    requires p in posts
    ensures p in Matching(posts, g, viewer, None) <==>
              ReadableBy(g, viewer, p) && EffectivelyPublic(p) && NoBlockWith(g, viewer, p)
  {
  }

  lemma MatchingIsVisible(posts: set<Post>, g: Graph, viewer: nat, p: Post)
    ensures p in Matching(posts, g, viewer, None) <==>
              && p in posts && p.isPublic && !p.hidden
              && (p.sender == viewer || p.recipient == viewer
                  || (viewer, p.sender) in g.follows || (viewer, p.recipient) in g.follows)
              && (viewer, p.sender) !in g.blocks && (p.sender, viewer) !in g.blocks
              && (viewer, p.recipient) !in g.blocks && (p.recipient, viewer) !in g.blocks
  {
    assert forall u :: u in Followed(g, viewer) <==> u == viewer || (viewer, u) in g.follows;
  }

  /**
   A walk from the start shows a post exactly when it is public and not hidden, the viewer is one of its two users
   or follows one, and there is no block, in either direction, between the viewer and either of them.
   */
  lemma WalkShowsExactlyTheVisible(posts: set<Post>, g: Graph, viewer: nat, limit: nat, p: Post)
    requires Keyed(posts) && 1 <= limit
    ensures p in Walk(posts, g, viewer, None, limit) <==>
              && p in posts && p.isPublic && !p.hidden
              && (p.sender == viewer || p.recipient == viewer
                  || (viewer, p.sender) in g.follows || (viewer, p.recipient) in g.follows)
              && (viewer, p.sender) !in g.blocks && (p.sender, viewer) !in g.blocks
              && (viewer, p.recipient) !in g.blocks && (p.recipient, viewer) !in g.blocks
  {
    hide Walk, Matching;
    WalkListsMatching(posts, g, viewer, None, limit);
    MatchingIsVisible(posts, g, viewer, p);
  }
}
