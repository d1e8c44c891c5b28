/** GET /v1/jobs (gateway/src/routes/jobs.ts): keyset pagination over a user's
    jobs, newest first, while rows come and go between the fetches. */
module History {
  import opened Options
  import opened JobRows
  import opened Protocol
  import opened Invariants
  import opened Guarantees
  import opened Undecided

  /** What the order looks at: both columns are written once, at the insert. */
  datatype Pos = Pos(createdAt: nat, id: JobId)

  // ---- The order ----

  predicate LexBelow(a: string, b: string) {
    b != [] && (a == [] || a[0] < b[0] || (a[0] == b[0] && LexBelow(a[1..], b[1..])))
  }

  /** ORDER BY created_at DESC, id DESC. */
  predicate Newer(p: Pos, q: Pos) {
    p.createdAt > q.createdAt || (p.createdAt == q.createdAt && LexBelow(q.id, p.id))
  }

  lemma {:induction false} LexOrder(a: string, b: string)
    ensures !LexBelow(a, a)
    ensures a == b || LexBelow(a, b) || LexBelow(b, a)
  {
    if a != [] {
      LexOrder(a[1..], if b == [] then [] else b[1..]);
    }
    if a != [] && b != [] && a[0] == b[0] && a[1..] == b[1..] {
      assert a == [a[0]] + a[1..] == b;
    }
  }

  lemma {:induction false} LexTransitive(a: string, b: string, c: string)
    requires LexBelow(a, b) && LexBelow(b, c)
    ensures LexBelow(a, c)
  {
    if a != [] && a[0] == b[0] && b[0] == c[0] { LexTransitive(a[1..], b[1..], c[1..]); }
  }

  /** At the first place where they differ `a` has the higher unit, or more. */
  ghost predicate HigherId(a: string, b: string) {
    exists k: nat :: DiffersAt(a, b, k)
  }

  predicate DiffersAt(a: string, b: string, k: nat) {
    k < |a| && k <= |b| && a[..k] == b[..k] && (k < |b| ==> a[k] > b[k])
  }

  lemma {:induction false} LexIsByUnit(a: string, b: string)
    requires LexBelow(b, a)
    ensures HigherId(a, b)
  {
    if b == [] || b[0] < a[0] {
      assert DiffersAt(a, b, 0);
    } else {
      LexIsByUnit(a[1..], b[1..]);
      var k: nat :| DiffersAt(a[1..], b[1..], k);
      assert a[..k + 1] == [a[0]] + a[1..][..k] && b[..k + 1] == [b[0]] + b[1..][..k];
      assert DiffersAt(a, b, k + 1);
    }
  }

  /** On the columns: never an older job before a newer one, and among jobs of
      one instant the higher id first. */
  ghost predicate NewestFirst(w: seq<Pos>) {
    forall i, j {:trigger w[i], w[j]} :: 0 <= i < j < |w| ==>
      w[i].createdAt >= w[j].createdAt && (w[i].createdAt == w[j].createdAt ==> HigherId(w[i].id, w[j].id))
  }

  lemma DescendingIsNewestFirst(w: seq<Pos>)
    requires Descending(w)
    ensures NewestFirst(w)
  {
    forall i, j | 0 <= i < j < |w|
      ensures w[i].createdAt >= w[j].createdAt
      ensures w[i].createdAt == w[j].createdAt ==> HigherId(w[i].id, w[j].id)
    {
      assert Newer(w[i], w[j]);
      if w[i].createdAt == w[j].createdAt { LexIsByUnit(w[i].id, w[j].id); }
    }
  }

  /** A strict total order: the id settles every tie within a millisecond. */
  lemma NewerIsTotal(p: Pos, q: Pos)
    ensures !Newer(p, p)
    ensures p == q || Newer(p, q) || Newer(q, p)
    ensures !(Newer(p, q) && Newer(q, p))
  {
    LexOrder(p.id, q.id);
    if Newer(p, q) && Newer(q, p) { LexTransitive(p.id, q.id, p.id); }
  }

  lemma NewerIsTransitive(p: Pos, q: Pos, r: Pos)
    requires Newer(p, q) && Newer(q, r)
    ensures Newer(p, r)
  {
    if p.createdAt == q.createdAt == r.createdAt { LexTransitive(r.id, q.id, p.id); }
  }

  // ---- The sorted listing ----

  ghost predicate Descending(l: seq<Pos>) {
    forall i, j {:trigger Newer(l[i], l[j])} :: 0 <= i < j < |l| ==> Newer(l[i], l[j])
  }

  /** `l` lists `s`, newest first. */
  ghost predicate Sorts(l: seq<Pos>, s: set<Pos>) {
    Descending(l) && |l| == |s| && forall p :: p in l <==> p in s
  }

  lemma {:induction false} NewestExists(s: set<Pos>) returns (p: Pos)
    requires s != {}
    ensures p in s && forall q :: q in s && q != p ==> Newer(p, q)
  {
    p :| p in s;
    if s != {p} {
      var best := NewestExists(s - {p});
      NewerIsTotal(p, best);
      forall q | q in s && q != p && Newer(p, best) ensures Newer(p, q) {
        if q != best { NewerIsTransitive(p, best, q); }
      }
      p := if Newer(p, best) then p else best;
    }
  }

  lemma {:induction false} SortingExists(s: set<Pos>) returns (l: seq<Pos>)
    ensures Sorts(l, s)
  {
    if s == {} {
      l := [];
    } else {
      var p := NewestExists(s);
      var rest := SortingExists(s - {p});
      l := [p] + rest;
      forall i, j | 0 <= i < j < |l| ensures Newer(l[i], l[j]) {
        if i == 0 {
          assert l[j] in rest;
        } else {
          assert Newer(rest[i - 1], rest[j - 1]);
        }
      }
    }
  }

  ghost function Listing(s: set<Pos>): (l: seq<Pos>)
    ensures Sorts(l, s)
  {
    assert exists l :: Sorts(l, s) by { var l := SortingExists(s); }
    var l :| Sorts(l, s);
    l
  }

  lemma StartOfTheList(l: seq<Pos>, n: nat, q: Pos)
    requires Descending(l) && 0 < n <= |l|
    ensures q in l[..n] <==> q in l && !Newer(l[n - 1], q)
  {
    if q in l {
      var i :| 0 <= i < |l| && l[i] == q;
      NewerIsTotal(l[n - 1], q);
      assert i < n ==> l[..n][i] == q;
    }
    if q in l[..n] {
      var i :| 0 <= i < n && l[i] == q;
      NewerIsTotal(l[n - 1], q);
    }
  }

  lemma RestOfTheList(l: seq<Pos>, n: nat, q: Pos)
    requires Descending(l) && 0 < n <= |l|
    ensures q in l[n..] <==> q in l && Newer(l[n - 1], q)
  {
    if q in l && Newer(l[n - 1], q) {
      var i :| 0 <= i < |l| && l[i] == q;
      NewerIsTotal(l[n - 1], q);
      assert i >= n;
      assert l[n..][i - n] == q;
    }
  }

  lemma SuffixDescends(l: seq<Pos>, n: nat)
    requires Descending(l) && n <= |l|
    ensures Descending(l[n..])
  {
    forall i, j | 0 <= i < j < |l| - n ensures Newer(l[n..][i], l[n..][j]) {
      assert Newer(l[n + i], l[n + j]);
    }
  }

  ghost predicate SameElements(a: seq<Pos>, b: seq<Pos>) {
    forall q :: q in a <==> q in b
  }

  lemma BothOrNeither(a: seq<Pos>, b: seq<Pos>)
    requires SameElements(a, b)
    ensures a == [] <==> b == []
  {
    if a != [] { assert a[0] in a; }
    if b != [] { assert b[0] in b; }
  }

  lemma HeadIsNewest(l: seq<Pos>, q: Pos)
    requires Descending(l) && q in l
    ensures l[0] == q || Newer(l[0], q)
  {
    var k :| 0 <= k < |l| && l[k] == q;
    assert k > 0 ==> Newer(l[0], l[k]);
  }

  lemma SameHead(a: seq<Pos>, b: seq<Pos>)
    requires Descending(a) && Descending(b) && SameElements(a, b) && a != [] && b != []
    ensures a[0] == b[0]
  {
    assert a[0] in a && b[0] in b;
    HeadIsNewest(a, b[0]);
    HeadIsNewest(b, a[0]);
    NewerIsTotal(a[0], b[0]);
  }

  /** There is only one way to sort a set. */
  lemma {:induction false} OneWayToSort(a: seq<Pos>, b: seq<Pos>)
    requires Descending(a) && Descending(b) && SameElements(a, b)
    ensures a == b
  {
    BothOrNeither(a, b);
    if a != [] {
      SameHead(a, b);
      forall q ensures q in a[1..] <==> q in b[1..] {
        RestOfTheList(a, 1, q);
        RestOfTheList(b, 1, q);
      }
      SuffixDescends(a, 1);
      SuffixDescends(b, 1);
      OneWayToSort(a[1..], b[1..]);
      assert a == [a[0]] + a[1..] && b == [b[0]] + b[1..];
    }
  }

  // ---- One page ----

  /** Position at the cursor's row and skip it; a cursor that is not in the
      listing positions nowhere. */
  function AfterCursor(l: seq<Pos>, id: JobId): seq<Pos> {
    if l == [] then [] else if l[0].id == id then l[1..] else AfterCursor(l[1..], id)
  }

  datatype Page = Page(jobs: seq<Pos>, nextCursor: Option<JobId>)

  ghost function Matching(view: set<Pos>, cursor: Option<JobId>): seq<Pos> {
    if cursor.None? then Listing(view) else AfterCursor(Listing(view), cursor.value)
  }

  function Take(l: seq<Pos>, n: nat): seq<Pos> {
    if n <= |l| then l[..n] else l
  }

  /** Ask for one row more than the page holds, to know whether there is more. */
  ghost function FetchPage(view: set<Pos>, limit: nat, cursor: Option<JobId>): Page
    requires limit >= 1
  {
    var rows := Take(Matching(view, cursor), limit + 1);
    var page := Take(rows, limit);
    Page(page, if |rows| > limit then Some(page[|page| - 1].id) else None)
  }

  ghost predicate IdsAreKeys(view: set<Pos>) {
    forall p, q :: p in view && q in view && p.id == q.id ==> p == q
  }

  lemma {:induction false} AfterCursorAt(l: seq<Pos>, i: nat)
    requires i < |l| && forall j :: 0 <= j < i ==> l[j].id != l[i].id
    ensures AfterCursor(l, l[i].id) == l[i + 1..]
  {
    if i > 0 {
      assert l[1..][i - 1] == l[i];
      AfterCursorAt(l[1..], i - 1);
    }
  }

  lemma {:induction false} AfterMissingCursor(l: seq<Pos>, id: JobId)
    requires forall p :: p in l ==> p.id != id
    ensures AfterCursor(l, id) == []
  {
    if l != [] { AfterMissingCursor(l[1..], id); }
  }

  predicate Past(cursor: Option<Pos>, q: Pos) {
    cursor.None? || Newer(cursor.value, q)
  }

  function IdOf(p: Option<Pos>): Option<JobId> {
    if p.None? then None else Some(p.value.id)
  }

  lemma CursorRow(view: set<Pos>, p: Pos) returns (i: nat)
    requires IdsAreKeys(view) && p in view
    ensures i < |Listing(view)| && Listing(view)[i] == p && AfterCursor(Listing(view), p.id) == Listing(view)[i + 1..]
  {
    var l := Listing(view);
    i :| 0 <= i < |l| && l[i] == p;
    forall j | 0 <= j < i ensures l[j].id != l[i].id {
      NewerIsTotal(l[j], l[i]);
      assert l[j] in l;
    }
    AfterCursorAt(l, i);
  }

  /** What a cursor selects: the rows after its own, sorted; nothing once its
      row is gone. */
  lemma MatchingIsThePast(view: set<Pos>, cursor: Option<Pos>)
    requires IdsAreKeys(view) && (cursor.Some? ==> cursor.value in view)
    ensures var l := Matching(view, IdOf(cursor));
            Descending(l) && forall q :: q in l <==> q in view && Past(cursor, q)
  {
    if cursor.Some? {
      var l := Listing(view);
      var i := CursorRow(view, cursor.value);
      SuffixDescends(l, i + 1);
      forall q ensures q in l[i + 1..] <==> q in view && Past(cursor, q) {
        RestOfTheList(l, i + 1, q);
      }
    }
  }

  // ---- A walk ----

  /** Following nextCursor from fetch to fetch, each against the table as it is
      then: the jobs returned. */
  ghost function Walk(views: seq<set<Pos>>, limit: nat, cursor: Option<JobId>): seq<Pos>
    requires limit >= 1
    decreases |views|
  {
    if views == [] then [] else
    var page := FetchPage(views[0], limit, cursor);
    page.jobs + (if page.nextCursor.None? then [] else Walk(views[1..], limit, page.nextCursor))
  }

  /** The fetches it took. */
  ghost function Fetches(views: seq<set<Pos>>, limit: nat, cursor: Option<JobId>): nat
    requires limit >= 1
    decreases |views|
  {
    if views == [] then 0 else
    var page := FetchPage(views[0], limit, cursor);
    1 + (if page.nextCursor.None? then 0 else Fetches(views[1..], limit, page.nextCursor))
  }

  /** The walk came to a page without a nextCursor. */
  ghost predicate Ends(views: seq<set<Pos>>, limit: nat, cursor: Option<JobId>)
    requires limit >= 1
    decreases |views|
  {
    && views != []
    && var page := FetchPage(views[0], limit, cursor);
       page.nextCursor.None? || Ends(views[1..], limit, page.nextCursor)
  }

  /** The first cursor whose row was gone when it was used. */
  ghost function LostCursor(views: seq<set<Pos>>, limit: nat, cursor: Option<Pos>): Option<Pos>
    requires limit >= 1
    decreases |views|
  {
    if views == [] then None
    else if cursor.Some? && cursor.value !in views[0] then cursor
    else
      var l := Matching(views[0], IdOf(cursor));
      if |l| <= limit then None else LostCursor(views[1..], limit, Some(l[limit - 1]))
  }

  /** One id, one position, in all views: keys are unique and never change. */
  ghost predicate Stable(views: seq<set<Pos>>) {
    forall i, j, p, q ::
      0 <= i < |views| && 0 <= j < |views| && p in views[i] && q in views[j] && p.id == q.id ==> p == q
  }

  lemma PageIsAPrefix(view: set<Pos>, limit: nat, cursor: Option<JobId>)
    requires limit >= 1
    ensures var l, page := Matching(view, cursor), FetchPage(view, limit, cursor);
            && page.jobs == Take(l, limit)
            && page.nextCursor == if |l| > limit then Some(l[limit - 1].id) else None
  {
    var l := Matching(view, cursor);
    assert Take(Take(l, limit + 1), limit) == Take(l, limit);
  }

  /** No view has another position under the cursor's id. */
  ghost predicate Known(views: seq<set<Pos>>, p: Pos) {
    forall k, q :: 0 <= k < |views| && q in views[k] && q.id == p.id ==> q == p
  }

  ghost predicate Seen(views: seq<set<Pos>>, q: Pos) {
    exists k :: 0 <= k < |views| && q in views[k]
  }

  ghost predicate Lasting(views: seq<set<Pos>>, q: Pos) {
    forall k :: 0 <= k < |views| ==> q in views[k]
  }

  lemma StableTail(views: seq<set<Pos>>)
    requires views != [] && Stable(views)
    ensures Stable(views[1..]) && IdsAreKeys(views[0])
    ensures forall p :: p in views[0] ==> Known(views[1..], p)
    ensures forall q :: Seen(views[1..], q) ==> Seen(views, q)
    ensures forall q :: Lasting(views, q) ==> Lasting(views[1..], q)
  {
    forall q | Seen(views[1..], q) ensures Seen(views, q) {
      var k :| 0 <= k < |views| - 1 && q in views[1..][k];
      assert q in views[k + 1];
    }
  }

  lemma PagesJoin(a: seq<Pos>, b: seq<Pos>)
    requires Descending(a) && Descending(b) && a != []
    requires forall q :: q in b ==> Newer(a[|a| - 1], q)
    ensures Descending(a + b)
  {
    var w := a + b;
    forall i, j | 0 <= i < j < |w| ensures Newer(w[i], w[j]) {
      if i < |a| <= j {
        assert w[j] in b;
        if i < |a| - 1 { NewerIsTransitive(a[i], a[|a| - 1], b[j - |a|]); }
      }
    }
  }

  /** A page in the middle of the walk: its rows come before the next cursor,
      and what is left after it. */
  lemma MiddlePage(view: set<Pos>, limit: nat, cursor: Option<Pos>) returns (next: Pos)
    requires limit >= 1 && IdsAreKeys(view) && (cursor.Some? ==> cursor.value in view)
    requires |Matching(view, IdOf(cursor))| > limit
    ensures var l := Matching(view, IdOf(cursor));
            && next == l[limit - 1] && next in view && Past(cursor, next)
            && FetchPage(view, limit, IdOf(cursor)) == Page(l[..limit], Some(next.id))
            && Descending(l[..limit])
            && (forall q :: q in l[..limit] ==> q in view && Past(cursor, q) && !Newer(next, q))
            && (forall q :: q in view && Past(cursor, q) && !Newer(next, q) ==> q in l[..limit])
  {
    var l := Matching(view, IdOf(cursor));
    MatchingIsThePast(view, cursor);
    PageIsAPrefix(view, limit, IdOf(cursor));
    next := l[limit - 1];
    assert next in l;
    forall q ensures q in l[..limit] <==> q in l && !Newer(next, q) {
      StartOfTheList(l, limit, q);
    }
  }

  lemma LastPage(view: set<Pos>, limit: nat, cursor: Option<Pos>)
    requires limit >= 1 && |Matching(view, IdOf(cursor))| <= limit
    ensures FetchPage(view, limit, IdOf(cursor)) == Page(Matching(view, IdOf(cursor)), None)
  {
    PageIsAPrefix(view, limit, IdOf(cursor));
  }

  lemma GonePage(view: set<Pos>, limit: nat, cursor: Pos)
    requires limit >= 1 && forall q :: q in view ==> q.id != cursor.id
    ensures FetchPage(view, limit, Some(cursor.id)) == Page([], None)
  {
    AfterMissingCursor(Listing(view), cursor.id);
  }

  lemma PastIsTransitive(cursor: Option<Pos>, p: Pos, q: Pos)
    requires Past(cursor, p) && Newer(p, q)
    ensures Past(cursor, q)
  {
    if cursor.Some? { NewerIsTransitive(cursor.value, p, q); }
  }

  lemma WalkStops(views: seq<set<Pos>>, limit: nat, cursor: Option<JobId>, jobs: seq<Pos>)
    requires limit >= 1 && views != [] && FetchPage(views[0], limit, cursor) == Page(jobs, None)
    ensures Walk(views, limit, cursor) == jobs && Fetches(views, limit, cursor) == 1 && Ends(views, limit, cursor)
  {}

  lemma WalkGoesOn(views: seq<set<Pos>>, limit: nat, cursor: Option<JobId>, jobs: seq<Pos>, next: JobId)
    requires limit >= 1 && views != [] && FetchPage(views[0], limit, cursor) == Page(jobs, Some(next))
    ensures Walk(views, limit, cursor) == jobs + Walk(views[1..], limit, Some(next))
    ensures Fetches(views, limit, cursor) == 1 + Fetches(views[1..], limit, Some(next))
    ensures Ends(views, limit, cursor) <==> Ends(views[1..], limit, Some(next))
  {}

  /** Newest first (so nothing twice), past the cursor, nothing that was never
      there. */
  ghost predicate Sound(w: seq<Pos>, views: seq<set<Pos>>, cursor: Option<Pos>) {
    Descending(w) && forall q :: q in w ==> Past(cursor, q) && Seen(views, q)
  }

  lemma LastPageIsSound(views: seq<set<Pos>>, limit: nat, cursor: Option<Pos>)
    requires limit >= 1 && views != [] && IdsAreKeys(views[0]) && (cursor.Some? ==> cursor.value in views[0])
    requires |Matching(views[0], IdOf(cursor))| <= limit
    ensures Sound(Walk(views, limit, IdOf(cursor)), views, cursor)
  {
    LastPage(views[0], limit, cursor);
    WalkStops(views, limit, IdOf(cursor), Matching(views[0], IdOf(cursor)));
    MatchingIsThePast(views[0], cursor);
  }

  lemma GoneIsSound(views: seq<set<Pos>>, limit: nat, cursor: Pos)
    requires limit >= 1 && views != [] && Known(views, cursor) && cursor !in views[0]
    ensures Sound(Walk(views, limit, Some(cursor.id)), views, Some(cursor))
  {
    GonePage(views[0], limit, cursor);
    WalkStops(views, limit, Some(cursor.id), []);
  }

  lemma MiddlePageIsSound(views: seq<set<Pos>>, limit: nat, cursor: Option<Pos>, next: Pos)
    requires limit >= 1 && views != [] && IdsAreKeys(views[0]) && (cursor.Some? ==> cursor.value in views[0])
    requires |Matching(views[0], IdOf(cursor))| > limit && next == Matching(views[0], IdOf(cursor))[limit - 1]
    requires Sound(Walk(views[1..], limit, Some(next.id)), views[1..], Some(next))
    ensures Sound(Walk(views, limit, IdOf(cursor)), views, cursor)
  {
    var page := Matching(views[0], IdOf(cursor))[..limit];
    var last := MiddlePage(views[0], limit, cursor);
    WalkGoesOn(views, limit, IdOf(cursor), page, next.id);
    JoinedPages(views, cursor, page, next, Walk(views[1..], limit, Some(next.id)));
  }

  lemma {:induction false} WalkDescends(views: seq<set<Pos>>, limit: nat, cursor: Option<Pos>)
    requires limit >= 1 && Stable(views) && (cursor.Some? ==> Known(views, cursor.value))
    ensures Sound(Walk(views, limit, IdOf(cursor)), views, cursor)
    decreases |views|
  {
    if views == [] { return; }
    StableTail(views);
    if cursor.Some? && cursor.value !in views[0] {
      GoneIsSound(views, limit, cursor.value);
    } else if |Matching(views[0], IdOf(cursor))| <= limit {
      LastPageIsSound(views, limit, cursor);
    } else {
      var next := MiddlePage(views[0], limit, cursor);
      WalkDescends(views[1..], limit, Some(next));
      MiddlePageIsSound(views, limit, cursor, next);
    }
  }

  lemma JoinedPages(views: seq<set<Pos>>, cursor: Option<Pos>, page: seq<Pos>, next: Pos, rest: seq<Pos>)
    requires views != [] && Past(cursor, next)
    requires page != [] && page[|page| - 1] == next && Descending(page)
    requires forall q :: q in page ==> q in views[0] && Past(cursor, q)
    requires Sound(rest, views[1..], Some(next))
    ensures Sound(page + rest, views, cursor)
  {
    PagesJoin(page, rest);
    forall q | q in page + rest ensures Past(cursor, q) && Seen(views, q) {
      if q in rest {
        PastIsTransitive(cursor, next, q);
        var k :| 0 <= k < |views| - 1 && q in views[1..][k];
        assert q in views[k + 1];
      }
    }
  }

  lemma {:induction false} LostIsPast(views: seq<set<Pos>>, limit: nat, cursor: Pos)
    requires limit >= 1 && Stable(views) && Known(views, cursor)
    ensures var lost := LostCursor(views, limit, Some(cursor));
            lost.Some? ==> lost.value == cursor || Newer(cursor, lost.value)
    decreases |views|
  {
    if views != [] && cursor in views[0] && |Matching(views[0], Some(cursor.id))| > limit {
      StableTail(views);
      var next := MiddlePage(views[0], limit, Some(cursor));
      LostIsPast(views[1..], limit, next);
      var lost := LostCursor(views[1..], limit, Some(next));
      if lost.Some? && lost.value != next { NewerIsTransitive(cursor, next, lost.value); }
    }
  }

  /** A job that was there at every fetch is returned by a finished walk if and
      only if no cursor ahead of it lost its row before it was used. */
  lemma {:induction false} WalkReturns(views: seq<set<Pos>>, limit: nat, cursor: Option<Pos>, q: Pos)
    requires limit >= 1 && Stable(views) && (cursor.Some? ==> Known(views, cursor.value))
    requires Ends(views, limit, IdOf(cursor)) && Lasting(views, q) && Past(cursor, q)
    ensures var lost := LostCursor(views, limit, cursor);
            q in Walk(views, limit, IdOf(cursor)) <==> lost.None? || !Newer(lost.value, q)
    decreases |views|
  {
    StableTail(views);
    assert q in views[0];
    if cursor.Some? && cursor.value !in views[0] {
      GonePage(views[0], limit, cursor.value);
    } else if |Matching(views[0], IdOf(cursor))| <= limit {
      LastPage(views[0], limit, cursor);
      MatchingIsThePast(views[0], cursor);
      assert Walk(views, limit, IdOf(cursor)) == Matching(views[0], IdOf(cursor));
    } else {
      var next := MiddlePage(views[0], limit, cursor);
      var page, rest := Matching(views[0], IdOf(cursor))[..limit], Walk(views[1..], limit, Some(next.id));
      assert Walk(views, limit, IdOf(cursor)) == page + rest;
      if Newer(next, q) {
        WalkReturns(views[1..], limit, Some(next), q);
      } else {
        LostIsPast(views[1..], limit, next);
        NotPastTheLost(next, LostCursor(views[1..], limit, Some(next)), q);
      }
    }
  }

  ghost predicate Vanished(views: seq<set<Pos>>, p: Pos) {
    exists i, j :: 0 <= i < j < |views| && p in views[i] && p !in views[j]
  }

  /** A cursor is only ever lost by a row that was there and went away. */
  lemma {:induction false} LostHasVanished(views: seq<set<Pos>>, limit: nat, cursor: Option<Pos>)
    requires limit >= 1 && Stable(views)
    ensures var lost := LostCursor(views, limit, cursor);
            lost.Some? ==> (lost == cursor && !Lasting(views, lost.value)) || Vanished(views, lost.value)
    decreases |views|
  {
    if views != [] && (cursor.Some? ==> cursor.value in views[0]) && |Matching(views[0], IdOf(cursor))| > limit {
      StableTail(views);
      var next := MiddlePage(views[0], limit, cursor);
      LostHasVanished(views[1..], limit, Some(next));
      VanishedLater(views, next, LostCursor(views[1..], limit, Some(next)));
    }
  }

  lemma VanishedLater(views: seq<set<Pos>>, next: Pos, lost: Option<Pos>)
    requires views != [] && next in views[0]
    requires lost.Some? ==> (lost.value == next && !Lasting(views[1..], next)) || Vanished(views[1..], lost.value)
    ensures lost.Some? ==> Vanished(views, lost.value)
  {
    if lost.Some? && Vanished(views[1..], lost.value) {
      var i, j :| 0 <= i < j < |views| - 1 && lost.value in views[1..][i] && lost.value !in views[1..][j];
      assert lost.value in views[i + 1] && lost.value !in views[j + 1];
    } else if lost.Some? {
      var k :| 0 <= k < |views| - 1 && next !in views[1..][k];
      assert next !in views[k + 1];
    }
  }

  lemma NotPastTheLost(next: Pos, lost: Option<Pos>, q: Pos)
    requires !Newer(next, q) && (lost.Some? ==> lost.value == next || Newer(next, lost.value))
    ensures lost.None? || !Newer(lost.value, q)
  {
    if lost.Some? && Newer(lost.value, q) && lost.value != next { NewerIsTransitive(next, lost.value, q); }
  }

  // ---- A table that stands still ----

  function PagesFor(n: nat, limit: nat): nat
    requires limit >= 1
  {
    if n <= limit then 1 else 1 + PagesFor(n - limit, limit)
  }

  /** max(1, ceil(n / limit)): one page at least, room for all, and a last page
      that is not empty. */
  predicate Fills(n: nat, limit: nat, pages: nat) {
    pages >= 1 && n <= pages * limit && (pages == 1 || (pages - 1) * limit < n)
  }

  lemma {:induction false} PagesForIsTheCeiling(n: nat, limit: nat)
    requires limit >= 1
    ensures Fills(n, limit, PagesFor(n, limit))
  {
    if n > limit {
      var pages := PagesFor(n - limit, limit);
      PagesForIsTheCeiling(n - limit, limit);
      assert (pages + 1) * limit == pages * limit + limit;
      assert pages * limit == (pages - 1) * limit + limit;
    }
  }

  /** After a full page of a fixed set, the next cursor selects the rest. */
  lemma NextPageContinues(v: set<Pos>, limit: nat, cursor: Option<Pos>, next: Pos)
    requires limit >= 1 && IdsAreKeys(v) && (cursor.Some? ==> cursor.value in v)
    requires var l := Matching(v, IdOf(cursor)); |l| > limit && next == l[limit - 1] && next in v && Past(cursor, next)
    ensures Matching(v, Some(next.id)) == Matching(v, IdOf(cursor))[limit..]
  {
    var l := Matching(v, IdOf(cursor));
    MatchingIsThePast(v, cursor);
    MatchingIsThePast(v, Some(next));
    forall q ensures q in l[limit..] <==> q in Matching(v, Some(next.id)) {
      RestOfTheList(l, limit, q);
      if Newer(next, q) { PastIsTransitive(cursor, next, q); }
    }
    OneWayToSort(l[limit..], Matching(v, Some(next.id)));
  }

  lemma FixedStep(v: set<Pos>, limit: nat, cursor: Option<Pos>) returns (next: Pos)
    requires limit >= 1 && IdsAreKeys(v) && (cursor.Some? ==> cursor.value in v)
    requires |Matching(v, IdOf(cursor))| > limit
    ensures next in v
    ensures FetchPage(v, limit, IdOf(cursor)) == Page(Matching(v, IdOf(cursor))[..limit], Some(next.id))
    ensures Matching(v, Some(next.id)) == Matching(v, IdOf(cursor))[limit..]
  {
    next := MiddlePage(v, limit, cursor);
    NextPageContinues(v, limit, cursor, next);
  }

  ghost predicate AllAre(views: seq<set<Pos>>, v: set<Pos>) {
    forall k {:trigger views[k]} :: 0 <= k < |views| ==> views[k] == v
  }

  /** The walk from this cursor ends, returns `l`, and takes the pages `l` fills. */
  ghost predicate WalksThrough(views: seq<set<Pos>>, limit: nat, cursor: Option<JobId>, l: seq<Pos>)
    requires limit >= 1
  {
    && Ends(views, limit, cursor) && Walk(views, limit, cursor) == l
    && Fetches(views, limit, cursor) == PagesFor(|l|, limit)
  }

  lemma FixedEnd(v: set<Pos>, views: seq<set<Pos>>, limit: nat, cursor: Option<Pos>)
    requires limit >= 1 && views != [] && views[0] == v && |Matching(v, IdOf(cursor))| <= limit
    ensures WalksThrough(views, limit, IdOf(cursor), Matching(v, IdOf(cursor)))
  {
    LastPage(v, limit, cursor);
    WalkStops(views, limit, IdOf(cursor), Matching(v, IdOf(cursor)));
  }

  lemma FixedMiddle(
      views: seq<set<Pos>>, limit: nat, cursor: Option<JobId>, page: seq<Pos>, next: JobId, rest: seq<Pos>)
    requires limit >= 1 && views != [] && |page| == limit && rest != []
    requires FetchPage(views[0], limit, cursor) == Page(page, Some(next))
    requires WalksThrough(views[1..], limit, Some(next), rest)
    ensures WalksThrough(views, limit, cursor, page + rest)
  {
    WalkGoesOn(views, limit, cursor, page, next);
  }

  lemma CutAt(l: seq<Pos>, n: nat)
    requires n <= |l|
    ensures l[..n] + l[n..] == l
  {}

  /** From a cursor on, the pages add up to the rest of the sorted list, and
      there are exactly as many as it fills, or one. */
  lemma {:induction false} FixedWalkFrom(v: set<Pos>, views: seq<set<Pos>>, limit: nat, cursor: Option<Pos>)
    requires limit >= 1 && IdsAreKeys(v) && (cursor.Some? ==> cursor.value in v) && AllAre(views, v)
    requires |views| >= PagesFor(|Matching(v, IdOf(cursor))|, limit)
    ensures WalksThrough(views, limit, IdOf(cursor), Matching(v, IdOf(cursor)))
    decreases |views|
  {
    var l := Matching(v, IdOf(cursor));
    assert views[0] == v;
    if |l| <= limit {
      FixedEnd(v, views, limit, cursor);
    } else {
      var next := FixedStep(v, limit, cursor);
      FixedWalkFrom(v, views[1..], limit, Some(next));
      CutAt(l, limit);
      FixedMiddle(views, limit, IdOf(cursor), l[..limit], next.id, l[limit..]);
    }
  }

  /** Nothing added, nothing removed: the pages concatenate to the sorted list
      and there are max(1, ceil(n / limit)) of them. */
  lemma FixedSetWalk(v: set<Pos>, views: seq<set<Pos>>, limit: nat)
    requires limit >= 1 && IdsAreKeys(v) && AllAre(views, v)
    requires |views| >= PagesFor(|v|, limit)
    ensures Ends(views, limit, None) && Walk(views, limit, None) == Listing(v)
    ensures NewestFirst(Walk(views, limit, None))
    ensures Fills(|v|, limit, Fetches(views, limit, None))
  {
    PagesForIsTheCeiling(|v|, limit);
    FixedWalkFrom(v, views, limit, None);
    DescendingIsNewestFirst(Listing(v));
  }

  // ---- The history of a running system ----

  function Positions(t: Table, user: UserId): set<Pos> {
    set id | id in t && t[id].userId == user :: Pos(t[id].createdAt, id)
  }

  /** The row at this position is the user's own. */
  predicate OwnJob(t: Table, user: UserId, q: Pos) {
    q.id in t && t[q.id].userId == user && t[q.id].createdAt == q.createdAt
  }

  lemma PositionsAreOwn(t: Table, user: UserId, q: Pos)
    ensures q in Positions(t, user) <==> OwnJob(t, user, q)
  {
    assert OwnJob(t, user, q) ==> q == Pos(t[q.id].createdAt, q.id);
  }

  ghost function ViewsAt(c: Config, run: seq<Action>, at: seq<nat>, user: UserId): (views: seq<set<Pos>>)
    requires Legal(c, INIT, run) && InOrder(at, run)
    ensures |views| == |at|
    ensures forall k :: 0 <= k < |at| ==> views[k] == Positions(Visited(c, INIT, run)[at[k]].rows, user)
  {
    seq(|at|, k requires 0 <= k < |at| => Positions(Visited(c, INIT, run)[at[k]].rows, user))
  }

  lemma LaterPositions(c: Config, s: State, s': State, user: UserId, p: Pos, q: Pos)
    requires Inv(c, s) && Later(s, s') && p in Positions(s.rows, user) && q in Positions(s'.rows, user) && p.id == q.id
    ensures p == q
  {
    assert RowInv(c, s, p.id);
  }

  lemma ViewsAreStable(c: Config, run: seq<Action>, at: seq<nat>, user: UserId)
    requires c.attempts > 0 && Legal(c, INIT, run) && InOrder(at, run)
    ensures Stable(ViewsAt(c, run, at, user))
  {
    var views := ViewsAt(c, run, at, user);
    InitInv(c);
    forall i, j, p: Pos, q: Pos | 0 <= i < |views| && 0 <= j < |views| && p in views[i] && q in views[j] && p.id == q.id
      ensures p == q
    {
      var early, late := if i <= j then i else j, if i <= j then j else i;
      VisitedInOrder(c, INIT, run, at[early], at[late]);
      var s, s' := Visited(c, INIT, run)[at[early]], Visited(c, INIT, run)[at[late]];
      if i <= j { LaterPositions(c, s, s', user, p, q); } else { LaterPositions(c, s, s', user, q, p); }
    }
  }

  /** A fetch saw the row while its submission could still delete it. */
  ghost predicate SeenInFlight(c: Config, run: seq<Action>, at: seq<nat>, id: JobId)
    requires Legal(c, INIT, run) && InOrder(at, run)
  {
    exists i :: 0 <= i < |at| && id in Visited(c, INIT, run)[at[i]].rows && InFlight(Visited(c, INIT, run)[at[i]], id)
  }

  /** A row that went away was seen in flight, and deleted by the rollback of its
      own submission. */
  lemma VanishedWasRolledBack(c: Config, run: seq<Action>, at: seq<nat>, user: UserId, p: Pos)
    requires c.attempts > 0 && Legal(c, INIT, run) && InOrder(at, run)
    requires Vanished(ViewsAt(c, run, at, user), p)
    ensures SeenInFlight(c, run, at, p.id) && WasRolledBack(After(c, INIT, run), p.id)
  {
    var views := ViewsAt(c, run, at, user);
    var i, j :| 0 <= i < j < |views| && p in views[i] && p !in views[j];
    InitInv(c);
    VisitedInOrder(c, INIT, run, at[i], at[j]);
    VisitedInOrder(c, INIT, run, at[j], |run|);
    LastVisited(c, INIT, run);
    DeletedInBetween(c, Visited(c, INIT, run)[at[i]], Visited(c, INIT, run)[at[j]], After(c, INIT, run), user, p);
  }

  lemma DeletedInBetween(c: Config, s: State, s': State, end: State, user: UserId, p: Pos)
    requires Inv(c, s) && Inv(c, s') && Later(s, s') && Later(s', end)
    requires p in Positions(s.rows, user) && p !in Positions(s'.rows, user)
    ensures InFlight(s, p.id) && WasRolledBack(end, p.id)
  {
    assert RowInv(c, s, p.id);
    if Decided(s, p.id) { DecidedRowsStay(c, s, s', p.id); }
    assert p.id in s'.rows ==> RowEvolves(s.rows[p.id], s'.rows[p.id]);
    GoneWasRolledBack(c, s', p.id);
    var r := s'.births[p.id].creator;
    assert r in end.requests && end.requests[r].stage.RolledBack? && end.requests[r].stage.id == p.id;
  }

  lemma GoneWasRolledBack(c: Config, s: State, id: JobId)
    requires Inv(c, s) && id in s.births && id !in s.rows
    ensures var r := s.births[id].creator;
            r in s.requests && s.requests[r].stage.RolledBack? && s.requests[r].stage.id == id
  {
    assert BirthInv(c, s, id) && RequestInv(c, s, s.births[id].creator);
  }

  /** At one of the fetches, or at all of them, the user had this job. */
  ghost predicate FetchedSometime(c: Config, run: seq<Action>, at: seq<nat>, user: UserId, q: Pos)
    requires Legal(c, INIT, run) && InOrder(at, run)
  {
    exists k :: 0 <= k < |at| && OwnJob(Visited(c, INIT, run)[at[k]].rows, user, q)
  }

  ghost predicate FetchedAlways(c: Config, run: seq<Action>, at: seq<nat>, user: UserId, q: Pos)
    requires Legal(c, INIT, run) && InOrder(at, run)
  {
    forall k :: 0 <= k < |at| ==> OwnJob(Visited(c, INIT, run)[at[k]].rows, user, q)
  }

  /** Over every run, fetching whenever it likes: a finished walk returns the
      user's jobs newest first, none twice, and of those present at every fetch
      all, except the ones behind a cursor that was fetched while its submission
      was still in flight, and was rolled back. */
  lemma HistoryWalk(c: Config, run: seq<Action>, at: seq<nat>, user: UserId, limit: nat)
    requires c.attempts > 0 && Legal(c, INIT, run) && InOrder(at, run) && limit >= 1
    requires Ends(ViewsAt(c, run, at, user), limit, None)
    ensures var views := ViewsAt(c, run, at, user);
            var lost := LostCursor(views, limit, None);
            && Sound(Walk(views, limit, None), views, None) && NewestFirst(Walk(views, limit, None))
            && (forall q :: q in Walk(views, limit, None) ==> FetchedSometime(c, run, at, user, q))
            && (forall q :: FetchedAlways(c, run, at, user, q) ==>
                  (q in Walk(views, limit, None) <==> lost.None? || !Newer(lost.value, q)))
            && (lost.Some? ==>
                  SeenInFlight(c, run, at, lost.value.id) && WasRolledBack(After(c, INIT, run), lost.value.id))
  {
    var views := ViewsAt(c, run, at, user);
    var lost := LostCursor(views, limit, None);
    ViewsAreStable(c, run, at, user);
    WalkDescends(views, limit, None);
    DescendingIsNewestFirst(Walk(views, limit, None));
    forall q | q in Walk(views, limit, None) ensures FetchedSometime(c, run, at, user, q) {
      var k :| 0 <= k < |views| && q in views[k];
      PositionsAreOwn(Visited(c, INIT, run)[at[k]].rows, user, q);
    }
    forall q | FetchedAlways(c, run, at, user, q)
      ensures q in Walk(views, limit, None) <==> lost.None? || !Newer(lost.value, q)
    {
      forall k | 0 <= k < |views| ensures q in views[k] {
        PositionsAreOwn(Visited(c, INIT, run)[at[k]].rows, user, q);
      }
      WalkReturns(views, limit, None, q);
    }
    LostHasVanished(views, limit, None);
    if lost.Some? { VanishedWasRolledBack(c, run, at, user, lost.value); }
  }
}
