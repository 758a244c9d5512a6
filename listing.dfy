/** The owner's card list: the active cards, newest first, one page of
    them, and the page count as the route reports it
    (backend/src/controllers/appControllers/cardController/read.js). */
module Listing {
  import opened CardModel
  import opened CardStore

  // ---------------------------------------------------------------------
  // Newest first
  // ---------------------------------------------------------------------

  predicate NewestFirst(s: seq<Card>) {
    forall i, j :: 0 <= i < j < |s| ==> s[i].createdAt >= s[j].createdAt
  }

  /** Prepending a card no older than the head keeps the order. */
  lemma ConsNewestFirst(x: Card, rest: seq<Card>)
    requires NewestFirst(rest)
    requires |rest| > 0 ==> x.createdAt >= rest[0].createdAt
    ensures NewestFirst([x] + rest)
  {
    var r := [x] + rest;
    forall i, j | 0 <= i < j < |r|
      ensures r[i].createdAt >= r[j].createdAt
    {
      if i == 0 && j > 1 {
        assert r[j] == rest[j - 1];
      }
    }
  }

  /** Places `c` before the first card that is not newer than it. */
  function Insert(c: Card, s: seq<Card>): (r: seq<Card>)
    requires NewestFirst(s)
    ensures NewestFirst(r)
    ensures |r| == |s| + 1 && (r[0] == c || (|s| > 0 && r[0] == s[0]))
  {
    if s == [] then [c]
    else if c.createdAt >= s[0].createdAt then
      ConsNewestFirst(c, s);
      [c] + s
    else
      var rest := Insert(c, s[1..]);
      ConsNewestFirst(s[0], rest);
      [s[0]] + rest
  }

  lemma {:induction false} InsertPermutes(c: Card, s: seq<Card>)
    requires NewestFirst(s)
    ensures multiset(Insert(c, s)) == multiset(s) + multiset{c}
  {
    if s != [] && c.createdAt < s[0].createdAt {
      InsertPermutes(c, s[1..]);
      assert s == [s[0]] + s[1..];
    }
  }

  /** sort({ createdAt: -1 }); cards created at the same instant keep their
      stored order. */
  function SortNewestFirst(s: seq<Card>): (r: seq<Card>)
    ensures NewestFirst(r)
    ensures |r| == |s|
  {
    if s == [] then [] else Insert(s[0], SortNewestFirst(s[1..]))
  }

  /** The sort returns the same cards, each as often as before. */
  lemma {:induction false} SortPermutes(s: seq<Card>)
    ensures multiset(SortNewestFirst(s)) == multiset(s)
  {
    if s != [] {
      SortPermutes(s[1..]);
      InsertPermutes(s[0], SortNewestFirst(s[1..]));
      assert s == [s[0]] + s[1..];
    }
  }

  // ---------------------------------------------------------------------
  // Pages
  // ---------------------------------------------------------------------

  function Abs(x: int): nat {
    if x < 0 then -x else x
  }

  function MinNat(x: nat, y: nat): nat {
    if x <= y then x else y
  }

  /** The cursor's skip, then its limit: a limit of 0 is no limit, and a
      negative limit takes as many as its absolute value. */
  function Paginate(s: seq<Card>, skip: nat, limit: int): (r: seq<Card>)
    ensures |r| <= |s|
    ensures limit != 0 ==> |r| <= Abs(limit)
    ensures |r| == if limit == 0 then |s| - MinNat(skip, |s|) else MinNat(|s| - MinNat(skip, |s|), Abs(limit))
    ensures skip >= |s| ==> r == []
    ensures forall k :: 0 <= k < |r| ==> skip + k < |s| && r[k] == s[skip + k]
    ensures forall x :: x in r ==> x in s
  {
    var from := MinNat(skip, |s|);
    var to := if limit == 0 then |s| else MinNat(from + Abs(limit), |s|);
    s[from..to]
  }

  /** The first `n` pages of size `size`, one after the other. */
  function FirstPages(s: seq<Card>, size: nat, n: nat): seq<Card>
    requires size > 0
  {
    if n == 0 then [] else FirstPages(s, size, n - 1) + Paginate(s, (n - 1) * size, size)
  }

  lemma {:induction false} FirstPagesPrefix(s: seq<Card>, size: nat, n: nat)
    requires size > 0
    ensures FirstPages(s, size, n) == s[..MinNat(n * size, |s|)]
  {
    if n > 0 {
      FirstPagesPrefix(s, size, n - 1);
      var k := (n - 1) * size;
      var a := MinNat(k, |s|);
      var b := MinNat(n * size, |s|);
      assert n * size == k + size;
      assert Abs(size) == size && MinNat(a + size, |s|) == b;
      assert Paginate(s, (n - 1) * size, size) == s[a..b];
      assert s[..a] + s[a..b] == s[..b];
    }
  }

  /** A window of a newest-first list is newest first. */
  lemma WindowNewestFirst(s: seq<Card>, skip: nat, limit: int)
    requires NewestFirst(s)
    ensures NewestFirst(Paginate(s, skip, limit))
  {
    var r := Paginate(s, skip, limit);
    forall i, j | 0 <= i < j < |r|
      ensures r[i].createdAt >= r[j].createdAt
    {
      assert r[i] == s[skip + i] && r[j] == s[skip + j];
    }
  }

  /** `Math.ceil(count / limit)` for a non-zero limit. */
  function CeilDiv(count: nat, limit: int): (r: int)
    requires limit != 0
    ensures limit > 0 ==> r >= 0 && (count == 0 <==> r == 0)
    ensures limit < 0 ==> r <= 0
  {
    if limit > 0 then (count + limit - 1) / limit else -(count / -limit)
  }

  /** With a positive limit the reported page count is the least number of
      pages that hold every card, and walking pages 1 to that count
      returns every card exactly once, in order. */
  lemma PagesCoverAll(s: seq<Card>, limit: nat)
    requires limit > 0
    ensures var pages := CeilDiv(|s|, limit);
      && pages >= 0
      && pages * limit >= |s|
      && (pages == 0 || (pages - 1) * limit < |s|)
      && FirstPages(s, limit, pages) == s
  {
    var pages := CeilDiv(|s|, limit);
    assert pages * limit >= |s| && (pages == 0 || (pages - 1) * limit < |s|) by {
      var q := (|s| + limit - 1) / limit;
      var m := (|s| + limit - 1) % limit;
      assert |s| + limit - 1 == q * limit + m && 0 <= m < limit;
    }
    FirstPagesPrefix(s, limit, pages);
    assert s[..|s|] == s;
  }

  // ---------------------------------------------------------------------
  // The list route
  // ---------------------------------------------------------------------

  /** A window of the owner's sorted active cards holds only the owner's
      active cards, newest first. */
  lemma WindowOfActive(cards: seq<Card>, owner: OwnerId, skip: nat, limit: int)
    ensures var w := Paginate(SortNewestFirst(ActiveOf(cards, owner)), skip, limit);
      && NewestFirst(w)
      && forall x :: x in w ==> x in cards && x.owner == owner && !x.removed
  {
    var active := ActiveOf(cards, owner);
    var sorted := SortNewestFirst(active);
    SortPermutes(active);
    WindowNewestFirst(sorted, skip, limit);
    forall x | x in Paginate(sorted, skip, limit)
      ensures x in cards && x.owner == owner && !x.removed
    {
      assert x in multiset(sorted);
      assert x in active;
    }
  }

  /** Loading a window drops every password and keeps the order, the
      owners, the removal flags and the creation times. */
  lemma ProjectedWindow(cards: seq<Card>, w: seq<Card>, owner: OwnerId)
    requires NewestFirst(w)
    requires forall x :: x in w ==> x in cards && x.owner == owner && !x.removed
    ensures NewestFirst(ProjectAll(w))
    ensures forall x :: x in ProjectAll(w) ==>
      x in ProjectAll(cards) && x.owner == owner && !x.removed && x.features.passwordProtection.password == ""
  {
    var r := ProjectAll(w);
    var all := ProjectAll(cards);
    forall x | x in r
      ensures x in all && x.owner == owner && !x.removed && x.features.passwordProtection.password == ""
    {
      var k :| 0 <= k < |r| && r[k] == x;
      assert w[k] in w;
      var i :| 0 <= i < |cards| && cards[i] == w[k];
      assert all[i] == x;
    }
  }

  datatype ListPage = ListPage(result: seq<Card>, page: int, pages: Option<int>, count: nat)

  /** list: `page` and `limit` default to 1 and 10; the cursor skips
      `(page - 1) * limit` cards, which the database refuses when negative;
      the page count is `Math.ceil(count / limit)`, which is not a finite
      number (null in the response) when the limit is 0. */
  function List(cards: seq<Card>, owner: OwnerId, page: Option<int>, limit: Option<int>): (r: Outcome<ListPage>)
    ensures var p := page.GetOr(1); var l := limit.GetOr(10);
      && (r.Ok? <==> (p - 1) * l >= 0)
      && (r.Rejected? ==> r.reason == ServerError)
      && (r.Ok? ==>
            && r.value.count == CountActive(cards, owner)
            && r.value.page == p
            && NewestFirst(r.value.result)
            && (forall x :: x in r.value.result ==>
                  x in ProjectAll(cards) && x.owner == owner && !x.removed && x.features.passwordProtection.password == "")
            && (l != 0 ==> |r.value.result| <= Abs(l))
            && (r.value.pages.Some? <==> l != 0)
            && (l != 0 ==> r.value.pages == Some(CeilDiv(r.value.count, l)))
            && r.value.result == ProjectAll(Paginate(SortNewestFirst(ActiveOf(cards, owner)), (p - 1) * l, l)))
  {
    var p := page.GetOr(1);
    var l := limit.GetOr(10);
    var skip := (p - 1) * l;
    if skip < 0 then Rejected(ServerError)
    else
      var active := ActiveOf(cards, owner);
      var sorted := SortNewestFirst(active);
      var result := Paginate(sorted, skip, l);
      WindowOfActive(cards, owner, skip, l);
      ProjectedWindow(cards, result, owner);
      Ok(ListPage(ProjectAll(result), p, if l == 0 then None else Some(CeilDiv(|active|, l)), |active|))
  }

  /** With the default limit, the first page holds the ten newest of the
      owner's active cards, and every later page holds older ones. */
  lemma FirstPageIsNewest(cards: seq<Card>, owner: OwnerId, page: nat)
    requires page >= 1
    ensures var first := List(cards, owner, None, None);
            var later := List(cards, owner, Some(page + 1), None);
      first.Ok? && later.Ok? &&
      forall x, y :: x in first.value.result && y in later.value.result ==> x.createdAt >= y.createdAt
  {
    var sorted := SortNewestFirst(ActiveOf(cards, owner));
    var first := Paginate(sorted, 0, 10);
    var later := Paginate(sorted, page * 10, 10);
    forall x, y | x in ProjectAll(first) && y in ProjectAll(later)
      ensures x.createdAt >= y.createdAt
    {
      var i :| 0 <= i < |first| && ProjectAll(first)[i] == x;
      var j :| 0 <= j < |later| && ProjectAll(later)[j] == y;
      assert first[i] == sorted[i] && later[j] == sorted[page * 10 + j];
    }
  }
}
