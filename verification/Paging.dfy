/**
 Cursor pagination: read one row more than the page, cut it, hand out the last key as an
 opaque token, and resume strictly below it. The token codec is taken as an inverse pair:
 a token is empty, the encoding of a key, or text that does not decode.
 */
module Paging {
  import opened Durations

  datatype Key = Key(time: Time, id: string)

  datatype Item<T> = Item(key: Key, data: T)

  datatype Token = NoToken | Encoded(key: Key) | Garbage

  datatype PageRequest = PageRequest(limit: int, cursorTime: Time, cursorID: string)

  datatype Page<T> = Page(items: seq<Item<T>>, next: Token)

  // ---------- the order of the list ----------

  /** Go's string order. */
  predicate Less(a: string, b: string) {
    b != [] && (a == [] || a[0] < b[0] || (a[0] == b[0] && Less(a[1..], b[1..])))
  }

  lemma {:induction false} LessIsTotal(a: string, b: string)
    ensures a == b || Less(a, b) || Less(b, a)
    ensures !(Less(a, b) && Less(b, a)) && !Less(a, a)
  {
    if a != [] && b != [] {
      LessIsTotal(a[1..], b[1..]);
      assert a == [a[0]] + a[1..] && b == [b[0]] + b[1..];
    }
    if a != [] {
      LessIsTotal(a[1..], a[1..]);
    }
  }

  lemma {:induction false} LessIsTransitive(a: string, b: string, c: string)
    requires Less(a, b) && Less(b, c)
    ensures Less(a, c)
  {
    if a != [] && a[0] == b[0] && b[0] == c[0] {
      LessIsTransitive(a[1..], b[1..], c[1..]);
    }
  }

  /** The order of the dictionary: a proper beginning comes first, otherwise the first difference decides. */
  lemma {:induction false} LessIsDictionary(a: string, b: string)
    ensures Less(a, b) <==> (a <= b && a != b) || exists k :: DiffersAt(a, b, k) && a[k] < b[k]
  {
    if a != [] && b != [] && a[0] == b[0] {
      LessIsDictionary(a[1..], b[1..]);
      assert a == [a[0]] + a[1..] && b == [b[0]] + b[1..];
      if k :| DiffersAt(a, b, k) && a[k] < b[k] {
        assert a[1..][..k - 1] == a[..k][1..] && b[1..][..k - 1] == b[..k][1..];
        assert DiffersAt(a[1..], b[1..], k - 1);
      }
      if k :| DiffersAt(a[1..], b[1..], k) && a[1..][k] < b[1..][k] {
        assert a[..k + 1] == [a[0]] + a[1..][..k] && b[..k + 1] == [b[0]] + b[1..][..k];
        assert DiffersAt(a, b, k + 1);
      }
    } else if a != [] && b != [] {
      assert a[..0] == b[..0];
      assert DiffersAt(a, b, 0);
    }
  }

  predicate DiffersAt(a: string, b: string, k: int) {
    0 <= k < |a| && k < |b| && a[..k] == b[..k] && a[k] != b[k]
  }

  predicate Newer(a: Key, b: Key) {
    a.time > b.time || (a.time == b.time && Less(b.id, a.id))
  }

  lemma {:induction false} NewerIsTotal(a: Key, b: Key)
    ensures a == b || Newer(a, b) || Newer(b, a)
    ensures !(Newer(a, b) && Newer(b, a)) && !Newer(a, a)
  {
    LessIsTotal(a.id, b.id);
    LessIsTotal(a.id, a.id);
  }

  lemma {:induction false} NewerIsTransitive(a: Key, b: Key, c: Key)
    requires Newer(a, b) && Newer(b, c)
    ensures Newer(a, c)
  {
    if a.time == b.time && b.time == c.time {
      LessIsTransitive(c.id, b.id, a.id);
    }
  }

  predicate Descending<T>(s: seq<Item<T>>) {
    forall i, j :: 0 <= i < j < |s| ==> Newer(s[i].key, s[j].key)
  }

  /** Later times first, and at one time the later identifiers of the dictionary. */
  lemma {:induction false} DescendingMeans<T>(s: seq<Item<T>>, i: nat, j: nat)
    requires Descending(s) && i < j < |s|
    ensures s[i].key.time > s[j].key.time || (s[i].key.time == s[j].key.time && Less(s[j].key.id, s[i].key.id))
  {
  }

  /** No two rows share an id, and every key can serve as a cursor. */
  ghost predicate GoodRows<T(!new)>(rows: set<Item<T>>) {
    && (forall r, q :: r in rows && q in rows && r.key.id == q.key.id ==> r == q)
    && (forall r :: r in rows ==> r.key.time != ZERO_TIME && r.key.id != "")
  }

  ghost predicate IsSorted<T(!new)>(rows: set<Item<T>>, s: seq<Item<T>>) {
    Descending(s) && forall r :: r in s <==> r in rows
  }

  ghost predicate IsNewest<T(!new)>(rows: set<Item<T>>, m: Item<T>) {
    m in rows && forall r :: r in rows && r != m ==> Newer(m.key, r.key)
  }

  lemma {:induction false} NewestExists<T(!new)>(rows: set<Item<T>>)
    requires rows != {} && GoodRows(rows)
    ensures exists m :: IsNewest(rows, m)
    decreases |rows|
  {
    var x :| x in rows;
    var rest := rows - {x};
    if rest == {} {
      assert rows == rest + {x};
      assert IsNewest(rows, x);
    } else {
      NewestExists(rest);
      var n :| IsNewest(rest, n);
      NewerIsTotal(x.key, n.key);
      if Newer(x.key, n.key) {
        forall r | r in rows && r != x ensures Newer(x.key, r.key) {
          if r != n {
            NewerIsTransitive(x.key, n.key, r.key);
          }
        }
        assert IsNewest(rows, x);
      } else {
        assert IsNewest(rows, n);
      }
    }
  }

  lemma {:induction false} SortedExists<T(!new)>(rows: set<Item<T>>)
    requires GoodRows(rows)
    ensures exists s :: IsSorted(rows, s) && |s| == |rows|
    decreases |rows|
  {
    if rows == {} {
      var none: seq<Item<T>> := [];
      assert IsSorted(rows, none);
    } else {
      NewestExists(rows);
      var m :| IsNewest(rows, m);
      SortedExists(rows - {m});
      var rest :| IsSorted(rows - {m}, rest) && |rest| == |rows - {m}|;
      assert forall i :: 0 <= i < |rest| ==> rest[i] in rest;
      assert IsSorted(rows, [m] + rest);
    }
  }

  /** The reference: the rows, newest first. */
  ghost function Sorted<T(!new)>(rows: set<Item<T>>): (s: seq<Item<T>>)
    requires GoodRows(rows)
    ensures IsSorted(rows, s) && |s| == |rows|
  {
    SortedExists(rows);
    var s :| IsSorted(rows, s) && |s| == |rows|;
    s
  }

  lemma {:induction false} NonEmptyHasElement<T>(s: seq<T>)
    ensures s != [] ==> exists r :: r in s
  {
    if s != [] {
      assert s[0] in s;
    }
  }

  lemma {:induction false} SortedIsUnique<T(!new)>(rows: set<Item<T>>, s: seq<Item<T>>, t: seq<Item<T>>)
    requires GoodRows(rows) && IsSorted(rows, s) && IsSorted(rows, t)
    ensures s == t
    decreases |s|
  {
    if s == [] {
      NonEmptyHasElement(t);
    } else {
      assert s[0] in t && (t != [] ==> t[0] in s);
      if s[0] != t[0] {
        NewerIsTotal(s[0].key, t[0].key);
        assert false;
      }
      forall r ensures r in s[1..] <==> r in rows - {s[0]} {
        NewerIsTotal(s[0].key, s[0].key);
      }
      forall r ensures r in t[1..] <==> r in rows - {s[0]} {
        NewerIsTotal(s[0].key, s[0].key);
      }
      SortedIsUnique(rows - {s[0]}, s[1..], t[1..]);
    }
  }

  // ---------- one request ----------

  /** An empty size means 25; a size outside 1..100 or a token that is not a usable cursor is refused. */
  function NewPageRequest(size: int, token: Token): Option<PageRequest> {
    var n := if size == 0 then 25 else size;
    if n < 1 || n > 100 then None
    else match token
      case NoToken => Some(PageRequest(n + 1, ZERO_TIME, ""))
      case Garbage => None
      case Encoded(key) =>
        if key.time == ZERO_TIME || key.id == "" then None else Some(PageRequest(n + 1, key.time, key.id))
  }

  /**
   A request is accepted for a size of 1 to 100, or none for 25, and no token or a usable one; it
   asks for one row more.
   */
  lemma {:induction false} RequestAcceptedIff(size: int, token: Token)
    ensures NewPageRequest(size, token).Some? <==>
              && 0 <= size <= 100
              && (token == NoToken || (token.Encoded? && token.key.time != ZERO_TIME && token.key.id != ""))
    ensures NewPageRequest(size, token).Some? ==>
              NewPageRequest(size, token).value.limit == (if size == 0 then 25 else size) + 1
  {
  }

  predicate Before(key: Key, request: PageRequest) {
    || request.cursorTime == ZERO_TIME
    || key.time < request.cursorTime
    || (key.time == request.cursorTime && Less(key.id, request.cursorID))
  }

  ghost function Remaining<T(!new)>(visible: set<Item<T>>, request: PageRequest): set<Item<T>> {
    set r | r in visible && Before(r.key, request)
  }

  function Limited<T>(s: seq<T>, size: int): seq<T>
    requires size >= 0
  {
    if |s| > size then s[..size] else s
  }

  /** What a list method of the repository returns. */
  ghost function Listed<T(!new)>(visible: set<Item<T>>, request: PageRequest): seq<Item<T>>
    requires GoodRows(visible) && request.limit >= 0
  {
    Limited(Sorted(Remaining(visible, request)), request.limit)
  }

  function CutPage<T>(items: seq<Item<T>>, requestedLimit: int): Page<T>
    requires requestedLimit >= 2
  {
    if |items| < requestedLimit then Page(items, NoToken)
    else Page(items[..requestedLimit - 1], Encoded(items[requestedLimit - 2].key))
  }

  ghost function Respond<T(!new)>(visible: set<Item<T>>, request: PageRequest): Page<T>
    requires GoodRows(visible) && request.limit >= 2
  {
    CutPage(Listed(visible, request), request.limit)
  }

  /** A token that a page hands out is accepted again exactly when its key can serve as a cursor. */
  lemma {:induction false} TokenAcceptedIff<T>(items: seq<Item<T>>, size: int)
    requires NewPageRequest(size, NoToken).Some? && |items| >= NewPageRequest(size, NoToken).value.limit
    ensures var page := CutPage(items, NewPageRequest(size, NoToken).value.limit);
            && page.next.Encoded?
            && (NewPageRequest(size, page.next).Some? <==> page.next.key.time != ZERO_TIME && page.next.key.id != "")
            && (NewPageRequest(size, page.next).Some? ==>
                  forall key :: Before(key, NewPageRequest(size, page.next).value) <==> Newer(page.next.key, key))
  {
  }

  // ---------- a walk ----------

  /** The pages a client gets by following tokens while the visible rows change: `views[i]` is what request i sees. */
  ghost function Walk<T(!new)>(views: seq<set<Item<T>>>, size: int, token: Token): (pages: seq<Page<T>>)
    requires forall i :: 0 <= i < |views| ==> GoodRows(views[i])
    ensures |pages| <= |views|
  {
    if views == [] || NewPageRequest(size, token).None? then []
    else
      var page := Respond(views[0], NewPageRequest(size, token).value);
      [page] + (if page.next == NoToken then [] else Walk(views[1..], size, page.next))
  }

  function Concat<T>(pages: seq<Page<T>>): seq<Item<T>> {
    if pages == [] then [] else pages[0].items + Concat(pages[1..])
  }

  predicate Completed<T>(pages: seq<Page<T>>) {
    pages != [] && pages[|pages| - 1].next == NoToken
  }

  /** Strictly below the token's key; everything is below no token. */
  predicate Below(key: Key, token: Token) {
    token.NoToken? || (token.Encoded? && Newer(token.key, key))
  }

  predicate UsableToken(token: Token) {
    token.NoToken? || (token.Encoded? && token.key.time != ZERO_TIME && token.key.id != "")
  }

  ghost function RowsBelow<T(!new)>(visible: set<Item<T>>, token: Token): set<Item<T>> {
    set r | r in visible && Below(r.key, token)
  }

  /** The reference page of `n` rows: the first n of the sorted rows below the token. */
  ghost function PageAt<T(!new)>(visible: set<Item<T>>, n: nat, token: Token): Page<T>
    requires GoodRows(visible) && n >= 1
  {
    var all := Sorted(RowsBelow(visible, token));
    if |all| <= n then Page(all, NoToken) else Page(all[..n], Encoded(all[n - 1].key))
  }

  ghost function ReferenceWalk<T(!new)>(views: seq<set<Item<T>>>, n: nat, token: Token): (pages: seq<Page<T>>)
    requires n >= 1 && forall i :: 0 <= i < |views| ==> GoodRows(views[i])
    ensures |pages| <= |views|
  {
    if views == [] then []
    else
      var page := PageAt(views[0], n, token);
      [page] + (if page.next == NoToken then [] else ReferenceWalk(views[1..], n, page.next))
  }

  predicate AcceptedSize(size: int) {
    0 <= size <= 100
  }

  function PageSize(size: int): int {
    if size == 0 then 25 else size
  }

  lemma {:induction false} RespondIsReference<T(!new)>(visible: set<Item<T>>, size: int, token: Token)
    requires GoodRows(visible) && UsableToken(token) && AcceptedSize(size)
    ensures NewPageRequest(size, token).Some?
    ensures Respond(visible, NewPageRequest(size, token).value) == PageAt(visible, PageSize(size), token)
    ensures UsableToken(PageAt(visible, PageSize(size), token).next)
  {
    var request, n := NewPageRequest(size, token).value, PageSize(size);
    assert Remaining(visible, request) == RowsBelow(visible, token);
    var all := Sorted(RowsBelow(visible, token));
    if |all| > n {
      assert all[n - 1] in all;
      assert Limited(all, n + 1)[..n] == all[..n];
    }
  }

  /** Over-fetching by one row and cutting it gives exactly the reference pages. */
  lemma {:induction false} WalkIsReference<T(!new)>(views: seq<set<Item<T>>>, size: int, token: Token)
    requires forall i :: 0 <= i < |views| ==> GoodRows(views[i])
    requires UsableToken(token) && AcceptedSize(size)
    ensures Walk(views, size, token) == ReferenceWalk(views, PageSize(size), token)
    decreases |views|
  {
    if views != [] {
      RespondIsReference(views[0], size, token);
      WalkIsReference(views[1..], size, PageAt(views[0], PageSize(size), token).next);
    }
  }

  // ---------- a walk under change ----------

  ghost predicate KeyVisible<T(!new)>(view: set<Item<T>>, key: Key) {
    exists r :: r in view && r.key == key
  }

  predicate KeyListed<T>(items: seq<Item<T>>, key: Key) {
    exists i :: 0 <= i < |items| && items[i].key == key
  }

  ghost predicate AlwaysVisible<T(!new)>(views: seq<set<Item<T>>>, n: nat, key: Key)
    requires n <= |views|
  {
    forall i :: 0 <= i < n ==> KeyVisible(views[i], key)
  }

  ghost predicate Shown<T(!new)>(views: seq<set<Item<T>>>, pages: seq<Page<T>>)
    requires |pages| <= |views|
  {
    forall i, r :: 0 <= i < |pages| && r in pages[i].items ==> r in views[i]
  }

  predicate AllBelow<T>(items: seq<Item<T>>, token: Token) {
    forall i :: 0 <= i < |items| ==> Below(items[i].key, token)
  }

  lemma {:induction false} SortedBelow<T(!new)>(visible: set<Item<T>>, token: Token)
    requires GoodRows(visible)
    ensures var all := Sorted(RowsBelow(visible, token));
            Descending(all) && AllBelow(all, token) && forall r :: r in all ==> r in visible
  {
    var all := Sorted(RowsBelow(visible, token));
    forall i | 0 <= i < |all| ensures Below(all[i].key, token) {
      assert all[i] in all;
    }
  }

  /** One page: newest first, below the token, from the visible rows, and its last key is its token. */
  lemma {:induction false} PageShape<T(!new)>(visible: set<Item<T>>, n: nat, token: Token)
    requires GoodRows(visible) && n >= 1
    ensures var page := PageAt(visible, n, token);
            && Descending(page.items) && AllBelow(page.items, token)
            && (forall r :: r in page.items ==> r in visible)
    ensures var page := PageAt(visible, n, token);
            page.next.NoToken? || (page.items != [] && page.next == Encoded(page.items[|page.items| - 1].key))
  {
    SortedBelow(visible, token);
    var all := Sorted(RowsBelow(visible, token));
    if |all| > n {
      assert forall i :: 0 <= i < n ==> all[..n][i] == all[i];
      assert forall r :: r in all[..n] ==> r in all;
    }
  }

  /** A visible key below the token is on the page or below the page's own token. */
  lemma {:induction false} ShownOrBelow<T(!new)>(visible: set<Item<T>>, n: nat, token: Token, key: Key)
    requires GoodRows(visible) && n >= 1
    requires KeyVisible(visible, key) && Below(key, token)
    ensures var page := PageAt(visible, n, token);
            KeyListed(page.items, key) || (page.next.Encoded? && Below(key, page.next))
  {
    var all := Sorted(RowsBelow(visible, token));
    var r :| r in visible && r.key == key;
    assert r in all;
    var i :| 0 <= i < |all| && all[i] == r;
    if i < n {
      assert PageAt(visible, n, token).items[i].key == key;
    }
  }

  lemma {:induction false} JoinPages<T>(first: seq<Item<T>>, rest: seq<Item<T>>, token: Token)
    requires Descending(first) && Descending(rest) && AllBelow(first, token)
    requires first != [] && AllBelow(rest, Encoded(first[|first| - 1].key))
    ensures Descending(first + rest) && AllBelow(first + rest, token)
  {
    var s, last := first + rest, |first| - 1;
    forall i, j | 0 <= i < j < |s| ensures Newer(s[i].key, s[j].key) {
      if i < last && j > last {
        NewerIsTransitive(s[i].key, s[last].key, s[j].key);
      }
    }
    forall i | 0 <= i < |s| ensures Below(s[i].key, token) {
      if i > last && token.Encoded? {
        NewerIsTransitive(token.key, s[last].key, s[i].key);
      }
    }
  }

  /** What WalkShape says of the pages of a walk. */
  ghost predicate Shaped<T(!new)>(views: seq<set<Item<T>>>, token: Token, pages: seq<Page<T>>)
    requires |pages| <= |views|
  {
    Descending(Concat(pages)) && AllBelow(Concat(pages), token) && Shown(views, pages)
  }

  lemma {:induction false} ShapedPrepend<T(!new)>(views: seq<set<Item<T>>>, n: nat, token: Token, rest: seq<Page<T>>)
    requires n >= 1 && views != [] && GoodRows(views[0]) && |rest| <= |views| - 1
    requires var page := PageAt(views[0], n, token);
             if page.next.NoToken? then rest == [] else Shaped(views[1..], page.next, rest)
    ensures Shaped(views, token, [PageAt(views[0], n, token)] + rest)
  {
    var page := PageAt(views[0], n, token);
    var pages := [page] + rest;
    PageShape(views[0], n, token);
    assert pages[1..] == rest && Concat(pages) == page.items + Concat(rest);
    if page.next.Encoded? {
      JoinPages(page.items, Concat(rest), token);
    }
    forall i, r | 0 <= i < |pages| && r in pages[i].items ensures r in views[i] {
      assert i > 0 ==> pages[i] == rest[i - 1] && views[i] == views[1..][i - 1];
    }
  }

  lemma {:induction false} WalkShape<T(!new)>(views: seq<set<Item<T>>>, n: nat, token: Token)
    requires n >= 1 && forall i :: 0 <= i < |views| ==> GoodRows(views[i])
    ensures Shaped(views, token, ReferenceWalk(views, n, token))
    decreases |views|
  {
    if views != [] {
      var page := PageAt(views[0], n, token);
      var rest := if page.next == NoToken then [] else ReferenceWalk(views[1..], n, page.next);
      if page.next != NoToken {
        PageShape(views[0], n, token);
        WalkShape(views[1..], n, page.next);
      }
      ShapedPrepend(views, n, token, rest);
    }
  }

  lemma {:induction false} JoinListed<T>(first: seq<Item<T>>, rest: seq<Item<T>>, key: Key)
    requires KeyListed(first, key) || KeyListed(rest, key)
    ensures KeyListed(first + rest, key)
  {
    if KeyListed(first, key) {
      var i :| 0 <= i < |first| && first[i].key == key;
      assert (first + rest)[i].key == key;
    } else {
      var i :| 0 <= i < |rest| && rest[i].key == key;
      assert (first + rest)[|first| + i].key == key;
    }
  }

  lemma {:induction false} WalkListsVisible<T(!new)>(views: seq<set<Item<T>>>, n: nat, token: Token, key: Key)
    requires n >= 1 && forall i :: 0 <= i < |views| ==> GoodRows(views[i])
    requires Completed(ReferenceWalk(views, n, token)) && Below(key, token)
    requires AlwaysVisible(views, |ReferenceWalk(views, n, token)|, key)
    ensures KeyListed(Concat(ReferenceWalk(views, n, token)), key)
    decreases |views|
  {
    var pages, page := ReferenceWalk(views, n, token), PageAt(views[0], n, token);
    ShownOrBelow(views[0], n, token, key);
    if !KeyListed(page.items, key) {
      assert pages[1..] == ReferenceWalk(views[1..], n, page.next);
      forall i | 0 <= i < |pages| - 1 ensures KeyVisible(views[1..][i], key) {
        assert KeyVisible(views[i + 1], key);
      }
      WalkListsVisible(views[1..], n, page.next, key);
    }
    JoinListed(pages[0].items, Concat(pages[1..]), key);
  }

  /**
   Paging under concurrent change: whatever rows come, go or stop matching between requests, the
   walk lists keys in strictly descending order, so nothing twice, each row as its request saw it;
   and once completed it has listed every key that was visible at each of its requests.
   */
  lemma {:induction false} WalkUnderChange<T(!new)>(views: seq<set<Item<T>>>, size: int)
    requires forall i :: 0 <= i < |views| ==> GoodRows(views[i])
    requires AcceptedSize(size)
    ensures var pages := Walk(views, size, NoToken);
            && Descending(Concat(pages))
            && Shown(views, pages)
            && (forall key :: Completed(pages) && AlwaysVisible(views, |pages|, key) ==> KeyListed(Concat(pages), key))
  {
    WalkIsReference(views, size, NoToken);
    var n := PageSize(size);
    WalkShape(views, n, NoToken);
    var pages := ReferenceWalk(views, n, NoToken);
    forall key | Completed(pages) && AlwaysVisible(views, |pages|, key) ensures KeyListed(Concat(pages), key) {
      WalkListsVisible(views, n, NoToken, key);
    }
  }

  // ---------- a list that only gains rows ----------

  predicate OnlyAt<T>(items: seq<Item<T>>, k: nat)
    requires k < |items|
  {
    forall j :: 0 <= j < |items| && items[j].key.id == items[k].key.id ==> j == k
  }

  /** Every one of the rows is listed, and nothing else with its identifier. */
  ghost predicate ListsOnce<T(!new)>(items: seq<Item<T>>, rows: set<Item<T>>) {
    forall r :: r in rows ==> exists k :: 0 <= k < |items| && items[k] == r && OnlyAt(items, k)
  }

  /** Where a row that no request can miss is listed. */
  lemma {:induction false} FindRow<T(!new)>(views: seq<set<Item<T>>>, size: int, r: Item<T>) returns (k: nat)
    requires AcceptedSize(size) && views != [] && r in views[0]
    requires forall i :: 0 <= i < |views| ==> GoodRows(views[i]) && views[0] <= views[i]
    requires Completed(Walk(views, size, NoToken))
    ensures var items := Concat(Walk(views, size, NoToken)); k < |items| && items[k] == r && OnlyAt(items, k)
  {
    var pages := Walk(views, size, NoToken);
    var items := Concat(pages);
    WalkUnderChange(views, size);
    forall i | 0 <= i < |pages| ensures KeyVisible(views[i], r.key) {
      assert r in views[i];
    }
    assert AlwaysVisible(views, |pages|, r.key) && KeyListed(items, r.key);
    k :| 0 <= k < |items| && items[k].key == r.key;
    forall j | 0 <= j < |items| && items[j].key.id == r.key.id ensures items[j] == r {
      var page := PageOf(pages, j);
      assert items[j] in views[page] && r in views[page];
    }
    forall j | 0 <= j < |items| && items[j].key.id == items[k].key.id ensures j == k {
      NewerIsTotal(r.key, r.key);
    }
  }

  lemma {:induction false} PageOf<T>(pages: seq<Page<T>>, j: nat) returns (page: nat)
    requires j < |Concat(pages)|
    ensures page < |pages| && Concat(pages)[j] in pages[page].items
  {
    if j < |pages[0].items| {
      page := 0;
    } else {
      var inner := PageOf(pages[1..], j - |pages[0].items|);
      page := inner + 1;
    }
  }

  /** A completed walk over rows that are only added to lists every first row exactly once, newest first. */
  lemma {:induction false} GrowingWalk<T(!new)>(views: seq<set<Item<T>>>, size: int)
    requires AcceptedSize(size) && views != []
    requires forall i :: 0 <= i < |views| ==> GoodRows(views[i]) && views[0] <= views[i]
    ensures Descending(Concat(Walk(views, size, NoToken)))
    ensures Completed(Walk(views, size, NoToken)) ==> ListsOnce(Concat(Walk(views, size, NoToken)), views[0])
  {
    WalkUnderChange(views, size);
    var items := Concat(Walk(views, size, NoToken));
    if Completed(Walk(views, size, NoToken)) {
      forall r | r in views[0] ensures exists k :: 0 <= k < |items| && items[k] == r && OnlyAt(items, k) {
        var k := FindRow(views, size, r);
      }
    }
  }

  // ---------- a fixed store ----------

  /** The least number of pages, at least one, that holds the rows: max(1, ceil(rows / size)). */
  function PagesNeeded(rows: nat, size: nat): (pages: nat)
    requires size > 0
    ensures pages >= 1 && pages * size >= rows
    ensures pages == 1 || (pages - 1) * size < rows
    decreases rows
  {
    if rows <= size then 1
    else
      var fewer := PagesNeeded(rows - size, size);
      assert (fewer + 1) * size == fewer * size + size;
      assert fewer * size == (fewer - 1) * size + size;
      fewer + 1
  }

  ghost function Same<T(!new)>(visible: set<Item<T>>, n: nat): (views: seq<set<Item<T>>>)
    ensures |views| == n && forall i :: 0 <= i < n ==> views[i] == visible
  {
    seq(n, i => visible)
  }

  lemma {:induction false} BelowIsAfterCut<T(!new)>(all: seq<Item<T>>, n: nat, visible: set<Item<T>>, token: Token,
                                                    r: Item<T>)
    requires 1 <= n < |all| && IsSorted(RowsBelow(visible, token), all)
    requires r in visible && Newer(all[n - 1].key, r.key)
    ensures r in all[n..]
  {
    assert all[n - 1] in all;
    if token.Encoded? {
      NewerIsTransitive(token.key, all[n - 1].key, r.key);
    }
    assert r in all;
    var i :| 0 <= i < |all| && all[i] == r;
    NewerIsTotal(all[i].key, all[n - 1].key);
    assert i >= n;
    assert all[n..][i - n] == r;
  }

  lemma {:induction false} AfterCutIsBelow<T(!new)>(all: seq<Item<T>>, n: nat, r: Item<T>)
    requires 1 <= n < |all| && Descending(all) && r in all[n..]
    ensures r in all && Newer(all[n - 1].key, r.key)
  {
    var i :| 0 <= i < |all[n..]| && all[n..][i] == r;
    assert all[n + i] == r;
  }

  /** The rows after the cut are exactly the rows below the page's token. */
  lemma {:induction false} CutLeavesBelow<T(!new)>(visible: set<Item<T>>, n: nat, token: Token)
    requires GoodRows(visible) && n >= 1
    requires |Sorted(RowsBelow(visible, token))| > n
    ensures var all := Sorted(RowsBelow(visible, token));
            Sorted(RowsBelow(visible, Encoded(all[n - 1].key))) == all[n..]
  {
    var all := Sorted(RowsBelow(visible, token));
    var rest := RowsBelow(visible, Encoded(all[n - 1].key));
    forall r ensures r in all[n..] <==> r in rest {
      if r in rest {
        BelowIsAfterCut(all, n, visible, token, r);
      }
      if r in all[n..] {
        AfterCutIsBelow(all, n, r);
      }
    }
    SortedIsUnique(rest, all[n..], Sorted(rest));
  }

  ghost predicate FixedWalkGood<T(!new)>(visible: set<Item<T>>, n: nat, token: Token, pages: seq<Page<T>>)
    requires GoodRows(visible)
  {
    && Completed(pages)
    && Concat(pages) == Sorted(RowsBelow(visible, token))
    && (forall i :: 0 <= i < |pages| - 1 ==> |pages[i].items| == n)
  }

  lemma {:induction false} ConcatPrepend<T>(page: Page<T>, rest: seq<Page<T>>)
    ensures Concat([page] + rest) == page.items + Concat(rest)
    ensures Completed(rest) ==> Completed([page] + rest)
  {
    assert ([page] + rest)[1..] == rest;
  }

  lemma {:induction false} PrependFull<T>(page: Page<T>, rest: seq<Page<T>>, n: nat)
    requires |page.items| == n && forall i :: 0 <= i < |rest| - 1 ==> |rest[i].items| == n
    ensures forall i :: 0 <= i < |[page] + rest| - 1 ==> |([page] + rest)[i].items| == n
  {
  }

  lemma {:induction false} PrependPage<T(!new)>(visible: set<Item<T>>, n: nat, token: Token, rest: seq<Page<T>>)
    requires GoodRows(visible) && n >= 1 && |Sorted(RowsBelow(visible, token))| > n
    requires FixedWalkGood(visible, n, PageAt(visible, n, token).next, rest)
    ensures FixedWalkGood(visible, n, token, [PageAt(visible, n, token)] + rest)
  {
    CutLeavesBelow(visible, n, token);
    var all, page := Sorted(RowsBelow(visible, token)), PageAt(visible, n, token);
    ConcatPrepend(page, rest);
    PrependFull(page, rest, n);
    assert all == all[..n] + all[n..];
  }

  lemma {:induction false} LastPage<T(!new)>(visible: set<Item<T>>, n: nat, token: Token)
    requires GoodRows(visible) && n >= 1 && |Sorted(RowsBelow(visible, token))| <= n
    ensures FixedWalkGood(visible, n, token, [PageAt(visible, n, token)])
  {
    ConcatPrepend(PageAt(visible, n, token), []);
    assert [PageAt(visible, n, token)] + [] == [PageAt(visible, n, token)];
  }

  lemma {:induction false} FixedReferenceWalk<T(!new)>(visible: set<Item<T>>, n: nat, token: Token, count: nat)
    requires GoodRows(visible) && n >= 1
    requires count == PagesNeeded(|Sorted(RowsBelow(visible, token))|, n)
    ensures |ReferenceWalk(Same(visible, count), n, token)| == count
    ensures FixedWalkGood(visible, n, token, ReferenceWalk(Same(visible, count), n, token))
    decreases count
  {
    var page, views := PageAt(visible, n, token), Same(visible, count);
    if page.next.NoToken? {
      LastPage(visible, n, token);
      assert ReferenceWalk(views, n, token) == [page] + [] == [page];
    } else {
      CutLeavesBelow(visible, n, token);
      FixedReferenceWalk(visible, n, page.next, count - 1);
      assert views[1..] == Same(visible, count - 1);
      PrependPage(visible, n, token, ReferenceWalk(Same(visible, count - 1), n, page.next));
    }
  }

  /**
   Fixed-store paging is exact: for any rows and any accepted page size, following tokens from
   none yields exactly the rows, newest first, in max(1, ceil(rows / size)) pages, every page but
   the last full.
   */
  lemma {:induction false} FixedWalkIsExact<T(!new)>(visible: set<Item<T>>, size: int)
    requires GoodRows(visible) && AcceptedSize(size)
    ensures var count := PagesNeeded(|visible|, PageSize(size));
            var pages := Walk(Same(visible, count), size, NoToken);
            && |pages| == count && Completed(pages)
            && Concat(pages) == Sorted(visible)
            && (forall i :: 0 <= i < count - 1 ==> |pages[i].items| == PageSize(size))
  {
    assert RowsBelow(visible, NoToken) == visible;
    var count := PagesNeeded(|visible|, PageSize(size));
    FixedReferenceWalk(visible, PageSize(size), NoToken, count);
    WalkIsReference(Same(visible, count), size, NoToken);
  }

  // ---------- lists whose key moves: cases by last update ----------

  /** Between requests a row's time may only move forward. */
  ghost predicate OnlyTouched<T(!new)>(views: seq<set<Item<T>>>) {
    forall i, j, r, q :: 0 <= i < j < |views| && r in views[i] && q in views[j] && r.key.id == q.key.id ==>
        r.key.time <= q.key.time
  }

  lemma {:induction false} ListedAt<T>(pages: seq<Page<T>>, i: nat, r: Item<T>) returns (at: nat)
    requires i < |pages| && r in pages[i].items
    ensures at < |Concat(pages)| && Concat(pages)[at] == r
    ensures at >= |Concat(pages[..i])| && at < |Concat(pages[..i + 1])|
    decreases |pages|
  {
    if i == 0 {
      at :| 0 <= at < |pages[0].items| && pages[0].items[at] == r;
      assert pages[..1][1..] == [] && Concat(pages[..1]) == pages[0].items;
    } else {
      var inner := ListedAt(pages[1..], i - 1, r);
      at := |pages[0].items| + inner;
      assert pages[..i][1..] == pages[1..][..i - 1] && pages[..i + 1][1..] == pages[1..][..i];
    }
  }

  lemma {:induction false} ConcatGrows<T>(pages: seq<Page<T>>, i: nat, j: nat)
    requires i <= j <= |pages|
    ensures |Concat(pages[..i])| <= |Concat(pages[..j])|
    decreases i
  {
    if i > 0 {
      ConcatGrows(pages[1..], i - 1, j - 1);
      assert pages[..i][1..] == pages[1..][..i - 1] && pages[..j][1..] == pages[1..][..j - 1];
    }
  }

  /** Even when keys move forward during the walk, no row is listed on two pages. */
  lemma {:induction false} TouchedIsNotRepeated<T(!new)>(views: seq<set<Item<T>>>, size: int, i: nat, j: nat,
                                                         r: Item<T>, q: Item<T>)
    requires forall k :: 0 <= k < |views| ==> GoodRows(views[k])
    requires OnlyTouched(views) && AcceptedSize(size)
    requires var pages := Walk(views, size, NoToken); i < j < |pages| && r in pages[i].items && q in pages[j].items
    ensures r.key.id != q.key.id
  {
    var pages := Walk(views, size, NoToken);
    WalkUnderChange(views, size);
    var a := ListedAt(pages, i, r);
    var b := ListedAt(pages, j, q);
    ConcatGrows(pages, i + 1, j);
    assert Newer(r.key, q.key);
    LessIsTotal(r.key.id, r.key.id);
    assert r in views[i] && q in views[j];
  }

  lemma {:induction false} TouchedIsListedOnce<T(!new)>(views: seq<set<Item<T>>>, size: int)
    requires forall k :: 0 <= k < |views| ==> GoodRows(views[k])
    requires OnlyTouched(views) && AcceptedSize(size)
    ensures var items := Concat(Walk(views, size, NoToken)); forall k :: 0 <= k < |items| ==> OnlyAt(items, k)
  {
    var pages := Walk(views, size, NoToken);
    var items := Concat(pages);
    WalkUnderChange(views, size);
    forall j, k | 0 <= j < |items| && 0 <= k < |items| && items[j].key.id == items[k].key.id ensures j == k {
      var a := PageOf(pages, j);
      var b := PageOf(pages, k);
      if a < b {
        TouchedIsNotRepeated(views, size, a, b, items[j], items[k]);
      } else if b < a {
        TouchedIsNotRepeated(views, size, b, a, items[k], items[j]);
      } else {
        assert items[j] in views[a] && items[k] in views[a];
        NewerIsTotal(items[j].key, items[k].key);
      }
    }
  }

  ghost predicate HasID<T(!new)>(view: set<Item<T>>, id: string) {
    exists r :: r in view && r.key.id == id
  }

  predicate IDListed<T>(items: seq<Item<T>>, id: string) {
    exists i :: 0 <= i < |items| && items[i].key.id == id
  }

  /**
   Between requests i and i + 1 the row was touched across the cursor: still to come before, passed
   over afterwards.
   */
  ghost predicate Crosses<T(!new)>(views: seq<set<Item<T>>>, pages: seq<Page<T>>, id: string, i: int)
    requires |pages| <= |views|
  {
    && 0 <= i < |pages| - 1
    && exists r, q :: r in views[i] && q in views[i + 1] && r.key.id == id && q.key.id == id
                      && Below(r.key, pages[i].next) && !Below(q.key, pages[i].next)
  }

  /** Views of a list whose rows only move forward, all with this row. */
  ghost predicate Touchable<T(!new)>(views: seq<set<Item<T>>>, id: string) {
    OnlyTouched(views) && forall i :: 0 <= i < |views| ==> GoodRows(views[i]) && HasID(views[i], id)
  }

  lemma {:induction false} TouchableTail<T(!new)>(views: seq<set<Item<T>>>, id: string)
    requires views != [] && Touchable(views, id)
    ensures Touchable(views[1..], id)
  {
    var rest := views[1..];
    forall i, j, r: Item<T>, q: Item<T> | 0 <= i < j < |rest| && r in rest[i] && q in rest[j] && r.key.id == q.key.id
      ensures r.key.time <= q.key.time
    {
      assert r in views[i + 1] && q in views[j + 1];
    }
  }

  /** A row that is not below the token is not below a later one either, wherever it moved. */
  lemma {:induction false} StaysPassed(token: Token, next: Token, before: Key, after: Key)
    requires token.Encoded? && next.Encoded? && Newer(token.key, next.key)
    requires before.id == after.id && before.time <= after.time && !Below(before, token)
    ensures !Below(after, next)
  {
    if Newer(next.key, after) {
      NewerIsTransitive(token.key, next.key, after);
    }
  }

  /** What is not below the token is on none of the pages that follow it, and crosses none of their cursors. */
  lemma {:induction false} PassedIsUnlisted<T(!new)>(views: seq<set<Item<T>>>, n: nat, token: Token, id: string,
                                                     r: Item<T>)
    requires n >= 1 && views != [] && Touchable(views, id) && r in views[0] && r.key.id == id && !Below(r.key, token)
    ensures var pages := ReferenceWalk(views, n, token);
            !IDListed(Concat(pages), id) && forall i :: !Crosses(views, pages, id, i)
    decreases |views|
  {
    var page, pages := PageAt(views[0], n, token), ReferenceWalk(views, n, token);
    PageShape(views[0], n, token);
    PassedIsNotOn(views[0], page.items, token, id, r);
    if page.next.NoToken? || |views| == 1 {
      assert pages[1..] == [];
    } else {
      var q :| q in views[1] && q.key.id == id;
      assert r.key.time <= q.key.time;
      assert page.next.key == page.items[|page.items| - 1].key && Below(page.next.key, token);
      StaysPassed(token, page.next, r.key, r.key);
      StaysPassed(token, page.next, r.key, q.key);
      TouchableTail(views, id);
      PassedIsUnlisted(views[1..], n, page.next, id, q);
      PrependUnlisted(views, page, ReferenceWalk(views[1..], n, page.next), id, r);
    }
  }

  lemma {:induction false} PassedIsNotOn<T(!new)>(view: set<Item<T>>, items: seq<Item<T>>, token: Token, id: string,
                                                  r: Item<T>)
    requires GoodRows(view) && AllBelow(items, token) && forall q :: q in items ==> q in view
    requires r in view && r.key.id == id && !Below(r.key, token)
    ensures !IDListed(items, id)
  {
    forall i | 0 <= i < |items| ensures items[i].key.id != id {
      assert items[i] in items;
    }
  }

  lemma {:induction false} PrependUnlisted<T(!new)>(
      views: seq<set<Item<T>>>, page: Page<T>, rest: seq<Page<T>>, id: string, r: Item<T>)
    requires |views| > 1 && |rest| <= |views| - 1 && GoodRows(views[0])
    requires r in views[0] && r.key.id == id && !Below(r.key, page.next)
    requires !IDListed(page.items, id) && !IDListed(Concat(rest), id)
    requires forall i :: !Crosses(views[1..], rest, id, i)
    ensures !IDListed(Concat([page] + rest), id) && forall i :: !Crosses(views, [page] + rest, id, i)
  {
    ConcatPrepend(page, rest);
    forall i ensures !Crosses(views, [page] + rest, id, i) {
      CrossesShift(views, page, rest, id, i, r);
    }
  }

  /** A crossing is at the first cursor or one of the rest. */
  lemma {:induction false} CrossesShift<T(!new)>(
      views: seq<set<Item<T>>>, page: Page<T>, rest: seq<Page<T>>, id: string, i: int, r: Item<T>)
    requires |views| > 1 && |rest| <= |views| - 1 && GoodRows(views[0]) && r in views[0] && r.key.id == id
    ensures Crosses(views, [page] + rest, id, i) ==>
              (i == 0 && Below(r.key, page.next)) || (i > 0 && Crosses(views[1..], rest, id, i - 1))
    ensures i >= 0 && Crosses(views[1..], rest, id, i) ==> Crosses(views, [page] + rest, id, i + 1)
  {
    var pages := [page] + rest;
    if Crosses(views, pages, id, i) && i > 0 {
      assert pages[i] == rest[i - 1] && views[i] == views[1..][i - 1] && views[i + 1] == views[1..][i];
    }
    if i >= 0 && Crosses(views[1..], rest, id, i) {
      assert pages[i + 1] == rest[i] && views[i + 1] == views[1..][i] && views[i + 2] == views[1..][i + 1];
    }
  }

  lemma {:induction false} ListedPrepend<T>(page: Page<T>, rest: seq<Page<T>>, id: string)
    ensures IDListed(Concat([page] + rest), id) <==> IDListed(page.items, id) || IDListed(Concat(rest), id)
  {
    ConcatPrepend(page, rest);
    var items := page.items + Concat(rest);
    if IDListed(page.items, id) {
      var i :| 0 <= i < |page.items| && page.items[i].key.id == id;
      assert items[i].key.id == id;
    }
    if IDListed(Concat(rest), id) {
      var i :| 0 <= i < |Concat(rest)| && Concat(rest)[i].key.id == id;
      assert items[|page.items| + i].key.id == id;
    }
  }

  /** A row on a page is not below that page's own token. */
  lemma {:induction false} OnPageIsPassed<T(!new)>(view: set<Item<T>>, n: nat, token: Token, id: string, r: Item<T>)
    requires GoodRows(view) && n >= 1 && r in view && r.key.id == id && PageAt(view, n, token).next.Encoded?
    requires IDListed(PageAt(view, n, token).items, id)
    ensures !Below(r.key, PageAt(view, n, token).next)
  {
    var items := PageAt(view, n, token).items;
    PageShape(view, n, token);
    var i :| 0 <= i < |items| && items[i].key.id == id;
    assert items[i] in items && items[i] == r;
    NewerIsTotal(r.key, items[|items| - 1].key);
  }

  /** A page lists exactly the rows between its two tokens. */
  lemma {:induction false} OnPageIff<T(!new)>(view: set<Item<T>>, n: nat, token: Token, id: string, r: Item<T>)
    requires GoodRows(view) && n >= 1 && r in view && r.key.id == id && Below(r.key, token)
    ensures var page := PageAt(view, n, token);
            IDListed(page.items, id) <==> page.next.NoToken? || !Below(r.key, page.next)
  {
    var page := PageAt(view, n, token);
    assert KeyVisible(view, r.key);
    ShownOrBelow(view, n, token, r.key);
    PageShape(view, n, token);
    if IDListed(page.items, id) && page.next.Encoded? {
      OnPageIsPassed(view, n, token, id, r);
    }
  }

  /** What a walk of more than one page shows after its first page. */
  lemma {:induction false} ListedLater<T(!new)>(
      views: seq<set<Item<T>>>, n: nat, token: Token, id: string, r: Item<T>, q: Item<T>)
    requires n >= 1 && |views| > 1 && Touchable(views, id) && token.Encoded?
    requires r in views[0] && q in views[1] && r.key.id == id && q.key.id == id && !Below(r.key, token)
    ensures var rest := ReferenceWalk(views[1..], n, token);
            !IDListed(Concat(rest), id) && forall i :: !Crosses(views[1..], rest, id, i)
  {
    assert r.key.time <= q.key.time;
    MovesOn(r.key, q.key, token);
    TouchableTail(views, id);
    PassedIsUnlisted(views[1..], n, token, id, q);
  }

  ghost predicate Uncrossed<T(!new)>(views: seq<set<Item<T>>>, pages: seq<Page<T>>, id: string)
    requires |pages| <= |views|
  {
    forall i :: !Crosses(views, pages, id, i)
  }

  /** What the first page adds to what the rest of the walk shows. */
  lemma {:induction false} FirstPageDecides<T(!new)>(
      views: seq<set<Item<T>>>, page: Page<T>, rest: seq<Page<T>>, id: string, r: Item<T>, q: Item<T>)
    requires |views| > 1 && rest != [] && |rest| <= |views| - 1 && GoodRows(views[0]) && GoodRows(views[1])
    requires r in views[0] && q in views[1] && r.key.id == id && q.key.id == id && page.next.Encoded?
    requires IDListed(page.items, id) <==> !Below(r.key, page.next)
    requires if Below(r.key, page.next) && Below(q.key, page.next)
             then IDListed(Concat(rest), id) <==> Uncrossed(views[1..], rest, id)
             else !IDListed(Concat(rest), id) && Uncrossed(views[1..], rest, id)
    ensures IDListed(Concat([page] + rest), id) <==> Uncrossed(views, [page] + rest, id)
  {
    ListedPrepend(page, rest, id);
    CrossingsOf(views, page, rest, id, r, q);
  }

  lemma {:induction false} ListedIffUncrossed<T(!new)>(views: seq<set<Item<T>>>, n: nat, token: Token, id: string,
                                                       r: Item<T>)
    requires n >= 1 && views != [] && Touchable(views, id) && r in views[0] && r.key.id == id && Below(r.key, token)
    requires Completed(ReferenceWalk(views, n, token))
    ensures var pages := ReferenceWalk(views, n, token);
            IDListed(Concat(pages), id) <==> Uncrossed(views, pages, id)
    decreases |views|
  {
    var page := PageAt(views[0], n, token);
    OnPageIff(views[0], n, token, id, r);
    if page.next.NoToken? {
      assert ReferenceWalk(views, n, token) == [page] + [];
      ListedPrepend(page, [], id);
    } else {
      var rest := ReferenceWalk(views[1..], n, page.next);
      assert ReferenceWalk(views, n, token) == [page] + rest;
      CompletedRest(page, rest);
      var q :| q in views[1] && q.key.id == id;
      TouchableTail(views, id);
      if !Below(r.key, page.next) {
        ListedLater(views, n, page.next, id, r, q);
      } else if Below(q.key, page.next) {
        ListedIffUncrossed(views[1..], n, page.next, id, q);
      } else {
        PassedIsUnlisted(views[1..], n, page.next, id, q);
      }
      FirstPageDecides(views, page, rest, id, r, q);
    }
  }

  lemma {:induction false} MovesOn(before: Key, after: Key, token: Token)
    requires token.Encoded? && before.id == after.id && before.time <= after.time && !Below(before, token)
    ensures !Below(after, token)
  {
  }

  lemma {:induction false} CompletedRest<T>(page: Page<T>, rest: seq<Page<T>>)
    requires Completed([page] + rest) && page.next != NoToken
    ensures Completed(rest)
  {
  }

  /** The crossings of a walk are the one at its first cursor, if any, and those of its rest. */
  lemma {:induction false} CrossingsOf<T(!new)>(
      views: seq<set<Item<T>>>, page: Page<T>, rest: seq<Page<T>>, id: string, r: Item<T>, q: Item<T>)
    requires |views| > 1 && rest != [] && |rest| <= |views| - 1 && GoodRows(views[0]) && GoodRows(views[1])
    requires r in views[0] && q in views[1] && r.key.id == id && q.key.id == id
    ensures (exists i :: Crosses(views, [page] + rest, id, i)) <==>
              (Below(r.key, page.next) && !Below(q.key, page.next)) || exists i :: Crosses(views[1..], rest, id, i)
  {
    var pages := [page] + rest;
    if i :| Crosses(views, pages, id, i) {
      CrossesShift(views, page, rest, id, i, r);
    }
    if i :| Crosses(views[1..], rest, id, i) {
      CrossesShift(views, page, rest, id, i, r);
      assert Crosses(views, pages, id, i + 1);
    }
    if Below(r.key, page.next) && !Below(q.key, page.next) {
      assert Crosses(views, pages, id, 0);
    }
  }

  /**
   When rows only move forward in time between requests, a completed walk lists a row that was
   there throughout exactly when the row was never touched across the cursor.
   */
  lemma {:induction false} TouchedIsListedIff<T(!new)>(views: seq<set<Item<T>>>, size: int, id: string)
    requires AcceptedSize(size) && views != [] && Touchable(views, id)
    requires Completed(Walk(views, size, NoToken))
    ensures var pages := Walk(views, size, NoToken);
            IDListed(Concat(pages), id) <==> Uncrossed(views, pages, id)
  {
    WalkIsReference(views, size, NoToken);
    var r :| r in views[0] && r.key.id == id;
    ListedIffUncrossed(views, PageSize(size), NoToken, id, r);
  }

  lemma {:induction false} ConcatOf2<T>(first: Page<T>, second: Page<T>)
    ensures Concat([first, second]) == first.items + second.items
  {
    assert [first, second][1..] == [second];
    assert [second][1..] == [];
    assert Concat([second]) == second.items + [];
  }

  /** A completed walk over views that all have the row, none of whose pages does. */
  ghost predicate Misses(views: seq<set<Item<int>>>, id: string) {
    && (forall i :: 0 <= i < |views| ==> GoodRows(views[i]) && HasID(views[i], id))
    && OnlyTouched(views)
    && Completed(Walk(views, 1, NoToken))
    && (forall r :: r in Concat(Walk(views, 1, NoToken)) ==> r.key.id != id)
  }

  const NEWER_ROW := Item(Key(2, "a"), 0)
  const OLDER_ROW := Item(Key(1, "c"), 0)
  const TOUCHED_ROW := Item(Key(3, "c"), 0)

  lemma {:induction false} FirstPageOfTwo()
    ensures GoodRows({NEWER_ROW, OLDER_ROW})
    ensures PageAt({NEWER_ROW, OLDER_ROW}, 1, NoToken) == Page([NEWER_ROW], Encoded(NEWER_ROW.key))
  {
    var rows := {NEWER_ROW, OLDER_ROW};
    assert RowsBelow(rows, NoToken) == rows;
    SortedIsUnique(rows, Sorted(rows), [NEWER_ROW, OLDER_ROW]);
  }

  lemma {:induction false} NothingLeftAfterTouch()
    ensures GoodRows({TOUCHED_ROW, NEWER_ROW})
    ensures PageAt({TOUCHED_ROW, NEWER_ROW}, 1, Encoded(NEWER_ROW.key)) == Page([], NoToken)
  {
    LessIsTotal("a", "a");
    assert RowsBelow({TOUCHED_ROW, NEWER_ROW}, Encoded(NEWER_ROW.key)) == {};
  }

  ghost function TouchedViews(): seq<set<Item<int>>> {
    [{NEWER_ROW, OLDER_ROW}, {TOUCHED_ROW, NEWER_ROW}]
  }

  lemma {:induction false} TouchedWalk()
    ensures forall i :: 0 <= i < |TouchedViews()| ==> GoodRows(TouchedViews()[i])
    ensures Walk(TouchedViews(), 1, NoToken) == [Page([NEWER_ROW], Encoded(NEWER_ROW.key)), Page([], NoToken)]
  {
    FirstPageOfTwo();
    NothingLeftAfterTouch();
    var last: seq<set<Item<int>>> := [{TOUCHED_ROW, NEWER_ROW}];
    assert TouchedViews()[1..] == last && last[1..] == [];
    var token := Encoded(NEWER_ROW.key);
    assert ReferenceWalk(last, 1, token) == [PageAt(last[0], 1, token)];
    WalkIsReference(TouchedViews(), 1, NoToken);
  }

  lemma {:induction false} TouchedViewsHaveIt()
    ensures HasID(TouchedViews()[0], "c") && HasID(TouchedViews()[1], "c")
  {
    assert OLDER_ROW in TouchedViews()[0] && TOUCHED_ROW in TouchedViews()[1];
  }

  lemma {:induction false} TouchedMovesForward(r: Item<int>, q: Item<int>)
    requires r in TouchedViews()[0] && q in TouchedViews()[1] && r.key.id == q.key.id
    ensures r.key.time <= q.key.time
  {
  }

  lemma {:induction false} TouchedViewsOnlyTouched()
    ensures OnlyTouched(TouchedViews())
  {
    var views := TouchedViews();
    forall i, j, r: Item<int>, q: Item<int> | 0 <= i < j < |views| && r in views[i] && q in views[j]
        && r.key.id == q.key.id
      ensures r.key.time <= q.key.time
    {
      assert i == 0 && j == 1;
      TouchedMovesForward(r, q);
    }
  }

  lemma {:induction false} MissesIf(views: seq<set<Item<int>>>, first: Page<int>, last: Page<int>, id: string)
    requires forall i :: 0 <= i < |views| ==> GoodRows(views[i]) && HasID(views[i], id)
    requires OnlyTouched(views) && Walk(views, 1, NoToken) == [first, last] && last.next == NoToken
    requires forall r :: r in Concat([first, last]) ==> r.key.id != id
    ensures Misses(views, id)
  {
  }

  /**
   But a row touched before the walk reached it is missed: the reason cases, listed by their last
   update, are promised less.
   */
  lemma {:induction false} TouchedCanBeMissed()
    ensures exists views :: Misses(views, "c")
  {
    TouchedWalk();
    TouchedViewsHaveIt();
    TouchedViewsOnlyTouched();
    ConcatOf2<int>(Page([NEWER_ROW], Encoded(NEWER_ROW.key)), Page([], NoToken));
    MissesIf(TouchedViews(), Page([NEWER_ROW], Encoded(NEWER_ROW.key)), Page([], NoToken), "c");
  }

  // ---------- the code ----------

  /** sort.Slice by `newer`; its result is all that matters, so insertion stands in for the library's sort. */
  method SortNewestFirst<T(!new)>(items: seq<Item<T>>) returns (sorted: seq<Item<T>>)
    requires forall i, j :: 0 <= i < j < |items| ==> items[i].key != items[j].key
    ensures Descending(sorted) && (forall r :: r in sorted <==> r in items)
  {
    sorted := [];
    for i := 0 to |items|
      invariant Descending(sorted) && (forall r :: r in sorted <==> r in items[..i])
    {
      var at := 0;
      while at < |sorted| && Newer(sorted[at].key, items[i].key)
        invariant 0 <= at <= |sorted|
        invariant forall k :: 0 <= k < at ==> Newer(sorted[k].key, items[i].key)
      {
        at := at + 1;
      }
      InsertKeepsOrder(sorted, at, items[i], items[..i]);
      sorted := sorted[..at] + [items[i]] + sorted[at..];
      assert items[..i + 1] == items[..i] + [items[i]];
    }
    assert items[..|items|] == items;
  }

  lemma {:induction false} InsertKeepsOrder<T>(sorted: seq<Item<T>>, at: nat, x: Item<T>, seen: seq<Item<T>>)
    requires Descending(sorted) && at <= |sorted|
    requires forall k :: 0 <= k < at ==> Newer(sorted[k].key, x.key)
    requires at < |sorted| ==> !Newer(sorted[at].key, x.key)
    requires forall r :: r in sorted ==> r in seen
    requires forall r :: r in seen ==> r.key != x.key
    ensures Descending(sorted[..at] + [x] + sorted[at..])
    ensures forall r :: r in sorted[..at] + [x] + sorted[at..] <==> r in sorted || r == x
  {
    assert sorted == sorted[..at] + sorted[at..];
    var s := sorted[..at] + [x] + sorted[at..];
    if at < |sorted| {
      assert sorted[at] in seen;
      NewerIsTotal(sorted[at].key, x.key);
    }
    forall i, j | 0 <= i < j < |s| ensures Newer(s[i].key, s[j].key) {
      if i == at && j > at + 1 {
        NewerIsTransitive(x.key, sorted[at].key, sorted[j - 1].key);
      }
    }
  }

  /** The repository's list methods: collect the matching rows before the cursor, sort, cut to the limit. */
  method ListPage<T(!new, ==)>(rows: set<Item<T>>, matches: T -> bool, request: PageRequest)
      returns (items: seq<Item<T>>)
    requires GoodRows(rows) && request.limit >= 0
    ensures items == Listed((set r | r in rows && matches(r.data)), request)
  {
    ghost var visible := set r | r in rows && matches(r.data);
    items := [];
    var left := rows;
    while left != {}
      invariant left <= rows
      invariant forall r :: r in items <==> r in Remaining(visible, request) && r !in left
      invariant forall i, j :: 0 <= i < j < |items| ==> items[i].key != items[j].key
      decreases left
    {
      var r :| r in left;
      left := left - {r};
      if matches(r.data) && Before(r.key, request) {
        items := items + [r];
      }
    }
    items := SortNewestFirst(items);
    SortedIsUnique(Remaining(visible, request), items, Sorted(Remaining(visible, request)));
    if |items| > request.limit {
      items := items[..request.limit];
    }
  }
}
