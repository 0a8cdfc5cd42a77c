// Keyset paging of posts: the cursor's text, one page, and a whole walk from page to page.
module Paging {
  import opened Finite
  import opened Text
  import Base64

  const DEFAULT_SIZE: nat := 20
  const MAX_SIZE: nat := 50

  // created in microseconds; id as text, ordered as text.
  datatype Post = Post(created: int, id: Base64.Bytes)

  // ---- the cursor ----

  type Cursor = Post // the (created_at, id) of the last post handed out

  predicate IsInt64(n: int) {
    -0x8000_0000_0000_0000 <= n <= 0x7FFF_FFFF_FFFF_FFFF
  }

  function CursorText(p: Post): Base64.Bytes {
    NumberIsBytes(p.created);
    PrintInt(p.created) + "|" + p.id
  }

  function Encode(p: Post): string {
    Base64.Encode(CursorText(p))
  }

  datatype Decoded = NoCursor | At(cursor: Cursor) | Invalid

  function DecodeText(raw: Base64.Bytes): Decoded {
    match Cut(raw, '|')
    case None => Invalid
    case Some(parts) =>
      CutBytes(raw, '|');
      match ParseInt(parts.0)
      case None => Invalid
      case Some(micros) =>
        if !IsInt64(micros) || parts.1 == "" then Invalid else At(Post(micros, parts.1))
  }

  function Decode(token: string): Decoded {
    if token == "" then NoCursor
    else
      match Base64.Decode(token)
      case None => Invalid
      case Some(raw) => DecodeText(raw)
  }

  // Every token that is handed out is understood, and means the post it was made from.
  lemma DecodeUndoesEncode(p: Post)
    requires IsInt64(p.created) && p.id != ""
    ensures Encode(p) != "" && Decode(Encode(p)) == At(p)
  {
    var ts := PrintInt(p.created);
    NoBarInNumber(p.created);
    CutAtFirst(ts, '|', p.id);
    assert CursorText(p) == ts + ['|'] + p.id;
    PrintParse(p.created);
    Base64.DecodeUndoesEncode(CursorText(p));
  }

  lemma NoBarInNumber(n: int)
    ensures '|' !in PrintInt(n)
  {
    var digits := Digits(if n < 0 then -n else n);
    forall i | 0 <= i < |digits| ensures digits[i] != '|' {
      assert IsDigit(digits[i]);
    }
  }

  lemma NumberIsBytes(n: int)
    ensures Base64.AllBytes(PrintInt(n))
  {
    var digits := Digits(if n < 0 then -n else n);
    forall i | 0 <= i < |digits| ensures Base64.IsByte(digits[i]) {
      assert IsDigit(digits[i]);
    }
  }

  lemma {:induction false} CutBytes(s: string, sep: char)
    requires Base64.AllBytes(s)
    ensures Cut(s, sep).Some? ==> Base64.AllBytes(Cut(s, sep).value.1)
  {
    if s != "" && s[0] != sep {
      CutBytes(s[1..], sep);
    }
  }

  // ---- order: ORDER BY created_at DESC, id DESC ----

  predicate Newer(a: Post, b: Post) {
    a.created > b.created || (a.created == b.created && Less(b.id, a.id))
  }

  lemma NewerIsTotal(a: Post, b: Post)
    ensures a == b || Newer(a, b) || Newer(b, a)
    ensures !(Newer(a, b) && Newer(b, a)) && !Newer(a, a)
  {
    LessIsTotal(a.id, b.id);
    LessIsTotal(a.id, a.id);
  }

  lemma NewerIsTransitive(a: Post, b: Post, c: Post)
    requires Newer(a, b) && Newer(b, c)
    ensures Newer(a, c)
  {
    if a.created == b.created && b.created == c.created {
      LessIsTransitive(c.id, b.id, a.id);
    }
  }

  ghost predicate Descending(posts: seq<Post>) {
    forall i, j :: 0 <= i < j < |posts| ==> Newer(posts[i], posts[j])
  }

  // ---- one page ----

  // The rows the keyset predicate lets through.
  function Remaining(scope: set<Post>, cur: Option<Cursor>): set<Post> {
    set p | p in scope && (cur.None? || Newer(cur.value, p))
  }

  function Limit(pageSize: int): nat {
    if pageSize <= 0 || pageSize > MAX_SIZE then DEFAULT_SIZE else pageSize
  }

  // The newest `limit` of what remains, newest first.
  ghost predicate IsTop(scope: set<Post>, cur: Option<Cursor>, limit: nat, posts: seq<Post>) {
    && Descending(posts)
    && (forall p :: p in posts ==> p in Remaining(scope, cur))
    && (forall p, q :: p in posts && q in Remaining(scope, cur) && q !in posts ==> Newer(p, q))
    && (|posts| == limit || (|posts| < limit && forall q :: q in Remaining(scope, cur) ==> q in posts))
  }

  // A page: at most the limit, and a token exactly when something is left.
  datatype Page = Page(posts: seq<Post>, next: string)

  // Something remains that the page does not show.
  ghost predicate Continues(scope: set<Post>, cur: Option<Cursor>, posts: seq<Post>) {
    exists q :: q in Remaining(scope, cur) && q !in posts
  }

  ghost predicate IsPage(scope: set<Post>, cur: Option<Cursor>, limit: nat, page: Page) {
    && Descending(page.posts)
    && (forall p :: p in page.posts ==> p in Remaining(scope, cur))
    && (forall p, q :: p in page.posts && q in Remaining(scope, cur) && q !in page.posts ==> Newer(p, q))
    && (page.next == "" ==> forall q :: q in Remaining(scope, cur) ==> q in page.posts)
    && (page.next != "" ==> |page.posts| == limit > 0 && page.next == Encode(page.posts[limit - 1]))
    && (page.next != "" ==> Continues(scope, cur, page.posts))
    && |page.posts| <= limit
  }

  // Feed / ListForAuthor: ORDER BY ... LIMIT over the visible in-scope rows
  method Query(scope: set<Post>, cur: Option<Cursor>, limit: nat) returns (posts: seq<Post>)
    ensures IsTop(scope, cur, limit, posts)
  {
    hide Newer;
    var left := Remaining(scope, cur);
    posts := [];
    while |posts| < limit && left != {}
      invariant |posts| <= limit
      invariant left <= Remaining(scope, cur) && forall p :: p in posts <==> p in Remaining(scope, cur) - left
      invariant Descending(posts)
      invariant forall p, q :: p in posts && q in left ==> Newer(p, q)
      decreases left
    {
      NewestExists(left);
      var top :| top in left && forall q :: q in left && q != top ==> Newer(top, q);
      posts := posts + [top];
      left := left - {top};
    }
  }

  lemma {:induction false} NewestExists(s: set<Post>)
    requires s != {}
    ensures exists top :: top in s && forall q :: q in s && q != top ==> Newer(top, q)
    decreases |s|
  {
    hide Newer;
    var p :| p in s;
    var rest := s - {p};
    if rest == {} {
      assert s == {p};
    } else {
      NewestExists(rest);
      var top :| top in rest && forall q :: q in rest && q != top ==> Newer(top, q);
      NewerIsTotal(p, top);
      if Newer(p, top) {
        forall q | q in s && q != p ensures Newer(p, q) {
          if q != top {
            NewerIsTransitive(p, top, q);
          }
        }
      } else {
        assert forall q :: q in s && q != top ==> q == p || q in rest;
      }
    }
  }

  function CursorIn(token: string): Option<Cursor> {
    if Decode(token).At? then Some(Decode(token).cursor) else None
  }

  ghost predicate Answers(scope: set<Post>, token: string, pageSize: int, page: Page) {
    !Decode(token).Invalid? && IsPage(scope, CursorIn(token), Limit(pageSize), page)
  }

  // GetFeed (keyset scopes) and ListPosts, over the rows the caller may see
  method GetPage(scope: set<Post>, pageSize: int, token: string) returns (ok: bool, page: Page)
    ensures ok <==> !Decode(token).Invalid?
    ensures ok ==> Answers(scope, token, pageSize, page)
    ensures |page.posts| <= if 1 <= pageSize <= 50 then pageSize else 20
    ensures forall i, j :: 0 <= i < j < |page.posts| ==> page.posts[i].created >= page.posts[j].created
  {
    LimitMeans(pageSize);
    hide Newer, Decode, Encode;
    var decoded := Decode(token);
    if decoded.Invalid? {
      return false, Page([], "");
    }
    var cur := if decoded.At? then Some(decoded.cursor) else None;
    var limit := if pageSize <= 0 || pageSize > MAX_SIZE then DEFAULT_SIZE else pageSize;
    var posts := Query(scope, cur, limit + 1);
    var next := "";
    if |posts| > limit {
      Trimmed(scope, cur, limit, posts);
      posts := posts[..limit];
      next := Encode(posts[limit - 1]);
    }
    NewestFirst(posts);
    return true, Page(posts, next);
  }

  lemma NewestFirst(posts: seq<Post>)
    requires Descending(posts)
    ensures forall i, j :: 0 <= i < j < |posts| ==> posts[i].created >= posts[j].created
  { }

  // One row more than asked for tells that the page is not the last.
  lemma Trimmed(scope: set<Post>, cur: Option<Cursor>, limit: nat, all: seq<Post>)
    requires IsTop(scope, cur, limit + 1, all) && |all| > limit > 0
    ensures IsPage(scope, cur, limit, Page(all[..limit], Encode(all[limit - 1])))
  {
    hide Newer, Encode;
    EncodeNotEmpty(all[limit - 1]);
    var posts := all[..limit];
    assert all == posts + [all[limit]];
    forall p, q | p in posts && q in Remaining(scope, cur) && q !in posts ensures Newer(p, q) {
      assert p in all;
      if q in all {
        assert q == all[limit];
      }
    }
    forall i | 0 <= i < limit ensures all[i] != all[limit] {
      NewerIsTotal(all[i], all[limit]);
    }
    assert all[limit] in Remaining(scope, cur) && all[limit] !in posts;
  }

  lemma EncodeNotEmpty(p: Post)
    ensures Encode(p) != ""
  {
    assert CursorText(p) != "";
    Base64.DecodeUndoesEncode(CursorText(p));
  }

  // ---- a walk ----

  // The client follows each token; before every further request posts newer than the last one seen may arrive.
  datatype Walk = Walk(scopes: seq<set<Post>>, sizes: seq<int>, pages: seq<Page>)

  function CursorAfter(w: Walk, k: nat): Option<Cursor>
    requires k <= |w.pages|
  {
    if k == 0 then None
    else
      var posts := w.pages[k - 1].posts;
      if posts == [] then None else Some(posts[|posts| - 1])
  }

  ghost predicate Arrivals(before: set<Post>, after: set<Post>, cur: Option<Cursor>) {
    before <= after && forall p :: p in after && p !in before ==> cur.Some? && Newer(p, cur.value)
  }

  // Each request carries the token of the page before it.
  function TokenFor(w: Walk, k: nat): string
    requires k <= |w.pages|
  {
    if k == 0 then "" else w.pages[k - 1].next
  }

  // Rows a token can name: 64-bit timestamps and an id.
  ghost predicate Storable(scope: set<Post>) {
    forall p :: p in scope ==> IsInt64(p.created) && p.id != ""
  }

  ghost predicate IsWalk(w: Walk) {
    && |w.scopes| == |w.sizes| == |w.pages| > 0
    && (forall k :: 0 <= k < |w.pages| ==>
          Storable(w.scopes[k]) && Answers(w.scopes[k], TokenFor(w, k), w.sizes[k], w.pages[k]))
    && (forall k :: 0 <= k < |w.pages| - 1 ==>
      w.pages[k].next != "" && Arrivals(w.scopes[k], w.scopes[k + 1], CursorAfter(w, k + 1)))
    && w.pages[|w.pages| - 1].next == ""
  }

  // The same walk told in cursors instead of tokens.
  ghost predicate IsKeysetWalk(w: Walk) {
    && |w.scopes| == |w.sizes| == |w.pages| > 0
    && (forall k :: 0 <= k < |w.pages| ==> IsPage(w.scopes[k], CursorAfter(w, k), Limit(w.sizes[k]), w.pages[k]))
    && (forall k :: 0 <= k < |w.pages| - 1 ==>
      w.pages[k].next != "" && Arrivals(w.scopes[k], w.scopes[k + 1], CursorAfter(w, k + 1)))
    && w.pages[|w.pages| - 1].next == ""
  }

  function Seen(pages: seq<Page>): seq<Post> {
    if pages == [] then [] else Seen(pages[..|pages| - 1]) + pages[|pages| - 1].posts
  }

  // What was seen so far is in order and is exactly the part of the first scope not older than the cursor; what
  // remains now is exactly the rest of it.
  ghost predicate Covers(first: set<Post>, seen: seq<Post>, scope: set<Post>, cur: Cursor) {
    && Descending(seen)
    && (forall p :: p in seen ==> p in first && (p == cur || Newer(p, cur)))
    && (forall p :: p in first ==> p in seen || p in Remaining(scope, Some(cur)))
    && (forall p :: p in Remaining(scope, Some(cur)) ==> p in first)
  }

  lemma PageEndsAtLast(posts: seq<Post>)
    requires Descending(posts) && posts != []
    ensures posts[|posts| - 1] in posts
    ensures forall p :: p in posts ==> p == posts[|posts| - 1] || Newer(p, posts[|posts| - 1])
  { }

  // Below the last post of a page is just what the page left out.
  lemma BelowPage(scope: set<Post>, cur: Option<Cursor>, limit: nat, page: Page)
    requires IsPage(scope, cur, limit, page) && page.posts != []
    ensures var last := page.posts[|page.posts| - 1];
      forall p :: p in Remaining(scope, Some(last)) <==> p in Remaining(scope, cur) && p !in page.posts
  {
    hide Newer;
    var posts := page.posts;
    var last := posts[|posts| - 1];
    PageEndsAtLast(posts);
    forall p | p in Remaining(scope, Some(last)) ensures p in Remaining(scope, cur) && p !in posts {
      if cur.Some? {
        NewerIsTransitive(cur.value, last, p);
      }
      NewerIsTotal(p, last);
    }
  }

  lemma FirstPage(scope: set<Post>, limit: nat, page: Page)
    requires IsPage(scope, None, limit, page) && page.posts != []
    ensures Covers(scope, page.posts, scope, page.posts[|page.posts| - 1])
  {
    hide Newer;
    BelowPage(scope, None, limit, page);
    PageEndsAtLast(page.posts);
  }

  lemma NextPage(first: set<Post>, seen: seq<Post>, scope: set<Post>, cur: Cursor, limit: nat, page: Page)
    requires Covers(first, seen, scope, cur) && IsPage(scope, Some(cur), limit, page) && page.posts != []
    ensures Covers(first, seen + page.posts, scope, page.posts[|page.posts| - 1])
  {
    hide Newer;
    var posts := page.posts;
    var last := posts[|posts| - 1];
    BelowPage(scope, Some(cur), limit, page);
    PageEndsAtLast(posts);
    forall p, q | p in seen && q in posts ensures Newer(p, q) {
      if p != cur {
        NewerIsTransitive(p, cur, q);
      }
    }
    InOrder(seen, posts);
    forall p | p in seen + posts ensures p in first && (p == last || Newer(p, last)) {
      if p in seen {
        assert Newer(p, last);
      }
    }
  }

  lemma InOrder(seen: seq<Post>, posts: seq<Post>)
    requires Descending(seen) && Descending(posts) && forall p, q :: p in seen && q in posts ==> Newer(p, q)
    ensures Descending(seen + posts)
  {
    hide Newer;
  }

  // What remains below a cursor is not changed by arrivals above it.
  lemma ArrivalsStayAbove(before: set<Post>, after: set<Post>, cur: Cursor)
    requires Arrivals(before, after, Some(cur))
    ensures Remaining(after, Some(cur)) == Remaining(before, Some(cur))
  {
    hide Newer;
    forall p | p in after && p !in before ensures p !in Remaining(after, Some(cur)) {
      NewerIsTotal(p, cur);
    }
  }

  // Every token followed means the last post of the page that gave it.
  lemma TokensAreCursors(w: Walk)
    requires IsWalk(w)
    ensures IsKeysetWalk(w)
  {
    hide Newer, Descending, Encode, Decode;
    forall k | 0 <= k < |w.pages| ensures IsPage(w.scopes[k], CursorAfter(w, k), Limit(w.sizes[k]), w.pages[k]) {
      if k == 0 {
        NoToken();
      } else {
        TokenMeansLast(w.scopes[k - 1], TokenFor(w, k - 1), w.sizes[k - 1], w.pages[k - 1]);
      }
    }
  }

  lemma NoToken()
    ensures CursorIn("") == None
  { }

  lemma TokenMeansLast(scope: set<Post>, token: string, pageSize: int, page: Page)
    requires Storable(scope) && Answers(scope, token, pageSize, page) && page.next != ""
    ensures page.posts != [] && CursorIn(page.next) == Some(page.posts[|page.posts| - 1])
  {
    hide Newer, Descending, Encode, Decode;
    var last := page.posts[|page.posts| - 1];
    assert last in page.posts;
    DecodeUndoesEncode(last);
  }

  lemma PageAt(w: Walk, k: nat)
    requires IsKeysetWalk(w) && k < |w.pages|
    ensures |w.scopes| == |w.sizes| == |w.pages|
    ensures IsPage(w.scopes[k], CursorAfter(w, k), Limit(w.sizes[k]), w.pages[k])
    ensures k == |w.pages| - 1 ==> w.pages[k].next == ""
    ensures k < |w.pages| - 1 ==> w.pages[k].next != "" && Arrivals(w.scopes[k], w.scopes[k + 1], CursorAfter(w, k + 1))
  {
    hide IsPage, Arrivals, CursorAfter, Limit;
  }

  // One page of a walk whose predecessor gave a token: it continues at that cursor, and is never empty.
  lemma Continued(w: Walk, k: nat)
    requires IsKeysetWalk(w) && 0 < k < |w.pages| && w.pages[k - 1].posts != []
    ensures var cur := CursorAfter(w, k);
      && cur.Some? && IsPage(w.scopes[k], cur, Limit(w.sizes[k]), w.pages[k])
        && Arrivals(w.scopes[k - 1], w.scopes[k], cur)
      && w.pages[k].posts != []
  {
    hide IsKeysetWalk, IsPage, Arrivals, Remaining;
    PageAt(w, k - 1);
    PageAt(w, k);
    var before, was := w.scopes[k - 1], CursorAfter(w, k - 1);
    var cur := CursorAfter(w, k).value;
    GoesOn(before, was, Limit(w.sizes[k - 1]), w.pages[k - 1]);
    BelowPage(before, was, Limit(w.sizes[k - 1]), w.pages[k - 1]);
    ArrivalsStayAbove(before, w.scopes[k], cur);
    NotEmpty(before, w.scopes[k], was, cur, w.pages[k - 1].posts, Limit(w.sizes[k]), w.pages[k]);
  }

  lemma GoesOn(scope: set<Post>, cur: Option<Cursor>, limit: nat, page: Page)
    requires IsPage(scope, cur, limit, page)
    ensures page.next != "" ==> Continues(scope, cur, page.posts) && page.posts != []
  {
    hide Newer, Remaining, Descending;
  }

  lemma NotEmpty(before: set<Post>, after: set<Post>, was: Option<Cursor>, cur: Cursor, shown: seq<Post>, limit: nat,
    page: Page)
    requires Continues(before, was, shown) && IsPage(after, Some(cur), limit, page)
    requires forall p :: p in Remaining(before, Some(cur)) <==> p in Remaining(before, was) && p !in shown
    requires Remaining(after, Some(cur)) == Remaining(before, Some(cur))
    ensures page.posts != []
  {
    hide Newer, Remaining, Descending;
    var q :| q in Remaining(before, was) && q !in shown;
    assert q in Remaining(after, Some(cur));
  }

  lemma {:induction false} WalkCovers(w: Walk, k: nat)
    requires IsKeysetWalk(w) && 0 < k <= |w.pages| && w.pages[0].posts != []
    ensures w.pages[k - 1].posts != []
    ensures Covers(w.scopes[0], Seen(w.pages[..k]), w.scopes[k - 1], CursorAfter(w, k).value)
  {
    hide IsPage, Covers, Arrivals, IsKeysetWalk, Seen, Limit;
    if k == 1 {
      PageAt(w, 0);
      SeenFirst(w.pages);
      FirstPage(w.scopes[0], Limit(w.sizes[0]), w.pages[0]);
    } else {
      WalkCovers(w, k - 1);
      PageAt(w, k - 1);
      Continued(w, k - 1);
      var cur := CursorAfter(w, k - 1).value;
      CoversMore(w.scopes[0], Seen(w.pages[..k - 1]), w.scopes[k - 2], w.scopes[k - 1], cur);
      NextPage(w.scopes[0], Seen(w.pages[..k - 1]), w.scopes[k - 1], cur, Limit(w.sizes[k - 1]), w.pages[k - 1]);
      SeenNext(w.pages, k);
    }
  }

  lemma SeenFirst(pages: seq<Page>)
    requires pages != []
    ensures Seen(pages[..1]) == pages[0].posts
  {
    assert pages[..1][..0] == [];
  }

  lemma SeenNext(pages: seq<Page>, k: nat)
    requires 0 < k <= |pages|
    ensures Seen(pages[..k]) == Seen(pages[..k - 1]) + pages[k - 1].posts
  {
    assert pages[..k][..k - 1] == pages[..k - 1];
  }

  lemma CoversMore(first: set<Post>, seen: seq<Post>, before: set<Post>, after: set<Post>, cur: Cursor)
    requires Covers(first, seen, before, cur) && Arrivals(before, after, Some(cur))
    ensures Covers(first, seen, after, cur)
  {
    hide Newer;
    ArrivalsStayAbove(before, after, cur);
  }

  // Following the tokens to the end visits every post that was there at the start exactly once, newest first, and
  // nothing else - for any page sizes, whatever arrives above meanwhile.
  lemma WalkVisitsEachOnce(w: Walk)
    requires IsWalk(w)
    ensures var seen := Seen(w.pages);
      && Descending(seen)
      && (forall i, j :: 0 <= i < j < |seen| ==> seen[i].created >= seen[j].created)
      && (forall p :: p in seen <==> p in w.scopes[0])
      && (forall i, j :: 0 <= i < j < |seen| ==> seen[i] != seen[j])
  {
    hide Answers, IsPage, Arrivals, Newer, Remaining;
    TokensAreCursors(w);
    var n := |w.pages|;
    var seen := Seen(w.pages);
    assert w.pages[..n] == w.pages;
    if w.pages[0].posts == [] {
      EmptyWalk(w);
    } else {
      WalkCovers(w, n);
      LastPageEmpties(w);
    }
    forall i, j | 0 <= i < j < |seen| ensures seen[i] != seen[j] && seen[i].created >= seen[j].created {
      NewerIsTotal(seen[i], seen[j]);
      NewerMeans(seen[i], seen[j]);
    }
  }

  lemma EmptyWalk(w: Walk)
    requires IsKeysetWalk(w) && w.pages[0].posts == []
    ensures w.scopes[0] == {} && Seen(w.pages) == []
  {
    hide Newer, Descending;
    PageAt(w, 0);
    GoesOn(w.scopes[0], None, Limit(w.sizes[0]), w.pages[0]);
    assert w.pages == [w.pages[0]] && w.pages[..0] == [];
    assert Remaining(w.scopes[0], None) == w.scopes[0];
  }

  // Nothing remains below the last cursor.
  lemma LastPageEmpties(w: Walk)
    requires IsKeysetWalk(w) && w.pages[|w.pages| - 1].posts != []
    ensures var n := |w.pages|; Remaining(w.scopes[n - 1], CursorAfter(w, n)) == {}
  {
    hide IsPage;
    var k := |w.pages| - 1;
    PageAt(w, k);
    LastPage(w.scopes[k], CursorAfter(w, k), Limit(w.sizes[k]), w.pages[k]);
  }

  lemma LastPage(scope: set<Post>, cur: Option<Cursor>, limit: nat, page: Page)
    requires IsPage(scope, cur, limit, page) && page.next == "" && page.posts != []
    ensures Remaining(scope, Some(page.posts[|page.posts| - 1])) == {}
  {
    hide Newer, Remaining, Descending;
    BelowPage(scope, cur, limit, page);
  }

  // Every request but the last uses up at least one post, so a walk over n posts takes at most n requests (or one).
  lemma WalkEnds(w: Walk)
    requires IsWalk(w)
    ensures |w.pages| <= |Seen(w.pages)| || |w.pages| == 1
    ensures forall k :: 0 <= k < |w.pages| - 1 ==> |w.pages[k].posts| == Limit(w.sizes[k]) > 0
  {
    hide Newer, Remaining, Descending, IsWalk, IsPage;
    TokensAreCursors(w);
    forall k | 0 <= k < |w.pages| - 1 ensures |w.pages[k].posts| == Limit(w.sizes[k]) > 0 {
      PageAt(w, k);
      FullPage(w.scopes[k], CursorAfter(w, k), Limit(w.sizes[k]), w.pages[k]);
    }
    if w.pages[0].posts == [] {
      EmptyWalk(w);
    } else {
      assert w.pages[..|w.pages|] == w.pages;
      SeenGrows(w, |w.pages|);
    }
  }

  lemma FullPage(scope: set<Post>, cur: Option<Cursor>, limit: nat, page: Page)
    requires IsPage(scope, cur, limit, page) && page.next != ""
    ensures |page.posts| == limit > 0
  { }

  lemma {:induction false} SeenGrows(w: Walk, k: nat)
    requires IsKeysetWalk(w) && k <= |w.pages| && w.pages[0].posts != []
    ensures k <= |Seen(w.pages[..k])|
  {
    hide IsKeysetWalk;
    if k > 0 {
      SeenGrows(w, k - 1);
      WalkCovers(w, k);
      assert w.pages[..k][..k - 1] == w.pages[..k - 1];
    }
  }

  // ---- what the words mean ----

  // Later first; among posts of one moment, the id that sorts later first.
  lemma NewerMeans(a: Post, b: Post)
    ensures Newer(a, b) <==>
        a.created > b.created || (a.created == b.created && exists i: nat :: DiffersAt(b.id, a.id, i))
  {
    LessMeans(b.id, a.id);
  }

  // A token names a post when it spells its microseconds, a bar and its id.
  lemma TokensAre(token: string, p: Post)
    ensures Decode(token) == NoCursor <==> token == ""
    ensures Decode(token) == At(p) <==>
        && token != "" && Base64.Decode(token).Some?
        && p.id != "" && -0x8000_0000_0000_0000 <= p.created < 0x8000_0000_0000_0000
        && exists ts: string ::
             '|' !in ts && Base64.Decode(token).value == ts + "|" + p.id && ParseInt(ts) == Some(p.created)
  {
    hide Base64.Decode, ParseInt, Cut;
    if Base64.Decode(token).Some? {
      var raw := Base64.Decode(token).value;
      CutMeans(raw, '|');
      forall ts: string | '|' !in ts && raw == ts + "|" + p.id ensures Cut(raw, '|') == Some((ts, p.id)) {
        CutAtFirst(ts, '|', p.id);
        assert ts + ['|'] + p.id == raw;
      }
    }
  }

  // Between one and fifty posts as asked, and twenty when the size is out of range.
  lemma LimitMeans(pageSize: int)
    ensures Limit(pageSize) == if 1 <= pageSize <= 50 then pageSize else 20
  { }
}
