/**
  Reading from servers that answer the same question the same way: the whole book is read, except
  that an empty numbered page ends a read without an error.
 */
module Completeness {
  import opened Wrappers
  import opened LangfuseApi
  import opened Pagination

  /* ---------- servers that answer after some retries ---------- */

  function BodyOf<R>(page: PageOf<R>): Body<R> {
    Object(Items(page.items), Meta(page.cursor, page.total))
  }

  ghost predicate AnswersAt<R>(server: Server<R>, answer: Query -> PageOf<R>, n: nat, q: Query) {
    Retryable(server(n, q).status) || server(n, q) == Response(200, BodyOf(answer(q)))
  }

  // Within `left` further requests the server gives something other than a retryable status.
  ghost predicate Recovers<R>(server: Server<R>, n: nat, q: Query, left: nat)
    decreases left
  {
    !Retryable(server(n, q).status) || (left > 0 && Recovers(server, n + 1, q, left - 1))
  }

  // Every question has one answer, and at most `maxRetries` failures come before it.
  ghost predicate Honest<R(!new)>(server: Server<R>, answer: Query -> PageOf<R>, limits: Limits) {
    && limits.maxRetries >= 0
    && (forall n, q :: AnswersAt(server, answer, n, q))
    && (forall n: nat, q :: Recovers(server, n, q, limits.maxRetries))
  }

  ghost predicate AllRecords<R>(items: seq<Item<R>>) {
    forall i :: 0 <= i < |items| ==> items[i].Record?
  }

  lemma {:induction false} AttemptAnswers<R(!new)>(server: Server<R>, answer: Query -> PageOf<R>,
                                                  n: nat, q: Query, left: nat)
    requires forall m, p :: AnswersAt(server, answer, m, p)
    requires Recovers(server, n, q, left)
    ensures Attempt(server, n, q, left).0 == Response(200, BodyOf(answer(q)))
    decreases left
  {
    assert AnswersAt(server, answer, n, q);
    if Retryable(server(n, q).status) {
      AttemptAnswers(server, answer, n + 1, q, left - 1);
    }
  }

  // A fetcher that gives the answer whenever the page is new and the limit allows.
  ghost predicate GivesAt<R>(fetch: Fetcher<R>, limits: Limits, answer: Query -> PageOf<R>, s: Link, q: Query) {
    s.pages < limits.maxPages && AllRecords(answer(q).items)
    && (answer(q).items == [] || Signature(answer(q).items) !in s.signatures)
    ==> fetch(s, q).1 == Got(answer(q))
  }

  ghost predicate Gives<R(!new)>(fetch: Fetcher<R>, limits: Limits, answer: Query -> PageOf<R>) {
    forall s, q :: GivesAt(fetch, limits, answer, s, q)
  }

  /** With at most `maxRetries` failures per page, retrying makes an honest server's answers
      arrive. */
  lemma HonestGives<R(!new)>(server: Server<R>, answer: Query -> PageOf<R>, limits: Limits)
    requires Honest(server, answer, limits)
    ensures Gives(FetcherOf(server, limits), limits, answer)
  {
    forall s, q ensures GivesAt(FetcherOf(server, limits), limits, answer, s, q) {
      assert Recovers(server, s.requests, q, limits.maxRetries);
      AttemptAnswers(server, answer, s.requests, q, limits.maxRetries);
    }
  }

  /** So the source's fetcher over an honest server has every property the results below ask for. */
  lemma HonestFetcher<R(!new)>(server: Server<R>, answer: Query -> PageOf<R>, limits: Limits)
    requires Honest(server, answer, limits)
    ensures var fetch := FetcherOf(server, limits);
            Advances(fetch, limits) && Gives(fetch, limits, answer) && Accounting(fetch, limits) && KeepsMode(fetch)
  {
    FetcherAdvances(server, limits);
    HonestGives(server, answer, limits);
    FetcherAccounts(server, limits);
    FetcherKeepsMode(server, limits);
  }

  /* ---------- books ---------- */

  // The pages are lists of records, and nonempty pages differ in their ids.
  ghost predicate Readable<R>(book: seq<seq<Item<R>>>) {
    && (forall i :: 0 <= i < |book| ==> AllRecords(book[i]))
    && NewPages(book, {})
  }

  // The signatures of the first n pages.
  ghost function Signatures<R>(book: seq<seq<Item<R>>>, n: nat): set<seq<string>>
    requires n <= |book|
  {
    set i | 0 <= i < n && book[i] != [] :: Signature(book[i])
  }

  lemma NextIsNew<R>(book: seq<seq<Item<R>>>, n: nat)
    requires Readable(book) && n < |book|
    ensures book[n] != [] ==> Signature(book[n]) !in Signatures(book, n)
    ensures Signatures(book, n + 1) ==
            if book[n] == [] then Signatures(book, n) else Signatures(book, n) + {Signature(book[n])}
  {
  }

  // After n pages of the book.
  ghost predicate At<R>(s: Link, book: seq<seq<Item<R>>>, n: nat)
    requires n <= |book|
  {
    s.pages == n && s.signatures == Signatures(book, n)
  }

  // Fetching the next page of a book.
  lemma Turn<R(!new)>(fetch: Fetcher<R>, limits: Limits, answer: Query -> PageOf<R>, book: seq<seq<Item<R>>>,
                      s: Link, n: nat, q: Query)
    requires Gives(fetch, limits, answer) && Accounting(fetch, limits) && Readable(book)
    requires n < |book| <= limits.maxPages && At(s, book, n) && answer(q).items == book[n]
    ensures fetch(s, q).1 == Got(answer(q)) && At(fetch(s, q).0, book, n + 1)
  {
    NextIsNew(book, n);
    assert GivesAt(fetch, limits, answer, s, q) && AccountsAt(fetch, limits, s, q);
  }

  // A complete read: nothing wrong, and as many requests as pages and retries.
  ghost predicate Complete<R>(r: Read<R>, s: Link, out: seq<Item<R>>) {
    && r.failure.None? && r.out == out
    && r.link.requests == s.requests + (r.link.pages - s.pages) + (r.link.retries - s.retries)
  }

  lemma LawfulComplete<R>(r: Read<R>, s: Link, limits: Limits, out: seq<Item<R>>)
    requires Lawful(r, s, limits) && r.failure.None? && r.out == out
    ensures Complete(r, s, out)
  {
  }

  /* ---------- cursors ---------- */

  ghost predicate DistinctCursors(cursors: seq<string>) {
    forall i, j :: 0 <= i < j < |cursors| ==> cursors[i] != cursors[j]
  }

  function CursorAfter(cursors: seq<string>, n: nat): Option<string> {
    if n < |cursors| then Some(cursors[n]) else None
  }

  ghost predicate CursorPage<R>(answer: Query -> PageOf<R>, book: seq<seq<Item<R>>>, cursors: seq<string>, i: nat)
    requires i < |cursors| && |book| == |cursors| + 1
  {
    answer(Cursor(cursors[i])).items == book[i + 1] && answer(Cursor(cursors[i])).cursor == CursorAfter(cursors, i + 1)
  }

  // Page n of the book carries the cursor of page n + 1, whatever number of pages it declares.
  ghost predicate CursorBook<R>(answer: Query -> PageOf<R>, book: seq<seq<Item<R>>>, cursors: seq<string>) {
    && |book| == |cursors| + 1 && DistinctCursors(cursors)
    && (forall i :: 0 <= i < |cursors| ==> book[i] != [])
    && answer(Page(1)).items == book[0] && answer(Page(1)).cursor == CursorAfter(cursors, 0)
    && forall i :: 0 <= i < |cursors| ==> CursorPage(answer, book, cursors, i)
  }

  ghost function CursorsUpTo(cursors: seq<string>, n: nat): set<string>
    requires n < |cursors|
  {
    set i | 0 <= i <= n :: cursors[i]
  }

  lemma CursorTailStep<R(!new)>(fetch: Fetcher<R>, limits: Limits, answer: Query -> PageOf<R>, book: seq<seq<Item<R>>>,
                                cursors: seq<string>, s: Link, n: nat)
    requires Advances(fetch, limits) && Gives(fetch, limits, answer) && Accounting(fetch, limits) && Readable(book)
    requires CursorBook(answer, book, cursors) && |book| <= limits.maxPages
    requires n < |cursors| && At(s, book, n + 1)
    ensures var (s', f) := fetch(s, Cursor(cursors[n]));
            && f.Got? && f.page.items == book[n + 1] && f.page.cursor == CursorAfter(cursors, n + 1)
            && At(s', book, n + 2)
    ensures n + 1 < |cursors| ==>
              && book[n + 1] != [] && cursors[n + 1] !in CursorsUpTo(cursors, n)
              && CursorsUpTo(cursors, n) + {cursors[n + 1]} == CursorsUpTo(cursors, n + 1)
  {
    assert CursorPage(answer, book, cursors, n);
    Turn(fetch, limits, answer, book, s, n + 1, Cursor(cursors[n]));
  }

  lemma {:induction false} CursorTail<R(!new)>(fetch: Fetcher<R>, limits: Limits, answer: Query -> PageOf<R>,
                                               book: seq<seq<Item<R>>>, cursors: seq<string>, s: Link, n: nat)
    requires Advances(fetch, limits) && Gives(fetch, limits, answer) && Accounting(fetch, limits) && Readable(book)
    requires CursorBook(answer, book, cursors) && |book| <= limits.maxPages
    requires n < |cursors| && At(s, book, n + 1)
    ensures var r := CursorPages(fetch, limits, s, cursors[n], CursorsUpTo(cursors, n));
            r.failure.None? && r.out == Concat(book[n + 1..])
    decreases |cursors| - n
  {
    CursorTailStep(fetch, limits, answer, book, cursors, s, n);
    assert AdvancesAt(fetch, limits, s, Cursor(cursors[n]));
    var rest := book[n + 1..];
    assert rest[0] == book[n + 1] && rest[1..] == book[n + 2..];
    if n + 1 < |cursors| {
      CursorTail(fetch, limits, answer, book, cursors, fetch(s, Cursor(cursors[n])).0, n + 1);
    } else {
      assert book[n + 2..] == [];
    }
  }

  /** An honest cursor server is read to the end: the result is the concatenation of its pages, for
      one request per page and the retries. */
  lemma CursorServer<R(!new)>(fetch: Fetcher<R>, limits: Limits, answer: Query -> PageOf<R>, book: seq<seq<Item<R>>>,
                              cursors: seq<string>, requests: nat, retries: nat)
    requires Advances(fetch, limits) && Gives(fetch, limits, answer) && Accounting(fetch, limits) && KeepsMode(fetch)
    requires Readable(book) && CursorBook(answer, book, cursors) && 1 <= |cursors| && |book| <= limits.maxPages
    ensures var s := Link(requests, retries, 0, {});
            Complete(ReadAll(fetch, limits, requests, retries), s, Concat(book))
  {
    var s := Link(requests, retries, 0, {});
    assert Signatures(book, 0) == {};
    Turn(fetch, limits, answer, book, s, 0, Page(1));
    assert CursorsUpTo(cursors, 0) == {cursors[0]};
    CursorTail(fetch, limits, answer, book, cursors, fetch(s, Page(1)).0, 0);
    AnyServer(fetch, limits, requests, retries);
    LawfulComplete(ReadAll(fetch, limits, requests, retries), s, limits, Concat(book));
  }

  /* ---------- numbered pages ---------- */

  // Pages 1, 2, ... of the book, with or without their number declared.
  ghost predicate NumberedBook<R>(answer: Query -> PageOf<R>, book: seq<seq<Item<R>>>, declared: bool) {
    book != [] && forall i :: 0 <= i < |book| ==> NumberedPage(answer, book, declared, i)
  }

  ghost predicate NumberedPage<R>(answer: Query -> PageOf<R>, book: seq<seq<Item<R>>>, declared: bool, i: nat)
    requires i < |book|
  {
    answer(Page(i + 1)) == PageOf(book[i], None, if declared then Pages(|book|) else NoTotal)
  }

  // The first empty page at or after i, or the end of the book.
  function FirstEmpty<R>(book: seq<seq<Item<R>>>, i: nat): (e: nat)
    requires i <= |book|
    ensures i <= e <= |book|
    decreases |book| - i
  {
    if i == |book| || book[i] == [] then i else FirstEmpty(book, i + 1)
  }

  lemma {:induction false} DeclaredTail<R(!new)>(fetch: Fetcher<R>, limits: Limits, answer: Query -> PageOf<R>,
                                                 book: seq<seq<Item<R>>>, s: Link, n: nat, previous: nat)
    requires Advances(fetch, limits) && Gives(fetch, limits, answer) && Accounting(fetch, limits) && Readable(book)
    requires NumberedBook(answer, book, true) && |book| <= limits.maxPages
    requires 1 <= n <= |book| && At(s, book, n)
    ensures var r := NumberedPages(fetch, limits, s, n, previous, Some(|book|));
            r.failure.None? && r.out == Concat(book[n..FirstEmpty(book, n)])
    decreases |book| - n
  {
    if n < |book| {
      assert NumberedPage(answer, book, true, n);
      Turn(fetch, limits, answer, book, s, n, Page(n + 1));
      assert AdvancesAt(fetch, limits, s, Page(n + 1));
      if book[n] != [] {
        DeclaredTail(fetch, limits, answer, book, fetch(s, Page(n + 1)).0, n + 1, |book[n]|);
        var rest := book[n..FirstEmpty(book, n)];
        assert rest[0] == book[n] && rest[1..] == book[n + 1..FirstEmpty(book, n + 1)];
      }
    }
  }

  /** A server that declares its number of pages is read up to the first empty page after page 1,
      without an error. */
  lemma DeclaredServer<R(!new)>(fetch: Fetcher<R>, limits: Limits, answer: Query -> PageOf<R>, book: seq<seq<Item<R>>>,
                                requests: nat, retries: nat)
    requires Advances(fetch, limits) && Gives(fetch, limits, answer) && Accounting(fetch, limits) && KeepsMode(fetch)
    requires Readable(book) && NumberedBook(answer, book, true) && |book| <= limits.maxPages
    ensures var s := Link(requests, retries, 0, {});
            Complete(ReadAll(fetch, limits, requests, retries), s, Concat(book[..FirstEmpty(book, 1)]))
  {
    var s := Link(requests, retries, 0, {});
    assert Signatures(book, 0) == {};
    assert NumberedPage(answer, book, true, 0);
    Turn(fetch, limits, answer, book, s, 0, Page(1));
    DeclaredTail(fetch, limits, answer, book, fetch(s, Page(1)).0, 1, |book[0]|);
    var read := book[..FirstEmpty(book, 1)];
    assert read[0] == book[0] && read[1..] == book[1..FirstEmpty(book, 1)];
    AnyServer(fetch, limits, requests, retries);
    LawfulComplete(ReadAll(fetch, limits, requests, retries), s, limits, Concat(read));
  }

  lemma PlusAssociative<T>(x: seq<T>, y: seq<T>, z: seq<T>)
    ensures x + (y + z) == x + y + z
  {
  }

  lemma {:induction false} ConcatSplit<R>(a: seq<seq<Item<R>>>, b: seq<seq<Item<R>>>)
    ensures Concat(a + b) == Concat(a) + Concat(b)
  {
    if a == [] {
      assert a + b == b;
    } else {
      var x, rest := a[0], a[1..];
      ConcatSplit(rest, b);
      assert (a + b)[0] == x && (a + b)[1..] == rest + b;
      PlusAssociative(x, Concat(rest), Concat(b));
    }
  }

  lemma {:induction false} ConcatEmpty<R>(pages: seq<seq<Item<R>>>)
    ensures Concat(pages) == [] <==> forall i :: 0 <= i < |pages| ==> pages[i] == []
  {
    if pages != [] {
      ConcatEmpty(pages[1..]);
      assert forall i :: 0 <= i < |pages[1..]| ==> pages[1..][i] == pages[i + 1];
      if Concat(pages) == [] {
        forall i | 0 <= i < |pages| ensures pages[i] == [] {
          if i > 0 {
            assert pages[i] == pages[1..][i - 1];
          }
        }
      }
    }
  }

  lemma LongerConcat<T>(a: seq<T>, b: seq<T>)
    ensures a + b == a <==> b == []
  {
    assert |a + b| == |a| + |b|;
  }

  lemma TailEmpty<R>(book: seq<seq<Item<R>>>, e: nat)
    requires e <= |book|
    ensures (forall i :: 0 <= i < |book[e..]| ==> book[e..][i] == []) <==> forall i :: e <= i < |book| ==> book[i] == []
  {
    var tail := book[e..];
    if i :| e <= i < |book| && book[i] != [] {
      assert tail[i - e] != [];
    }
  }

  lemma GapFree<R>(book: seq<seq<Item<R>>>, e: nat)
    requires e <= |book|
    ensures Concat(book[..e]) == Concat(book) <==> forall i :: e <= i < |book| ==> book[i] == []
  {
    ConcatSplit(book[..e], book[e..]);
    assert book[..e] + book[e..] == book;
    ConcatEmpty(book[e..]);
    LongerConcat(Concat(book[..e]), Concat(book[e..]));
    TailEmpty(book, e);
  }

  /** Such a read is complete if and only if nothing follows the first empty page after page 1; the
      read reports no failure either way. */
  lemma CompleteIffNoGap<R(!new)>(fetch: Fetcher<R>, limits: Limits, answer: Query -> PageOf<R>,
                                  book: seq<seq<Item<R>>>, requests: nat, retries: nat)
    requires Advances(fetch, limits) && Gives(fetch, limits, answer) && Accounting(fetch, limits) && KeepsMode(fetch)
    requires Readable(book) && NumberedBook(answer, book, true) && |book| <= limits.maxPages
    ensures var r := ReadAll(fetch, limits, requests, retries);
            && r.failure.None?
            && (r.out == Concat(book) <==> forall i :: FirstEmpty(book, 1) <= i < |book| ==> book[i] == [])
  {
    DeclaredServer(fetch, limits, answer, book, requests, retries);
    GapFree(book, FirstEmpty(book, 1));
  }

  // A server of three pages, the second of them empty.
  function GapAnswer<R>(a: Item<R>, b: Item<R>): Query -> PageOf<R> {
    q => PageOf(if q == Page(1) then [a] else if q == Page(3) then [b] else [], None, Pages(3))
  }

  function GapServer<R>(a: Item<R>, b: Item<R>): Server<R> {
    (n, q) => Response(200, BodyOf(GapAnswer(a, b)(q)))
  }

  /** Such a gap is silent: of these pages the third is never read, and nothing fails. */
  lemma SilentGap<R(!new)>(a: Item<R>, b: Item<R>, limits: Limits)
    requires a.Record? && b.Record? && a.id != b.id && limits.maxPages >= 3 && limits.maxRetries >= 0
    ensures var fetch := FetcherOf(GapServer(a, b), limits);
            && Advances(fetch, limits)
            && var r := ReadAll(fetch, limits, 0, 0);
               r.failure.None? && r.out == [a] && Concat([[a], [], [b]]) == [a, b]
  {
    var book := [[a], [], [b]];
    GapBook(a, b);
    HonestFetcher(GapServer(a, b), GapAnswer(a, b), limits);
    DeclaredServer(FetcherOf(GapServer(a, b), limits), limits, GapAnswer(a, b), book, 0, 0);
  }

  lemma GapBook<R>(a: Item<R>, b: Item<R>)
    requires a.Record? && b.Record? && a.id != b.id
    ensures var book := [[a], [], [b]];
            && Readable(book) && NumberedBook(GapAnswer(a, b), book, true) && FirstEmpty(book, 1) == 1
            && Concat(book[..1]) == [a] && Concat(book) == [a, b]
  {
    assert Signature([a])[0] == a.id && Signature([b])[0] == b.id;
    ConcatPairs([a], [], [b]);
  }

  lemma ConcatPairs<R>(a: seq<Item<R>>, b: seq<Item<R>>, c: seq<Item<R>>)
    ensures Concat([a, b, c]) == a + b + c && Concat([a, b, c][..1]) == a
  {
    var all, one := [a, b, c], [a, b, c][..1];
    assert all[1..] == [b, c] && all[1..][1..] == [c] && all[1..][1..][1..] == [];
    assert Concat(all[1..]) == b + Concat(all[1..][1..]);
    assert one[0] == a && one[1..] == [];
    assert Concat(one) == one[0] + Concat(one[1..]);
  }

  // Where reading undeclared pages ends: after a short page, before an empty one, or with the book.
  function ReadEnd<R>(book: seq<seq<Item<R>>>, n: nat, pageLimit: int): (e: nat)
    requires 1 <= n <= |book|
    ensures n <= e <= |book|
    decreases |book| - n
  {
    if n == |book| || |book[n - 1]| < pageLimit || book[n] == [] then n else ReadEnd(book, n + 1, pageLimit)
  }

  // Nothing is declared, and nothing follows the book.
  ghost predicate OpenBook<R>(answer: Query -> PageOf<R>, book: seq<seq<Item<R>>>) {
    NumberedBook(answer, book, false) && answer(Page(|book| + 1)) == PageOf([], None, NoTotal)
  }

  lemma {:induction false} UndeclaredTail<R(!new)>(fetch: Fetcher<R>, limits: Limits, answer: Query -> PageOf<R>,
                                                   book: seq<seq<Item<R>>>, s: Link, n: nat)
    requires Advances(fetch, limits) && Gives(fetch, limits, answer) && Accounting(fetch, limits) && Readable(book)
    requires OpenBook(answer, book) && |book| < limits.maxPages
    requires 1 <= n <= |book| && At(s, book, n)
    ensures var r := NumberedPages(fetch, limits, s, n, |book[n - 1]|, None);
            r.failure.None? && r.out == Concat(book[n..ReadEnd(book, n, limits.pageLimit)])
    decreases |book| - n
  {
    if |book[n - 1]| >= limits.pageLimit {
      assert AdvancesAt(fetch, limits, s, Page(n + 1));
      if n == |book| {
        assert GivesAt(fetch, limits, answer, s, Page(n + 1));
      } else {
        assert NumberedPage(answer, book, false, n);
        Turn(fetch, limits, answer, book, s, n, Page(n + 1));
        if book[n] != [] {
          UndeclaredTail(fetch, limits, answer, book, fetch(s, Page(n + 1)).0, n + 1);
          var e := ReadEnd(book, n, limits.pageLimit);
          assert book[n..e][0] == book[n] && book[n..e][1..] == book[n + 1..e];
        }
      }
    }
  }

  /** A server that declares nothing is read to the first short or empty page.  It reports no failure,
      and the read is complete if and only if nothing follows. */
  lemma UndeclaredServer<R(!new)>(fetch: Fetcher<R>, limits: Limits, answer: Query -> PageOf<R>,
                                  book: seq<seq<Item<R>>>, requests: nat, retries: nat)
    requires Advances(fetch, limits) && Gives(fetch, limits, answer) && Accounting(fetch, limits) && KeepsMode(fetch)
    requires Readable(book) && OpenBook(answer, book) && |book| < limits.maxPages
    ensures var s, e := Link(requests, retries, 0, {}), ReadEnd(book, 1, limits.pageLimit);
            var r := ReadAll(fetch, limits, requests, retries);
            && Complete(r, s, Concat(book[..e]))
            && (r.out == Concat(book) <==> forall i :: e <= i < |book| ==> book[i] == [])
  {
    var s, e := Link(requests, retries, 0, {}), ReadEnd(book, 1, limits.pageLimit);
    assert Signatures(book, 0) == {};
    assert NumberedPage(answer, book, false, 0);
    Turn(fetch, limits, answer, book, s, 0, Page(1));
    UndeclaredTail(fetch, limits, answer, book, fetch(s, Page(1)).0, 1);
    var read := book[..e];
    assert read[0] == book[0] && read[1..] == book[1..e];
    AnyServer(fetch, limits, requests, retries);
    LawfulComplete(ReadAll(fetch, limits, requests, retries), s, limits, Concat(read));
    GapFree(book, e);
  }
}
