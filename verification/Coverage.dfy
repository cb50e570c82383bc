/**
  From a server's pages to the backend: of what an honest server shows in a window, what the run that
  commits the window leaves exported.
 */
module Coverage {
  import opened Models
  import opened Idempotency
  import opened Protocol
  import opened Streaming
  import opened Pagination
  import opened Completeness
  import opened Schedule
  import L = LangfuseApi

  // The raw records of items, in order.
  function Raws<R>(items: seq<L.Item<R>>): seq<R> {
    if items == [] then []
    else
      var last := items[|items| - 1];
      Raws(items[..|items| - 1]) + if last.Record? then [last.raw] else []
  }

  // A read as a source: it hands on the records, and raises if the read fails.
  function SourceOf<R>(r: L.Read<R>): Source<R> {
    Source(Raws(r.out), r.failure.Some?)
  }

  // The observations that some pages show.
  function Shown<R>(pages: seq<seq<L.Item<R>>>, parse: R -> Outcome): seq<Observation> {
    Named(Raws(Concat(pages)), parse)
  }

  // Run k of a history committed the window that it read by r.
  ghost predicate CommitsRead<R>(h: History, calls: seq<Invocation<R>>, parse: R -> Outcome, k: nat, r: L.Read<R>) {
    && Called(h, calls, parse) && k < |h| && h[k].committed
    && calls[k].source(h[k].from) == SourceOf(r)
  }

  // By then the committed runs have exported all of them, under their ids.
  ghost predicate AllExported(h: History, k: nat, shown: seq<Observation>)
    requires k < |h|
  {
    forall x :: x in shown ==> x.id in Ids(Sent(h[..k + 1], Saved))
  }

  lemma {:induction false} RawsConcat<R>(a: seq<L.Item<R>>, b: seq<L.Item<R>>)
    ensures Raws(a + b) == Raws(a) + Raws(b)
  {
    if b == [] {
      assert a + b == a;
    } else {
      var front, last := b[..|b| - 1], b[|b| - 1];
      RawsConcat(a, front);
      assert (a + b)[..|a + b| - 1] == a + front;
      PlusAssociative(Raws(a), Raws(front), if last.Record? then [last.raw] else []);
    }
  }

  lemma {:induction false} NamedConcat<R>(a: seq<R>, b: seq<R>, parse: R -> Outcome)
    ensures Named(a + b, parse) == Named(a, parse) + Named(b, parse)
  {
    if b == [] {
      assert a + b == a;
    } else {
      var front := b[..|b| - 1];
      NamedConcat(a, front, parse);
      assert (a + b)[..|a + b| - 1] == a + front;
    }
  }

  lemma ShownConcat<R>(a: seq<seq<L.Item<R>>>, b: seq<seq<L.Item<R>>>, parse: R -> Outcome)
    ensures Shown(a + b, parse) == Shown(a, parse) + Shown(b, parse)
  {
    ConcatSplit(a, b);
    RawsConcat(Concat(a), Concat(b));
    NamedConcat(Raws(Concat(a)), Raws(Concat(b)), parse);
  }

  // After a commit the exported ids are those exported before and those of the batch.
  lemma ExportedByThen(h: History, k: nat, id: Id)
    requires k < |h| && h[k].committed
    ensures id in Ids(Sent(h[..k + 1], Saved)) <==> id in Ids(Sent(h[..k], Saved)) || id in Ids(h[k].batch)
  {
    var g := h[..k + 1];
    assert Before(g) == h[..k] && Last(g) == h[k];
    IdsConcat(Sent(h[..k], Saved), NewIn(g));
    if id in Ids(NewIn(g)) {
      var x :| x in NewIn(g) && x.id == id;
      NewInBatch(g, x);
    }
    if id in Ids(h[k].batch) {
      var x :| x in h[k].batch && x.id == id;
      NothingLost(h, k, x);
    }
  }

  lemma BatchIsRead<R>(h: History, calls: seq<Invocation<R>>, parse: R -> Outcome, k: nat, r: L.Read<R>)
    requires CommitsRead(h, calls, parse, k, r)
    ensures h[k].batch == Named(Raws(r.out), parse) && r.failure.None?
  {
    assert CalledAt(h, calls, parse, k);
  }

  /** Of a window of which only the first e pages were read, everything shown was exported if and only
      if the ids behind them were read before them or had been exported already. */
  lemma ExportedIff<R>(h: History, calls: seq<Invocation<R>>, parse: R -> Outcome, k: nat, r: L.Read<R>,
                       book: seq<seq<L.Item<R>>>, e: nat)
    requires CommitsRead(h, calls, parse, k, r) && e <= |book| && r.out == Concat(book[..e])
    ensures AllExported(h, k, Shown(book, parse)) <==>
              forall x :: x in Shown(book[e..], parse) ==> x.id in Ids(h[k].batch) || x.id in Ids(Sent(h[..k], Saved))
  {
    var seen, rest := Shown(book[..e], parse), Shown(book[e..], parse);
    BatchIsRead(h, calls, parse, k, r);
    ShownConcat(book[..e], book[e..], parse);
    assert book[..e] + book[e..] == book;
    forall x: Observation
      ensures x.id in Ids(Sent(h[..k + 1], Saved)) <==> x.id in Ids(Sent(h[..k], Saved)) || x.id in Ids(h[k].batch)
    {
      ExportedByThen(h, k, x.id);
    }
    assert Shown(book, parse) == seen + rest;
    forall x | x in seen ensures x.id in Ids(h[k].batch) {
    }
  }

  // Every page from e on that is not empty shows an id that neither the batch nor an earlier export has.
  ghost predicate Novel<R>(h: History, k: nat, parse: R -> Outcome, book: seq<seq<L.Item<R>>>, e: nat)
    requires k < |h| && e <= |book|
  {
    forall i :: e <= i < |book| && book[i] != [] ==> NovelPage(h, k, parse, book[i])
  }

  ghost predicate NovelPage<R>(h: History, k: nat, parse: R -> Outcome, page: seq<L.Item<R>>)
    requires k < |h|
  {
    exists x :: x in Named(Raws(page), parse) && x.id !in Ids(h[k].batch) && x.id !in Ids(Sent(h[..k], Saved))
  }

  lemma PageIsShown<R>(book: seq<seq<L.Item<R>>>, e: nat, i: nat, parse: R -> Outcome, x: Observation)
    requires e <= i < |book| && x in Named(Raws(book[i]), parse)
    ensures x in Shown(book[e..], parse)
  {
    var before, page, after := book[e..i], [book[i]], book[i + 1..];
    assert book[e..] == before + page + after;
    ShownConcat(before + page, after, parse);
    ShownConcat(before, page, parse);
    OnePage(book[i], parse);
    InEither(Shown(before, parse), Shown(page, parse), Shown(before + page, parse), x);
    InEither(Shown(before + page, parse), Shown(after, parse), Shown(book[e..], parse), x);
  }

  lemma OnePage<R>(page: seq<L.Item<R>>, parse: R -> Outcome)
    ensures Shown([page], parse) == Named(Raws(page), parse)
  {
    assert [page][1..] == [] && Concat([page]) == page + Concat([page][1..]) == page;
  }

  lemma NothingBehind<R>(book: seq<seq<L.Item<R>>>, e: nat, parse: R -> Outcome)
    requires e <= |book| && forall i :: e <= i < |book| ==> book[i] == []
    ensures Shown(book[e..], parse) == []
  {
    ConcatEmpty(book[e..]);
  }

  lemma ExportedIffNothingBehind<R>(h: History, calls: seq<Invocation<R>>, parse: R -> Outcome, k: nat, r: L.Read<R>,
                                    book: seq<seq<L.Item<R>>>, e: nat)
    requires CommitsRead(h, calls, parse, k, r) && e <= |book| && r.out == Concat(book[..e])
    requires Novel(h, k, parse, book, e)
    ensures AllExported(h, k, Shown(book, parse)) <==> forall i :: e <= i < |book| ==> book[i] == []
  {
    ExportedIff(h, calls, parse, k, r, book, e);
    if i :| e <= i < |book| && book[i] != [] {
      assert NovelPage(h, k, parse, book[i]);
      var x :| x in Named(Raws(book[i]), parse) && x.id !in Ids(h[k].batch) && x.id !in Ids(Sent(h[..k], Saved));
      PageIsShown(book, e, i, parse, x);
    } else {
      NothingBehind(book, e, parse);
    }
  }

  /** What a numbered read costs: of what an honest server shows in a committed window, declared as so
      many pages, everything was exported if and only if nothing follows the first empty page after
      page 1, provided that what is behind it is new. */
  lemma DeclaredExported<R(!new)>(h: History, calls: seq<Invocation<R>>, parse: R -> Outcome, k: nat,
                                  fetch: L.Fetcher<R>, limits: L.Limits, answer: L.Query -> L.PageOf<R>,
                                  book: seq<seq<L.Item<R>>>, requests: nat, retries: nat)
    requires L.Advances(fetch, limits) && Gives(fetch, limits, answer) && Accounting(fetch, limits) && KeepsMode(fetch)
    requires Readable(book) && NumberedBook(answer, book, true) && |book| <= limits.maxPages
    requires CommitsRead(h, calls, parse, k, L.ReadAll(fetch, limits, requests, retries))
    requires Novel(h, k, parse, book, FirstEmpty(book, 1))
    ensures AllExported(h, k, Shown(book, parse)) <==> forall i :: FirstEmpty(book, 1) <= i < |book| ==> book[i] == []
  {
    DeclaredServer(fetch, limits, answer, book, requests, retries);
    ExportedIffNothingBehind(h, calls, parse, k, L.ReadAll(fetch, limits, requests, retries), book,
                             FirstEmpty(book, 1));
  }

  /** And of a server that declares nothing, if and only if nothing follows the first short or empty
      page. */
  lemma UndeclaredExported<R(!new)>(h: History, calls: seq<Invocation<R>>, parse: R -> Outcome, k: nat,
                                    fetch: L.Fetcher<R>, limits: L.Limits, answer: L.Query -> L.PageOf<R>,
                                    book: seq<seq<L.Item<R>>>, requests: nat, retries: nat)
    requires L.Advances(fetch, limits) && Gives(fetch, limits, answer) && Accounting(fetch, limits) && KeepsMode(fetch)
    requires Readable(book) && OpenBook(answer, book) && |book| < limits.maxPages
    requires CommitsRead(h, calls, parse, k, L.ReadAll(fetch, limits, requests, retries))
    requires Novel(h, k, parse, book, ReadEnd(book, 1, limits.pageLimit))
    ensures AllExported(h, k, Shown(book, parse)) <==>
              forall i :: ReadEnd(book, 1, limits.pageLimit) <= i < |book| ==> book[i] == []
  {
    var e := ReadEnd(book, 1, limits.pageLimit);
    UndeclaredServer(fetch, limits, answer, book, requests, retries);
    ExportedIffNothingBehind(h, calls, parse, k, L.ReadAll(fetch, limits, requests, retries), book, e);
  }

  /** A cursor server's window is exported whole. */
  lemma CursorExported<R(!new)>(h: History, calls: seq<Invocation<R>>, parse: R -> Outcome, k: nat,
                                fetch: L.Fetcher<R>, limits: L.Limits, answer: L.Query -> L.PageOf<R>,
                                book: seq<seq<L.Item<R>>>, cursors: seq<string>, requests: nat, retries: nat)
    requires L.Advances(fetch, limits) && Gives(fetch, limits, answer) && Accounting(fetch, limits) && KeepsMode(fetch)
    requires Readable(book) && CursorBook(answer, book, cursors) && 1 <= |cursors| && |book| <= limits.maxPages
    requires CommitsRead(h, calls, parse, k, L.ReadAll(fetch, limits, requests, retries))
    ensures AllExported(h, k, Shown(book, parse))
  {
    CursorServer(fetch, limits, answer, book, cursors, requests, retries);
    assert book[..|book|] == book;
    ExportedIff(h, calls, parse, k, L.ReadAll(fetch, limits, requests, retries), book, |book|);
    NothingBehind(book, |book|, parse);
  }
}
