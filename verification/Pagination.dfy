/**
  What pagination guarantees: bounds and no repetition against any server, completeness against
  honest ones, and exactly when a numbered read ends early without an error.
 */
module Pagination {
  import opened Wrappers
  import opened LangfuseApi

  /* ---------- one fetch ---------- */

  function Positive(n: int): nat {
    if n < 0 then 0 else n
  }

  // What one fetch does to the counters and signatures.
  ghost predicate AccountsAt<R>(fetch: Fetcher<R>, limits: Limits, s: Link, q: Query) {
    var (s', f) := fetch(s, q);
    && s.retries <= s'.retries <= s.retries + Positive(limits.maxRetries)
    && (s'.requests == s.requests ==> s'.retries == s.retries)
    && (s'.requests != s.requests ==> s'.requests - s.requests == 1 + s'.retries - s.retries)
    && (f.Got? ==> s'.requests != s.requests && s.pages < limits.maxPages && s'.pages == s.pages + 1)
    && (f.Failed? ==> s'.pages == s.pages)
    && (if f.Got? && f.page.items != []
        then Signature(f.page.items) !in s.signatures && s'.signatures == s.signatures + {Signature(f.page.items)}
        else s'.signatures == s.signatures)
  }

  ghost predicate Accounting<R(!new)>(fetch: Fetcher<R>, limits: Limits) {
    forall s, q :: AccountsAt(fetch, limits, s, q)
  }

  lemma FetcherAccounts<R(!new)>(server: Server<R>, limits: Limits)
    ensures Accounting(FetcherOf(server, limits), limits)
  {
  }

  /* ---------- any server ---------- */

  // Pages stay under the limit, and every page costs one request and its retries.
  ghost predicate Bounded<R>(r: Read<R>, s: Link, limits: Limits) {
    && r.link.pages == s.pages + |r.accepted| && (r.accepted != [] ==> r.link.pages <= limits.maxPages)
    && r.link.requests == s.requests + |r.queries| + (r.link.retries - s.retries)
    && |r.accepted| <= |r.queries| <= |r.accepted| + 1
    && (r.failure.None? ==> |r.queries| == |r.accepted|)
  }

  ghost predicate FewRetries<R>(r: Read<R>, s: Link, limits: Limits) {
    s.retries <= r.link.retries <= s.retries + Positive(limits.maxRetries) * |r.queries|
  }

  // No nonempty page is accepted twice.
  ghost predicate NewPages<R>(accepted: seq<seq<Item<R>>>, signatures: set<seq<string>>) {
    && (forall i :: 0 <= i < |accepted| && accepted[i] != [] ==> Signature(accepted[i]) !in signatures)
    && (forall i, j :: 0 <= i < j < |accepted| && accepted[i] != [] && accepted[j] != [] ==>
          Signature(accepted[i]) != Signature(accepted[j]))
  }

  function Concat<R>(pages: seq<seq<Item<R>>>): seq<Item<R>> {
    if pages == [] then [] else pages[0] + Concat(pages[1..])
  }

  // What is yielded is what was accepted, except the page that changes the mode.
  ghost predicate Yields<R>(r: Read<R>) {
    if r.failure == Some(Incomplete(ModeChanged))
    then r.accepted != [] && r.out == Concat(r.accepted[..|r.accepted| - 1])
    else r.out == Concat(r.accepted)
  }

  ghost predicate Lawful<R>(r: Read<R>, s: Link, limits: Limits) {
    Bounded(r, s, limits) && FewRetries(r, s, limits) && NewPages(r.accepted, s.signatures) && Yields(r)
  }

  lemma FewMore(retries: nat, first: nat, k: nat, m: nat, n: nat)
    requires retries <= first + k * m && first <= n + k
    ensures retries <= n + k * (m + 1)
  {
  }

  lemma NewPagesThen<R>(items: seq<Item<R>>, accepted: seq<seq<Item<R>>>, signatures: set<seq<string>>)
    requires NewPages(accepted, if items == [] then signatures else signatures + {Signature(items)})
    requires items != [] ==> Signature(items) !in signatures
    ensures NewPages([items] + accepted, signatures)
  {
    var all := [items] + accepted;
    forall i, j | 0 <= i < j < |all| && all[i] != [] && all[j] != []
      ensures Signature(all[i]) != Signature(all[j])
    {
      assert all[j] == accepted[j - 1];
      if i > 0 {
        assert all[i] == accepted[i - 1];
      }
    }
  }

  lemma YieldsThen<R>(q: Query, items: seq<Item<R>>, rest: Read<R>)
    requires Yields(rest)
    ensures Yields(Then(q, items, rest))
  {
    var all := [items] + rest.accepted;
    assert all[1..] == rest.accepted;
    if rest.failure == Some(Incomplete(ModeChanged)) {
      var front := all[..|all| - 1];
      assert front[0] == items && front[1..] == rest.accepted[..|rest.accepted| - 1];
    }
  }

  lemma RetriesThen<R>(q: Query, items: seq<Item<R>>, rest: Read<R>, s: Link, s': Link, limits: Limits)
    requires FewRetries(rest, s', limits) && s.retries <= s'.retries <= s.retries + Positive(limits.maxRetries)
    ensures FewRetries(Then(q, items, rest), s, limits)
  {
    var queries := [q] + rest.queries;
    FewMore(rest.link.retries, s'.retries, Positive(limits.maxRetries), |rest.queries|, s.retries);
    assert |queries| == |rest.queries| + 1;
  }

  // One accepted page in front of a lawful rest.
  lemma LawfulThen<R>(fetch: Fetcher<R>, limits: Limits, s: Link, q: Query, rest: Read<R>)
    requires AccountsAt(fetch, limits, s, q) && fetch(s, q).1.Got?
    requires Lawful(rest, fetch(s, q).0, limits)
    ensures Lawful(Then(q, fetch(s, q).1.page.items, rest), s, limits)
  {
    var items := fetch(s, q).1.page.items;
    NewPagesThen(items, rest.accepted, s.signatures);
    YieldsThen(q, items, rest);
    RetriesThen(q, items, rest, s, fetch(s, q).0, limits);
  }

  lemma LawfulOne<R>(fetch: Fetcher<R>, limits: Limits, s: Link, q: Query, failure: Option<Failure>)
    requires AccountsAt(fetch, limits, s, q) && fetch(s, q).1.Got? && failure != Some(Incomplete(ModeChanged))
    ensures Lawful(One(q, fetch(s, q).0, fetch(s, q).1.page.items, failure), s, limits)
  {
    var items := fetch(s, q).1.page.items;
    assert Concat([items]) == items + Concat<R>([]);
  }

  lemma LawfulStop<R>(fetch: Fetcher<R>, limits: Limits, s: Link, q: Query)
    requires AccountsAt(fetch, limits, s, q) && fetch(s, q).1.Failed?
    requires fetch(s, q).1.failure != Incomplete(ModeChanged)
    ensures Lawful(Stop<R>(s, q, fetch(s, q).0, fetch(s, q).1.failure), s, limits)
  {
  }

  // Changing the mode is not something a single fetch can fail with.
  ghost predicate KeepsMode<R(!new)>(fetch: Fetcher<R>) {
    forall s, q :: KeepsModeAt(fetch, s, q)
  }

  ghost predicate KeepsModeAt<R>(fetch: Fetcher<R>, s: Link, q: Query) {
    fetch(s, q).1.Failed? ==> fetch(s, q).1.failure != Incomplete(ModeChanged)
  }

  lemma FetcherKeepsMode<R(!new)>(server: Server<R>, limits: Limits)
    ensures KeepsMode(FetcherOf(server, limits))
  {
  }

  lemma {:induction false} CursorLawful<R(!new)>(fetch: Fetcher<R>, limits: Limits, s: Link, cursor: string,
                                                 seen: set<string>)
    requires Advances(fetch, limits) && Accounting(fetch, limits) && KeepsMode(fetch)
    ensures Lawful(CursorPages(fetch, limits, s, cursor, seen), s, limits)
    decreases limits.maxPages - s.pages
  {
    var q := Cursor(cursor);
    assert AdvancesAt(fetch, limits, s, q) && AccountsAt(fetch, limits, s, q) && KeepsModeAt(fetch, s, q);
    var (s', f) := fetch(s, q);
    if f.Failed? {
      LawfulStop(fetch, limits, s, q);
    } else {
      var next := f.page.cursor;
      if f.page.items == [] && next.Some? {
        LawfulOne(fetch, limits, s, q, Some(Incomplete(EmptyWithCursor)));
      } else if next.None? {
        LawfulOne(fetch, limits, s, q, None);
      } else if next.value in seen {
        LawfulOne(fetch, limits, s, q, Some(Incomplete(RepeatedCursor)));
      } else {
        CursorLawful(fetch, limits, s', next.value, seen + {next.value});
        LawfulThen(fetch, limits, s, q, CursorPages(fetch, limits, s', next.value, seen + {next.value}));
      }
    }
  }

  lemma LawfulSwitch<R>(fetch: Fetcher<R>, limits: Limits, s: Link, q: Query)
    requires AccountsAt(fetch, limits, s, q) && fetch(s, q).1.Got?
    ensures Lawful(Read([], Some(Incomplete(ModeChanged)), fetch(s, q).0, [q], [fetch(s, q).1.page.items]), s, limits)
  {
    var accepted := [fetch(s, q).1.page.items];
    assert accepted[..0] == [];
  }

  lemma {:induction false} NumberedLawful<R(!new)>(fetch: Fetcher<R>, limits: Limits, s: Link, page: nat, previous: nat,
                                                   total: Option<int>)
    requires Advances(fetch, limits) && Accounting(fetch, limits) && KeepsMode(fetch)
    ensures Lawful(NumberedPages(fetch, limits, s, page, previous, total), s, limits)
    decreases limits.maxPages - s.pages
  {
    if More(limits, page, previous, total) {
      var q := Page(page + 1);
      assert AdvancesAt(fetch, limits, s, q) && AccountsAt(fetch, limits, s, q) && KeepsModeAt(fetch, s, q);
      var (s', f) := fetch(s, q);
      if f.Failed? {
        LawfulStop(fetch, limits, s, q);
      } else if f.page.cursor.Some? {
        LawfulSwitch(fetch, limits, s, q);
      } else if f.page.items == [] {
        LawfulOne(fetch, limits, s, q, None);
      } else {
        NumberedLawful(fetch, limits, s', page + 1, |f.page.items|, total);
        LawfulThen(fetch, limits, s, q, NumberedPages(fetch, limits, s', page + 1, |f.page.items|, total));
      }
    }
  }

  /** Against any server: the pages stay under the limit, each page costs one request and at most
      `maxRetries` more, no nonempty page is accepted twice, and what is yielded is exactly what was
      accepted, up to a page that changes the mode. */
  lemma AnyServer<R(!new)>(fetch: Fetcher<R>, limits: Limits, requests: nat, retries: nat)
    requires Advances(fetch, limits) && Accounting(fetch, limits) && KeepsMode(fetch)
    ensures Lawful(ReadAll(fetch, limits, requests, retries), Link(requests, retries, 0, {}), limits)
  {
    var s, q := Link(requests, retries, 0, {}), Page(1);
    assert AccountsAt(fetch, limits, s, q) && KeepsModeAt(fetch, s, q);
    var (s', f) := fetch(s, q);
    if f.Failed? {
      LawfulStop(fetch, limits, s, q);
    } else if f.page.cursor.Some? {
      CursorLawful(fetch, limits, s', f.page.cursor.value, {f.page.cursor.value});
      LawfulThen(fetch, limits, s, q, CursorPages(fetch, limits, s', f.page.cursor.value, {f.page.cursor.value}));
    } else if f.page.total.BadTotal? || (f.page.total.Pages? && f.page.total.n < 0) {
      LawfulOne(fetch, limits, s, q, Some(Incomplete(InvalidTotal)));
    } else if f.page.total.Pages? && f.page.total.n == 0 {
      LawfulOne(fetch, limits, s, q, None);
    } else {
      var total := if f.page.total.Pages? then Some(f.page.total.n) else None;
      NumberedLawful(fetch, limits, s', 1, |f.page.items|, total);
      LawfulThen(fetch, limits, s, q, NumberedPages(fetch, limits, s', 1, |f.page.items|, total));
    }
  }

  /* ---------- queries ---------- */

  // Cursors not seen before, none twice, the given one first.
  ghost predicate CursorQueries(queries: seq<Query>, cursor: string, seen: set<string>) {
    && (forall i :: 0 <= i < |queries| ==> queries[i].Cursor?)
    && (queries != [] ==> queries[0] == Cursor(cursor))
    && (forall i :: 0 < i < |queries| ==> queries[i].c !in seen)
    && (forall i, j :: 0 <= i < j < |queries| ==> queries[i] != queries[j])
  }

  lemma CursorQueriesThen(queries: seq<Query>, cursor: string, next: string, seen: set<string>)
    requires cursor in seen && next !in seen && CursorQueries(queries, next, seen + {next})
    ensures CursorQueries([Cursor(cursor)] + queries, cursor, seen)
  {
    var all := [Cursor(cursor)] + queries;
    forall i | 0 < i < |all| ensures all[i].Cursor? && all[i].c !in seen {
      assert all[i] == queries[i - 1];
    }
    forall i, j | 0 <= i < j < |all| ensures all[i] != all[j] {
      assert all[j] == queries[j - 1];
      if i > 0 {
        assert all[i] == queries[i - 1];
      }
    }
  }

  lemma {:induction false} CursorsOnce<R(!new)>(fetch: Fetcher<R>, limits: Limits, s: Link, cursor: string,
                                                seen: set<string>)
    requires Advances(fetch, limits) && cursor in seen
    ensures CursorQueries(CursorPages(fetch, limits, s, cursor, seen).queries, cursor, seen)
    decreases limits.maxPages - s.pages
  {
    assert AdvancesAt(fetch, limits, s, Cursor(cursor));
    var (s', f) := fetch(s, Cursor(cursor));
    if f.Got? && f.page.cursor.Some? && f.page.items != [] && f.page.cursor.value !in seen {
      var next := f.page.cursor.value;
      CursorsOnce(fetch, limits, s', next, seen + {next});
      CursorQueriesThen(CursorPages(fetch, limits, s', next, seen + {next}).queries, cursor, next, seen);
    }
  }

  ghost predicate NumberedQueries(queries: seq<Query>, from: nat) {
    forall i :: 0 <= i < |queries| ==> queries[i] == Page(from + i)
  }

  lemma {:induction false} PagesInOrder<R(!new)>(fetch: Fetcher<R>, limits: Limits, s: Link, page: nat, previous: nat,
                                                 total: Option<int>)
    requires Advances(fetch, limits)
    ensures NumberedQueries(NumberedPages(fetch, limits, s, page, previous, total).queries, page + 1)
    decreases limits.maxPages - s.pages
  {
    if More(limits, page, previous, total) {
      assert AdvancesAt(fetch, limits, s, Page(page + 1));
      var (s', f) := fetch(s, Page(page + 1));
      if f.Got? && f.page.cursor.None? && f.page.items != [] {
        PagesInOrder(fetch, limits, s', page + 1, |f.page.items|, total);
        var rest := NumberedPages(fetch, limits, s', page + 1, |f.page.items|, total).queries;
        var all := [Page(page + 1)] + rest;
        forall i | 0 <= i < |all| ensures all[i] == Page(page + 1 + i) {
          if i > 0 {
            assert all[i] == rest[i - 1];
          }
        }
      }
    }
  }

  /** The mode never switches, and nothing is asked for twice: after page 1 come either distinct
      cursors only, or the pages 2, 3, and so on. */
  lemma OneMode<R(!new)>(fetch: Fetcher<R>, limits: Limits, requests: nat, retries: nat)
    requires Advances(fetch, limits)
    ensures var queries := ReadAll(fetch, limits, requests, retries).queries;
            queries == [] ||
            (queries[0] == Page(1) &&
             (NumberedQueries(queries, 1) || exists cursor :: CursorQueries(queries[1..], cursor, {cursor})))
  {
    var s := Link(requests, retries, 0, {});
    var (s', f) := fetch(s, Page(1));
    var queries := ReadAll(fetch, limits, requests, retries).queries;
    if f.Got? && f.page.cursor.Some? {
      var cursor := f.page.cursor.value;
      CursorsOnce(fetch, limits, s', cursor, {cursor});
      assert queries[1..] == CursorPages(fetch, limits, s', cursor, {cursor}).queries;
    } else if f.Got? {
      PagesInOrder(fetch, limits, s', 1, |f.page.items|, None);
      if f.page.total.Pages? {
        PagesInOrder(fetch, limits, s', 1, |f.page.items|, Some(f.page.total.n));
      }
    }
  }

  /** All of this for the source's own fetching, whatever the server answers. */
  lemma EveryRead<R(!new)>(server: Server<R>, limits: Limits, requests: nat, retries: nat)
    ensures Advances(FetcherOf(server, limits), limits)
    ensures Lawful(ReadAll(FetcherOf(server, limits), limits, requests, retries),
                   Link(requests, retries, 0, {}), limits)
  {
    FetcherAdvances(server, limits);
    FetcherAccounts(server, limits);
    FetcherKeepsMode(server, limits);
    AnyServer(FetcherOf(server, limits), limits, requests, retries);
  }
}
