/**
  Reading a window page by page from an arbitrary server: retries, one pagination mode for the whole
  read, and the stops that make a read finite.
 */
module LangfuseApi {
  import opened Wrappers

  /* ---------- what a server may answer ---------- */

  datatype Query = Page(n: nat) | Cursor(c: string)

  datatype Item<R> = NotARecord | Record(id: string, raw: R)
  datatype Data<R> = NoData | NotAList | Items(items: seq<Item<R>>)

  // `totalPages`: absent, not a number, or a number.
  datatype Total = NoTotal | BadTotal | Pages(n: int)
  datatype Meta = NoMeta | BadMeta | Meta(cursor: Option<string>, total: Total)
  datatype Body<R> = NotJson | NotAnObject | Object(data: Data<R>, meta: Meta)
  datatype Response<R> = Response(status: int, body: Body<R>)

  // Any behaviour: the answer may depend on the number of the request.
  type Server<!R> = (nat, Query) -> Response<R>

  datatype Cause = PageLimit | Unparseable | NotAnObjectBody | DataNotAList | MetaNotAnObject | NotAllRecords
                 | RepeatedPage | EmptyWithCursor | RepeatedCursor | InvalidTotal | ModeChanged
  datatype Failure = ApiError(status: int) | Incomplete(cause: Cause)

  datatype Limits = Limits(pageLimit: int, maxPages: int, maxRetries: int)

  // The counters, and the signatures of the nonempty pages accepted so far.
  datatype Link = Link(requests: nat, retries: nat, pages: nat, signatures: set<seq<string>>)

  datatype PageOf<R> = PageOf(items: seq<Item<R>>, cursor: Option<string>, total: Total)
  datatype Fetched<R> = Got(page: PageOf<R>) | Failed(failure: Failure)

  predicate Retryable(status: int) {
    status in {429, 500, 502, 503, 504, 599}
  }

  /* ---------- one page ---------- */

  // The response that ends the attempts from request n on, with how many requests that takes.
  function Attempt<R>(server: Server<R>, n: nat, q: Query, left: nat): (r: (Response<R>, nat))
    ensures 1 <= r.1 <= left + 1
    decreases left
  {
    if Retryable(server(n, q).status) && left > 0 then
      var later := Attempt(server, n + 1, q, left - 1);
      (later.0, later.1 + 1)
    else (server(n, q), 1)
  }

  predicate AllRecords<R>(items: seq<Item<R>>) {
    forall i :: 0 <= i < |items| ==> items[i].Record?
  }

  // Reading the body of the response.
  function Checked<R>(response: Response<R>): Fetched<R> {
    if !(200 <= response.status < 300) then Failed(ApiError(response.status))
    else
      match response.body
      case NotJson => Failed(Incomplete(Unparseable))
      case NotAnObject => Failed(Incomplete(NotAnObjectBody))
      case Object(data, meta) =>
        if data.NotAList? then Failed(Incomplete(DataNotAList))
        else if meta.BadMeta? then Failed(Incomplete(MetaNotAnObject))
        else
          var items := if data.Items? then data.items else [];
          if !AllRecords(items) then Failed(Incomplete(NotAllRecords))
          else Got(PageOf(items, if meta.Meta? then meta.cursor else None, if meta.Meta? then meta.total else NoTotal))
  }

  function Signature<R>(items: seq<Item<R>>): (signature: seq<string>)
    ensures |signature| == |items|
  {
    seq(|items|, i requires 0 <= i < |items| => if items[i].Record? then items[i].id else "")
  }

  // `_get` and `_fetch_page`: the counters, and the page or the failure.
  function Fetch<R>(server: Server<R>, limits: Limits, s: Link, q: Query): (Link, Fetched<R>) {
    if s.pages >= limits.maxPages then (s, Failed(Incomplete(PageLimit)))
    else if limits.maxRetries < 0 then (s, Failed(ApiError(429)))
    else
      var (response, used) := Attempt(server, s.requests, q, limits.maxRetries);
      var s' := s.(requests := s.requests + used, retries := s.retries + used - 1);
      var page := Checked(response);
      if page.Failed? then (s', page)
      else if page.page.items == [] then (s'.(pages := s.pages + 1), page)
      else
        var signature := Signature(page.page.items);
        if signature in s.signatures then (s', Failed(Incomplete(RepeatedPage)))
        else (s'.(pages := s.pages + 1, signatures := s.signatures + {signature}), page)
  }

  /* ---------- what a fetch means ---------- */

  // Too many requests, a transport failure, or a server error other than 501.
  predicate WorthRetrying(status: int) {
    status == 429 || status == 599 || (500 <= status <= 504 && status != 501)
  }

  /** The response that ends the attempts: every earlier one was worth retrying, and so is it only when no
      retry was left. */
  lemma {:induction false} AttemptEnds<R>(server: Server<R>, n: nat, q: Query, left: nat)
    ensures var r := Attempt(server, n, q, left);
            && r.0 == server(n + r.1 - 1, q)
            && (forall k :: n <= k < n + r.1 - 1 ==> WorthRetrying(server(k, q).status))
            && (WorthRetrying(r.0.status) ==> r.1 == left + 1)
    decreases left
  {
    if Retryable(server(n, q).status) && left > 0 {
      AttemptEnds(server, n + 1, q, left - 1);
    }
  }

  /** How a response is read: exactly which ones give a page, with which records, and what each of the
      others fails with. */
  lemma CheckedMeans<R>(response: Response<R>)
    ensures var f, ok := Checked(response), 200 <= response.status <= 299;
            && (!ok ==> f == Failed(ApiError(response.status)))
            && (ok && response.body.NotJson? ==> f == Failed(Incomplete(Unparseable)))
            && (ok && response.body.NotAnObject? ==> f == Failed(Incomplete(NotAnObjectBody)))
            && (ok && response.body.Object? ==>
                  var data, meta := response.body.data, response.body.meta;
                  var mixed := data.Items? && exists x :: x in data.items && x.NotARecord?;
                  && (data.NotAList? ==> f == Failed(Incomplete(DataNotAList)))
                  && (!data.NotAList? && meta.BadMeta? ==> f == Failed(Incomplete(MetaNotAnObject)))
                  && (!meta.BadMeta? && mixed ==> f == Failed(Incomplete(NotAllRecords)))
                  && (!data.NotAList? && !meta.BadMeta? && !mixed ==>
                        && f.Got? && f.page.items == (if data.Items? then data.items else [])
                        && f.page.cursor == (if meta.Meta? then meta.cursor else None)
                        && f.page.total == (if meta.Meta? then meta.total else NoTotal)))
  {
    if response.body.Object? && response.body.data.Items? {
      assert AllRecords(response.body.data.items) <==> !exists x :: x in response.body.data.items && x.NotARecord?;
    }
  }

  /** Pages of records count as repeated exactly when they list the same ids in the same order. */
  lemma SameSignature<R>(a: seq<Item<R>>, b: seq<Item<R>>)
    requires forall x :: x in a || x in b ==> x.Record?
    ensures Signature(a) == Signature(b) <==> |a| == |b| && forall i :: 0 <= i < |a| ==> a[i].id == b[i].id
  {
    if |a| == |b| {
      forall i | 0 <= i < |a| ensures Signature(a)[i] == a[i].id && Signature(b)[i] == b[i].id {
        assert a[i] in a && b[i] in b;
      }
    }
  }

  // A way to fetch pages; the reading of a window works for any that advances the page counter.
  type Fetcher<!R> = (Link, Query) -> (Link, Fetched<R>)

  function FetcherOf<R>(server: Server<R>, limits: Limits): Fetcher<R> {
    (s, q) => Fetch(server, limits, s, q)
  }

  ghost predicate AdvancesAt<R>(fetch: Fetcher<R>, limits: Limits, s: Link, q: Query) {
    fetch(s, q).1.Got? ==> s.pages < limits.maxPages && fetch(s, q).0.pages == s.pages + 1
  }

  ghost predicate Advances<R(!new)>(fetch: Fetcher<R>, limits: Limits) {
    forall s, q :: AdvancesAt(fetch, limits, s, q)
  }

  lemma FetcherAdvances<R(!new)>(server: Server<R>, limits: Limits)
    ensures Advances(FetcherOf(server, limits), limits)
  {
  }

  /* ---------- a whole read ---------- */

  // What a read yields, how it ends, the pages it sent requests for and those it accepted.
  datatype Read<R> = Read(out: seq<Item<R>>, failure: Option<Failure>, link: Link, queries: seq<Query>,
                          accepted: seq<seq<Item<R>>>)

  function Stop<R>(s: Link, q: Query, s': Link, failure: Failure): Read<R> {
    Read([], Some(failure), s', if s'.requests > s.requests then [q] else [], [])
  }

  function One<R>(q: Query, s': Link, items: seq<Item<R>>, failure: Option<Failure>): Read<R> {
    Read(items, failure, s', [q], [items])
  }

  // A page followed by the rest of the read.
  function Then<R>(q: Query, items: seq<Item<R>>, rest: Read<R>): Read<R> {
    Read(items + rest.out, rest.failure, rest.link, [q] + rest.queries, [items] + rest.accepted)
  }

  ghost function CursorPages<R(!new)>(fetch: Fetcher<R>, limits: Limits, s: Link, cursor: string,
                                      seen: set<string>): Read<R>
    requires Advances(fetch, limits)
    decreases limits.maxPages - s.pages
  {
    assert AdvancesAt(fetch, limits, s, Cursor(cursor));
    var (s', fetched) := fetch(s, Cursor(cursor));
    if fetched.Failed? then Stop(s, Cursor(cursor), s', fetched.failure)
    else
      var items, next := fetched.page.items, fetched.page.cursor;
      if items == [] && next.Some? then One(Cursor(cursor), s', [], Some(Incomplete(EmptyWithCursor)))
      else if next.None? then One(Cursor(cursor), s', items, None)
      else if next.value in seen then One(Cursor(cursor), s', items, Some(Incomplete(RepeatedCursor)))
      else Then(Cursor(cursor), items, CursorPages(fetch, limits, s', next.value, seen + {next.value}))
  }

  predicate More(limits: Limits, page: nat, previous: nat, total: Option<int>) {
    if total.Some? then page < total.value else previous >= limits.pageLimit
  }

  // `page` pages have been read, the last of them `previous` items long.
  ghost function NumberedPages<R(!new)>(fetch: Fetcher<R>, limits: Limits, s: Link, page: nat, previous: nat,
                                        total: Option<int>): Read<R>
    requires Advances(fetch, limits)
    decreases limits.maxPages - s.pages
  {
    if !More(limits, page, previous, total) then Read([], None, s, [], [])
    else
      assert AdvancesAt(fetch, limits, s, Page(page + 1));
      var (s', fetched) := fetch(s, Page(page + 1));
      if fetched.Failed? then Stop(s, Page(page + 1), s', fetched.failure)
      else
        var items := fetched.page.items;
        if fetched.page.cursor.Some? then Read([], Some(Incomplete(ModeChanged)), s', [Page(page + 1)], [items])
        else if items == [] then One(Page(page + 1), s', [], None)
        else Then(Page(page + 1), items, NumberedPages(fetch, limits, s', page + 1, |items|, total))
  }

  // The first response selects the mode.
  ghost function ReadAll<R(!new)>(fetch: Fetcher<R>, limits: Limits, requests: nat, retries: nat): Read<R>
    requires Advances(fetch, limits)
  {
    var s := Link(requests, retries, 0, {});
    var (s', fetched) := fetch(s, Page(1));
    if fetched.Failed? then Stop(s, Page(1), s', fetched.failure)
    else
      var items, cursor, total := fetched.page.items, fetched.page.cursor, fetched.page.total;
      if cursor.Some? then Then(Page(1), items, CursorPages(fetch, limits, s', cursor.value, {cursor.value}))
      else
        match total
        case NoTotal => Then(Page(1), items, NumberedPages(fetch, limits, s', 1, |items|, None))
        case BadTotal => One(Page(1), s', items, Some(Incomplete(InvalidTotal)))
        case Pages(n) =>
          if n < 0 then One(Page(1), s', items, Some(Incomplete(InvalidTotal)))
          else if n == 0 then One(Page(1), s', items, None)
          else Then(Page(1), items, NumberedPages(fetch, limits, s', 1, |items|, Some(n)))
  }

  // A read that is under way: the whole is what was yielded, asked and accepted so far, and the rest.
  datatype Progress<R> = Progress(out: seq<Item<R>>, asked: seq<Query>, accepted: seq<seq<Item<R>>>)

  ghost predicate Splits<R>(all: Read<R>, start: Progress<R>, now: Progress<R>, rest: Read<R>) {
    && all.failure == rest.failure && all.link == rest.link && all.out == now.out + rest.out
    && start.asked + all.queries == now.asked + rest.queries
    && start.accepted + all.accepted == now.accepted + rest.accepted
  }

  lemma SplitsThen<R>(all: Read<R>, start: Progress<R>, now: Progress<R>, q: Query, items: seq<Item<R>>, rest: Read<R>)
    requires Splits(all, start, now, Then(q, items, rest))
    ensures Splits(all, start, Progress(now.out + items, now.asked + [q], now.accepted + [items]), rest)
  {
    assert now.out + (items + rest.out) == now.out + items + rest.out;
    assert now.asked + ([q] + rest.queries) == now.asked + [q] + rest.queries;
    assert now.accepted + ([items] + rest.accepted) == now.accepted + [items] + rest.accepted;
  }

  /* ---------- the source object ---------- */

  class LangfuseApiTraceSource<!R(!new)> {
    const server: Server<R>
    const limits: Limits
    ghost const fetch: Fetcher<R>
    var link: Link
    // What was asked, once however often it was retried, and the pages accepted, over all reads.
    ghost var asked: seq<Query>
    ghost var accepted: seq<seq<Item<R>>>

    constructor (server: Server<R>, limits: Limits)
      ensures this.server == server && this.limits == limits && fetch == FetcherOf(server, limits) && Valid()
      ensures link == Link(0, 0, 0, {}) && asked == [] && accepted == []
    {
      this.server, this.limits := server, limits;
      fetch := FetcherOf(server, limits);
      link := Link(0, 0, 0, {});
      asked, accepted := [], [];
      new;
      FetcherAdvances(server, limits);
    }

    ghost predicate FetchesAt(s: Link, q: Query) {
      fetch(s, q) == Fetch(server, limits, s, q)
    }

    // The fetcher describes this source.
    ghost predicate Valid() {
      Advances(fetch, limits) && forall s, q :: FetchesAt(s, q)
    }

    // `_get`: retry while the status is retryable and attempts are left.
    method Get(q: Query) returns (response: Option<Response<R>>)
      modifies `link, `asked
      ensures response.None? <==> limits.maxRetries < 0
      ensures response.None? ==> link == old(link)
      ensures response.Some? ==>
                var r := Attempt(server, old(link.requests), q, limits.maxRetries);
                && response.value == r.0
                && link == old(link).(requests := old(link.requests) + r.1, retries := old(link.retries) + r.1 - 1)
      ensures asked == old(asked) + if response.None? then [] else [q]
    {
      var attempt := 0;
      while attempt < limits.maxRetries + 1
        invariant attempt == 0 || attempt < limits.maxRetries + 1
        invariant link == old(link).(requests := old(link.requests) + attempt, retries := old(link.retries) + attempt)
        invariant asked == old(asked) + if attempt == 0 then [] else [q]
        invariant limits.maxRetries >= 0 ==>
                    var all := Attempt(server, old(link.requests), q, limits.maxRetries);
                    var rest := Attempt(server, link.requests, q, limits.maxRetries - attempt);
                    all.0 == rest.0 && all.1 == attempt + rest.1
      {
        var r := server(link.requests, q);
        if attempt == 0 {
          asked := asked + [q];
        }
        link := link.(requests := link.requests + 1);
        if Retryable(r.status) && attempt < limits.maxRetries {
          link := link.(retries := link.retries + 1);
          attempt := attempt + 1;
        } else {
          return Some(r);
        }
      }
      response := None;
    }

    // `_fetch_page`.
    method FetchPage(q: Query) returns (fetched: Fetched<R>)
      requires Valid()
      modifies this
      ensures (link, fetched) == fetch(old(link), q)
      ensures asked == old(asked) + if link.requests > old(link.requests) then [q] else []
      ensures accepted == old(accepted) + if fetched.Got? then [fetched.page.items] else []
      ensures fetched.Got? ==> link.requests > old(link.requests)
    {
      assert FetchesAt(link, q);
      if link.pages >= limits.maxPages {
        return Failed(Incomplete(PageLimit));
      }
      var response := Get(q);
      if response.None? {
        return Failed(ApiError(429));
      }
      fetched := Checked(response.value);
      if fetched.Failed? {
        return;
      }
      if fetched.page.items != [] {
        var signature := Signature(fetched.page.items);
        if signature in link.signatures {
          return Failed(Incomplete(RepeatedPage));
        }
        link := link.(signatures := link.signatures + {signature});
      }
      link := link.(pages := link.pages + 1);
      accepted := accepted + [fetched.page.items];
    }

    // The object has gone through a read since it had asked and accepted so much.
    ghost predicate Traced(r: Read<R>, askedBefore: seq<Query>, acceptedBefore: seq<seq<Item<R>>>)
      reads this
    {
      link == r.link && asked == askedBefore + r.queries && accepted == acceptedBefore + r.accepted
    }

    method IterCursorPages(first: string) returns (out: seq<Item<R>>, failure: Option<Failure>)
      requires Valid()
      modifies this
      ensures var r := CursorPages(fetch, limits, old(link), first, {first});
              out == r.out && failure == r.failure && Traced(r, old(asked), old(accepted))
    {
      var cursor, seen := first, {first};
      ghost var all, start := CursorPages(fetch, limits, link, first, {first}), Progress([], asked, accepted);
      out := [];
      while true
        invariant var rest := CursorPages(fetch, limits, link, cursor, seen);
                  Splits(all, start, Progress(out, asked, accepted), rest)
        decreases limits.maxPages - link.pages
      {
        assert AdvancesAt(fetch, limits, link, Cursor(cursor));
        ghost var now := Progress(out, asked, accepted);
        var fetched := FetchPage(Cursor(cursor));
        if fetched.Failed? {
          return out, Some(fetched.failure);
        }
        var next := fetched.page.cursor;
        if fetched.page.items == [] && next.Some? {
          return out, Some(Incomplete(EmptyWithCursor));
        }
        out := out + fetched.page.items;
        if next.None? {
          return out, None;
        }
        if next.value in seen {
          return out, Some(Incomplete(RepeatedCursor));
        }
        ghost var rest := CursorPages(fetch, limits, link, next.value, seen + {next.value});
        SplitsThen(all, start, now, Cursor(cursor), fetched.page.items, rest);
        seen := seen + {next.value};
        cursor := next.value;
      }
    }

    method IterNumberedPages(firstLength: nat, total: Option<int>) returns (out: seq<Item<R>>, failure: Option<Failure>)
      requires Valid()
      modifies this
      ensures var r := NumberedPages(fetch, limits, old(link), 1, firstLength, total);
              out == r.out && failure == r.failure && Traced(r, old(asked), old(accepted))
    {
      var page: nat, previous: nat := 1, firstLength;
      ghost var all, start := NumberedPages(fetch, limits, link, 1, firstLength, total), Progress([], asked, accepted);
      out := [];
      while More(limits, page, previous, total)
        invariant var rest := NumberedPages(fetch, limits, link, page, previous, total);
                  Splits(all, start, Progress(out, asked, accepted), rest)
        decreases limits.maxPages - link.pages
      {
        page := page + 1;
        assert AdvancesAt(fetch, limits, link, Page(page));
        ghost var now := Progress(out, asked, accepted);
        var fetched := FetchPage(Page(page));
        if fetched.Failed? {
          return out, Some(fetched.failure);
        }
        if fetched.page.cursor.Some? {
          return out, Some(Incomplete(ModeChanged));
        }
        if fetched.page.items == [] {
          return out, None;
        }
        ghost var rest := NumberedPages(fetch, limits, link, page, |fetched.page.items|, total);
        SplitsThen(all, start, now, Page(page), fetched.page.items, rest);
        out := out + fetched.page.items;
        previous := |fetched.page.items|;
      }
      failure := None;
    }

    /** The whole read, as far as it gets. */
    method IterRecords() returns (out: seq<Item<R>>, failure: Option<Failure>)
      requires Valid()
      modifies this
      ensures var r := ReadAll(fetch, limits, old(link.requests), old(link.retries));
              out == r.out && failure == r.failure && Traced(r, old(asked), old(accepted))
    {
      ghost var all, start := ReadAll(fetch, limits, link.requests, link.retries), Progress([], asked, accepted);
      link := Link(link.requests, link.retries, 0, {});
      var fetched := FetchPage(Page(1));
      if fetched.Failed? {
        return [], Some(fetched.failure);
      }
      var page := fetched.page;
      var rest: seq<Item<R>> := [];
      ghost var s := link;
      if page.cursor.Some? {
        SplitsThen(all, start, start, Page(1), page.items,
                   CursorPages(fetch, limits, s, page.cursor.value, {page.cursor.value}));
        rest, failure := IterCursorPages(page.cursor.value);
      } else if page.total.BadTotal? || (page.total.Pages? && page.total.n < 0) {
        failure := Some(Incomplete(InvalidTotal));
      } else if page.total.Pages? && page.total.n == 0 {
        failure := None;
      } else {
        var total := if page.total.Pages? then Some(page.total.n) else None;
        SplitsThen(all, start, start, Page(1), page.items, NumberedPages(fetch, limits, s, 1, |page.items|, total));
        rest, failure := IterNumberedPages(|page.items|, total);
      }
      out := page.items + rest;
    }
  }
}
