/** fetchAllPages: the pages of a list endpoint, fetched one by one from an envelope that the
    client cannot trust, and concatenated. */
module Paging {
  import opened Outcomes
  import opened World
  import opened Calls

  const PAGE_SIZE := 10000

  const MAX_INT := 0x7fff_ffff_ffff_ffff
  const MIN_INT := -0x8000_0000_0000_0000

  /** Go's int on a 64-bit platform. */
  type GoInt = x: int | MIN_INT <= x <= MAX_INT

  datatype Envelope<+T> = Envelope(content: seq<T>, totalPages: GoInt, last: bool)

  /** totalPages - 1, which wraps around. */
  function LessOne(x: GoInt): GoInt {
    if x == MIN_INT then MAX_INT else x - 1
  }

  predicate Stops<T>(e: Envelope<T>, page: nat) {
    e.last || |e.content| == 0 || page >= LessOne(e.totalPages)
  }

  function PageRequest(path: string, page: nat): Request {
    ListPage(path, page, PAGE_SIZE)
  }

  function Prefixed<T>(all: seq<T>, r: Result<seq<T>>): Result<seq<T>> {
    if r.Err? then r else Ok(all + r.value)
  }

  /** How one page is fetched, as a step from one environment to the next. */
  type PageFetch<T> = (Env, nat) -> (Env, Result<Envelope<T>>)

  function Fetcher<T>(tokens: TokenFetch, path: string, api: Api<Envelope<T>>): PageFetch<T> {
    (e: Env, page: nat) => Do(tokens, e, PageRequest(path, page), true, AnswersTo(api, PageRequest(path, page)), Decode)
  }

  /** fetchAllPages from a page on. */
  function FetchFrom<T>(fetch: PageFetch<T>, e: Env, page: nat): (Env, Result<seq<T>>)
    requires page <= MAX_INT
    decreases MAX_INT - page
  {
    var (e1, r) := fetch(e, page);
    if r.Err? then (e1, Err(r.error))
    else if Stops(r.value, page) then (e1, Ok(r.value.content))
    else
      var (e2, rest) := FetchFrom(fetch, e1, page + 1);
      (e2, Prefixed(r.value.content, rest))
  }

  function FetchAll<T>(tokens: TokenFetch, e: Env, path: string, api: Api<Envelope<T>>)
    : (Env, Result<seq<T>>)
  {
    FetchFrom(Fetcher(tokens, path, api), e, 0)
  }

  lemma PrefixedByNothing<T>(r: Result<seq<T>>)
    ensures Prefixed([], r) == r
  {
    if r.Ok? {
      assert [] + r.value == r.value;
    }
  }

  /** What fetching from this page on ends with when `all` is collected so far. */
  function Finish<T>(fetch: PageFetch<T>, e: Env, page: nat, all: seq<T>): (Env, Result<seq<T>>)
    requires page <= MAX_INT
  {
    var (e', rest) := FetchFrom(fetch, e, page);
    (e', Prefixed(all, rest))
  }

  /** One page of the loop: it fails, or adds the page to what was collected and stops or goes on. */
  lemma FinishUnfolds<T>(fetch: PageFetch<T>, e: Env, page: nat, all: seq<T>)
    requires page <= MAX_INT
    ensures var (e1, r) := fetch(e, page);
            Finish(fetch, e, page, all) ==
              if r.Err? then (e1, Err(r.error))
              else if Stops(r.value, page) then (e1, Ok(all + r.value.content))
              else Finish(fetch, e1, page + 1, all + r.value.content)
  {
    var (e1, r) := fetch(e, page);
    if r.Ok? && !Stops(r.value, page) {
      var (e2, rest) := FetchFrom(fetch, e1, page + 1);
      if rest.Ok? {
        assert all + (r.value.content + rest.value) == all + r.value.content + rest.value;
      }
    }
  }

  /** What decides page after page when every token is obtained: the answer to a request for that page of
      10000 elements. */
  function PageAnswer<T>(path: string, api: Api<Envelope<T>>): nat -> Result<Envelope<T>> {
    (page: nat) => Judge(FinalAnswer(api, ListPage(path, page, 10000)), Decode)
  }

  /** The concatenated contents from a page on, up to the first page that stops. */
  function Collect<T>(answer: nat -> Result<Envelope<T>>, page: nat): Result<seq<T>>
    requires page <= MAX_INT
    decreases MAX_INT - page
  {
    if answer(page).Err? then Err(answer(page).error)
    else if Stops(answer(page).value, page) then Ok(answer(page).value.content)
    else Prefixed(answer(page).value.content, Collect(answer, page + 1))
  }

  /** The number of pages fetched from a page on. */
  function Fetches<T>(answer: nat -> Result<Envelope<T>>, page: nat): nat
    requires page <= MAX_INT
    decreases MAX_INT - page
  {
    if answer(page).Err? || Stops(answer(page).value, page) then 1 else 1 + Fetches(answer, page + 1)
  }

  /** The first request for a page is answered 401. */
  predicate PageRefused<T>(path: string, api: Api<Envelope<T>>, page: nat) {
    var first := api(ListPage(path, page, 10000), 0);
    first.Reply? && first.status == 401
  }

  /** The requests for n pages from a page on: one each, and one more after a 401. */
  function PageRequests<T>(path: string, api: Api<Envelope<T>>, page: nat, n: nat): seq<Request>
    decreases n
  {
    if n == 0 then []
    else
      var q := ListPage(path, page, 10000);
      var later := PageRequests(path, api, page + 1, n - 1);
      if PageRefused(path, api, page) then [q] + ([q] + later) else [q] + later
  }

  /** A request for one of the pages from `low` on, below `high`, of this list. */
  predicate AsksFor(path: string, q: Request, low: nat, high: nat) {
    q.ListPage? && q == ListPage(path, q.page, 10000) && low <= q.page < high
  }

  /** Requests for pages from `low` on, below `high`, in order. */
  ghost predicate AskInOrder(path: string, rs: seq<Request>, low: nat, high: nat) {
    && (forall i | 0 <= i < |rs| :: AsksFor(path, rs[i], low, high))
    && (forall i, j | 0 <= i < j < |rs| :: rs[i].page <= rs[j].page)
  }

  lemma AskOneMore(path: string, page: nat, rs: seq<Request>, low: nat, high: nat)
    requires AskInOrder(path, rs, low, high) && page < high && page <= low
    ensures AskInOrder(path, [ListPage(path, page, 10000)] + rs, page, high)
  {
    var all := [ListPage(path, page, 10000)] + rs;
    forall i | 0 <= i < |all|
      ensures AsksFor(path, all[i], page, high)
    {
      if i > 0 {
        assert AsksFor(path, rs[i - 1], low, high);
      }
    }
    forall i, j | 0 <= i < j < |all|
      ensures all[i].page <= all[j].page
    {
      if i > 0 {
        assert AsksFor(path, rs[i - 1], low, high) && rs[i - 1].page <= rs[j - 1].page;
      } else {
        assert AsksFor(path, rs[j - 1], low, high);
      }
    }
  }

  lemma {:induction false} PagesAscend<T>(path: string, api: Api<Envelope<T>>, page: nat, n: nat)
    ensures AskInOrder(path, PageRequests(path, api, page, n), page, page + n)
    decreases n
  {
    if n > 0 {
      var q, later := ListPage(path, page, 10000), PageRequests(path, api, page + 1, n - 1);
      PagesAscend(path, api, page + 1, n - 1);
      AskOneMore(path, page, later, page + 1, page + n);
      if PageRefused(path, api, page) {
        AskOneMore(path, page, [q] + later, page, page + n);
      }
    }
  }

  /** How often q is among the requests. */
  function Times(q: Request, rs: seq<Request>): nat {
    if rs == [] then 0 else (if rs[0] == q then 1 else 0) + Times(q, rs[1..])
  }

  lemma {:induction false} NeverAsked(q: Request, rs: seq<Request>)
    requires q !in rs
    ensures Times(q, rs) == 0
  {
    if rs != [] {
      NeverAsked(q, rs[1..]);
    }
  }

  lemma TimesOneMore(q: Request, r: Request, rs: seq<Request>)
    ensures Times(q, [r] + rs) == Times(q, rs) + if r == q then 1 else 0
  {
    assert ([r] + rs)[1..] == rs;
  }

  lemma {:induction false} PageIsAsked<T>(path: string, api: Api<Envelope<T>>, page: nat, n: nat, p: nat)
    requires page <= p < page + n
    ensures Times(ListPage(path, p, 10000), PageRequests(path, api, page, n)) ==
              if PageRefused(path, api, p) then 2 else 1
    decreases n
  {
    var q, r, later := ListPage(path, page, 10000), ListPage(path, p, 10000), PageRequests(path, api, page + 1, n - 1);
    if p == page {
      PagesAscend(path, api, page + 1, n - 1);
      assert forall i | 0 <= i < |later| :: AsksFor(path, later[i], page + 1, page + n) && later[i] != r;
      NeverAsked(r, later);
    } else {
      PageIsAsked(path, api, page + 1, n - 1, p);
    }
    TimesOneMore(r, q, later);
    TimesOneMore(r, q, [q] + later);
  }

  /** They ask for nothing but these pages of this list, in order, each once, or twice after a 401. */
  lemma PagesInOrder<T>(path: string, api: Api<Envelope<T>>, page: nat, n: nat)
    ensures var rs := PageRequests(path, api, page, n);
            && AskInOrder(path, rs, page, page + n)
            && (forall p: nat | page <= p < page + n ::
                  Times(ListPage(path, p, 10000), rs) == if PageRefused(path, api, p) then 2 else 1)
  {
    PagesAscend(path, api, page, n);
    forall p: nat | page <= p < page + n
      ensures Times(ListPage(path, p, 10000), PageRequests(path, api, page, n)) ==
                if PageRefused(path, api, p) then 2 else 1
    {
      PageIsAsked(path, api, page, n, p);
    }
  }

  /** A page fetch that succeeds returns the deciding answer, after requesting the page once, or twice
      after a 401. */
  ghost predicate Honours<T(!new)>(fetch: PageFetch<T>, path: string, api: Api<Envelope<T>>) {
    forall e: Env, page: nat | fetch(e, page).1.Ok? ::
      && fetch(e, page).1 == PageAnswer(path, api)(page)
      && e.sent <= fetch(e, page).0.sent
      && RequestsOf(fetch(e, page).0.sent[|e.sent|..]) == PageRequests(path, api, page, 1)
  }

  lemma FetcherHonours<T(!new)>(tokens: TokenFetch, path: string, api: Api<Envelope<T>>)
    requires Modest(tokens)
    ensures Honours(Fetcher(tokens, path, api), path, api)
  {
    var fetch := Fetcher(tokens, path, api);
    forall e: Env, page: nat | fetch(e, page).1.Ok?
      ensures fetch(e, page).1 == PageAnswer(path, api)(page)
      ensures e.sent <= fetch(e, page).0.sent
      ensures RequestsOf(fetch(e, page).0.sent[|e.sent|..]) == PageRequests(path, api, page, 1)
    {
      var q := PageRequest(path, page);
      DoAccounts(tokens, e, q, true, AnswersTo(api, PageRequest(path, page)), Decode);
      assert PageRequests(path, api, page + 1, 0) == [];
      assert RequestsOf(fetch(e, page).0.sent[|e.sent|..]) == if PageRefused(path, api, page) then [q, q] else [q];
    }
  }

  lemma {:induction false} ResultFrom<T(!new)>(
    fetch: PageFetch<T>, e: Env, path: string, api: Api<Envelope<T>>, page: nat)
    requires Honours(fetch, path, api)
    requires page <= MAX_INT && FetchFrom(fetch, e, page).1.Ok?
    ensures FetchFrom(fetch, e, page).1 == Collect(PageAnswer(path, api), page)
    decreases MAX_INT - page
  {
    var (e1, r1) := fetch(e, page);
    if !Stops(r1.value, page) {
      ResultFrom(fetch, e1, path, api, page + 1);
    }
  }

  lemma PageRequestsSplit<T>(path: string, api: Api<Envelope<T>>, page: nat, n: nat)
    ensures PageRequests(path, api, page, n + 1) ==
              PageRequests(path, api, page, 1) + PageRequests(path, api, page + 1, n)
  {
    assert PageRequests(path, api, page + 1, 0) == [];
  }

  lemma {:induction false} RequestsFrom<T(!new)>(
    fetch: PageFetch<T>, e: Env, path: string, api: Api<Envelope<T>>, page: nat)
    requires Honours(fetch, path, api)
    requires page <= MAX_INT && FetchFrom(fetch, e, page).1.Ok?
    ensures var e' := FetchFrom(fetch, e, page).0;
            && e.sent <= e'.sent
            && RequestsOf(e'.sent[|e.sent|..]) == PageRequests(path, api, page, Fetches(PageAnswer(path, api), page))
    decreases MAX_INT - page
  {
    var (e1, r1) := fetch(e, page);
    if !Stops(r1.value, page) {
      RequestsFrom(fetch, e1, path, api, page + 1);
      RequestsJoin(e.sent, e1.sent, FetchFrom(fetch, e1, page + 1).0.sent);
      PageRequestsSplit(path, api, page, Fetches(PageAnswer(path, api), page + 1));
    }
  }

  /** A successful fetch returns what the deciding answers add up to, and has requested each page once,
      or twice after a 401, in order. */
  lemma FetchCollects<T(!new)>(
    tokens: TokenFetch, e: Env, path: string, api: Api<Envelope<T>>)
    requires Modest(tokens)
    ensures var (e', r) := FetchAll(tokens, e, path, api);
            r.Ok? ==>
              && r == Collect(PageAnswer(path, api), 0)
              && e.sent <= e'.sent
              && RequestsOf(e'.sent[|e.sent|..]) == PageRequests(path, api, 0, Fetches(PageAnswer(path, api), 0))
  {
    if FetchAll(tokens, e, path, api).1.Ok? {
      FetcherHonours(tokens, path, api);
      ResultFrom(Fetcher(tokens, path, api), e, path, api, 0);
      RequestsFrom(Fetcher(tokens, path, api), e, path, api, 0);
    }
  }

  lemma {:induction false} RequestsAtMostDouble<T>(
    path: string, api: Api<Envelope<T>>, page: nat, n: nat)
    ensures n <= |PageRequests(path, api, page, n)| <= 2 * n
    decreases n
  {
    if n > 0 {
      RequestsAtMostDouble(path, api, page + 1, n - 1);
    }
  }

  function Min(a: int, b: int): int {
    if a < b then a else b
  }

  /** The list from position n on. */
  function From<T>(list: seq<T>, n: nat): seq<T> {
    list[Min(n, |list|)..]
  }

  /** Where page `page` begins: page * k. */
  function Offset(k: nat, page: nat): nat {
    if page == 0 then 0 else Offset(k, page - 1) + k
  }

  /** Page `page` of the list, k elements a page. */
  function Slice<T>(list: seq<T>, k: nat, page: nat): seq<T> {
    From(list, Offset(k, page))[..Min(k, |From(list, Offset(k, page))|)]
  }

  /** The pages that n elements fill, k a page: n / k, rounded up. */
  function PageCount(n: nat, k: nat): nat
    requires k >= 1
  {
    if n == 0 then 0 else if n <= k then 1 else 1 + PageCount(n - k, k)
  }

  lemma {:induction false} OffsetIsProduct(k: nat, page: nat)
    ensures Offset(k, page) == page * k
  {
    if page > 0 {
      OffsetIsProduct(k, page - 1);
      assert page * k == (page - 1) * k + k;
    }
  }

  /** The server has this list, k elements a page; `last` is not set before the final page, and
      totalPages is not understated. */
  ghost predicate Serves<T(!new)>(list: seq<T>, k: nat, answer: nat -> Result<Envelope<T>>)
    requires k >= 1
  {
    forall page: nat | answer(page).Ok? ::
      && answer(page).value.content == Slice(list, k, page)
      && (answer(page).value.last ==> page + 1 >= PageCount(|list|, k))
      && answer(page).value.totalPages >= PageCount(|list|, k)
  }

  /** Moreover both fields are right. */
  ghost predicate ServesExactly<T(!new)>(list: seq<T>, k: nat, answer: nat -> Result<Envelope<T>>)
    requires k >= 1
  {
    && Serves(list, k, answer)
    && forall page: nat | answer(page).Ok? ::
         answer(page).value.totalPages == PageCount(|list|, k)
         && (answer(page).value.last <==> page + 1 >= PageCount(|list|, k))
  }

  /** Page numbers below the page count are those that start within the list. */
  lemma {:induction false} PageWithin(n: nat, k: nat, page: nat)
    requires k >= 1
    ensures page < PageCount(n, k) <==> Offset(k, page) < n
    decreases page
  {
    if page > 0 && n > k {
      PageWithin(n - k, k, page - 1);
    } else if page > 1 {
      PageWithin(n, k, page - 1);
    }
  }

  /** The page count is n / k rounded up: that many pages hold n elements, and one fewer do not. */
  lemma PageCountRoundsUp(n: nat, k: nat)
    requires k >= 1
    ensures var pages := PageCount(n, k);
            n <= pages * k && (pages > 0 ==> (pages - 1) * k < n)
  {
    var pages := PageCount(n, k);
    PageWithin(n, k, pages);
    OffsetIsProduct(k, pages);
    if pages > 0 {
      PageWithin(n, k, pages - 1);
      OffsetIsProduct(k, pages - 1);
    }
  }

  lemma SliceSplits<T>(list: seq<T>, k: nat, page: nat)
    ensures From(list, Offset(k, page)) == Slice(list, k, page) + From(list, Offset(k, page + 1))
  {
  }

  lemma BeyondTheEnd<T>(list: seq<T>, k: nat, page: nat)
    requires k >= 1
    ensures Slice(list, k, page) == [] <==> page >= PageCount(|list|, k)
    ensures From(list, Offset(k, page)) == [] <==> page >= PageCount(|list|, k)
  {
    PageWithin(|list|, k, page);
    assert |From(list, Offset(k, page))| == |list| - Min(Offset(k, page), |list|);
  }

  /** A page that stops the loop is the last of an honest list. */
  lemma StopIsEnd<T(!new)>(list: seq<T>, k: nat, answer: nat -> Result<Envelope<T>>, page: nat)
    requires k >= 1 && Serves(list, k, answer) && answer(page).Ok?
    ensures Stops(answer(page).value, page) ==> page + 1 >= PageCount(|list|, k)
    ensures !Stops(answer(page).value, page) ==> page < PageCount(|list|, k)
  {
    BeyondTheEnd(list, k, page);
    assert answer(page).value.content == Slice(list, k, page);
  }

  /** Against an honest list the fetch returns the rest of it, one page after its end at the latest. */
  lemma {:induction false} CollectsFrom<T(!new)>(list: seq<T>, k: nat, answer: nat -> Result<Envelope<T>>, page: nat)
    requires k >= 1 && Serves(list, k, answer)
    requires page <= MAX_INT && page <= PageCount(|list|, k)
    ensures Collect(answer, page).Ok? ==> Collect(answer, page).value == From(list, Offset(k, page))
    ensures page + Fetches(answer, page) <= PageCount(|list|, k) + 1
    decreases MAX_INT - page
  {
    if answer(page).Ok? {
      StopIsEnd(list, k, answer, page);
      SliceSplits(list, k, page);
      BeyondTheEnd(list, k, page + 1);
      if !Stops(answer(page).value, page) {
        CollectsFrom(list, k, answer, page + 1);
      }
    }
  }

  /** With overstated totals and a late `last`, a successful fetch still returns exactly the list, in at
      most one page more than it has. */
  lemma RobustPaging<T(!new)>(
    tokens: TokenFetch, e: Env, path: string, api: Api<Envelope<T>>, list: seq<T>, k: nat)
    requires Modest(tokens)
    requires k >= 1 && Serves(list, k, PageAnswer(path, api))
    requires FetchAll(tokens, e, path, api).1.Ok?
    ensures var (e', r) := FetchAll(tokens, e, path, api);
            && r.value == list
            && Fetches(PageAnswer(path, api), 0) <= PageCount(|list|, k) + 1
            && e.sent <= e'.sent
            && RequestsOf(e'.sent[|e.sent|..]) == PageRequests(path, api, 0, Fetches(PageAnswer(path, api), 0))
  {
    FetchCollects(tokens, e, path, api);
    CollectsFrom(list, k, PageAnswer(path, api), 0);
    assert From(list, 0) == list;
  }

  lemma StopsExactly<T(!new)>(list: seq<T>, k: nat, answer: nat -> Result<Envelope<T>>, page: nat)
    requires k >= 1 && ServesExactly(list, k, answer) && answer(page).Ok?
    requires page == 0 || page < PageCount(|list|, k)
    ensures Stops(answer(page).value, page) <==> page + 1 >= PageCount(|list|, k)
  {
    StopIsEnd(list, k, answer, page);
    BeyondTheEnd(list, k, page);
  }

  lemma {:induction false} FetchesExactly<T(!new)>(list: seq<T>, k: nat, answer: nat -> Result<Envelope<T>>, page: nat)
    requires k >= 1 && ServesExactly(list, k, answer)
    requires page <= MAX_INT && (page == 0 || page < PageCount(|list|, k)) && Collect(answer, page).Ok?
    ensures page + Fetches(answer, page) == if PageCount(|list|, k) == 0 then 1 else PageCount(|list|, k)
    decreases MAX_INT - page
  {
    var pages := PageCount(|list|, k);
    StopsExactly(list, k, answer, page);
    if page + 1 < pages {
      FetchesExactly(list, k, answer, page + 1);
    }
  }

  lemma NoPagesWhenEmpty(n: nat, k: nat)
    requires k >= 1
    ensures n == 0 <==> PageCount(n, k) == 0
  {
    PageWithin(n, k, 0);
  }

  /** Against a list served with correct totals, for any page size and any pattern of 401s on first
      attempts, a successful fetch returns exactly the list, fetches max(1, ceil(|list| / k)) pages,
      each once and in order, and sends at most twice as many requests. */
  lemma ExactPaging<T(!new)>(
    tokens: TokenFetch, e: Env, path: string, api: Api<Envelope<T>>, list: seq<T>, k: nat)
    requires Modest(tokens)
    requires k >= 1 && ServesExactly(list, k, PageAnswer(path, api))
    requires FetchAll(tokens, e, path, api).1.Ok?
    ensures var (e', r) := FetchAll(tokens, e, path, api);
            var pages := if list == [] then 1 else PageCount(|list|, k);
            && r.value == list
            && e.sent <= e'.sent
            && RequestsOf(e'.sent[|e.sent|..]) == PageRequests(path, api, 0, pages)
            && pages <= |e'.sent| - |e.sent| <= 2 * pages
  {
    RobustPaging(tokens, e, path, api, list, k);
    FetchCollects(tokens, e, path, api);
    FetchesExactly(list, k, PageAnswer(path, api), 0);
    NoPagesWhenEmpty(|list|, k);
    RequestsAtMostDouble(path, api, 0, Fetches(PageAnswer(path, api), 0));
  }

  /** Whatever becomes of it, a page fetch sends at most two requests, and if it succeeds its result is
      the deciding answer; it does if every token is obtained. */
  ghost predicate Bounded<T(!new)>(fetch: PageFetch<T>, answer: nat -> Result<Envelope<T>>) {
    forall e: Env, page: nat ::
      && e.sent <= fetch(e, page).0.sent && |fetch(e, page).0.sent| <= |e.sent| + 2
      && (fetch(e, page).1.Ok? ==> fetch(e, page).1 == answer(page))
  }

  lemma FetcherBounded<T(!new)>(tokens: TokenFetch, path: string, api: Api<Envelope<T>>)
    requires Modest(tokens)
    ensures Bounded(Fetcher(tokens, path, api), PageAnswer(path, api))
  {
    var fetch := Fetcher(tokens, path, api);
    forall e: Env, page: nat
      ensures e.sent <= fetch(e, page).0.sent && |fetch(e, page).0.sent| <= |e.sent| + 2
      ensures fetch(e, page).1.Ok? ==> fetch(e, page).1 == PageAnswer(path, api)(page)
    {
      DoAccounts(tokens, e, PageRequest(path, page), true, AnswersTo(api, PageRequest(path, page)), Decode);
    }
  }

  /** No fetch, failed or not, sends more than two requests for each page up to the first that stops. */
  lemma {:induction false} FetchBounded<T(!new)>(
    fetch: PageFetch<T>, e: Env, answer: nat -> Result<Envelope<T>>, page: nat)
    requires Bounded(fetch, answer) && page <= MAX_INT
    ensures var e' := FetchFrom(fetch, e, page).0;
            e.sent <= e'.sent && |e'.sent| <= |e.sent| + 2 * Fetches(answer, page)
    decreases MAX_INT - page
  {
    var (e1, r1) := fetch(e, page);
    if r1.Ok? && !Stops(r1.value, page) {
      FetchBounded(fetch, e1, answer, page + 1);
    }
  }

  lemma {:induction false} FetchDecided<T>(
    tokens: TokenFetch, e: Env, path: string, api: Api<Envelope<T>>, page: nat)
    requires Willing(tokens) && page <= MAX_INT
    ensures FetchFrom(Fetcher(tokens, path, api), e, page).1 == Collect(PageAnswer(path, api), page)
    decreases MAX_INT - page
  {
    var fetch := Fetcher(tokens, path, api);
    var (e1, r1) := fetch(e, page);
    DoDecided(tokens, e, PageRequest(path, page), AnswersTo(api, PageRequest(path, page)), Decode);
    assert r1 == PageAnswer(path, api)(page);
    if r1.Ok? && !Stops(r1.value, page) {
      FetchDecided(tokens, e1, path, api, page + 1);
    }
  }

  /** The pages a fetch may come to: those the list fills, or one, and one more if the totals may be overstated. */
  ghost function PagesAtMost<T(!new)>(list: seq<T>, k: nat, answer: nat -> Result<Envelope<T>>): nat
    requires k >= 1
  {
    if !ServesExactly(list, k, answer) then PageCount(|list|, k) + 1
    else if list == [] then 1
    else PageCount(|list|, k)
  }

  lemma GoesOnWithin<T(!new)>(list: seq<T>, k: nat, answer: nat -> Result<Envelope<T>>, page: nat)
    requires k >= 1 && Serves(list, k, answer) && page < PagesAtMost(list, k, answer)
    requires answer(page).Ok? && !Stops(answer(page).value, page)
    ensures page + 1 < PagesAtMost(list, k, answer)
  {
    NoPagesWhenEmpty(|list|, k);
    StopIsEnd(list, k, answer, page);
    if ServesExactly(list, k, answer) {
      StopsExactly(list, k, answer, page);
    }
  }

  lemma {:induction false} CollectWithin<T(!new)>(
    list: seq<T>, k: nat, answer: nat -> Result<Envelope<T>>, page: nat, pages: nat)
    requires k >= 1 && Serves(list, k, answer) && pages == PagesAtMost(list, k, answer)
    requires page < pages && page <= MAX_INT
    ensures page + Fetches(answer, page) <= pages
    ensures (forall q: nat | page <= q < pages :: answer(q).Ok?) ==> Collect(answer, page).Ok?
    decreases MAX_INT - page
  {
    if answer(page).Ok? && !Stops(answer(page).value, page) {
      GoesOnWithin(list, k, answer, page);
      CollectWithin(list, k, answer, page + 1, pages);
    }
  }

  /** Against an honest list a fetch, failed or not, sends at most two requests for each page it may come
      to; and if every token and every deciding answer for these pages arrives, it returns the list. */
  lemma PagingOutcome<T(!new)>(
    tokens: TokenFetch, e: Env, path: string, api: Api<Envelope<T>>, list: seq<T>, k: nat)
    requires Modest(tokens)
    requires k >= 1 && Serves(list, k, PageAnswer(path, api))
    ensures var (e', r) := FetchAll(tokens, e, path, api);
            var pages := PagesAtMost(list, k, PageAnswer(path, api));
            && e.sent <= e'.sent && |e'.sent| <= |e.sent| + 2 * pages
            && (Willing(tokens) && (forall page: nat | page < pages :: PageAnswer(path, api)(page).Ok?) ==>
                  r == Ok(list))
  {
    var answer := PageAnswer(path, api);
    FetcherBounded(tokens, path, api);
    FetchBounded(Fetcher(tokens, path, api), e, answer, 0);
    NoPagesWhenEmpty(|list|, k);
    CollectWithin(list, k, answer, 0, PagesAtMost(list, k, answer));
    if Willing(tokens) {
      FetchDecided(tokens, e, path, api, 0);
      CollectsFrom(list, k, answer, 0);
      assert From(list, 0) == list;
    }
  }

  lemma {:induction false} PagesWithSameToken<T>(x: Setting, e: Env, path: string, api: Api<Envelope<T>>, page: nat)
    requires page <= MAX_INT && Usable(x, e) && forall p: nat :: !PageRefused(path, api, p)
    ensures SameToken(e, FetchFrom(Fetcher(Tokens(x), path, api), e, page).0)
    decreases MAX_INT - page
  {
    var fetch := Fetcher(Tokens(x), path, api);
    var (e1, r) := fetch(e, page);
    assert !PageRefused(path, api, page);
    LiveTokenSuffices(x, e, PageRequest(path, page), AnswersTo(api, PageRequest(path, page)), Decode);
    if r.Ok? && !Stops(r.value, page) {
      PagesWithSameToken(x, e1, path, api, page + 1);
      SameTokenOn(e, e1, FetchFrom(fetch, e1, page + 1).0);
    }
  }

  /** One token serves for all pages while it can be used and is not rejected: a fetch, failed or not, then posts
      no grant, leaves the cache alone and sends that token with every request. */
  lemma OneTokenForAllPages<T>(x: Setting, e: Env, path: string, api: Api<Envelope<T>>)
    requires Usable(x, e) && forall p: nat :: !PageRefused(path, api, p)
    ensures SameToken(e, FetchAll(Tokens(x), e, path, api).0)
  {
    PagesWithSameToken(x, e, path, api, 0);
  }

  function ContentOf<T>(r: Result<Envelope<T>>): seq<T> {
    if r.Ok? then r.value.content else []
  }

  /** The contents of the first n pages. */
  function FirstPages<T>(answer: nat -> Result<Envelope<T>>, n: nat): seq<T> {
    if n == 0 then [] else FirstPages(answer, n - 1) + ContentOf(answer(n - 1))
  }

  /** Page n - 1 is the first that stops, and all the pages before it arrive. */
  ghost predicate FirstStop<T>(answer: nat -> Result<Envelope<T>>, n: nat) {
    && n >= 1 && (forall i: nat | i < n :: answer(i).Ok?)
    && Stops(answer(n - 1).value, n - 1)
    && forall i: nat | i < n - 1 :: !Stops(answer(i).value, i)
  }

  lemma {:induction false} FetchesToFirstStop<T(!new)>(answer: nat -> Result<Envelope<T>>, page: nat)
    requires page <= MAX_INT && Collect(answer, page).Ok?
    requires forall i: nat | i < page :: answer(i).Ok? && !Stops(answer(i).value, i)
    ensures FirstStop(answer, page + Fetches(answer, page))
    decreases MAX_INT - page
  {
    if !Stops(answer(page).value, page) {
      FetchesToFirstStop(answer, page + 1);
    }
  }

  lemma Regroup<T>(a: seq<T>, b: seq<T>, c: seq<T>)
    ensures a + b + c == a + (b + c)
  {
  }

  lemma {:induction false} CollectsFirstPages<T>(answer: nat -> Result<Envelope<T>>, page: nat)
    requires page <= MAX_INT && Collect(answer, page).Ok?
    ensures FirstPages(answer, page) + Collect(answer, page).value == FirstPages(answer, page + Fetches(answer, page))
    decreases MAX_INT - page
  {
    if !Stops(answer(page).value, page) {
      CollectsFirstPages(answer, page + 1);
      Regroup(FirstPages(answer, page), answer(page).value.content, Collect(answer, page + 1).value);
    }
  }

  /** No answer claims more than `most` pages, or the one total whose predecessor wraps around. */
  ghost predicate ClaimsAtMost<T(!new)>(answer: nat -> Result<Envelope<T>>, most: nat) {
    forall page: nat | answer(page).Ok? :: MIN_INT < answer(page).value.totalPages <= most
  }

  lemma FirstStopBounded<T(!new)>(answer: nat -> Result<Envelope<T>>, most: nat, n: nat)
    requires ClaimsAtMost(answer, most) && FirstStop(answer, n)
    ensures n <= most || n == 1
  {
    assert n >= 2 ==> !Stops(answer(n - 2).value, n - 2);
  }

  lemma BoundedCollect<T(!new)>(answer: nat -> Result<Envelope<T>>, most: nat)
    requires ClaimsAtMost(answer, most) && Collect(answer, 0).Ok?
    ensures var n := Fetches(answer, 0);
            FirstStop(answer, n) && (n <= most || n == 1) && Collect(answer, 0).value == FirstPages(answer, n)
  {
    FetchesToFirstStop(answer, 0);
    FirstStopBounded(answer, most, Fetches(answer, 0));
    CollectsFirstPages(answer, 0);
    assert [] + Collect(answer, 0).value == Collect(answer, 0).value;
  }

  /** Whatever the answers, a successful fetch returns the contents up to the first page that stops; and
      if they claim at most `most` pages, that is within max(1, most) pages. */
  lemma BoundedPaging<T(!new)>(
    tokens: TokenFetch, e: Env, path: string, api: Api<Envelope<T>>, most: nat)
    requires Modest(tokens)
    requires ClaimsAtMost(PageAnswer(path, api), most)
    requires FetchAll(tokens, e, path, api).1.Ok?
    ensures var n := Fetches(PageAnswer(path, api), 0);
            && FirstStop(PageAnswer(path, api), n) && (n <= most || n == 1)
            && FetchAll(tokens, e, path, api).1.value == FirstPages(PageAnswer(path, api), n)
  {
    FetchCollects(tokens, e, path, api);
    BoundedCollect(PageAnswer(path, api), most);
  }

  /** Which pages stop the loop, on any page but the largest: the last, an empty one, and one at or past its
      claimed total, unless that is the least integer, which wraps around. */
  lemma LeastTotalRunsOn<T>(e: Envelope<T>, page: nat)
    requires page < 9223372036854775807
    ensures Stops(e, page) <==>
            e.last || e.content == [] || (e.totalPages <= page + 1 && e.totalPages != -9223372036854775808)
  {
  }
}
