/** The offset pagination walker `newRequestPagedGetDo`
    (pagerduty/pagerduty.go:368-409): GET `basePath?offset=N` starting at 0,
    hand each response to a page handler, continue at `offset + limit` (a Go
    `int` sum, which wraps around) while the page says there is more, and
    stop at the first error.

    The server's behaviour for the k-th page request is `pages[k]`. What a
    handler closure appends to its captured slice is modelled as the items it
    returns; the walk concatenates them in request order. */
module Paging {
  import opened Wrappers
  import opened Http
  import Decimal
  import Requests
  import Retry

  /** The page information a handler extracts from a list response. */
  datatype ListResp = ListResp(offset: int, limit: int, more: bool, total: int)

  /** A walk's fixed inputs: the client, the path to page through, the
      request options and the page handler. */
  datatype Walker<T> = Walker(config: Config, basePath: string, options: seq<RequestOption>,
                              handler: Response -> Result<(ListResp, seq<T>), Error>)

  /** How a walk ended: after a page without more, at an error, or (only in
      the model) because the given server behaviour ran out of pages. */
  datatype End = Finished | Aborted(err: Error) | OutOfPages

  /** The offsets requested, the items the handler produced, and the end. */
  datatype Walk<T> = Walk(offsets: seq<int>, items: seq<T>, end: End)

  /** The path of the page request at `offset`. */
  function PagePath(basePath: string, offset: int): (p: string)
    ensures |p| > |basePath| + 8 && p[..|basePath| + 8] == basePath + "?offset="
    ensures Decimal.ParseInt(p[|basePath| + 8..]) == Some(offset)
  {
    Decimal.IntRoundTrip(offset);
    var p := basePath + "?offset=" + Decimal.IntToString(offset);
    assert p[|basePath| + 8..] == Decimal.IntToString(offset);
    p
  }

  /** Different offsets give different page paths. */
  lemma PagePathDeterminesOffset(basePath: string, a: int, b: int)
    requires PagePath(basePath, a) == PagePath(basePath, b)
    ensures a == b
  {
    var n := |basePath + "?offset="|;
    assert PagePath(basePath, a)[n..] == Decimal.IntToString(a);
    assert PagePath(basePath, b)[n..] == Decimal.IntToString(b);
    Decimal.IntToStringInjective(a, b);
  }

  /** One page: the GET at `offset` through the retry executor, then the
      handler on its response. */
  function Step<T>(w: Walker<T>, server: nat -> Attempt, offset: int): (r: Result<(ListResp, seq<T>), Error>)
    ensures Fetch(w, server, offset).Failure? ==> r == Failure(Fetch(w, server, offset).error)
    ensures Fetch(w, server, offset).Success? ==> r == w.handler(Fetch(w, server, offset).value)
  {
    match Fetch(w, server, offset)
    case Failure(e) => Failure(e)
    case Success(response) => w.handler(response)
  }

  /** The GET of the page at `offset` through the retry executor. */
  function Fetch<T>(w: Walker<T>, server: nat -> Attempt, offset: int): (r: Result<Response, Error>)
    ensures r.Success? ==> r.value.request == PageRequest(w, offset) && 200 <= r.value.status <= 299
    ensures r.Failure? ==> r.error.NonRetryableApi? || r.error.RetriesExhausted?
  {
    Requests.RequestDo(w.config, "GET", PagePath(w.basePath, offset), Requests.NoQuery,
                       Requests.NoPayload, NoTarget, w.options, server).result
  }

  /** A page fetch is exactly the executor's result for the page request:
      its response on success and its error otherwise. */
  lemma FetchIsRun<T>(w: Walker<T>, server: nat -> Attempt, offset: int)
    ensures Fetch(w, server, offset) == Retry.Run(PageRequest(w, offset), NoTarget, server).result
  {
  }

  /** The request a page GET at `offset` builds. */
  function PageRequest<T>(w: Walker<T>, offset: int): Request
  {
    Requests.NewRequest(w.config, "GET", PagePath(w.basePath, offset), Requests.NoPayload, w.options).value
  }

  /** A page whose first try is answered with a 2xx status is fetched by that
      one try. */
  lemma FetchAnsweredPage<T>(w: Walker<T>, server: nat -> Attempt, offset: int)
    requires server(0).Received? && 200 <= server(0).status <= 299
    ensures Fetch(w, server, offset)
      == Success(Response(PageRequest(w, offset), server(0).status, server(0).statusLine, server(0).body, server(0).errorDoc))
  {
    Retry.RunSucceedsAt(PageRequest(w, offset), NoTarget, server, 0);
  }

  /** The abstract page step a walk is built from: what the page request at
      `offset`, answered by `server`, yields after the handler. */
  type StepFn<T> = (nat -> Attempt, int) -> Result<(ListResp, seq<T>), Error>

  /** The page step of a walker. */
  function StepOf<T>(w: Walker<T>): StepFn<T>
  {
    (server: nat -> Attempt, offset: int) => Step(w, server, offset)
  }

  /** The number of values of Go's `int` on the 64-bit targets the client
      is built for, and the smallest of them. */
  const IntModulus: int := 0x1_0000_0000_0000_0000
  const IntMin: int := -0x8000_0000_0000_0000

  predicate InIntRange(x: int)
  {
    IntMin <= x < IntMin + IntModulus
  }

  /** Go's two's-complement `int` wrap-around: the value in range that is
      congruent to `x` modulo 2^64. */
  function WrapInt(x: int): (r: int)
    ensures InIntRange(r)
    ensures (r - x) % IntModulus == 0
    ensures InIntRange(x) ==> r == x
  {
    (x - IntMin) % IntModulus + IntMin
  }

  /** The offset of the page after one described by `info`: Go's `int` sum
      `Offset + Limit`, which wraps around on overflow. */
  function NextOffset(info: ListResp): (next: int)
    ensures InIntRange(next)
    ensures InIntRange(info.offset + info.limit) ==> next == info.offset + info.limit
    ensures (next - (info.offset + info.limit)) % IntModulus == 0
  {
    WrapInt(info.offset + info.limit)
  }

  /** Without overflow the next offset is the plain sum; one past the largest
      `int` it wraps to the smallest, which `%d` renders with a minus sign. */
  lemma NextOffsetWraps(info: ListResp)
    ensures InIntRange(info.offset + info.limit) ==> NextOffset(info) == info.offset + info.limit
    ensures info.offset == IntMin + IntModulus - 1 && info.limit == 1 ==> NextOffset(info) == IntMin
    ensures NextOffset(info) < 0 ==> Decimal.IntToString(NextOffset(info))[0] == '-'
  {
  }

  /** The walk from `offset` over the remaining page behaviours. */
  function WalkPages<T>(step: StepFn<T>, pages: seq<nat -> Attempt>, offset: int): (r: Walk<T>)
    ensures |r.offsets| <= |pages|
    ensures |pages| > 0 ==> |r.offsets| > 0 && r.offsets[0] == offset
    ensures r.end.OutOfPages? ==> |r.offsets| == |pages|
    decreases |pages|
  {
    if |pages| == 0 then Walk([], [], OutOfPages)
    else match step(pages[0], offset)
      case Failure(e) => Walk([offset], [], Aborted(e))
      case Success(page) =>
        if !page.0.more then Walk([offset], page.1, Finished)
        else
          var rest := WalkPages(step, pages[1..], NextOffset(page.0));
          Walk([offset] + rest.offsets, page.1 + rest.items, rest.end)
  }

  /** The walk stops before the server behaviour runs out. */
  predicate Terminates<T>(w: Walker<T>, pages: seq<nat -> Attempt>)
  {
    !WalkPages(StepOf(w), pages, 0).end.OutOfPages?
  }

  function StepItems<T>(s: Result<(ListResp, seq<T>), Error>): seq<T>
  {
    if s.Success? then s.value.1 else []
  }

  /** The items of the pages requested at `offsets`, in order. */
  function Gathered<T>(step: StepFn<T>, pages: seq<nat -> Attempt>, offsets: seq<int>): seq<T>
    requires |offsets| <= |pages|
    decreases |offsets|
  {
    if |offsets| == 0 then []
    else StepItems(step(pages[0], offsets[0])) + Gathered(step, pages[1..], offsets[1..])
  }

  /** Page `offset` succeeded, says there is more, and `next` is its
      `offset + limit`. */
  predicate Continues<T>(step: StepFn<T>, server: nat -> Attempt, offset: int, next: int)
  {
    var s := step(server, offset);
    s.Success? && s.value.0.more && next == NextOffset(s.value.0)
  }

  /** What a walk from `start` is, request by request: the first request is
      at `start`; every request but the last came from a page with more and
      the next request is at that page's `offset + limit`; the last request
      ended the walk (a page without more, or an error that is the walk's
      error); the items are those of every page handled without error. */
  ghost predicate IsTrace<T>(step: StepFn<T>, pages: seq<nat -> Attempt>, start: int, r: Walk<T>)
  {
    var n := |r.offsets|;
    && n <= |pages|
    && (n == 0 <==> |pages| == 0)
    && (n > 0 ==> r.offsets[0] == start)
    && (forall i :: 0 <= i < n - 1 ==> Continues(step, pages[i], r.offsets[i], r.offsets[i + 1]))
    && (r.end.Finished? ==>
          n > 0 && step(pages[n - 1], r.offsets[n - 1]).Success? && !step(pages[n - 1], r.offsets[n - 1]).value.0.more
          && r.items == Gathered(step, pages, r.offsets))
    && (r.end.Aborted? ==>
          n > 0 && step(pages[n - 1], r.offsets[n - 1]) == Failure(r.end.err)
          && r.items == Gathered(step, pages, r.offsets[..n - 1]))
    && (r.end.OutOfPages? ==>
          n == |pages| && (n > 0 ==> step(pages[n - 1], r.offsets[n - 1]).Success? && step(pages[n - 1], r.offsets[n - 1]).value.0.more)
          && r.items == Gathered(step, pages, r.offsets))
  }

  lemma GatheredCons<T>(step: StepFn<T>, pages: seq<nat -> Attempt>, start: int, offsets: seq<int>)
    requires 1 + |offsets| <= |pages|
    ensures Gathered(step, pages, [start] + offsets) == StepItems(step(pages[0], start)) + Gathered(step, pages[1..], offsets)
  {
    assert ([start] + offsets)[1..] == offsets;
  }

  /** A page with more, followed by a trace of the rest of the walk, is a
      trace of the whole walk. */
  lemma TraceCons<T>(step: StepFn<T>, pages: seq<nat -> Attempt>, start: int, rest: Walk<T>)
    requires |pages| > 0
    requires step(pages[0], start).Success? && step(pages[0], start).value.0.more
    requires IsTrace(step, pages[1..], NextOffset(step(pages[0], start).value.0), rest)
    ensures IsTrace(step, pages, start, Prepend([start], step(pages[0], start).value.1, rest))
  {
    var r := Prepend([start], step(pages[0], start).value.1, rest);
    var m := |rest.offsets|;
    assert r.offsets == [start] + rest.offsets;
    forall i | 0 <= i < m
      ensures Continues(step, pages[i], r.offsets[i], r.offsets[i + 1])
    {
      if i > 0 {
        assert pages[i] == pages[1..][i - 1];
        assert Continues(step, pages[1..][i - 1], rest.offsets[i - 1], rest.offsets[i]);
      }
    }
    if m > 0 {
      assert pages[m] == pages[1..][m - 1];
    }
    if rest.end.Aborted? {
      assert r.offsets[..m] == [start] + rest.offsets[..m - 1];
      GatheredCons(step, pages, start, rest.offsets[..m - 1]);
    } else {
      GatheredCons(step, pages, start, rest.offsets);
    }
  }

  /** Every walk is described by its trace. */
  lemma {:induction false} WalkTrace<T>(step: StepFn<T>, pages: seq<nat -> Attempt>, start: int)
    ensures IsTrace(step, pages, start, WalkPages(step, pages, start))
    decreases |pages|
  {
    if |pages| > 0 {
      var s := step(pages[0], start);
      if s.Success? && s.value.0.more {
        WalkTrace(step, pages[1..], NextOffset(s.value.0));
        TraceCons(step, pages, start, WalkPages(step, pages[1..], NextOffset(s.value.0)));
      }
    }
  }

  /** One step of the walk, unfolded. */
  lemma WalkStep<T>(step: StepFn<T>, pages: seq<nat -> Attempt>, offset: int)
    requires |pages| > 0
    ensures var s := step(pages[0], offset);
      s.Failure? ==> WalkPages(step, pages, offset) == Walk([offset], [], Aborted(s.error))
    ensures var s := step(pages[0], offset);
      s.Success? && !s.value.0.more ==> WalkPages(step, pages, offset) == Walk([offset], s.value.1, Finished)
    ensures var s := step(pages[0], offset);
      s.Success? && s.value.0.more ==>
        WalkPages(step, pages, offset) == Prepend([offset], s.value.1, WalkPages(step, pages[1..], NextOffset(s.value.0)))
  {
  }

  /** A walk goes on past a page with more at that page's `offset + limit`. */
  lemma WalkContinues<T>(step: StepFn<T>, pages: seq<nat -> Attempt>, offset: int)
    requires |pages| > 0
    requires step(pages[0], offset).Success? && step(pages[0], offset).value.0.more
    ensures WalkPages(step, pages, offset)
      == Prepend([offset], step(pages[0], offset).value.1, WalkPages(step, pages[1..], NextOffset(step(pages[0], offset).value.0)))
  {
  }

  /** A walk ends at a page without more. */
  lemma WalkFinishes<T>(step: StepFn<T>, pages: seq<nat -> Attempt>, offset: int)
    requires |pages| > 0
    requires step(pages[0], offset).Success? && !step(pages[0], offset).value.0.more
    ensures WalkPages(step, pages, offset) == Walk([offset], step(pages[0], offset).value.1, Finished)
  {
  }

  /** Three pages at offsets 0, 1, 2 of limit 1 saying more, more, no more
      make a walk over exactly those offsets that gathers their items. */
  lemma ThreeStepWalk<T>(step: StepFn<T>, pages: seq<nat -> Attempt>, a: seq<T>, b: seq<T>, c: seq<T>)
    requires |pages| == 3
    requires step(pages[0], 0) == Success((ListResp(0, 1, true, 0), a))
    requires step(pages[1], 1) == Success((ListResp(1, 1, true, 0), b))
    requires step(pages[2], 2) == Success((ListResp(2, 1, false, 0), c))
    ensures WalkPages(step, pages, 0) == Walk([0, 1, 2], a + b + c, Finished)
  {
    var tail1, tail2 := pages[1..], pages[2..];
    assert tail1[0] == pages[1] && tail1[1..] == tail2 && tail2[0] == pages[2];
    assert NextOffset(ListResp(0, 1, true, 0)) == 1;
    assert NextOffset(ListResp(1, 1, true, 0)) == 2;
    WalkFinishes(step, tail2, 2);
    WalkContinues(step, tail1, 1);
    WalkContinues(step, pages, 0);
    assert [0] + ([1] + [2]) == [0, 1, 2];
    assert a + (b + c) == a + b + c;
  }

  function Prepend<T>(offsets: seq<int>, items: seq<T>, r: Walk<T>): Walk<T>
  {
    Walk(offsets + r.offsets, items + r.items, r.end)
  }

  /** The loop invariant of the walker survives a page that says there is more. */
  lemma AdvancePastPage<T>(step: StepFn<T>, pages: seq<nat -> Attempt>, i: nat, offsets: seq<int>, items: seq<T>, offset: int)
    requires i < |pages|
    requires WalkPages(step, pages, 0) == Prepend(offsets, items, WalkPages(step, pages[i..], offset))
    requires step(pages[i], offset).Success? && step(pages[i], offset).value.0.more
    ensures var page := step(pages[i], offset).value;
      WalkPages(step, pages, 0) == Prepend(offsets + [offset], items + page.1, WalkPages(step, pages[i + 1..], NextOffset(page.0)))
  {
    var page := step(pages[i], offset).value;
    assert pages[i..][0] == pages[i];
    assert pages[i..][1..] == pages[i + 1..];
    WalkStep(step, pages[i..], offset);
    PrependTwice(offsets, items, [offset], page.1, WalkPages(step, pages[i + 1..], NextOffset(page.0)));
  }

  lemma PrependTwice<T>(offsets: seq<int>, items: seq<T>, offsets': seq<int>, items': seq<T>, r: Walk<T>)
    ensures Prepend(offsets, items, Prepend(offsets', items', r)) == Prepend(offsets + offsets', items + items', r)
  {
    assert (offsets + offsets') + r.offsets == offsets + (offsets' + r.offsets);
    assert (items + items') + r.items == items + (items' + r.items);
  }

  /** A page that ends the walk, by an error or by having no more, ends it
      with that page's offset as the last request. */
  lemma EndAtPage<T>(step: StepFn<T>, pages: seq<nat -> Attempt>, i: nat, offsets: seq<int>, items: seq<T>, offset: int)
    requires i < |pages|
    requires WalkPages(step, pages, 0) == Prepend(offsets, items, WalkPages(step, pages[i..], offset))
    ensures var s := step(pages[i], offset);
      s.Failure? ==> WalkPages(step, pages, 0) == Walk(offsets + [offset], items, Aborted(s.error))
    ensures var s := step(pages[i], offset);
      s.Success? && !s.value.0.more ==> WalkPages(step, pages, 0) == Walk(offsets + [offset], items + s.value.1, Finished)
  {
    assert pages[i..][0] == pages[i];
    WalkStep(step, pages[i..], offset);
  }

  /** A walk that does not run out of pages still has a page left wherever
      the loop stands. */
  lemma PageLeft<T>(step: StepFn<T>, pages: seq<nat -> Attempt>, i: nat, offsets: seq<int>, items: seq<T>, offset: int)
    requires i <= |pages|
    requires !WalkPages(step, pages, 0).end.OutOfPages?
    requires WalkPages(step, pages, 0) == Prepend(offsets, items, WalkPages(step, pages[i..], offset))
    ensures i < |pages|
  {
  }

  /** `newRequestPagedGetDo`: the walk as a loop. Besides the error it
      returns the offsets it requested and the items the handler produced. */
  method NewRequestPagedGetDo<T>(w: Walker<T>, pages: seq<nat -> Attempt>)
    returns (err: Option<Error>, offsets: seq<int>, items: seq<T>)
    requires Terminates(w, pages)
    ensures WalkPages(StepOf(w), pages, 0) == Walk(offsets, items, if err.Some? then Aborted(err.value) else Finished)
  {
    ghost var step := StepOf(w);
    var stillMore := true;
    var nextOffset := 0;
    var i := 0;
    offsets, items := [], [];
    assert pages[0..] == pages;
    while stillMore
      invariant 0 <= i <= |pages|
      invariant stillMore ==> WalkPages(step, pages, 0) == Prepend(offsets, items, WalkPages(step, pages[i..], nextOffset))
      invariant !stillMore ==> WalkPages(step, pages, 0) == Walk(offsets, items, Finished)
      decreases |pages| - i
    {
      PageLeft(step, pages, i, offsets, items, nextOffset);
      var response, _, _ := Requests.NewRequestDoOptions(w.config, "GET", PagePath(w.basePath, nextOffset), Requests.NoQuery,
                                                         Requests.NoPayload, NoTarget, w.options, pages[i]);
      assert response == Fetch(w, pages[i], nextOffset);
      assert step(pages[i], nextOffset) == Step(w, pages[i], nextOffset);
      EndAtPage(step, pages, i, offsets, items, nextOffset);
      if response.Failure? {
        return Some(response.error), offsets + [nextOffset], items;
      }
      var handled := w.handler(response.value);
      if handled.Failure? {
        return Some(handled.error), offsets + [nextOffset], items;
      }
      var info := handled.value.0;
      if info.more {
        AdvancePastPage(step, pages, i, offsets, items, nextOffset);
      }
      offsets := offsets + [nextOffset];
      items := items + handled.value.1;
      nextOffset := NextOffset(info);
      stillMore := info.more;
      i := i + 1;
    }
    err := None;
  }
}
