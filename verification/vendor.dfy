/** `VendorService.List` (pagerduty/vendor.go): a concrete page handler on
    top of the offset walker that decodes each page and collects its vendors. */
module Vendors {
  import opened Wrappers
  import opened Http
  import opened Paging

  datatype Vendor = Vendor(
    description: string,
    genericServiceType: string,
    htmlUrl: string,
    id: string,
    integrationGuideUrl: string,
    logoUrl: string,
    name: string,
    selfUrl: string,
    summary: string,
    thumbnailUrl: string,
    vendorType: string,
    websiteUrl: string)

  datatype ListVendorsOptions = ListVendorsOptions(limit: int, more: bool, offset: int, total: int, query: string)

  datatype ListVendorsResponse = ListVendorsResponse(limit: int, more: bool, offset: int, total: int, vendors: seq<Vendor>)

  const VendorsPath: string := "/vendors"

  /** The page handler: decode the body as a vendor list, emit its vendors
      and forward its paging fields. `decode` says what the body decodes to
      (None when it does not). */
  function PageHandler(decode: seq<byte> -> Option<ListVendorsResponse>): (h: Response -> Result<(ListResp, seq<Vendor>), Error>)
    ensures forall response :: h(response).Failure? <==> decode(response.body).None?
    ensures forall response :: h(response).Failure? ==> h(response).error == InvalidJson
    ensures forall response :: h(response).Success? ==>
              var page := decode(response.body).value;
              h(response).value == (ListResp(page.offset, page.limit, page.more, 0), page.vendors)
  {
    (response: Response) =>
      match decode(response.body)
      case None => Failure(InvalidJson)
      case Some(page) => Success((ListResp(page.offset, page.limit, page.more, 0), page.vendors))
  }

  function VendorWalker(config: Config, decode: seq<byte> -> Option<ListVendorsResponse>): Walker<Vendor>
  {
    Walker(config, VendorsPath, [], PageHandler(decode))
  }

  function VendorStep(config: Config, decode: seq<byte> -> Option<ListVendorsResponse>): StepFn<Vendor>
  {
    StepOf(VendorWalker(config, decode))
  }

  /** The page handler fails exactly when the body does not decode; otherwise
      it emits exactly the page's vendors and passes on the page's `more`,
      `offset` and `limit` unchanged. */
  lemma HandlerForwardsPage(decode: seq<byte> -> Option<ListVendorsResponse>, response: Response)
    ensures var h := PageHandler(decode)(response);
      && (h.Failure? <==> decode(response.body).None?)
      && (h.Failure? ==> h.error == InvalidJson)
      && (h.Success? ==>
            var page := decode(response.body).value;
            && h.value.0.more == page.more && h.value.0.offset == page.offset && h.value.0.limit == page.limit
            && h.value.1 == page.vendors)
  {
  }

  /** The three results of `List`. */
  datatype Listed = Listed(list: Option<ListVendorsResponse>, response: Option<Response>, err: Option<Error>)

  /** What `List` returns for the given server behaviour: the error alone,
      or a list response whose only field set is the collected vendors. */
  function ListSpec(config: Config, decode: seq<byte> -> Option<ListVendorsResponse>, pages: seq<nat -> Attempt>): (l: Listed)
    requires Terminates(VendorWalker(config, decode), pages)
    ensures l.response.None?
    ensures l.err.Some? <==> l.list.None?
    ensures l.err.Some? ==> WalkPages(VendorStep(config, decode), pages, 0).end == Aborted(l.err.value)
    ensures l.list.Some? <==> WalkPages(VendorStep(config, decode), pages, 0).end.Finished?
    ensures l.list.Some? ==>
              && l.list.value.limit == 0 && !l.list.value.more && l.list.value.offset == 0 && l.list.value.total == 0
              && l.list.value.vendors == WalkPages(VendorStep(config, decode), pages, 0).items
  {
    var r := WalkPages(VendorStep(config, decode), pages, 0);
    if r.end.Aborted? then Listed(None, None, Some(r.end.err))
    else Listed(Some(ListVendorsResponse(0, false, 0, 0, r.items)), None, None)
  }

  /** `VendorService.List`. The options are accepted and not read: the
      result depends only on the server's pages. */
  method List(config: Config, o: ListVendorsOptions, decode: seq<byte> -> Option<ListVendorsResponse>, pages: seq<nat -> Attempt>)
    returns (list: Option<ListVendorsResponse>, response: Option<Response>, err: Option<Error>)
    requires Terminates(VendorWalker(config, decode), pages)
    ensures Listed(list, response, err) == ListSpec(config, decode, pages)
  {
    var e, _, vs := NewRequestPagedGetDo(VendorWalker(config, decode), pages);
    if e.Some? {
      return None, None, e;
    }
    return Some(ListVendorsResponse(0, false, 0, 0, vs)), None, None;
  }

  /** The page at `offset` was fetched, its body decoded, and its vendors
      are what the handler emitted. */
  ghost predicate PageDecoded(config: Config, decode: seq<byte> -> Option<ListVendorsResponse>, server: nat -> Attempt, offset: int)
  {
    var w := VendorWalker(config, decode);
    && Fetch(w, server, offset).Success?
    && decode(Fetch(w, server, offset).value.body).Some?
    && StepItems(VendorStep(config, decode)(server, offset)) == decode(Fetch(w, server, offset).value.body).value.vendors
  }

  /** A successful `List` requested at most one page per server behaviour,
      at least one, and returned the in-order concatenation of the vendors of
      the pages it requested. */
  lemma ListConcatenatesPages(config: Config, decode: seq<byte> -> Option<ListVendorsResponse>, pages: seq<nat -> Attempt>)
    requires Terminates(VendorWalker(config, decode), pages)
    requires ListSpec(config, decode, pages).err.None?
    ensures var r := WalkPages(VendorStep(config, decode), pages, 0);
      && 0 < |r.offsets| <= |pages|
      && ListSpec(config, decode, pages).list.value.vendors == Gathered(VendorStep(config, decode), pages, r.offsets)
  {
    WalkTrace(VendorStep(config, decode), pages, 0);
    assert WalkPages(VendorStep(config, decode), pages, 0).end.Finished?;
  }

  /** Every page a successful `List` requested was fetched and decoded, and
      contributed exactly its decoded vendors. */
  lemma ListPagesDecoded(config: Config, decode: seq<byte> -> Option<ListVendorsResponse>, pages: seq<nat -> Attempt>)
    requires Terminates(VendorWalker(config, decode), pages)
    requires ListSpec(config, decode, pages).err.None?
    ensures var r := WalkPages(VendorStep(config, decode), pages, 0);
      forall i :: 0 <= i < |r.offsets| ==> PageDecoded(config, decode, pages[i], r.offsets[i])
  {
    var w := VendorWalker(config, decode);
    var r := WalkPages(VendorStep(config, decode), pages, 0);
    WalkTrace(VendorStep(config, decode), pages, 0);
    assert r.end.Finished?;
    forall i | 0 <= i < |r.offsets|
      ensures PageDecoded(config, decode, pages[i], r.offsets[i])
    {
      if i < |r.offsets| - 1 {
        assert Continues(VendorStep(config, decode), pages[i], r.offsets[i], r.offsets[i + 1]);
      }
      HandlerForwardsPage(decode, Fetch(w, pages[i], r.offsets[i]).value);
    }
  }

  /** A page answered with 200 on its first try and decoding to `page` is
      handled as that page. */
  lemma DecodedPageStep(config: Config, decode: seq<byte> -> Option<ListVendorsResponse>, server: nat -> Attempt, offset: int, page: ListVendorsResponse)
    requires server(0).Received? && server(0).status == 200
    requires decode(server(0).body) == Some(page)
    ensures VendorStep(config, decode)(server, offset) == Success((ListResp(page.offset, page.limit, page.more, 0), page.vendors))
  {
    FetchAnsweredPage(VendorWalker(config, decode), server, offset);
  }

  /** A single page without `more` (as when the field is absent) is the only
      request, at offset 0, and `List` returns exactly its vendors. */
  lemma SinglePageList(config: Config, decode: seq<byte> -> Option<ListVendorsResponse>, pages: seq<nat -> Attempt>, vendors: seq<Vendor>)
    requires |pages| > 0
    requires pages[0](0).Received? && pages[0](0).status == 200
    requires decode(pages[0](0).body) == Some(ListVendorsResponse(0, false, 0, 0, vendors))
    ensures Terminates(VendorWalker(config, decode), pages)
    ensures WalkPages(VendorStep(config, decode), pages, 0).offsets == [0]
    ensures ListSpec(config, decode, pages) == Listed(Some(ListVendorsResponse(0, false, 0, 0, vendors)), None, None)
  {
    DecodedPageStep(config, decode, pages[0], 0, ListVendorsResponse(0, false, 0, 0, vendors));
    WalkFinishes(VendorStep(config, decode), pages, 0);
  }

  /** Three pages of limit 1 saying more, more, no more are requested at
      offsets 0, 1 and 2, and their vendors come back in server order. */
  lemma ThreePageWalk(config: Config, decode: seq<byte> -> Option<ListVendorsResponse>, pages: seq<nat -> Attempt>, a: Vendor, b: Vendor, c: Vendor)
    requires |pages| == 3
    requires pages[0](0).Received? && pages[0](0).status == 200
    requires pages[1](0).Received? && pages[1](0).status == 200
    requires pages[2](0).Received? && pages[2](0).status == 200
    requires decode(pages[0](0).body) == Some(ListVendorsResponse(1, true, 0, 0, [a]))
    requires decode(pages[1](0).body) == Some(ListVendorsResponse(1, true, 1, 0, [b]))
    requires decode(pages[2](0).body) == Some(ListVendorsResponse(1, false, 2, 0, [c]))
    ensures WalkPages(VendorStep(config, decode), pages, 0) == Walk([0, 1, 2], [a, b, c], Finished)
  {
    DecodedPageStep(config, decode, pages[0], 0, ListVendorsResponse(1, true, 0, 0, [a]));
    DecodedPageStep(config, decode, pages[1], 1, ListVendorsResponse(1, true, 1, 0, [b]));
    DecodedPageStep(config, decode, pages[2], 2, ListVendorsResponse(1, false, 2, 0, [c]));
    ThreeStepWalk(VendorStep(config, decode), pages, [a], [b], [c]);
  }

  /** `List` over those three pages returns the three vendors in order. */
  lemma ThreePageList(config: Config, decode: seq<byte> -> Option<ListVendorsResponse>, pages: seq<nat -> Attempt>, a: Vendor, b: Vendor, c: Vendor)
    requires |pages| == 3
    requires pages[0](0).Received? && pages[0](0).status == 200
    requires pages[1](0).Received? && pages[1](0).status == 200
    requires pages[2](0).Received? && pages[2](0).status == 200
    requires decode(pages[0](0).body) == Some(ListVendorsResponse(1, true, 0, 0, [a]))
    requires decode(pages[1](0).body) == Some(ListVendorsResponse(1, true, 1, 0, [b]))
    requires decode(pages[2](0).body) == Some(ListVendorsResponse(1, false, 2, 0, [c]))
    ensures Terminates(VendorWalker(config, decode), pages)
    ensures ListSpec(config, decode, pages) == Listed(Some(ListVendorsResponse(0, false, 0, 0, [a, b, c])), None, None)
  {
    ThreePageWalk(config, decode, pages, a, b, c);
  }

  /** A walk from a page without more ends there with that page's vendors. */
  lemma LastPage(config: Config, decode: seq<byte> -> Option<ListVendorsResponse>, pages: seq<nat -> Attempt>, offset: int, c: Vendor)
    requires |pages| > 0 && pages[0](0).Received? && pages[0](0).status == 200
    requires decode(pages[0](0).body) == Some(ListVendorsResponse(1, false, offset, 0, [c]))
    ensures WalkPages(VendorStep(config, decode), pages, offset) == Walk([offset], [c], Finished)
  {
    DecodedPageStep(config, decode, pages[0], offset, ListVendorsResponse(1, false, offset, 0, [c]));
    WalkFinishes(VendorStep(config, decode), pages, offset);
  }

  /** A walk from a page with more goes on at that page's `offset + limit`,
      wrapped as Go's `int` sum. */
  lemma MorePage(config: Config, decode: seq<byte> -> Option<ListVendorsResponse>, pages: seq<nat -> Attempt>, page: ListVendorsResponse)
    requires |pages| > 0 && pages[0](0).Received? && pages[0](0).status == 200
    requires decode(pages[0](0).body) == Some(page) && page.more
    ensures WalkPages(VendorStep(config, decode), pages, page.offset)
      == Prepend([page.offset], page.vendors, WalkPages(VendorStep(config, decode), pages[1..], NextOffset(ListResp(page.offset, page.limit, page.more, 0))))
  {
    DecodedPageStep(config, decode, pages[0], page.offset, page);
    WalkContinues(VendorStep(config, decode), pages, page.offset);
  }
}
