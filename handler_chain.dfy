/** The handler chain the browser actually builds (HTTPHandlerChain.java of
    the org.example.webbrowser package): the same handler classes as the
    response-handler chain, but only four of them are linked,
    404 -> 502 -> 503 -> 200, with no default handler at the end. A response
    with any other status therefore passes through unhandled and unchanged. */
module HttpHandlerChain {
  import opened HttpResponse
  import opened ResponseHandlers

  /** The order buildDefaultChain links. */
  const ProxyChain := [NotFound, BadGateway, ServiceUnavailable, Success]

  /** Exactly the four codes with a handler of their own are handled; those
      are processed by their handler, and every other response comes back
      unhandled and unchanged. */
  lemma ProxyChainHandlesFourCodes(r: Resp, pages: Pages)
    ensures RunChain(ProxyChain, r, pages).handled <==> r.status in {404, 502, 503, 200}
    ensures r.status in {404, 502, 503, 200} ==>
      RunChain(ProxyChain, r, pages).response == Process(Dispatch(r.status), r, pages)
    ensures r.status !in {404, 502, 503, 200} ==> RunChain(ProxyChain, r, pages).response == r
  {
    RunChainIsFirstMatch(ProxyChain, r, pages);
    var i := FirstMatch(ProxyChain, r.status);
    if i < |ProxyChain| {
      assert ProxyChain[i] == Dispatch(r.status);
    } else {
      assert !CanHandle(ProxyChain[0], r.status) && !CanHandle(ProxyChain[1], r.status);
      assert !CanHandle(ProxyChain[2], r.status) && !CanHandle(ProxyChain[3], r.status);
    }
  }

  class HandlerChain {
    /** The pages the linked handler classes generate. */
    const pages: Pages
    var firstHandler: Handler?
    /** The handlers reachable from the first one, in order. */
    ghost var Nodes: seq<Handler>

    ghost predicate Valid()
      reads this, Nodes
    {
      && (firstHandler == null <==> Nodes == [])
      && (firstHandler != null ==> Nodes[0] == firstHandler && Linked(Nodes) && firstHandler.pages == pages)
    }

    /** The constructor builds the four-handler chain with the source's pages. */
    constructor ()
      ensures Valid() && KindsOf(Nodes) == ProxyChain && pages == SourcePages
    {
      pages := SourcePages;
      firstHandler := null;
      Nodes := [];
      new;
      BuildDefaultChain();
    }

    /** buildDefaultChain: four fresh handlers linked 404 -> 502 -> 503 ->
        200; the last one has no successor. */
    method BuildDefaultChain()
      modifies this
      ensures Valid() && KindsOf(Nodes) == ProxyChain
      ensures forall h | h in Nodes :: fresh(h)
    {
      var notFoundHandler := new Handler(NotFound, pages);
      var badGatewayHandler := new Handler(BadGateway, pages);
      var serviceUnavailableHandler := new Handler(ServiceUnavailable, pages);
      var successHandler := new Handler(Success, pages);

      notFoundHandler.SetNext(badGatewayHandler);
      badGatewayHandler.SetNext(serviceUnavailableHandler);
      serviceUnavailableHandler.SetNext(successHandler);

      firstHandler := notFoundHandler;
      Nodes := [notFoundHandler, badGatewayHandler, serviceUnavailableHandler, successHandler];
      forall i | 0 <= i < |Nodes| - 1
        ensures Nodes[i].next == Nodes[i + 1]
      {
        if i == 0 {} else if i == 1 {} else {}
      }
      assert KindsOf(Nodes) == ProxyChain;
    }

    /** process: false, with the response untouched, when there is no first
        handler; otherwise whatever the first handler's handle reports. */
    method Process(resp: Response) returns (handled: bool)
      requires Valid()
      modifies resp
      ensures Outcome(handled, resp.Value()) == RunChain(KindsOf(Nodes), old(resp.Value()), pages)
      ensures firstHandler == null ==> !handled && resp.Value() == old(resp.Value())
    {
      if firstHandler == null {
        return false;
      }
      assert KindsOf(Nodes)[0..] == KindsOf(Nodes);
      handled := firstHandler.Handle(resp, Nodes, 0);
    }
  }
}
