/** The browser's cache of the spreadsheet service (src/hooks/use-inventory.ts).

    Each operation of the store is a run of `set` calls separated by `await`s.
    The pieces between two awaits are the state changes of this model (`Event`):
    a fetch is its start (loading flag on, request sent) and its completion
    (collection replaced on success, flag off in `finally`); an operation without
    a loading flag is one change. The reply of a request is an input
    (`Outcome`), and the requests the store sends are kept in a ghost trace.

    A "re-fetch summary" (`get().fetchSummary()`, not awaited) runs the start
    of a summary fetch inside the operation that calls it: the summary loading
    flag goes on and GET /api/summary is sent. Its completion is a later
    `CompleteFetchSummary`. */
module Inventory {
  import opened Types
  import Routes

  datatype Snapshot = Snapshot(
    logs: seq<ScanLog>,
    summary: seq<InventorySummaryItem>,
    products: seq<Product>,
    b2bClients: seq<B2BClient>,
    loadingLogs: bool,
    loadingSummary: bool,
    loadingProducts: bool,
    loadingB2BClients: bool,
    requests: seq<Routes.Request>)

  const Initial: Snapshot := Snapshot([], [], [], [], false, false, false, false, [])

  /** The state changes of the store. For `clearLogs` only `success` is read,
      so its reply carries no data. */
  datatype Event =
    | BeginFetchLogs
    | CompleteFetchLogs(logsReply: Outcome<seq<ScanLog>>)
    | BeginFetchSummary
    | CompleteFetchSummary(summaryReply: Outcome<seq<InventorySummaryItem>>)
    | BeginFetchProducts
    | CompleteFetchProducts(productsReply: Outcome<seq<Product>>)
    | BeginFetchB2BClients
    | CompleteFetchB2BClients(clientsReply: Outcome<seq<B2BClient>>)
    | AddScan(serialNumber: string, scanEvent: ScanEvent, location: string, clientId: Option<string>,
              scanReply: Outcome<ScanLog>)
    | BeginClearLogs
    | CompleteClearLogs(clearReply: Outcome<()>)
    | AddProduct(product: Product, saveReply: Outcome<seq<Product>>)
    | DeleteProduct(productId: string, deleteReply: Outcome<seq<Product>>)

  /** The body `addScan` posts: its arguments as given, the event by its wire
      spelling, the client identifier unchecked. */
  function ScanRequest(serialNumber: string, scanEvent: ScanEvent, location: string, clientId: Option<string>): Routes.Request {
    Routes.ScanPost(Routes.ScanBody(serialNumber, EventName(scanEvent), location, clientId))
  }

  /** The proxy relays every scan the store posts with a serial number and a
      location, whatever the event and whether or not a client is given: an
      event's wire spelling is never empty and the client is not checked. */
  lemma ScanRequestGuard(serialNumber: string, scanEvent: ScanEvent, location: string, clientId: Option<string>)
    ensures Routes.MissingRequired(ScanRequest(serialNumber, scanEvent, location, clientId))
      <==> serialNumber == "" || location == ""
    ensures serialNumber != "" && location != "" ==>
      Routes.Dispatch(ScanRequest(serialNumber, scanEvent, location, clientId))
        == Routes.Forward(Routes.AddScan(serialNumber, EventName(scanEvent), location, clientId))
  {
    EventNameInjective(scanEvent, scanEvent);
  }

  function Send(s: Snapshot, r: Routes.Request): Snapshot {
    s.(requests := s.requests + [r])
  }

  /** The synchronous start of `fetchSummary`. */
  function StartSummaryFetch(s: Snapshot): Snapshot {
    Send(s.(loadingSummary := true), Routes.SummaryGet)
  }

  function Step(s: Snapshot, e: Event): Snapshot {
    match e
    case BeginFetchLogs => Send(s.(loadingLogs := true), Routes.LogsGet)
    case CompleteFetchLogs(o) => (if o.Ok? then s.(logs := o.data) else s).(loadingLogs := false)
    case BeginFetchSummary => StartSummaryFetch(s)
    case CompleteFetchSummary(o) => (if o.Ok? then s.(summary := o.data) else s).(loadingSummary := false)
    case BeginFetchProducts => Send(s.(loadingProducts := true), Routes.ProductsGet)
    case CompleteFetchProducts(o) => (if o.Ok? then s.(products := o.data) else s).(loadingProducts := false)
    case BeginFetchB2BClients => Send(s.(loadingB2BClients := true), Routes.B2BClientsGet)
    case CompleteFetchB2BClients(o) => (if o.Ok? then s.(b2bClients := o.data) else s).(loadingB2BClients := false)
    case AddScan(serial, ev, loc, cid, o) =>
      var sent := Send(s, ScanRequest(serial, ev, loc, cid));
      if o.Ok? then StartSummaryFetch(sent.(logs := [o.data] + s.logs)) else sent
    case BeginClearLogs => Send(s.(loadingLogs := true, loadingSummary := true), Routes.LogsClearPost)
    case CompleteClearLogs(o) =>
      // the `finally` clears both flags after the re-fetch has switched one on
      (if o.Ok? then StartSummaryFetch(s.(logs := [], summary := [])) else s)
        .(loadingLogs := false, loadingSummary := false)
    case AddProduct(p, o) =>
      var sent := Send(s, Routes.ProductPost(p));
      if o.Ok? then StartSummaryFetch(sent.(products := o.data)) else sent
    case DeleteProduct(id, o) =>
      var sent := Send(s, Routes.ProductDelete(id));
      if o.Ok? then StartSummaryFetch(sent.(products := o.data)) else sent
  }

  /** The state after a trace of events, oldest first. */
  function Run(s: Snapshot, events: seq<Event>): Snapshot
    decreases |events|
  {
    if events == [] then s else Step(Run(s, events[..|events| - 1]), events[|events| - 1])
  }

  lemma RunPair(s: Snapshot, e1: Event, e2: Event)
    ensures Run(s, [e1, e2]) == Step(Step(s, e1), e2)
  {
    assert [e1][..0] == [];
    assert Run(s, [e1]) == Step(s, e1);
    assert [e1, e2][..1] == [e1];
  }

  /** Events that replace the whole log list. */
  predicate ReplacesLogs(e: Event) {
    (e.CompleteFetchLogs? && e.logsReply.Ok?) || (e.CompleteClearLogs? && e.clearReply.Ok?)
  }

  /** A successful scan: the server returned the entry it stored. */
  predicate ScanAccepted(e: Event) {
    e.AddScan? && e.scanReply.Ok?
  }

  /** What one event does to the log list when it does not replace it. */
  lemma StepLogs(s: Snapshot, e: Event)
    requires !ReplacesLogs(e)
    ensures Step(s, e).logs == (if ScanAccepted(e) then [e.scanReply.data] + s.logs else s.logs)
  {
  }

  /** The entries the server returned for successful scans, newest first. */
  function ScannedEntries(events: seq<Event>): seq<ScanLog>
    decreases |events|
  {
    if events == [] then []
    else
      var e := events[|events| - 1];
      var older := ScannedEntries(events[..|events| - 1]);
      if ScanAccepted(e) then [e.scanReply.data] + older else older
  }

  /** Between two replacements the log list only grows at the front, by the
      server's entries in reverse order of arrival: cached entries are never
      reordered, patched or dropped, and a failed scan adds nothing. */
  lemma {:induction false} LogsGrowByServerEntries(s: Snapshot, events: seq<Event>)
    requires forall i :: 0 <= i < |events| ==> !ReplacesLogs(events[i])
    ensures Run(s, events).logs == ScannedEntries(events) + s.logs
    decreases |events|
  {
    if events != [] {
      var prefix := events[..|events| - 1];
      assert forall i :: 0 <= i < |prefix| ==> prefix[i] == events[i];
      LogsGrowByServerEntries(s, prefix);
      StepLogs(Run(s, prefix), events[|events| - 1]);
    }
  }

  /** The product list the server sent with an event, if any: replies of
      fetches, saves and deletes. */
  function ProductReply(e: Event): Option<seq<Product>> {
    if e.CompleteFetchProducts? && e.productsReply.Ok? then Some(e.productsReply.data)
    else if e.AddProduct? && e.saveReply.Ok? then Some(e.saveReply.data)
    else if e.DeleteProduct? && e.deleteReply.Ok? then Some(e.deleteReply.data)
    else None
  }

  lemma StepProducts(s: Snapshot, e: Event)
    ensures Step(s, e).products == ProductReply(e).GetOr(s.products)
  {
  }

  /** The product list the server sent last. */
  function LastProductSnapshot(events: seq<Event>): Option<seq<Product>>
    decreases |events|
  {
    if events == [] then None
    else
      var e := events[|events| - 1];
      if ProductReply(e).Some? then ProductReply(e) else LastProductSnapshot(events[..|events| - 1])
  }

  /** Replace, never patch: after any trace the cached products are exactly
      the last list the server sent, or the starting list if it sent none. */
  lemma {:induction false} ProductsAreLastServerSnapshot(s: Snapshot, events: seq<Event>)
    ensures Run(s, events).products == LastProductSnapshot(events).GetOr(s.products)
    decreases |events|
  {
    if events != [] {
      ProductsAreLastServerSnapshot(s, events[..|events| - 1]);
      StepProducts(Run(s, events[..|events| - 1]), events[|events| - 1]);
    }
  }

  /** Events after which a summary request is on its way: an explicit summary
      fetch, or the re-fetch of a successful scan, clear, save or delete. */
  predicate AsksForSummary(e: Event) {
    || e.BeginFetchSummary?
    || ScanAccepted(e)
    || (e.CompleteClearLogs? && e.clearReply.Ok?)
    || (e.AddProduct? && e.saveReply.Ok?)
    || (e.DeleteProduct? && e.deleteReply.Ok?)
  }

  /** The requests one event sends, in order. */
  function Sent(e: Event): seq<Routes.Request> {
    match e
    case BeginFetchLogs => [Routes.LogsGet]
    case BeginFetchSummary => [Routes.SummaryGet]
    case BeginFetchProducts => [Routes.ProductsGet]
    case BeginFetchB2BClients => [Routes.B2BClientsGet]
    case AddScan(serial, ev, loc, cid, o) =>
      [ScanRequest(serial, ev, loc, cid)] + (if o.Ok? then [Routes.SummaryGet] else [])
    case BeginClearLogs => [Routes.LogsClearPost]
    case CompleteClearLogs(o) => if o.Ok? then [Routes.SummaryGet] else []
    case AddProduct(p, o) => [Routes.ProductPost(p)] + (if o.Ok? then [Routes.SummaryGet] else [])
    case DeleteProduct(id, o) => [Routes.ProductDelete(id)] + (if o.Ok? then [Routes.SummaryGet] else [])
    case _ => []
  }

  /** Each event appends exactly its own requests to the trace. */
  lemma StepSends(s: Snapshot, e: Event)
    ensures Step(s, e).requests == s.requests + Sent(e)
  {
    match e {
      case CompleteFetchLogs(_) =>
      case CompleteFetchSummary(_) =>
      case CompleteFetchProducts(_) =>
      case CompleteFetchB2BClients(_) =>
      case CompleteClearLogs(o) =>
      case AddScan(serial, ev, loc, cid, o) =>
      case AddProduct(p, o) =>
      case DeleteProduct(id, o) =>
      case _ =>
    }
  }

  /** One of an event's requests is a summary request exactly when the event
      asks for a summary. */
  lemma SentSummary(e: Event)
    ensures multiset(Sent(e))[Routes.SummaryGet] == if AsksForSummary(e) then 1 else 0
  {
    var extra: seq<Routes.Request> := if AsksForSummary(e) then [Routes.SummaryGet] else [];
    match e {
      case AddScan(serial, ev, loc, cid, o) =>
        assert Sent(e) == [ScanRequest(serial, ev, loc, cid)] + extra;
      case AddProduct(p, o) =>
        assert Sent(e) == [Routes.ProductPost(p)] + extra;
      case DeleteProduct(id, o) =>
        assert Sent(e) == [Routes.ProductDelete(id)] + extra;
      case _ =>
    }
  }

  /** The number of summary requests a trace sends. */
  function RefetchCount(events: seq<Event>): nat
    decreases |events|
  {
    if events == [] then 0
    else RefetchCount(events[..|events| - 1]) + if AsksForSummary(events[|events| - 1]) then 1 else 0
  }

  /** Every summary request in the trace comes from an explicit summary fetch
      or from the re-fetch of a successful mutation, one per such event. */
  lemma {:induction false} SummaryRequests(s: Snapshot, events: seq<Event>)
    ensures multiset(Run(s, events).requests)[Routes.SummaryGet]
         == multiset(s.requests)[Routes.SummaryGet] + RefetchCount(events)
    decreases |events|
  {
    if events != [] {
      var prefix := events[..|events| - 1];
      SummaryRequests(s, prefix);
      StepSends(Run(s, prefix), events[|events| - 1]);
      SentSummary(events[|events| - 1]);
      assert multiset(Run(s, prefix).requests + Sent(events[|events| - 1]))
          == multiset(Run(s, prefix).requests) + multiset(Sent(events[|events| - 1]));
    }
  }

  /** The store object: the collections and flags are its fields, the
      requests it has sent a ghost trace. */
  class InventoryStore {
    var logs: seq<ScanLog>
    var summary: seq<InventorySummaryItem>
    var products: seq<Product>
    var b2bClients: seq<B2BClient>
    var loadingLogs: bool
    var loadingSummary: bool
    var loadingProducts: bool
    var loadingB2BClients: bool
    ghost var requests: seq<Routes.Request>

    ghost function State(): Snapshot
      reads this
    {
      Snapshot(logs, summary, products, b2bClients,
               loadingLogs, loadingSummary, loadingProducts, loadingB2BClients, requests)
    }

    constructor ()
      ensures State() == Initial
    {
      logs, summary, products, b2bClients := [], [], [], [];
      loadingLogs, loadingSummary, loadingProducts, loadingB2BClients := false, false, false, false;
      requests := [];
    }

    /** `fetchSummary` up to its first await; also the re-fetch step. */
    method BeginFetchSummary()
      modifies this
      ensures State() == Step(old(State()), Event.BeginFetchSummary)
      ensures loadingSummary && requests == old(requests) + [Routes.SummaryGet]
    {
      loadingSummary := true;
      requests := requests + [Routes.SummaryGet];
    }

    method CompleteFetchSummary(reply: Outcome<seq<InventorySummaryItem>>)
      modifies this
      ensures State() == Step(old(State()), Event.CompleteFetchSummary(reply))
      ensures summary == (if reply.Ok? then reply.data else old(summary))
      ensures !loadingSummary
      ensures logs == old(logs) && products == old(products) && b2bClients == old(b2bClients)
    {
      if reply.Ok? {
        summary := reply.data;
      }
      loadingSummary := false;
    }

    method FetchSummary(reply: Outcome<seq<InventorySummaryItem>>)
      modifies this
      ensures State() == Run(old(State()), [Event.BeginFetchSummary, Event.CompleteFetchSummary(reply)])
      ensures summary == (if reply.Ok? then reply.data else old(summary))
      ensures !loadingSummary && requests == old(requests) + [Routes.SummaryGet]
    {
      RunPair(State(), Event.BeginFetchSummary, Event.CompleteFetchSummary(reply));
      BeginFetchSummary();
      CompleteFetchSummary(reply);
    }

    method BeginFetchLogs()
      modifies this
      ensures State() == Step(old(State()), Event.BeginFetchLogs)
      ensures loadingLogs && logs == old(logs) && requests == old(requests) + [Routes.LogsGet]
    {
      loadingLogs := true;
      requests := requests + [Routes.LogsGet];
    }

    /** The lists are replaced only when the reply has both success and data. */
    method CompleteFetchLogs(reply: Outcome<seq<ScanLog>>)
      modifies this
      ensures State() == Step(old(State()), Event.CompleteFetchLogs(reply))
      ensures logs == (if reply.Ok? then reply.data else old(logs))
      ensures !loadingLogs
      ensures summary == old(summary) && products == old(products) && b2bClients == old(b2bClients)
    {
      if reply.Ok? {
        logs := reply.data;
      }
      loadingLogs := false;
    }

    method FetchLogs(reply: Outcome<seq<ScanLog>>)
      modifies this
      ensures State() == Run(old(State()), [Event.BeginFetchLogs, Event.CompleteFetchLogs(reply)])
      ensures logs == (if reply.Ok? then reply.data else old(logs))
      ensures !loadingLogs && requests == old(requests) + [Routes.LogsGet]
    {
      RunPair(State(), Event.BeginFetchLogs, Event.CompleteFetchLogs(reply));
      BeginFetchLogs();
      CompleteFetchLogs(reply);
    }

    method BeginFetchProducts()
      modifies this
      ensures State() == Step(old(State()), Event.BeginFetchProducts)
      ensures loadingProducts && products == old(products) && requests == old(requests) + [Routes.ProductsGet]
    {
      loadingProducts := true;
      requests := requests + [Routes.ProductsGet];
    }

    method CompleteFetchProducts(reply: Outcome<seq<Product>>)
      modifies this
      ensures State() == Step(old(State()), Event.CompleteFetchProducts(reply))
      ensures products == (if reply.Ok? then reply.data else old(products))
      ensures !loadingProducts
      ensures logs == old(logs) && summary == old(summary) && b2bClients == old(b2bClients)
    {
      if reply.Ok? {
        products := reply.data;
      }
      loadingProducts := false;
    }

    method FetchProducts(reply: Outcome<seq<Product>>)
      modifies this
      ensures State() == Run(old(State()), [Event.BeginFetchProducts, Event.CompleteFetchProducts(reply)])
      ensures products == (if reply.Ok? then reply.data else old(products))
      ensures !loadingProducts && requests == old(requests) + [Routes.ProductsGet]
    {
      RunPair(State(), Event.BeginFetchProducts, Event.CompleteFetchProducts(reply));
      BeginFetchProducts();
      CompleteFetchProducts(reply);
    }

    method BeginFetchB2BClients()
      modifies this
      ensures State() == Step(old(State()), Event.BeginFetchB2BClients)
      ensures loadingB2BClients && b2bClients == old(b2bClients)
      ensures requests == old(requests) + [Routes.B2BClientsGet]
    {
      loadingB2BClients := true;
      requests := requests + [Routes.B2BClientsGet];
    }

    method CompleteFetchB2BClients(reply: Outcome<seq<B2BClient>>)
      modifies this
      ensures State() == Step(old(State()), Event.CompleteFetchB2BClients(reply))
      ensures b2bClients == (if reply.Ok? then reply.data else old(b2bClients))
      ensures !loadingB2BClients
      ensures logs == old(logs) && summary == old(summary) && products == old(products)
    {
      if reply.Ok? {
        b2bClients := reply.data;
      }
      loadingB2BClients := false;
    }

    method FetchB2BClients(reply: Outcome<seq<B2BClient>>)
      modifies this
      ensures State() == Run(old(State()), [Event.BeginFetchB2BClients, Event.CompleteFetchB2BClients(reply)])
      ensures b2bClients == (if reply.Ok? then reply.data else old(b2bClients))
      ensures !loadingB2BClients && requests == old(requests) + [Routes.B2BClientsGet]
    {
      RunPair(State(), Event.BeginFetchB2BClients, Event.CompleteFetchB2BClients(reply));
      BeginFetchB2BClients();
      CompleteFetchB2BClients(reply);
    }

    /** Posts the scan as given; on success the server's entry goes first and a
        summary re-fetch starts. A failure changes nothing but the trace. */
    method AddScan(serialNumber: string, scanEvent: ScanEvent, location: string, clientId: Option<string>,
                   reply: Outcome<ScanLog>)
      modifies this
      ensures State() == Step(old(State()), Event.AddScan(serialNumber, scanEvent, location, clientId, reply))
      ensures reply.Ok? ==> logs == [reply.data] + old(logs) && loadingSummary
      ensures reply.Ok? ==> requests == old(requests) + [ScanRequest(serialNumber, scanEvent, location, clientId), Routes.SummaryGet]
      ensures !reply.Ok? ==> old(State()).(requests := requests) == State()
      ensures !reply.Ok? ==> requests == old(requests) + [ScanRequest(serialNumber, scanEvent, location, clientId)]
      ensures summary == old(summary) && products == old(products) && b2bClients == old(b2bClients)
    {
      requests := requests + [ScanRequest(serialNumber, scanEvent, location, clientId)];
      if reply.Ok? {
        logs := [reply.data] + logs;
        BeginFetchSummary();
      }
    }

    method BeginClearLogs()
      modifies this
      ensures State() == Step(old(State()), Event.BeginClearLogs)
      ensures loadingLogs && loadingSummary && logs == old(logs) && summary == old(summary)
      ensures requests == old(requests) + [Routes.LogsClearPost]
    {
      loadingLogs, loadingSummary := true, true;
      requests := requests + [Routes.LogsClearPost];
    }

    /** Empties logs and summary only after the remote clear succeeded. */
    method CompleteClearLogs(reply: Outcome<()>)
      modifies this
      ensures State() == Step(old(State()), Event.CompleteClearLogs(reply))
      ensures logs == (if reply.Ok? then [] else old(logs))
      ensures summary == (if reply.Ok? then [] else old(summary))
      ensures !loadingLogs && !loadingSummary
      ensures products == old(products) && b2bClients == old(b2bClients)
      ensures requests == old(requests) + (if reply.Ok? then [Routes.SummaryGet] else [])
    {
      if reply.Ok? {
        logs, summary := [], [];
        BeginFetchSummary();
      }
      loadingLogs, loadingSummary := false, false;
    }

    method ClearLogs(reply: Outcome<()>)
      modifies this
      ensures State() == Run(old(State()), [Event.BeginClearLogs, Event.CompleteClearLogs(reply)])
      ensures logs == (if reply.Ok? then [] else old(logs))
      ensures summary == (if reply.Ok? then [] else old(summary))
      ensures !loadingLogs && !loadingSummary
      ensures products == old(products) && b2bClients == old(b2bClients)
    {
      RunPair(State(), Event.BeginClearLogs, Event.CompleteClearLogs(reply));
      BeginClearLogs();
      CompleteClearLogs(reply);
    }

    /** On success the product list becomes the server's list as a whole. */
    method AddProduct(product: Product, reply: Outcome<seq<Product>>)
      modifies this
      ensures State() == Step(old(State()), Event.AddProduct(product, reply))
      ensures products == (if reply.Ok? then reply.data else old(products))
      ensures reply.Ok? ==> requests == old(requests) + [Routes.ProductPost(product), Routes.SummaryGet]
      ensures !reply.Ok? ==> old(State()).(requests := requests) == State()
      ensures logs == old(logs) && summary == old(summary) && b2bClients == old(b2bClients)
    {
      requests := requests + [Routes.ProductPost(product)];
      if reply.Ok? {
        products := reply.data;
        BeginFetchSummary();
      }
    }

    method DeleteProduct(productId: string, reply: Outcome<seq<Product>>)
      modifies this
      ensures State() == Step(old(State()), Event.DeleteProduct(productId, reply))
      ensures products == (if reply.Ok? then reply.data else old(products))
      ensures reply.Ok? ==> requests == old(requests) + [Routes.ProductDelete(productId), Routes.SummaryGet]
      ensures !reply.Ok? ==> old(State()).(requests := requests) == State()
      ensures logs == old(logs) && summary == old(summary) && b2bClients == old(b2bClients)
    {
      requests := requests + [Routes.ProductDelete(productId)];
      if reply.Ok? {
        products := reply.data;
        BeginFetchSummary();
      }
    }
  }
}
