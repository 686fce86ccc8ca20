/** The edge proxy (worker/userRoutes.ts): each route checks that the fields it
    needs are present, then hands the request to a freshly built spreadsheet
    client and returns that client's reply as it is. A handler is a function of
    its request and of the client's answer: routes keep no state.

    A JSON field that is missing and one that is the empty string are both
    falsy to the guards, so text fields a guard checks are modelled as strings
    with "" standing for both. `clientId` is forwarded as given, so its absence
    is kept apart from the empty string. */
module Routes {
  import opened Types

  datatype ScanBody = ScanBody(serialNumber: string, scanEvent: string, location: string, clientId: Option<string>)

  /** The HTTP requests the proxy serves. */
  datatype Request =
    | ScanPost(scan: ScanBody)         // POST /api/scans
    | LogsGet                          // GET /api/logs
    | LogsClearPost                    // POST /api/logs/clear
    | SummaryGet                       // GET /api/summary
    | ProductsGet                      // GET /api/products
    | ProductPost(product: Product)    // POST /api/products
    | ProductDelete(id: string)        // DELETE /api/products/:id
    | UsersGet                         // GET /api/users
    | B2BClientsGet                    // GET /api/b2b-clients
    | CakeStatusGet                    // GET /api/cake-status
    | LiveOperationsGet                // GET /api/live-operations

  /** The operations of the spreadsheet client a route may invoke. */
  datatype SheetCall =
    | AddScan(serialNumber: string, scanEvent: string, location: string, clientId: Option<string>)
    | GetLogs
    | ClearLogs
    | GetSummary
    | GetProducts
    | AddProduct(product: Product)
    | DeleteProduct(id: string)
    | GetUsers
    | GetB2BClients
    | GetCakeStatus
    | GetLiveOperationsData

  /** What a route decides before any remote call. */
  datatype Decision = Reject(message: string) | Forward(call: SheetCall)

  datatype HttpResponse<+T> = HttpResponse(status: int, body: ApiResponse<T>)

  /** The presence rules of the routes, stated per field. Only three routes
      have any; scan events are not checked against the known kinds, and no
      client identifier is demanded for a B2B delivery. */
  predicate MissingRequired(req: Request) {
    match req
    case ScanPost(b) => "" in {b.serialNumber, b.scanEvent, b.location}
    case ProductPost(p) => "" in {p.id, p.name}
    case ProductDelete(id) => id == ""
    case _ => false
  }

  /** The call a request is relayed as, carrying the request's own fields. */
  predicate Relays(req: Request, call: SheetCall) {
    match req
    case ScanPost(b) => call == AddScan(b.serialNumber, b.scanEvent, b.location, b.clientId)
    case LogsGet => call == GetLogs
    case LogsClearPost => call == ClearLogs
    case SummaryGet => call == GetSummary
    case ProductsGet => call == GetProducts
    case ProductPost(p) => call == AddProduct(p)
    case ProductDelete(id) => call == DeleteProduct(id)
    case UsersGet => call == GetUsers
    case B2BClientsGet => call == GetB2BClients
    case CakeStatusGet => call == GetCakeStatus
    case LiveOperationsGet => call == GetLiveOperationsData
  }

  /** The guard of each route, then the client call it makes. */
  function Dispatch(req: Request): (d: Decision)
    ensures d.Reject? <==> MissingRequired(req)
    ensures d.Forward? ==> Relays(req, d.call)
  {
    match req
    case ScanPost(b) =>
      if b.serialNumber == "" || b.scanEvent == "" || b.location == "" then
        Reject("Serial number, scan event, and location are required")
      else Forward(AddScan(b.serialNumber, b.scanEvent, b.location, b.clientId))
    case LogsGet => Forward(GetLogs)
    case LogsClearPost => Forward(ClearLogs)
    case SummaryGet => Forward(GetSummary)
    case ProductsGet => Forward(GetProducts)
    case ProductPost(p) =>
      if p.id == "" || p.name == "" then Reject("Product ID and name are required")
      else Forward(AddProduct(p))
    case ProductDelete(id) =>
      if id == "" then Reject("Product ID is required") else Forward(DeleteProduct(id))
    case UsersGet => Forward(GetUsers)
    case B2BClientsGet => Forward(GetB2BClients)
    case CakeStatusGet => Forward(GetCakeStatus)
    case LiveOperationsGet => Forward(GetLiveOperationsData)
  }

  /** A whole handler: `sheet` stands for the spreadsheet client and is asked
      only when the guard lets the request through. */
  function Handle<T>(req: Request, sheet: SheetCall -> ApiResponse<T>): (r: HttpResponse<T>)
    ensures r.status == 400 <==> MissingRequired(req)
    ensures r.status == 400 ==> !r.body.success && r.body.data.None? && r.body.error.Some?
    ensures r.status != 400 ==> r.status == 200 && exists call :: Relays(req, call) && r.body == sheet(call)
  {
    match Dispatch(req)
    case Reject(msg) => HttpResponse(400, ApiResponse(false, None, Some(msg)))
    case Forward(call) => HttpResponse(200, sheet(call))
  }

  /** What the browser makes of a handler's reply (`OutcomeOf`): a rejected
      request is a failure carrying the route's message, and a relayed one
      reads exactly as the spreadsheet's own reply would. */
  lemma HandledOutcome<T>(req: Request, sheet: SheetCall -> ApiResponse<T>)
    ensures MissingRequired(req) ==>
      OutcomeOf(Handle(req, sheet).body) == Fail(Some(Dispatch(req).message))
    ensures !MissingRequired(req) ==>
      exists call :: Relays(req, call) && OutcomeOf(Handle(req, sheet).body) == OutcomeOf(sheet(call))
  {
    if !MissingRequired(req) {
      assert Relays(req, Dispatch(req).call);
    }
  }

  /** A rejected request never reaches the spreadsheet client: its reply is the
      same whatever the client would have answered. */
  lemma RejectedBeforeRemoteCall<T>(req: Request, s1: SheetCall -> ApiResponse<T>, s2: SheetCall -> ApiResponse<T>)
    requires MissingRequired(req)
    ensures Handle(req, s1) == Handle(req, s2)
  {
  }

  /** The client identifier of a scan plays no part in the guard: a B2B
      delivery without one is relayed like any other scan. */
  lemma ScanGuardIgnoresClient(b: ScanBody, c: Option<string>)
    ensures Dispatch(ScanPost(b.(clientId := c))).Reject? == Dispatch(ScanPost(b)).Reject?
    ensures b.serialNumber != "" && b.location != "" ==>
      Dispatch(ScanPost(ScanBody(b.serialNumber, EventName(DeliveryB2B), b.location, None)))
        == Forward(AddScan(b.serialNumber, "DELIVERY_B2B", b.location, None))
  {
  }
}
