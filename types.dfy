/** The shared entities exchanged between the browser, the proxy and the
    spreadsheet service (shared/types.ts). Timestamps are integers (milliseconds);
    JavaScript numbers are `real` where the source allows fractions, `int` where
    they are counts. */
module Types {

  datatype Option<+T> = None | Some(value: T) {
    function GetOr(default: T): T {
      match this
      case Some(v) => v
      case None => default
    }
  }

  /** The eight checkpoint kinds a scan can record. */
  datatype ScanEvent =
    | ProductionScan
    | WarehouseEntry
    | WarehouseExit
    | BoutiqueStockScan
    | MarcheStockScan
    | SaleyaStockScan
    | SaleB2C
    | DeliveryB2B

  /** The wire spelling of a scan event. */
  function EventName(e: ScanEvent): string {
    match e
    case ProductionScan => "PRODUCTION_SCAN"
    case WarehouseEntry => "WAREHOUSE_ENTRY"
    case WarehouseExit => "WAREHOUSE_EXIT"
    case BoutiqueStockScan => "BOUTIQUE_STOCK_SCAN"
    case MarcheStockScan => "MARCHE_STOCK_SCAN"
    case SaleyaStockScan => "SALEYA_STOCK_SCAN"
    case SaleB2C => "SALE_B2C"
    case DeliveryB2B => "DELIVERY_B2B"
  }

  /** The wire spelling is never empty, and no two events share one. */
  lemma EventNameInjective(e1: ScanEvent, e2: ScanEvent)
    ensures EventName(e1) != []
    ensures EventName(e1) == EventName(e2) ==> e1 == e2
  {
  }

  datatype ScanLog = ScanLog(
    serialNumber: string,
    timestamp: int,
    scanEvent: ScanEvent,
    location: string,
    clientId: Option<string>)

  datatype InventorySummaryItem = InventorySummaryItem(productId: string, productName: string, count: int)

  datatype Product = Product(
    id: string,
    name: string,
    category: Option<string>,
    unitOfMeasure: Option<string>,
    unitCost: Option<real>,
    supplierName: Option<string>,
    reorderLevel: Option<real>,
    reorderQuantity: Option<real>,
    storageLocation: Option<string>,
    shelfLifeDays: Option<real>,
    isPerishable: bool)

  datatype Role = WarehouseManager | Scanner

  datatype User = User(email: string, name: string, role: Role, location: string, password: Option<string>)

  datatype CakeStatus = CakeStatus(serialNumber: string, currentLocation: string, status: string, lastUpdate: int)

  datatype B2BClient = B2BClient(clientId: string, clientName: string, contactPerson: string, address: string)

  /** The uniform envelope of every reply. */
  datatype ApiResponse<+T> = ApiResponse(success: bool, data: Option<T>, error: Option<string>)

  /** What a store operation learns from one request: the envelope's data when
      it reports success with data, its error otherwise, or `Threw` when the
      request or the JSON decoding raised. */
  datatype Outcome<+T> = Ok(data: T) | Fail(error: Option<string>) | Threw

  /** How the browser reads a reply body (the HTTP status is not consulted). */
  function OutcomeOf<T>(body: ApiResponse<T>): Outcome<T> {
    if body.success && body.data.Some? then Ok(body.data.value) else Fail(body.error)
  }

  /** How `clearLogs` reads its reply: only `success` is tested, so a
      successful reply counts whatever its data, and otherwise the error is
      the envelope's. */
  function ClearOutcomeOf<T>(body: ApiResponse<T>): (r: Outcome<()>)
    ensures r.Ok? <==> body.success
    ensures !r.Ok? ==> r == Fail(body.error)
  {
    if body.success then Ok(()) else Fail(body.error)
  }

  /** The two readings differ on a successful reply without data: the clear
      counts it as done, every other operation as a failure. Otherwise both
      agree on success and failure. */
  lemma ClearReadsSuccessOnly<T>(body: ApiResponse<T>)
    ensures body.success && body.data.None? ==> ClearOutcomeOf(body) == Ok(()) && OutcomeOf(body) == Fail(body.error)
    ensures body.data.Some? ==> (ClearOutcomeOf(body).Ok? <==> OutcomeOf(body).Ok?)
    ensures !body.success ==> ClearOutcomeOf(body) == Fail(body.error) && OutcomeOf(body) == Fail(body.error)
  {
  }
}
