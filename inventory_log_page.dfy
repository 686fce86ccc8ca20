/** What the inventory log page computes from the cached lists
    (src/pages/InventoryLogPage.tsx): the lookup tables, the product name of a
    serial number, the client and event cells, and which rendering is shown.
    The lists are parameters; the translated label the page shows for an
    unknown product is the parameter `unknownLabel`. */
module InventoryLogView {
  import opened Types
  import opened Text
  import opened Panels

  /** `new Map(pairs)`: entries are inserted left to right. */
  function KeyedMap(pairs: seq<(string, string)>): map<string, string>
    decreases |pairs|
  {
    if pairs == [] then map[]
    else KeyedMap(pairs[..|pairs| - 1])[pairs[|pairs| - 1].0 := pairs[|pairs| - 1].1]
  }

  /** The keys of the map are exactly the keys of the pairs. */
  lemma {:induction false} KeyedMapKeys(pairs: seq<(string, string)>)
    ensures forall k :: k in KeyedMap(pairs) <==> exists i :: 0 <= i < |pairs| && pairs[i].0 == k
    decreases |pairs|
  {
    if pairs != [] {
      var init := pairs[..|pairs| - 1];
      KeyedMapKeys(init);
      assert forall i :: 0 <= i < |init| ==> init[i] == pairs[i];
      forall k | exists i :: 0 <= i < |pairs| && pairs[i].0 == k
        ensures k in KeyedMap(pairs)
      {
        var i :| 0 <= i < |pairs| && pairs[i].0 == k;
        if i < |init| {
          assert init[i].0 == k;
        }
      }
    }
  }

  /** For a key given more than once, the last pair wins. */
  lemma {:induction false} KeyedMapLastWins(pairs: seq<(string, string)>, i: nat)
    requires i < |pairs|
    requires forall j :: i < j < |pairs| ==> pairs[j].0 != pairs[i].0
    ensures pairs[i].0 in KeyedMap(pairs) && KeyedMap(pairs)[pairs[i].0] == pairs[i].1
    decreases |pairs|
  {
    if i < |pairs| - 1 {
      var init := pairs[..|pairs| - 1];
      assert forall j :: 0 <= j < |init| ==> init[j] == pairs[j];
      KeyedMapLastWins(init, i);
    }
  }

  /** `productMap`: product id to product name. */
  function ProductMap(products: seq<Product>): map<string, string> {
    KeyedMap(seq(|products|, i requires 0 <= i < |products| => (products[i].id, products[i].name)))
  }

  /** `clientMap`: client id to client name. */
  function ClientMap(clients: seq<B2BClient>): map<string, string> {
    KeyedMap(seq(|clients|, i requires 0 <= i < |clients| => (clients[i].clientId, clients[i].clientName)))
  }

  /** The table knows exactly the ids of the catalog, and for an id listed more
      than once it holds the name of its last product. */
  lemma ProductMapLaterWins(products: seq<Product>, i: nat)
    requires i < |products|
    requires forall j :: i < j < |products| ==> products[j].id != products[i].id
    ensures products[i].id in ProductMap(products)
    ensures ProductMap(products)[products[i].id] == products[i].name
    ensures forall k :: k in ProductMap(products) <==> exists j :: 0 <= j < |products| && products[j].id == k
  {
    var pairs := seq(|products|, i requires 0 <= i < |products| => (products[i].id, products[i].name));
    assert forall j :: 0 <= j < |products| ==> pairs[j].0 == products[j].id;
    KeyedMapLastWins(pairs, i);
    KeyedMapKeys(pairs);
  }

  /** The product id of a serial number: the serial without its last
      '-'-separated part, or the whole serial when it has no '-'. */
  function ProductIdOf(serial: string): string {
    var parts := Split(serial, '-');
    if |parts| > 1 then Join(parts[..|parts| - 1], '-') else serial
  }

  /** The part of the serial after its last '-'. */
  function LastSegment(serial: string): string {
    var parts := Split(serial, '-');
    parts[|parts| - 1]
  }

  /** A serial with a '-' is its product id, a '-', and a last part without
      '-'; a serial without one is its own product id. */
  lemma SerialDecomposes(serial: string)
    ensures '-' in serial ==> serial == ProductIdOf(serial) + "-" + LastSegment(serial) && '-' !in LastSegment(serial)
    ensures '-' !in serial ==> ProductIdOf(serial) == serial
  {
    var parts := Split(serial, '-');
    if |parts| > 1 {
      JoinLast(parts, '-');
    }
  }

  /** Conversely, a product id, a '-' and a tail without '-' make a serial
      whose product id is that id and whose last part is that tail. */
  lemma {:induction false} ProductIdOfParts(id: string, tail: string)
    requires '-' !in tail
    ensures ProductIdOf(id + "-" + tail) == id
    ensures LastSegment(id + "-" + tail) == tail
  {
    SplitAppend(id, '-', tail);
    var parts := Split(id + "-" + tail, '-');
    assert parts[..|parts| - 1] == Split(id, '-');
  }

  lemma ProductIdExample()
    ensures ProductIdOf("OLV-001-0001") == "OLV-001"
  {
    ProductIdOfParts("OLV-001", "0001");
    assert "OLV-001" + "-" + "0001" == "OLV-001-0001";
  }

  /** `getProductName`: the catalog name of the serial's product id, or the
      unknown-product label when the id is not listed or its name is empty
      (`||` treats "" as missing). */
  function ProductName(serial: string, productMap: map<string, string>, unknownLabel: string): string {
    var id := ProductIdOf(serial);
    if id in productMap && productMap[id] != "" then productMap[id] else unknownLabel
  }

  /** Against the catalog: a serial shows the name of the last product whose
      id is the serial's product id, when that name is not empty, and the
      unknown-product label when no product has that id or that name is
      empty. */
  lemma ProductNameFromCatalog(serial: string, products: seq<Product>, unknownLabel: string)
    ensures forall i ::
      (0 <= i < |products| && products[i].id == ProductIdOf(serial) && products[i].name != ""
        && (forall j :: i < j < |products| ==> products[j].id != products[i].id))
      ==> ProductName(serial, ProductMap(products), unknownLabel) == products[i].name
    ensures (forall i :: 0 <= i < |products| ==> products[i].id != ProductIdOf(serial))
      ==> ProductName(serial, ProductMap(products), unknownLabel) == unknownLabel
    ensures forall i ::
      (0 <= i < |products| && products[i].id == ProductIdOf(serial) && products[i].name == ""
        && (forall j :: i < j < |products| ==> products[j].id != products[i].id))
      ==> ProductName(serial, ProductMap(products), unknownLabel) == unknownLabel
  {
    forall i | 0 <= i < |products| && (forall j :: i < j < |products| ==> products[j].id != products[i].id)
      ensures products[i].id in ProductMap(products) && ProductMap(products)[products[i].id] == products[i].name
    {
      ProductMapLaterWins(products, i);
    }
    if 0 < |products| {
      ProductMapLaterWins(products, |products| - 1);
    } else {
      var pairs: seq<(string, string)> := [];
      assert ProductMap(products) == KeyedMap(pairs);
    }
  }

  /** The client cell: 'N/A' without a client id; otherwise the client's name,
      or the raw id when the name is unknown or empty. */
  function ClientCell(clientId: Option<string>, clientMap: map<string, string>): (r: string)
    ensures clientId.None? || clientId.value == "" ==> r == "N/A"
    ensures clientId.Some? && clientId.value != "" ==>
      r == (if clientId.value in clientMap && clientMap[clientId.value] != "" then clientMap[clientId.value] else clientId.value)
  {
    match clientId
    case None => "N/A"
    case Some(id) =>
      if id == "" then "N/A"
      else if id in clientMap && clientMap[id] != "" then clientMap[id]
      else id
  }

  /** The client table knows exactly the listed client ids and maps each to
      the name of the last client with that id. */
  lemma ClientMapLaterWins(clients: seq<B2BClient>, i: nat)
    requires i < |clients|
    requires forall j :: i < j < |clients| ==> clients[j].clientId != clients[i].clientId
    ensures clients[i].clientId in ClientMap(clients)
    ensures ClientMap(clients)[clients[i].clientId] == clients[i].clientName
    ensures forall k :: k in ClientMap(clients) <==> exists j :: 0 <= j < |clients| && clients[j].clientId == k
  {
    var pairs := seq(|clients|, i requires 0 <= i < |clients| => (clients[i].clientId, clients[i].clientName));
    assert forall j :: 0 <= j < |clients| ==> pairs[j].0 == clients[j].clientId;
    KeyedMapLastWins(pairs, i);
    KeyedMapKeys(pairs);
  }

  /** Against the client list: a log entry with a client id shows the name of
      the last client with that id when the name is not empty, and the raw id
      when no client has it or its name is empty. */
  lemma ClientCellFromList(id: string, clients: seq<B2BClient>)
    requires id != ""
    ensures forall i ::
      (0 <= i < |clients| && clients[i].clientId == id
        && (forall j :: i < j < |clients| ==> clients[j].clientId != id))
      ==> ClientCell(Some(id), ClientMap(clients)) == (if clients[i].clientName != "" then clients[i].clientName else id)
    ensures (forall i :: 0 <= i < |clients| ==> clients[i].clientId != id)
      ==> ClientCell(Some(id), ClientMap(clients)) == id
  {
    forall i | 0 <= i < |clients| && (forall j :: i < j < |clients| ==> clients[j].clientId != clients[i].clientId)
      ensures clients[i].clientId in ClientMap(clients) && ClientMap(clients)[clients[i].clientId] == clients[i].clientName
    {
      ClientMapLaterWins(clients, i);
    }
    if 0 < |clients| {
      ClientMapLaterWins(clients, |clients| - 1);
    } else {
      var pairs: seq<(string, string)> := [];
      assert ClientMap(clients) == KeyedMap(pairs);
    }
  }

  /** The event cell: the wire spelling with every '_' shown as a space. */
  function EventLabel(e: ScanEvent): (r: string)
    ensures |r| == |EventName(e)| && '_' !in r
    ensures forall i :: 0 <= i < |r| && EventName(e)[i] == '_' ==> r[i] == ' '
    ensures forall i :: 0 <= i < |r| && EventName(e)[i] != '_' ==> r[i] == EventName(e)[i]
  {
    ReplaceAll(EventName(e), '_', ' ')
  }

  datatype Row = Row(productName: string, serialNumber: string, eventLabel: string, location: string,
                     client: string, timestamp: int)

  function RowOf(log: ScanLog, productMap: map<string, string>, clientMap: map<string, string>, unknownLabel: string): Row {
    Row(ProductName(log.serialNumber, productMap, unknownLabel), log.serialNumber, EventLabel(log.scanEvent),
        log.location, ClientCell(log.clientId, clientMap), log.timestamp)
  }

  /** `isLoading`: the logs are loading, or a lookup list is loading and still empty. */
  predicate IsLoading(loadingLogs: bool, loadingProducts: bool, products: seq<Product>,
                      loadingClients: bool, clients: seq<B2BClient>) {
    loadingLogs || (loadingProducts && |products| == 0) || (loadingClients && |clients| == 0)
  }

  /** `renderContent`: one row per cached log entry, in cache order. */
  function RenderContent(logs: seq<ScanLog>, loadingLogs: bool, products: seq<Product>, loadingProducts: bool,
                         clients: seq<B2BClient>, loadingClients: bool, unknownLabel: string): (r: Panel<seq<Row>>)
    ensures r.Skeleton? <==> logs == [] && IsLoading(loadingLogs, loadingProducts, products, loadingClients, clients)
    ensures r.EmptyState? <==> logs == [] && !IsLoading(loadingLogs, loadingProducts, products, loadingClients, clients)
    ensures r.Filled? <==> logs != []
    ensures r.Filled? ==> |r.content| == |logs| && forall i :: 0 <= i < |logs| ==>
      && r.content[i].serialNumber == logs[i].serialNumber
      && r.content[i].productName == ProductName(logs[i].serialNumber, ProductMap(products), unknownLabel)
      && r.content[i].eventLabel == EventLabel(logs[i].scanEvent)
      && r.content[i].location == logs[i].location
      && r.content[i].client == ClientCell(logs[i].clientId, ClientMap(clients))
      && r.content[i].timestamp == logs[i].timestamp
  {
    var pm, cm := ProductMap(products), ClientMap(clients);
    Choose(IsLoading(loadingLogs, loadingProducts, products, loadingClients, clients), |logs| == 0,
           seq(|logs|, i requires 0 <= i < |logs| => RowOf(logs[i], pm, cm, unknownLabel)))
  }

  /** The clear-log button: shown only to a warehouse manager (`Some`), and then
      disabled exactly when there is nothing to clear or the logs are loading. */
  function ClearLogControl(currentUser: Option<User>, logs: seq<ScanLog>, loadingLogs: bool): (r: Option<bool>)
    ensures r.Some? <==> currentUser.Some? && currentUser.value.role == WarehouseManager
    ensures r.Some? ==> (r.value <==> logs == [] || loadingLogs)
  {
    if currentUser.Some? && currentUser.value.role == WarehouseManager then Some(|logs| == 0 || loadingLogs) else None
  }
}
