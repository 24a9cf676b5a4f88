/** The MercadoPago checkout routes (backend/routes/pagos.py): building a
    payment preference from the user's cart rows, and the webhook that clears
    the cart once a payment is approved. The SDK calls are function parameters. */
module Payments {
  import opened Basics
  import opened Strings
  import opened Api
  import opened CartTable

  datatype PreferenceItem = PreferenceItem(title: string, quantity: int, currency_id: string, unit_price: int)

  datatype BackUrls = BackUrls(success: string, failure: string, pending: string)

  /** The `preference_data` dict handed to the SDK. */
  datatype PreferenceData = PreferenceData(items: seq<PreferenceItem>, back_urls: BackUrls, external_reference: string)

  /** A `PreferenciaPago` row. */
  datatype StoredPreference = StoredPreference(usuario_id: int, mp_preference_id: string, init_point: string)

  /** The reply body of a successful `crear_preferencia`. */
  datatype PreferenceReply = PreferenceReply(id: string, init_point: string)

  const Currency: string := "MXN"
  const DefaultBackBase: string := "http://localhost:4200"

  /** The three redirects go to the cart page of one base, each with its own
      outcome word, so they differ from each other. */
  function BackUrlsFor(env: Option<string>): (u: BackUrls)
    ensures var base := if Truthy(env) then env.value else DefaultBackBase;
      u.success == base + "/cart?status=success" && u.failure == base + "/cart?status=failure"
      && u.pending == base + "/cart?status=pending"
    ensures u.success != u.failure && u.failure != u.pending && u.success != u.pending
  {
    var base := if Truthy(env) then env.value else DefaultBackBase;
    var u := BackUrls(base + "/cart?status=success", base + "/cart?status=failure", base + "/cart?status=pending");
    var k := |base| + 13;
    assert u.success[k] == 's' && u.failure[k] == 'f' && u.pending[k] == 'p';
    u
  }

  /** `if producto:`: the row's product exists. */
  function HasProduct(catalog: map<int, Product>): CartRow -> bool {
    (row: CartRow) => row.producto_id in catalog
  }

  /** The entry appended for a row whose product exists: the product's name
      and price, the row's quantity, in pesos. */
  function ItemOf(row: CartRow, catalog: map<int, Product>): (item: PreferenceItem)
    requires row.producto_id in catalog
    ensures item.title == catalog[row.producto_id].nombre && item.unit_price == catalog[row.producto_id].precio
    ensures item.quantity == row.cantidad && item.currency_id == Currency
  {
    var p := catalog[row.producto_id];
    PreferenceItem(p.nombre, row.cantidad, Currency, p.precio)
  }

  /** The item list the `for` loop builds: the k-th item comes from the k-th
      row whose product exists, so rows keep their order and the others are
      dropped without notice. */
  function ItemsFor(rows: seq<CartRow>, catalog: map<int, Product>): (items: seq<PreferenceItem>)
    ensures |items| == |Filter(rows, HasProduct(catalog))| <= |rows|
    ensures forall k :: 0 <= k < |items| ==>
      Filter(rows, HasProduct(catalog))[k].producto_id in catalog
      && items[k] == ItemOf(Filter(rows, HasProduct(catalog))[k], catalog)
    ensures forall k :: 0 <= k < |items| ==> items[k].currency_id == Currency
    ensures (forall k :: 0 <= k < |rows| ==> rows[k].producto_id in catalog) ==> |items| == |rows|
    ensures (forall k :: 0 <= k < |rows| ==> rows[k].producto_id !in catalog) ==> items == []
    decreases |rows|
  {
    if rows == [] then []
    else
      var last := rows[|rows| - 1];
      ItemsFor(rows[..|rows| - 1], catalog)
      + (if last.producto_id in catalog then [ItemOf(last, catalog)] else [])
  }

  /** The loop over `items_carrito`. */
  method PreferenceItems(rows: seq<CartRow>, catalog: map<int, Product>) returns (items: seq<PreferenceItem>)
    ensures items == ItemsFor(rows, catalog)
  {
    items := [];
    var i := 0;
    while i < |rows|
      invariant 0 <= i <= |rows|
      invariant items == ItemsFor(rows[..i], catalog)
    {
      var row := rows[i];
      if row.producto_id in catalog {
        var p := catalog[row.producto_id];
        items := items + [PreferenceItem(p.nombre, row.cantidad, Currency, p.precio)];
      }
      assert rows[..i + 1][..i] == rows[..i];
      i := i + 1;
    }
    assert rows[..|rows|] == rows;
  }

  /** The SDK reply is usable when its `response` dict has both `id` and `init_point`. */
  predicate UsableResponse(resp: Option<map<string, string>>) {
    resp.Some? && "id" in resp.value && "init_point" in resp.value
  }

  /** POST /api/crear-preferencia. `createPreference` is the SDK call (the
      `response` dict, `None` when absent), `storeOk` whether saving the
      `PreferenciaPago` row succeeds. `rows` is the order the query returned. */
  method CrearPreferencia(table: CartTable, usuarioId: Option<int>, catalog: map<int, Product>,
                          backBase: Option<string>,
                          createPreference: PreferenceData -> Option<map<string, string>>, storeOk: bool)
    returns (status: int, reply: Option<PreferenceReply>, rows: seq<CartRow>,
             sent: Option<PreferenceData>, stored: Option<StoredPreference>)
    ensures !JsonTruthy(usuarioId) ==> status == 401 && reply.None? && sent.None? && stored.None?
    ensures JsonTruthy(usuarioId) ==> multiset(rows) == table.RowsOf(usuarioId.value)
    ensures JsonTruthy(usuarioId) && rows == [] ==> status == 400 && reply.None? && sent.None? && stored.None?
    ensures JsonTruthy(usuarioId) && rows != [] ==>
      sent == Some(PreferenceData(ItemsFor(rows, catalog), BackUrlsFor(backBase), IntToString(usuarioId.value)))
    ensures JsonTruthy(usuarioId) && rows != [] && !UsableResponse(createPreference(sent.value)) ==>
      status == 500 && reply.None? && stored.None?
    ensures JsonTruthy(usuarioId) && rows != [] && UsableResponse(createPreference(sent.value)) ==>
      var resp := createPreference(sent.value).value;
      status == 200 && reply == Some(PreferenceReply(resp["id"], resp["init_point"]))
      && stored == (if storeOk then Some(StoredPreference(usuarioId.value, resp["id"], resp["init_point"])) else None)
  {
    reply, sent, stored := None, None, None;
    rows := [];
    if !JsonTruthy(usuarioId) {
      status := 401;
      return;
    }
    var uid := usuarioId.value;
    rows := table.Query(uid);
    if rows == [] {
      status := 400;
      return;
    }
    var items := PreferenceItems(rows, catalog);
    var data := PreferenceData(items, BackUrlsFor(backBase), IntToString(uid));
    sent := Some(data);
    var resp := createPreference(data);
    if !UsableResponse(resp) {
      status := 500;
      return;
    }
    if storeOk {
      stored := Some(StoredPreference(uid, resp.value["id"], resp.value["init_point"]));
    }
    status := 200;
    reply := Some(PreferenceReply(resp.value["id"], resp.value["init_point"]));
  }

  /** The webhook body, reduced to `type` and `data.id`; `None` is a missing key. */
  datatype WebhookEvent = WebhookEvent(kind: Option<string>, paymentId: Option<string>)

  /** The payment dict the SDK returns, reduced to the two keys read. */
  datatype Payment = Payment(status: Option<string>, external_reference: Option<string>)

  /** `sdk.payment().get(id)`: an HTTP status and, on 200, the payment. */
  datatype PaymentInfo = PaymentInfo(status: int, response: Option<Payment>)

  /** What a webhook call ends in: an exception (500), nothing to do (200),
      or clearing one user's cart (200). */
  datatype WebhookOutcome = Fail | Ignore | Clear(usuarioId: int)

  function WebhookAction(event: WebhookEvent, fetch: string -> PaymentInfo): WebhookOutcome {
    if event.kind.None? then Fail
    else if event.kind.value != "payment" then Ignore
    else if event.paymentId.None? then Fail
    else
      var info := fetch(event.paymentId.value);
      if info.status != 200 then Ignore
      else if info.response.None? || info.response.value.status.None? then Fail
      else if info.response.value.status.value != "approved" then Ignore
      else if info.response.value.external_reference.None? then Fail
      else match ParseInt(info.response.value.external_reference.value)
        case None => Fail
        case Some(uid) => Clear(uid)
  }

  /** Carts are cleared only for an approved payment fetched with status 200. */
  lemma ClearOnlyWhenApproved(event: WebhookEvent, fetch: string -> PaymentInfo)
    requires WebhookAction(event, fetch).Clear?
    ensures event.kind == Some("payment") && event.paymentId.Some?
    ensures fetch(event.paymentId.value).status == 200
    ensures fetch(event.paymentId.value).response.Some?
    ensures fetch(event.paymentId.value).response.value.status == Some("approved")
  {
  }

  /** The reference `crear_preferencia` sends is read back by the webhook as
      the same user, so an approved payment clears exactly that user's cart. */
  lemma ExternalReferenceRoundTrip(uid: int, paymentId: string, fetch: string -> PaymentInfo)
    requires fetch(paymentId) == PaymentInfo(200, Some(Payment(Some("approved"), Some(IntToString(uid)))))
    ensures WebhookAction(WebhookEvent(Some("payment"), Some(paymentId)), fetch) == Clear(uid)
  {
    ParseIntOfIntToString(uid);
  }

  /** POST /api/webhook/mercadopago. */
  method WebhookMercadopago(table: CartTable, event: WebhookEvent, fetch: string -> PaymentInfo)
    returns (status: int)
    modifies table
    ensures WebhookAction(event, fetch).Fail? ==> status == 500 && table.rows == old(table.rows)
    ensures WebhookAction(event, fetch).Ignore? ==> status == 200 && table.rows == old(table.rows)
    ensures WebhookAction(event, fetch).Clear? ==>
      status == 200 && table.rows == old(table.rows) - {WebhookAction(event, fetch).usuarioId}
  {
    match WebhookAction(event, fetch) {
      case Fail =>
        status := 500;
      case Ignore =>
        status := 200;
      case Clear(uid) =>
        table.rows := table.rows - {uid};
        status := 200;
    }
  }
}
