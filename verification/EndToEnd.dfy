/** How the client and the server fit together: the cart that the store posts
    and reloads through /api/carrito, the login replies of the two server
    handlers as the client reads them, and the custom-cake order as
    POST /api/pedidos receives it. */
module EndToEnd {
  import opened Basics
  import opened Strings
  import opened Api
  import opened AuthSession
  import opened CartStore
  import opened CartTable
  import opened AppServer
  import opened OrderWizard

  // ----- The cart through /api/carrito -----

  /** The `items` of a POST body as the server reads it: each line's `id` and `quantity`. */
  function ToWire(items: seq<CartItem>): (w: seq<WireItem>)
    ensures |w| == |items|
    ensures forall i :: 0 <= i < |items| ==> w[i].id == Some(items[i].id) && w[i].quantity == Some(items[i].quantity)
  {
    seq(|items|, i requires 0 <= i < |items| => WireItem(Some(items[i].id), Some(items[i].quantity)))
  }

  /** The (product, quantity) pairs of a list of lines, in order. */
  function Pairs(items: seq<CartItem>): (rows: seq<CartRow>)
    ensures |rows| == |items|
    ensures forall i :: 0 <= i < |items| ==> rows[i].producto_id == items[i].id && rows[i].cantidad == items[i].quantity
  {
    seq(|items|, i requires 0 <= i < |items| => CartRow(items[i].id, items[i].quantity))
  }

  /** Every line the client posts carries both keys, so the server stores
      exactly the client's pairs. */
  lemma PostedLinesAreStored(items: seq<CartItem>)
    ensures StoredRows(ToWire(items)) == Some(Pairs(items))
  {
    var w := ToWire(items);
    assert StoredRows(w).Some?;
    assert StoredRows(w).value == Pairs(items);
  }

  /** A reload keeps each server row's pair, whatever the lookups return. */
  lemma LoadedPairs(rows: seq<CartRow>, products: seq<Option<Product>>)
    requires |products| == |rows|
    ensures Pairs(LoadedItems(Loaded(rows, Joined(products)))) == rows
    ensures Pairs(LoadedItems(Loaded(rows, JoinFailed))) == rows
  {
    LoadedItemsKeepRows(Loaded(rows, Joined(products)));
    LoadedItemsKeepRows(Loaded(rows, JoinFailed));
  }

  /** The store saves its lines and the server replaces the user's rows with
      the posted body: the table then holds exactly the store's pairs. */
  method SaveToTable(cart: CartService, table: CartTable)
    requires Persistable(cart.currentUser)
    modifies cart, table
    ensures cart.items == old(cart.items) && cart.currentUser == old(cart.currentUser)
    ensures cart.posts == old(cart.posts) + [CartPost(cart.currentUser.value.id, cart.items)]
    ensures table.RowsOf(cart.currentUser.value.id) == multiset(Pairs(cart.items))
  {
    var uid := cart.currentUser.value.id;
    cart.SaveCart();
    PostedLinesAreStored(cart.items);
    var status := table.ActualizarCarrito(Some(uid), ToWire(cart.items));
  }

  /** The store reloads and the server answers with the user's rows, each
      looked up with `lookup`: the store ends with exactly the table's pairs. */
  method ReloadFromTable(cart: CartService, table: CartTable, lookup: int -> Option<Product>)
    requires Persistable(cart.currentUser)
    modifies cart
    ensures cart.currentUser == old(cart.currentUser) && cart.posts == old(cart.posts)
    ensures multiset(Pairs(cart.items)) == table.RowsOf(cart.currentUser.value.id)
    ensures cart.publishedItems == cart.items && cart.Valid()
  {
    var uid := cart.currentUser.value.id;
    cart.LoadCart();
    var st, rows := table.ObtenerCarrito(Some(uid));
    var products := seq(|rows|, i requires 0 <= i < |rows| => lookup(rows[i].producto_id));
    cart.CompleteLoad(Loaded(rows, Joined(products)));
    LoadedPairs(rows, products);
  }

  /** Save, then reload: the store ends with the same (product, quantity)
      pairs, up to order, and the table holds exactly those pairs. */
  method SaveThenReload(cart: CartService, table: CartTable, lookup: int -> Option<Product>)
    requires Persistable(cart.currentUser)
    modifies cart, table
    ensures multiset(Pairs(cart.items)) == multiset(Pairs(old(cart.items)))
    ensures cart.publishedItems == cart.items && cart.Valid()
    ensures cart.currentUser == old(cart.currentUser)
    ensures table.RowsOf(cart.currentUser.value.id) == multiset(Pairs(old(cart.items)))
  {
    SaveToTable(cart, table);
    ReloadFromTable(cart, table, lookup);
  }

  /** `clearCart` sends nothing to the server, so when the server held the
      store's lines, the next load brings every one of them back. */
  method ClearThenReload(cart: CartService, table: CartTable, lookup: int -> Option<Product>)
    requires Persistable(cart.currentUser)
    requires table.RowsOf(cart.currentUser.value.id) == multiset(Pairs(cart.items))
    modifies cart
    ensures multiset(Pairs(cart.items)) == multiset(Pairs(old(cart.items)))
    ensures cart.posts == old(cart.posts)
  {
    cart.ClearCart();
    ReloadFromTable(cart, table, lookup);
  }

  /** A guest adds the same product twice: one line of quantity 2, the total
      is twice the price, and nothing is sent to the server. */
  method GuestAddsTwice() returns (cart: CartService)
    ensures cart.items == [CartItem(7, "Pastel", 35, 2, None, None)]
    ensures cart.GetCartTotal() == 70 && cart.GetItemCount() == 2
    ensures cart.posts == [] && cart.publishedTotal == 70
  {
    cart := new CartService(None);
    var p := CartProduct(7, "Pastel", 35, None, None);
    cart.AddToCart(p);
    assert cart.items == [NewLine(p)];
    cart.AddToCart(p);
    assert cart.items == [NewLine(p).(quantity := 2)];
    SumSingle(cart.items[0], LineTotal);
    SumSingle(cart.items[0], LineQuantity);
  }

  // ----- Login replies -----

  /** The 200 body of `login`: the account fields at the top level and no
      `user` key, which the client reads as a reply without user. */
  function LoginBody(u: User): LoginReply {
    LoginReply(None)
  }

  /** The 200 body of `login_user`: the account under `user`, without
      `email_verified`, which the client then reads as false. */
  function LoginUserBody(u: User): LoginReply {
    LoginReply(Some(SessionUser(u.id, u.email, u.first_name.GetOr(""), u.role, false)))
  }

  /** After a successful `login` the client keeps a temporary user built from
      the address it typed: the account's id and role are lost. */
  lemma LoginReplyGivesTemporaryUser(email: string, u: User)
    ensures MapLoginReply(email, LoginBody(u)).id == CharCodeSum(email)
    ensures MapLoginReply(email, LoginBody(u)).role == "user"
    ensures u.role == "admin" ==> MapLoginReply(email, LoginBody(u)).role != u.role
  {
  }

  /** After a successful `login_user` the client keeps the account's id and role. */
  lemma LoginUserReplyKeepsAccount(email: string, u: User)
    ensures MapLoginReply(email, LoginUserBody(u)).id == u.id
    ensures MapLoginReply(email, LoginUserBody(u)).role == u.role
    ensures !MapLoginReply(email, LoginUserBody(u)).email_verified
  {
  }

  // ----- The custom-cake order -----

  /** What POST /api/pedidos makes of the body the wizard sends. */
  function OrderReply(p: PedidoPayload, newId: int, parseDate: string -> Option<int>): Reply<Pedido> {
    CrearPedido(newId, Some(p.nombre), Some(p.email), Some(p.producto), Some(p.cantidad),
                p.fecha_entrega, Some(p.nota), parseDate)
  }

  /** Every order the wizard lets through is accepted, for one cake, with its
      text as the product; the server refuses the ones the wizard refuses. */
  lemma WizardOrderAccepted(p: PedidoPayload, preview: string, message: string, newId: int,
                            parseDate: string -> Option<int>)
    requires p.producto == ProductoDesc(preview, message) && p.cantidad == 1
    ensures OrderReply(p, newId, parseDate).status == 201 <==> p.nombre != "" && p.email != ""
    ensures p.nombre != "" && p.email != "" ==>
      OrderReply(p, newId, parseDate).created.value.cantidad == 1
      && OrderReply(p, newId, parseDate).created.value.producto == p.producto
    ensures p.nombre != "" && p.email != "" && p.fecha_entrega.None? ==>
      OrderReply(p, newId, parseDate).created.value.fecha_entrega.None?
  {
    assert p.producto[0] == 'P';
  }
}
