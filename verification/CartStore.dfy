/** The client cart store (`CartService` in src/app/services/cart.service.ts):
    the list of cart lines, its four mutators, the published snapshot, the
    reaction to session changes and the enrichment of persisted rows. */
module CartStore {
  import opened Basics
  import opened Strings
  import opened Api
  import opened AuthSession

  /** One cart line (`CartItem`). */
  datatype CartItem = CartItem(
    id: int,
    name: string,
    price: int,
    quantity: int,
    image: Option<string>,
    description: Option<string>)

  /** What `addToCart` receives: a cart line without its quantity. */
  datatype CartProduct = CartProduct(
    id: int,
    name: string,
    price: int,
    image: Option<string>,
    description: Option<string>)

  /** The body of one POST /api/carrito: `{usuario_id, items}`. */
  datatype CartPost = CartPost(usuario_id: int, items: seq<CartItem>)

  // ----- Sums over the cart (the `reduce` calls) -----

  function Sum(items: seq<CartItem>, f: CartItem -> int): int
    decreases |items|
  {
    if items == [] then 0 else f(items[0]) + Sum(items[1..], f)
  }

  function LineTotal(it: CartItem): int {
    it.price * it.quantity
  }

  function LineQuantity(it: CartItem): int {
    it.quantity
  }

  function QuantityFor(id: int): CartItem -> int {
    (it: CartItem) => if it.id == id then it.quantity else 0
  }

  /** Σ price × quantity: `getCartTotal` and the value `updateCart` publishes. */
  function Total(items: seq<CartItem>): int {
    Sum(items, LineTotal)
  }

  /** Σ quantity: `getItemCount`, the header badge. */
  function ItemCount(items: seq<CartItem>): int {
    Sum(items, LineQuantity)
  }

  /** Total quantity held under one product id. */
  function QuantityOf(items: seq<CartItem>, id: int): int {
    Sum(items, QuantityFor(id))
  }

  lemma {:induction false} SumAppend(a: seq<CartItem>, b: seq<CartItem>, f: CartItem -> int)
    ensures Sum(a + b, f) == Sum(a, f) + Sum(b, f)
    decreases |a|
  {
    if a == [] {
      assert a + b == b;
    } else {
      assert (a + b)[1..] == a[1..] + b;
      SumAppend(a[1..], b, f);
    }
  }

  lemma {:induction false} SumUpdate(items: seq<CartItem>, i: nat, v: CartItem, f: CartItem -> int)
    requires i < |items|
    ensures Sum(items[i := v], f) == Sum(items, f) - f(items[i]) + f(v)
    decreases |items|
  {
    if i == 0 {
      assert items[i := v][1..] == items[1..];
    } else {
      assert items[i := v][1..] == items[1..][i - 1 := v];
      SumUpdate(items[1..], i - 1, v, f);
    }
  }

  lemma SumSingle(x: CartItem, f: CartItem -> int)
    ensures Sum([x], f) == f(x)
  {
    assert [x][1..] == [];
  }

  lemma {:induction false} ItemCountAtLeastLines(items: seq<CartItem>)
    ensures (forall k :: 0 <= k < |items| ==> items[k].quantity >= 1) ==> ItemCount(items) >= |items|
    decreases |items|
  {
    if items != [] {
      ItemCountAtLeastLines(items[1..]);
      if forall k :: 0 <= k < |items| ==> items[k].quantity >= 1 {
        assert forall k :: 0 <= k < |items[1..]| ==> items[1..][k].quantity >= 1 by {
          forall k | 0 <= k < |items[1..]| ensures items[1..][k].quantity >= 1 {
            assert items[1..][k] == items[k + 1];
          }
        }
      }
    }
  }

  predicate UniqueIds(items: seq<CartItem>) {
    forall i, j :: 0 <= i < j < |items| ==> items[i].id != items[j].id
  }

  /** With distinct ids, the quantity under an id is the quantity of its one line. */
  lemma {:induction false} QuantityOfUnique(items: seq<CartItem>, k: nat)
    requires UniqueIds(items) && k < |items|
    ensures QuantityOf(items, items[k].id) == items[k].quantity
    decreases |items|
  {
    var id := items[k].id;
    if k == 0 {
      QuantityOfAbsent(items[1..], id);
    } else {
      QuantityOfUnique(items[1..], k - 1);
    }
  }

  lemma {:induction false} QuantityOfAbsent(items: seq<CartItem>, id: int)
    requires forall j :: 0 <= j < |items| ==> items[j].id != id
    ensures QuantityOf(items, id) == 0
    decreases |items|
  {
    if items != [] {
      QuantityOfAbsent(items[1..], id);
    }
  }

  // ----- The mutators as functions of the list -----

  function HasId(id: int): CartItem -> bool {
    (it: CartItem) => it.id == id
  }

  /** `items.find(item => item.id === id)`, as an index. */
  function FindIndex(items: seq<CartItem>, id: int): (r: Option<nat>)
    ensures r.Some? ==> r.value < |items| && items[r.value].id == id
    ensures r.Some? ==> forall j :: 0 <= j < r.value ==> items[j].id != id
    ensures r.None? ==> forall j :: 0 <= j < |items| ==> items[j].id != id
  {
    var r := FirstIndex(items, HasId(id));
    assert r.Some? ==> HasId(id)(items[r.value]);
    assert r.Some? ==> forall j :: 0 <= j < r.value ==> !HasId(id)(items[j]);
    assert r.None? ==> forall j :: 0 <= j < |items| ==> !HasId(id)(items[j]);
    r
  }

  function NewLine(p: CartProduct): CartItem {
    CartItem(p.id, p.name, p.price, 1, p.image, p.description)
  }

  /** `addToCart`: bump the first line with the product's id, else append it with quantity 1. */
  function AddItem(items: seq<CartItem>, p: CartProduct): seq<CartItem> {
    match FindIndex(items, p.id)
    case Some(i) => items[i := items[i].(quantity := items[i].quantity + 1)]
    case None => items + [NewLine(p)]
  }

  /** `items.filter(item => item.id !== id)`. */
  function RemoveId(items: seq<CartItem>, id: int): (r: seq<CartItem>)
    ensures forall x :: x in r <==> x in items && x.id != id
    ensures |r| <= |items|
    decreases |items|
  {
    if items == [] then []
    else (if items[0].id == id then [] else [items[0]]) + RemoveId(items[1..], id)
  }

  /** `Math.max(0, quantity)`. */
  function Max0(q: int): int {
    if q > 0 then q else 0
  }

  /** `updateQuantity`: absent id, no change; a quantity clamped to 0 removes
      the product; otherwise the first matching line takes the quantity as given. */
  function SetQuantity(items: seq<CartItem>, id: int, quantity: int): seq<CartItem> {
    match FindIndex(items, id)
    case None => items
    case Some(i) =>
      if Max0(quantity) == 0 then RemoveId(items, id)
      else items[i := items[i].(quantity := quantity)]
  }

  /** Adding a product raises its quantity by one and leaves every other id alone. */
  lemma AddItemQuantity(items: seq<CartItem>, p: CartProduct, x: int)
    ensures QuantityOf(AddItem(items, p), x) == QuantityOf(items, x) + (if x == p.id then 1 else 0)
    ensures ItemCount(AddItem(items, p)) == ItemCount(items) + 1
    ensures |AddItem(items, p)| == |items| + (if FindIndex(items, p.id).None? then 1 else 0)
    ensures forall j :: 0 <= j < |items| && items[j].id != p.id ==> AddItem(items, p)[j] == items[j]
  {
    match FindIndex(items, p.id)
    case Some(i) =>
      var v := items[i].(quantity := items[i].quantity + 1);
      SumUpdate(items, i, v, QuantityFor(x));
      SumUpdate(items, i, v, LineQuantity);
    case None =>
      SumAppend(items, [NewLine(p)], QuantityFor(x));
      SumAppend(items, [NewLine(p)], LineQuantity);
      SumSingle(NewLine(p), QuantityFor(x));
      SumSingle(NewLine(p), LineQuantity);
  }

  /** Adding a product raises the total by the unit price of the line it lands on. */
  lemma AddItemTotal(items: seq<CartItem>, p: CartProduct)
    ensures Total(AddItem(items, p)) == Total(items) +
      (match FindIndex(items, p.id) case Some(i) => items[i].price case None => p.price)
  {
    match FindIndex(items, p.id)
    case Some(i) =>
      var v := items[i].(quantity := items[i].quantity + 1);
      SumUpdate(items, i, v, LineTotal);
      assert LineTotal(v) == LineTotal(items[i]) + items[i].price;
    case None =>
      SumAppend(items, [NewLine(p)], LineTotal);
      SumSingle(NewLine(p), LineTotal);
  }

  lemma AddItemKeepsIdsUnique(items: seq<CartItem>, p: CartProduct)
    requires UniqueIds(items)
    ensures UniqueIds(AddItem(items, p))
  {
    var r := AddItem(items, p);
    match FindIndex(items, p.id)
    case Some(i) =>
      assert forall k :: 0 <= k < |items| ==> r[k].id == items[k].id;
    case None =>
      assert forall k :: 0 <= k < |items| ==> r[k] == items[k];
  }

  /** Adding every product of `ps` in turn. */
  function AddAll(items: seq<CartItem>, ps: seq<CartProduct>): seq<CartItem>
    decreases |ps|
  {
    if ps == [] then items else AddAll(AddItem(items, ps[0]), ps[1..])
  }

  /** How many of `ps` carry id `x`. */
  function CountId(ps: seq<CartProduct>, x: int): nat
    decreases |ps|
  {
    if ps == [] then 0 else (if ps[0].id == x then 1 else 0) + CountId(ps[1..], x)
  }

  /** After any sequence of `addToCart` calls, ids stay distinct and each
      product's quantity grows by the number of times it was added. */
  lemma {:induction false} AddAllCounts(items: seq<CartItem>, ps: seq<CartProduct>, x: int)
    requires UniqueIds(items)
    ensures UniqueIds(AddAll(items, ps))
    ensures QuantityOf(AddAll(items, ps), x) == QuantityOf(items, x) + CountId(ps, x)
    decreases |ps|
  {
    if ps != [] {
      AddItemKeepsIdsUnique(items, ps[0]);
      AddItemQuantity(items, ps[0], x);
      AddAllCounts(AddItem(items, ps[0]), ps[1..], x);
    }
  }

  /** Removing an id that is not in the cart changes nothing. */
  lemma {:induction false} RemoveIdAbsent(items: seq<CartItem>, id: int)
    requires forall j :: 0 <= j < |items| ==> items[j].id != id
    ensures RemoveId(items, id) == items
    decreases |items|
  {
    if items != [] {
      RemoveIdAbsent(items[1..], id);
      assert [items[0]] + items[1..] == items;
    }
  }

  /** Removal keeps the relative order of what remains. */
  lemma {:induction false} RemoveIdAppend(a: seq<CartItem>, b: seq<CartItem>, id: int)
    ensures RemoveId(a + b, id) == RemoveId(a, id) + RemoveId(b, id)
    decreases |a|
  {
    if a == [] {
      assert a + b == b;
    } else {
      assert (a + b)[0] == a[0];
      assert (a + b)[1..] == a[1..] + b;
      RemoveIdAppend(a[1..], b, id);
    }
  }

  /** Removal empties the removed id and keeps every other id's quantity. */
  lemma {:induction false} RemoveIdQuantity(items: seq<CartItem>, id: int, x: int)
    ensures QuantityOf(RemoveId(items, id), x) == if x == id then 0 else QuantityOf(items, x)
    decreases |items|
  {
    if items != [] {
      var head := if items[0].id == id then [] else [items[0]];
      RemoveIdQuantity(items[1..], id, x);
      SumAppend(head, RemoveId(items[1..], id), QuantityFor(x));
      if head != [] {
        SumSingle(items[0], QuantityFor(x));
      }
    }
  }

  lemma {:induction false} RemoveIdKeepsIdsUnique(items: seq<CartItem>, id: int)
    requires UniqueIds(items)
    ensures UniqueIds(RemoveId(items, id))
    decreases |items|
  {
    if items != [] {
      var rest := RemoveId(items[1..], id);
      RemoveIdKeepsIdsUnique(items[1..], id);
      if items[0].id != id {
        forall k | 0 <= k < |rest|
          ensures rest[k].id != items[0].id
        {
          assert rest[k] in items[1..];
        }
      }
    }
  }

  /** Changing a line of the removed id first makes no difference to the result. */
  lemma {:induction false} RemoveIdUpdate(items: seq<CartItem>, i: nat, v: CartItem, id: int)
    requires i < |items| && items[i].id == id && v.id == id
    ensures RemoveId(items[i := v], id) == RemoveId(items, id)
    decreases |items|
  {
    if i > 0 {
      assert items[i := v][1..] == items[1..][i - 1 := v];
      RemoveIdUpdate(items[1..], i - 1, v, id);
    } else {
      assert items[i := v][1..] == items[1..];
    }
  }

  /** What `updateQuantity` does to the quantities and to the set of ids. */
  lemma SetQuantityEffect(items: seq<CartItem>, id: int, q: int, x: int)
    ensures FindIndex(items, id).None? ==> SetQuantity(items, id, q) == items
    ensures FindIndex(items, id).Some? && q <= 0 ==>
      forall k :: 0 <= k < |SetQuantity(items, id, q)| ==> SetQuantity(items, id, q)[k].id != id
    ensures UniqueIds(items) && FindIndex(items, id).Some? && q > 0 ==>
      QuantityOf(SetQuantity(items, id, q), id) == q && |SetQuantity(items, id, q)| == |items|
    ensures x != id ==> QuantityOf(SetQuantity(items, id, q), x) == QuantityOf(items, x)
    ensures UniqueIds(items) ==> UniqueIds(SetQuantity(items, id, q))
  {
    var r := SetQuantity(items, id, q);
    match FindIndex(items, id)
    case None =>
    case Some(i) =>
      if Max0(q) == 0 {
        RemoveIdQuantity(items, id, x);
        if UniqueIds(items) {
          RemoveIdKeepsIdsUnique(items, id);
        }
        forall k | 0 <= k < |r|
          ensures r[k].id != id
        {
          assert r[k] in r;
        }
      } else {
        var v := items[i].(quantity := q);
        SumUpdate(items, i, v, QuantityFor(x));
        SumUpdate(items, i, v, QuantityFor(id));
        if UniqueIds(items) {
          QuantityOfUnique(items, i);
          assert forall k :: 0 <= k < |items| ==> r[k].id == items[k].id;
        }
      }
  }

  // ----- Enrichment of persisted rows (loadCart) -----

  /** `/^https?:\/\//i`. */
  predicate IsAbsoluteHttp(img: string) {
    StartsWith(Lower(img), "http://") || StartsWith(Lower(img), "https://")
  }

  /** `img.replace(/^\//, '')`. */
  function StripLeadingSlash(s: string): string {
    if s != [] && s[0] == '/' then s[1..] else s
  }

  /** The image-path normalisation of `loadCart`, branch by branch. */
  function NormalizeImage(base: string, raw: string): string {
    var img := Trim(raw);
    if IsAbsoluteHttp(img) then img
    else if StartsWith(Lower(img), "static/") || StartsWith(Lower(img), "images/") || '/' in img then
      base + "/" + StripLeadingSlash(img)
    else base + "/static/images/" + img
  }

  lemma LowerSlash(s: string, k: nat)
    requires k < |s| && Lower(s)[k] == '/'
    ensures s[k] == '/'
  {
  }

  /** The `static/` and `images/` tests add nothing to the test for a '/'. */
  lemma FolderTestIsSlashTest(img: string)
    ensures (StartsWith(Lower(img), "static/") || StartsWith(Lower(img), "images/") || '/' in img)
      <==> '/' in img
  {
    if StartsWith(Lower(img), "static/") {
      assert Lower(img)[6] == "static/"[6];
      LowerSlash(img, 6);
    }
    if StartsWith(Lower(img), "images/") {
      assert Lower(img)[6] == "images/"[6];
      LowerSlash(img, 6);
    }
  }

  /** The three outcomes of the normalisation. */
  lemma NormalizeImageCases(base: string, raw: string)
    ensures IsAbsoluteHttp(Trim(raw)) ==> NormalizeImage(base, raw) == Trim(raw)
    ensures !IsAbsoluteHttp(Trim(raw)) && '/' in Trim(raw) ==>
      NormalizeImage(base, raw) == base + "/" + StripLeadingSlash(Trim(raw))
    ensures !IsAbsoluteHttp(Trim(raw)) && '/' !in Trim(raw) ==>
      NormalizeImage(base, raw) == base + "/static/images/" + Trim(raw)
  {
    FolderTestIsSlashTest(Trim(raw));
  }

  /** The line shown for a row whose product lookup failed. */
  function DegradedRow(row: CartRow): CartItem {
    CartItem(row.producto_id, "Producto " + IntToString(row.producto_id), 0, row.cantidad, None, None)
  }

  /** The line built from one server row and its lookup result. */
  function EnrichRow(row: CartRow, prod: Option<Product>, base: string): CartItem {
    match prod
    case None => DegradedRow(row)
    case Some(p) =>
      CartItem(
        id := row.producto_id,
        name := p.nombre,
        price := p.precio,
        quantity := row.cantidad,
        image := if Truthy(p.imagen_url) then Some(NormalizeImage(base, p.imagen_url.value)) else None,
        description := p.descripcion)
  }

  /** The `response.items.map(...)` after the lookups have been joined. */
  function Enrich(rows: seq<CartRow>, products: seq<Option<Product>>, base: string): (items: seq<CartItem>)
    requires |products| == |rows|
    ensures |items| == |rows|
    ensures forall i :: 0 <= i < |rows| ==>
      items[i].id == rows[i].producto_id && items[i].quantity == rows[i].cantidad
    ensures forall i :: 0 <= i < |rows| && products[i].None? ==>
      items[i].name == "Producto " + IntToString(rows[i].producto_id) && items[i].price == 0
      && items[i].image.None? && items[i].description.None?
    ensures forall i :: 0 <= i < |rows| && products[i].Some? ==>
      items[i].name == products[i].value.nombre && items[i].price == products[i].value.precio
      && items[i].description == products[i].value.descripcion
    ensures forall i :: 0 <= i < |rows| && products[i].Some? && Truthy(products[i].value.imagen_url) ==>
      items[i].image == Some(NormalizeImage(base, products[i].value.imagen_url.value))
    ensures forall i :: 0 <= i < |rows| && products[i].Some? && !Truthy(products[i].value.imagen_url) ==>
      items[i].image.None?
  {
    seq(|rows|, i requires 0 <= i < |rows| => EnrichRow(rows[i], products[i], base))
  }

  /** The fallback when the join itself fails: every row degraded. */
  function Degrade(rows: seq<CartRow>): seq<CartItem> {
    seq(|rows|, i requires 0 <= i < |rows| => DegradedRow(rows[i]))
  }

  /** A failed join gives exactly what failed lookups for every row would give. */
  lemma DegradeIsAllLookupsFailed(rows: seq<CartRow>, base: string)
    ensures Degrade(rows) == Enrich(rows, seq(|rows|, i => None), base)
  {
  }

  datatype JoinOutcome = Joined(products: seq<Option<Product>>) | JoinFailed

  /** How the GET /api/carrito started by `loadCart` ended. */
  datatype LoadOutcome = LoadFailed | Loaded(rows: seq<CartRow>, join: JoinOutcome)

  /** The join answers one lookup per row. */
  predicate WellFormedLoad(o: LoadOutcome) {
    o.Loaded? && o.join.Joined? ==> |o.join.products| == |o.rows|
  }

  /** The lines `loadCart` installs once its request completes. */
  function LoadedItems(o: LoadOutcome): seq<CartItem>
    requires WellFormedLoad(o)
  {
    match o
    case LoadFailed => []
    case Loaded(rows, join) =>
      if rows == [] then []
      else match join
        case Joined(products) => Enrich(rows, products, ImageBase())
        case JoinFailed => Degrade(rows)
  }

  /** Whatever the lookups do, a load keeps every row, in order, with its id and quantity. */
  lemma LoadedItemsKeepRows(o: LoadOutcome)
    requires WellFormedLoad(o) && o.Loaded?
    ensures |LoadedItems(o)| == |o.rows|
    ensures forall i :: 0 <= i < |o.rows| ==>
      LoadedItems(o)[i].id == o.rows[i].producto_id && LoadedItems(o)[i].quantity == o.rows[i].cantidad
  {
  }

  // ----- The store -----

  /** `saveCart`'s guard: a user whose id is set and not 0. */
  predicate Persistable(u: Option<SessionUser>) {
    u.Some? && u.value.id != 0
  }

  /** The POST that `saveCart` sends for this user and list, if any. */
  function PostFor(u: Option<SessionUser>, items: seq<CartItem>): seq<CartPost> {
    if Persistable(u) then [CartPost(u.value.id, items)] else []
  }

  /** Both snapshots name the same user id. */
  predicate SameUser(before: Option<SessionUser>, after: Option<SessionUser>) {
    before.Some? && after.Some? && before.value.id == after.value.id
  }

  class CartService {
    var items: seq<CartItem>
    var currentUser: Option<SessionUser>
    /** The values held by `cartSubject` and `totalSubject`. */
    var publishedItems: seq<CartItem>
    var publishedTotal: int
    /** Requests sent to the backend, oldest first: POST bodies and GET user ids. */
    var posts: seq<CartPost>
    var loads: seq<int>

    /** The published total is always the total of the published list. */
    ghost predicate Valid()
      reads this
    {
      publishedTotal == Total(publishedItems)
    }

    /** Construction reads the current user, loads that user's cart, then
        subscribes to the session, whose current value is replayed at once. */
    constructor (sessionUser: Option<SessionUser>)
      ensures Valid()
      ensures currentUser == sessionUser && items == [] && posts == []
      ensures publishedItems == [] && publishedTotal == 0
      ensures loads == (if Persistable(sessionUser) then [sessionUser.value.id] else [])
    {
      items := [];
      currentUser := None;
      publishedItems := [];
      publishedTotal := 0;
      posts := [];
      loads := [];
      new;
      currentUser := sessionUser;
      if currentUser.Some? {
        LoadCart();
      }
      OnSessionChange(sessionUser);
    }

    method UpdateCart()
      modifies this`publishedItems, this`publishedTotal
      ensures publishedItems == items && publishedTotal == Total(items)
      ensures Valid()
    {
      publishedItems := items;
      publishedTotal := Total(items);
    }

    method SaveCart()
      modifies this`posts, this`publishedItems, this`publishedTotal
      ensures posts == old(posts) + PostFor(currentUser, items)
      ensures publishedItems == items && publishedTotal == Total(items)
      ensures Valid()
    {
      if Persistable(currentUser) {
        posts := posts + [CartPost(currentUser.value.id, items)];
      }
      UpdateCart();
    }

    method AddToCart(product: CartProduct)
      modifies this
      ensures items == AddItem(old(items), product)
      ensures currentUser == old(currentUser) && loads == old(loads)
      ensures posts == old(posts) + PostFor(currentUser, items)
      ensures publishedItems == items && publishedTotal == Total(items)
      ensures Valid()
    {
      var found := FindIndex(items, product.id);
      match found {
        case Some(i) =>
          items := items[i := items[i].(quantity := items[i].quantity + 1)];
        case None =>
          items := items + [NewLine(product)];
      }
      SaveCart();
    }

    method RemoveFromCart(productId: int)
      modifies this
      ensures items == RemoveId(old(items), productId)
      ensures currentUser == old(currentUser) && loads == old(loads)
      ensures posts == old(posts) + PostFor(currentUser, items)
      ensures publishedItems == items && publishedTotal == Total(items)
      ensures Valid()
    {
      items := RemoveId(items, productId);
      SaveCart();
    }

    method UpdateQuantity(productId: int, quantity: int)
      modifies this
      ensures items == SetQuantity(old(items), productId, quantity)
      ensures FindIndex(old(items), productId).None? ==> unchanged(this)
      ensures FindIndex(old(items), productId).Some? ==>
        posts == old(posts) + PostFor(currentUser, items)
        && publishedItems == items && publishedTotal == Total(items)
      ensures currentUser == old(currentUser) && loads == old(loads)
      ensures old(Valid()) ==> Valid()
    {
      var found := FindIndex(items, productId);
      if found.Some? {
        var i := found.value;
        ghost var before := items;
        items := items[i := items[i].(quantity := Max0(quantity))];
        if items[i].quantity == 0 {
          RemoveIdUpdate(before, i, items[i], productId);
          RemoveFromCart(productId);
        } else {
          SaveCart();
        }
      }
    }

    /** Empties the list and republishes; nothing is sent to the backend. */
    method ClearCart()
      modifies this
      ensures items == [] && publishedItems == [] && publishedTotal == 0
      ensures currentUser == old(currentUser) && posts == old(posts) && loads == old(loads)
      ensures Valid()
    {
      items := [];
      UpdateCart();
    }

    /** `getCartTotal`: Σ price × quantity of the lines; once the snapshot is
        current it agrees with the published total. */
    function GetCartTotal(): (t: int)
      reads this
      ensures t == Total(items)
      ensures Valid() && publishedItems == items ==> t == publishedTotal
    {
      Total(items)
    }

    /** `getItemCount`: Σ quantity, so never below the number of lines while
        every line holds at least one unit. */
    function GetItemCount(): (c: int)
      reads this
      ensures c == ItemCount(items)
      ensures (forall k :: 0 <= k < |items| ==> items[k].quantity >= 1) ==> c >= |items|
    {
      ItemCountAtLeastLines(items);
      ItemCount(items)
    }

    /** `loadCart`: empty the list, then request the user's rows or, for a
        user that is not persisted, publish the empty cart. */
    method LoadCart()
      modifies this`items, this`loads, this`publishedItems, this`publishedTotal
      ensures items == []
      ensures Persistable(currentUser) ==>
        loads == old(loads) + [currentUser.value.id]
        && publishedItems == old(publishedItems) && publishedTotal == old(publishedTotal)
      ensures !Persistable(currentUser) ==>
        loads == old(loads) && publishedItems == [] && publishedTotal == 0
      ensures old(Valid()) ==> Valid()
    {
      items := [];
      if Persistable(currentUser) {
        loads := loads + [currentUser.value.id];
      } else {
        UpdateCart();
      }
    }

    /** The completion of the request `loadCart` sent. The result is installed
        without checking that the user who asked is still the current one. */
    method CompleteLoad(outcome: LoadOutcome)
      requires WellFormedLoad(outcome)
      modifies this`items, this`publishedItems, this`publishedTotal
      ensures items == LoadedItems(outcome)
      ensures publishedItems == items && publishedTotal == Total(items)
      ensures Valid()
    {
      match outcome {
        case LoadFailed =>
          items := [];
        case Loaded(rows, join) =>
          if rows == [] {
            items := [];
          } else {
            match join {
              case Joined(products) =>
                items := Enrich(rows, products, ImageBase());
              case JoinFailed =>
                items := Degrade(rows);
            }
          }
      }
      UpdateCart();
    }

    /** The subscription to the session signal. */
    method OnSessionChange(u: Option<SessionUser>)
      modifies this
      ensures currentUser == u && posts == old(posts)
      ensures u.None? ==>
        items == [] && publishedItems == [] && publishedTotal == 0 && loads == old(loads)
      ensures SameUser(old(currentUser), u) ==>
        items == old(items) && loads == old(loads)
        && publishedItems == old(publishedItems) && publishedTotal == old(publishedTotal)
      ensures u.Some? && !SameUser(old(currentUser), u) ==> items == []
      ensures u.Some? && !SameUser(old(currentUser), u) && Persistable(u) ==>
        loads == old(loads) + [u.value.id]
        && publishedItems == old(publishedItems) && publishedTotal == old(publishedTotal)
      ensures u.Some? && !SameUser(old(currentUser), u) && !Persistable(u) ==>
        loads == old(loads) && publishedItems == [] && publishedTotal == 0
      ensures old(Valid()) ==> Valid()
    {
      var oldUserId := if currentUser.Some? then Some(currentUser.value.id) else None;
      if u.Some? {
        currentUser := u;
        if oldUserId != Some(u.value.id) {
          items := [];
          LoadCart();
        }
      } else {
        currentUser := None;
        items := [];
        UpdateCart();
      }
    }
  }
}
