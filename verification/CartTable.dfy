/** The per-user cart table behind GET, POST and DELETE /api/carrito
    (backend/routes/carrito.py). The query has no ORDER BY, so a user's rows
    are a multiset and GET may list them in any order. */
module CartTable {
  import opened Basics
  import opened Api

  /** `request.json.get('usuario_id')` is truthy: present and not 0. */
  predicate JsonTruthy(usuarioId: Option<int>) {
    usuarioId.Some? && usuarioId.value != 0
  }

  /** The rows a POST inserts, in request order; `None` when some item lacks
      `'id'` or `'quantity'` (the `KeyError` that triggers the rollback). */
  function StoredRows(items: seq<WireItem>): (r: Option<seq<CartRow>>)
    ensures r.Some? <==> forall i :: 0 <= i < |items| ==> items[i].id.Some? && items[i].quantity.Some?
    ensures r.Some? ==> |r.value| == |items|
    ensures r.Some? ==> forall i :: 0 <= i < |items| ==>
      r.value[i] == CartRow(items[i].id.value, items[i].quantity.value)
    decreases |items|
  {
    if items == [] then Some([])
    else
      var last := items[|items| - 1];
      match StoredRows(items[..|items| - 1])
      case None => None
      case Some(rs) =>
        if last.id.Some? && last.quantity.Some? then
          Some(rs + [CartRow(last.id.value, last.quantity.value)])
        else None
  }

  class CartTable {
    /** `carrito_items`, grouped by `usuario_id`. */
    var rows: map<int, multiset<CartRow>>

    function RowsOf(uid: int): multiset<CartRow>
      reads this
    {
      if uid in rows then rows[uid] else multiset{}
    }

    constructor ()
      ensures rows == map[]
    {
      rows := map[];
    }

    /** `CarritoItem.query.filter_by(usuario_id=uid).all()`: every row of the
        user exactly once, in an order the database chooses. */
    method Query(uid: int) returns (result: seq<CartRow>)
      ensures multiset(result) == RowsOf(uid)
    {
      var remaining := RowsOf(uid);
      result := [];
      while remaining != multiset{}
        invariant multiset(result) + remaining == RowsOf(uid)
        decreases |remaining|
      {
        var r :| r in remaining;
        result := result + [r];
        remaining := remaining - multiset{r};
      }
    }

    /** GET /api/carrito. `usuarioId` is the query argument; `None` stands for
        a missing or empty one. The string "0" is truthy, so id 0 is served. */
    method ObtenerCarrito(usuarioId: Option<int>) returns (status: int, items: seq<CartRow>)
      ensures usuarioId.None? ==> status == 401 && items == []
      ensures usuarioId.Some? ==> status == 200 && multiset(items) == RowsOf(usuarioId.value)
    {
      if usuarioId.None? {
        return 401, [];
      }
      items := Query(usuarioId.value);
      status := 200;
    }

    /** POST /api/carrito: replace the user's rows with the posted items,
        staging the inserts and committing once, or rolling back on a missing key. */
    method ActualizarCarrito(usuarioId: Option<int>, items: seq<WireItem>) returns (status: int)
      modifies this
      ensures !JsonTruthy(usuarioId) ==> status == 401 && rows == old(rows)
      ensures JsonTruthy(usuarioId) && StoredRows(items).None? ==> status == 500 && rows == old(rows)
      ensures JsonTruthy(usuarioId) && StoredRows(items).Some? ==>
        status == 200 && rows == old(rows)[usuarioId.value := multiset(StoredRows(items).value)]
    {
      if !JsonTruthy(usuarioId) {
        return 401;
      }
      var uid := usuarioId.value;
      var staged: seq<CartRow> := [];
      var i := 0;
      while i < |items|
        invariant 0 <= i <= |items|
        invariant |staged| == i
        invariant forall k :: 0 <= k < i ==>
          items[k].id.Some? && items[k].quantity.Some?
          && staged[k] == CartRow(items[k].id.value, items[k].quantity.value)
      {
        var item := items[i];
        if item.id.None? || item.quantity.None? {
          return 500;
        }
        staged := staged + [CartRow(item.id.value, item.quantity.value)];
        i := i + 1;
      }
      assert staged == StoredRows(items).value;
      rows := rows[uid := multiset(staged)];
      status := 200;
    }

    /** DELETE /api/carrito: drop every row of the user. */
    method LimpiarCarrito(usuarioId: Option<int>) returns (status: int)
      modifies this
      ensures usuarioId.None? ==> status == 401 && rows == old(rows)
      ensures usuarioId.Some? ==> status == 200 && rows == old(rows) - {usuarioId.value}
    {
      if usuarioId.None? {
        return 401;
      }
      rows := rows - {usuarioId.value};
      status := 200;
    }
  }

  /** A successful POST is read back by GET as the same rows, up to order. */
  method PostThenGet(table: CartTable, uid: int, items: seq<WireItem>)
    returns (status: int, got: seq<CartRow>)
    requires uid != 0 && StoredRows(items).Some?
    modifies table
    ensures status == 200
    ensures multiset(got) == multiset(StoredRows(items).value)
  {
    var s := table.ActualizarCarrito(Some(uid), items);
    status, got := table.ObtenerCarrito(Some(uid));
  }

  /** After DELETE, GET lists no rows for that user. */
  method DeleteThenGet(table: CartTable, uid: int) returns (got: seq<CartRow>)
    modifies table
    ensures got == []
  {
    var s := table.LimpiarCarrito(Some(uid));
    var status;
    status, got := table.ObtenerCarrito(Some(uid));
  }
}
