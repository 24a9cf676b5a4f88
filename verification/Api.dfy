/** Records that cross the HTTP boundary between the Angular client and the
    Flask backend, and the base address both sides derive from the API URL. */
module Api {
  import opened Basics
  import opened Strings

  /** A catalogue product as the backend serialises it (`Producto.to_dict`);
      `precio` is a whole number of currency units in this model. */
  datatype Product = Product(
    id_producto: int,
    nombre: string,
    descripcion: Option<string>,
    precio: int,
    imagen_url: Option<string>)

  /** One persisted cart row, `{producto_id, cantidad}` in GET /api/carrito. */
  datatype CartRow = CartRow(producto_id: int, cantidad: int)

  /** One element of the `items` array posted to /api/carrito, reduced to the
      two keys the server reads; `None` is a missing key. */
  datatype WireItem = WireItem(id: Option<int>, quantity: Option<int>)

  /** `ProductosService.apiUrl`. */
  const ProductApiUrl: string := "http://localhost:5000/api"

  /** `url.replace(/\/api\/?$/, '')`: drop a trailing `/api` or `/api/`. */
  function StripApiSuffix(url: string): (base: string)
    ensures url == base || url == base + "/api" || url == base + "/api/"
    ensures !EndsWith(url, "/api") && !EndsWith(url, "/api/") ==> base == url
    ensures EndsWith(url, "/api") ==> url == base + "/api"
    ensures EndsWith(url, "/api/") ==> url == base + "/api/"
  {
    if EndsWith(url, "/api/") then
      assert url[|url| - 1] == "/api/"[4];
      url[..|url| - 5]
    else if EndsWith(url, "/api") then url[..|url| - 4]
    else url
  }

  /** The server root both the cart and the catalogue use for image paths. */
  function ImageBase(): string {
    StripApiSuffix(ProductApiUrl)
  }

  lemma ImageBaseValue()
    ensures ImageBase() == "http://localhost:5000"
  {
    assert EndsWith(ProductApiUrl, "/api");
    assert !EndsWith(ProductApiUrl, "/api/");
  }
}
