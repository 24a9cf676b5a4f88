/** The catalogue page (`Productos` in src/app/components/productos/productos.ts):
    loading the products, the client-side category filter, the image address
    of a product, and handing a product to the cart store. */
module ProductList {
  import opened Basics
  import opened Strings
  import opened Api
  import opened CartStore

  const ImagesPath: string := "/static/images/"
  const Placeholder: string := "placeholder.svg"
  const LoadError: string := "Error al cargar los productos."
  const Categorias: seq<string> := ["Pasteles", "Cupcakes", "Galletas", "Postres"]

  /** `getImageUrl`: the file under the images folder of the server root, or
      the placeholder when the product has no image. */
  function GetImageUrl(p: Product): (url: string)
    ensures StartsWith(url, ImageBase() + ImagesPath)
    ensures Truthy(p.imagen_url) ==> url[|ImageBase() + ImagesPath|..] == p.imagen_url.value
    ensures !Truthy(p.imagen_url) ==> url[|ImageBase() + ImagesPath|..] == Placeholder
  {
    var prefix := ImageBase() + ImagesPath;
    var url := prefix + (if Truthy(p.imagen_url) then p.imagen_url.value else Placeholder);
    assert url[..|prefix|] == prefix;
    url
  }

  /** The filter callback: the lower-cased name or description contains `term`. */
  predicate Matches(p: Product, term: string) {
    Contains(Lower(p.nombre), term) || Contains(Lower(p.descripcion.GetOr("")), term)
  }

  function MatchesTerm(term: string): Product -> bool {
    (p: Product) => Matches(p, term)
  }

  /** The filter of `filtrarPorCategoria`, with the callback above. */
  function FilterByTerm(ps: seq<Product>, term: string): (r: seq<Product>)
    ensures forall x :: x in r <==> x in ps && Matches(x, term)
    ensures |r| <= |ps|
  {
    Filter(ps, MatchesTerm(term))
  }

  /** The list `filtrarPorCategoria` shows: every product for '' and 'all',
      otherwise the matches among the full list, or among the shown list when
      the full list is empty. */
  function FilteredView(all: seq<Product>, shown: seq<Product>, categoria: string): (r: seq<Product>)
    ensures categoria == "" || categoria == "all" ==> r == all
    ensures categoria != "" && categoria != "all" ==>
      forall x :: x in r <==> x in (if all != [] then all else shown) && Matches(x, Lower(categoria))
  {
    if categoria == "" || categoria == "all" then all
    else FilterByTerm(if all != [] then all else shown, Lower(categoria))
  }

  /** Choosing the same category twice shows the same list as choosing it once. */
  lemma FilteredViewIdempotent(all: seq<Product>, shown: seq<Product>, categoria: string)
    ensures FilteredView(all, FilteredView(all, shown, categoria), categoria) == FilteredView(all, shown, categoria)
  {
    if categoria != "" && categoria != "all" && all == [] {
      FilterIdempotent(shown, MatchesTerm(Lower(categoria)));
    }
  }

  /** The item `addToCart` hands to the cart store. */
  function ToCartProduct(p: Product): (c: CartProduct)
    ensures c.id == p.id_producto && c.name == p.nombre && c.price == p.precio
    ensures c.description == p.descripcion
    ensures c.image == Some(GetImageUrl(p))
  {
    CartProduct(p.id_producto, p.nombre, p.precio, Some(GetImageUrl(p)), p.descripcion)
  }

  /** A non-empty file name without folder and without surrounding blanks. */
  predicate BareName(img: string) {
    img != "" && '/' !in img && !IsSpace(img[0]) && !IsSpace(img[|img| - 1])
  }

  /** A bare file name shows the same address on the catalogue and on a cart
      line rebuilt from the server rows. */
  lemma BareNameImagesAgree(p: Product)
    requires p.imagen_url.Some? && BareName(p.imagen_url.value)
    ensures NormalizeImage(ImageBase(), p.imagen_url.value) == GetImageUrl(p)
  {
    var img := p.imagen_url.value;
    TrimUnchanged(img);
    NormalizeImageCases(ImageBase(), img);
    if IsAbsoluteHttp(img) {
      if StartsWith(Lower(img), "http://") {
        assert Lower(img)[6] == "http://"[6];
      } else {
        assert Lower(img)[6] == "https://"[6];
      }
      LowerSlash(img, 6);
    }
  }

  /** A path with a folder shows a different address on the two pages: the
      catalogue always puts it under the images folder, the cart line rebuilt
      from the server rows does not. */
  lemma FolderPathImagesDiffer(p: Product)
    requires Truthy(p.imagen_url)
    requires '/' in Trim(p.imagen_url.value) && !IsAbsoluteHttp(Trim(p.imagen_url.value))
    ensures NormalizeImage(ImageBase(), p.imagen_url.value) != GetImageUrl(p)
  {
    var img := p.imagen_url.value;
    NormalizeImageCases(ImageBase(), img);
    assert |Trim(img)| <= |img|;
    assert |StripLeadingSlash(Trim(img))| <= |Trim(img)|;
    assert |NormalizeImage(ImageBase(), img)| < |GetImageUrl(p)|;
  }

  /** A product added from the catalogue and the line rebuilt from its server
      row agree on everything but the quantity and the image; the image agrees
      only for a bare file name, and a product without image gets the
      placeholder on one side and no image on the other. */
  lemma ReloadedLine(p: Product, q: int)
    ensures EnrichRow(CartRow(p.id_producto, q), Some(p), ImageBase()).(image := None)
      == NewLine(ToCartProduct(p)).(quantity := q, image := None)
    ensures !Truthy(p.imagen_url) ==>
      EnrichRow(CartRow(p.id_producto, q), Some(p), ImageBase()).image.None?
      && NewLine(ToCartProduct(p)).image.Some?
    ensures p.imagen_url.Some? && BareName(p.imagen_url.value) ==>
      EnrichRow(CartRow(p.id_producto, q), Some(p), ImageBase()).image == NewLine(ToCartProduct(p)).image
  {
    if p.imagen_url.Some? && BareName(p.imagen_url.value) {
      BareNameImagesAgree(p);
    }
  }

  class Productos {
    var productos: seq<Product>
    var productosAll: seq<Product>
    var categoriaSeleccionada: string
    var cargando: bool
    var error: string
    const cartService: CartService

    constructor (cartService: CartService)
      ensures this.cartService == cartService
      ensures productos == [] && productosAll == [] && categoriaSeleccionada == ""
      ensures !cargando && error == ""
    {
      productos := [];
      productosAll := [];
      categoriaSeleccionada := "";
      cargando := false;
      error := "";
      this.cartService := cartService;
    }

    /** `cargarProductos`: the request is sent; its reply arrives later. */
    method CargarProductos()
      modifies this`cargando, this`error
      ensures cargando && error == ""
    {
      cargando := true;
      error := "";
    }

    /** The `next` handler: both lists hold the catalogue. */
    method OnProductsLoaded(data: seq<Product>)
      modifies this`productos, this`productosAll, this`cargando
      ensures productos == data && productosAll == data && !cargando
    {
      productos := data;
      productosAll := data;
      cargando := false;
    }

    /** The `error` handler: the lists keep what they held. */
    method OnProductsFailed()
      modifies this`error, this`cargando
      ensures error == LoadError && !cargando
    {
      error := LoadError;
      cargando := false;
    }

    /** `filtrarPorCategoria`. */
    method FiltrarPorCategoria(categoria: string)
      modifies this`productos, this`categoriaSeleccionada
      ensures categoriaSeleccionada == categoria
      ensures productos == FilteredView(productosAll, old(productos), categoria)
    {
      categoriaSeleccionada := categoria;
      if categoria == "" || categoria == "all" {
        productos := if |productosAll| > 0 then productosAll else [];
        return;
      }
      var term := Lower(categoria);
      productos := FilterByTerm(if |productosAll| > 0 then productosAll else productos, term);
    }

    /** `addToCart`: map the product to a cart item and add it to the store. */
    method AddToCart(p: Product)
      modifies cartService
      ensures cartService.items == AddItem(old(cartService.items), ToCartProduct(p))
      ensures cartService.currentUser == old(cartService.currentUser)
      ensures cartService.posts == old(cartService.posts) + PostFor(cartService.currentUser, cartService.items)
      ensures cartService.publishedItems == cartService.items && cartService.Valid()
    {
      cartService.AddToCart(ToCartProduct(p));
    }
  }

  /** Filtering twice by the same category through the page leaves the list
      shown after the first filter. */
  method FilterTwice(page: Productos, categoria: string) returns (first: seq<Product>, second: seq<Product>)
    modifies page`productos, page`categoriaSeleccionada
    ensures first == second && page.productos == first
    ensures page.categoriaSeleccionada == categoria
  {
    page.FiltrarPorCategoria(categoria);
    first := page.productos;
    page.FiltrarPorCategoria(categoria);
    second := page.productos;
    FilteredViewIdempotent(page.productosAll, old(page.productos), categoria);
  }
}
