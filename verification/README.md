# Pasteles: the cart, the accounts and the checkout, in Dafny

This project models the core of the "pasteles" bakery shop. The shop is an Angular
client with a Flask backend. The model covers:

- **The client cart store** (`CartService`). It holds the cart lines and the
  session user. It covers:
  - the four mutators: add, remove, set quantity and clear;
  - the published snapshot (list and total);
  - the total and the item count;
  - the guard that decides when the cart is posted to the server;
  - the reaction to a session change;
  - the rebuilding of cart lines from persisted `(producto_id, cantidad)` rows, including the degraded line for a failed product lookup and the image-path normalisation.
- **The per-user cart table** behind GET, POST and DELETE `/api/carrito`. It is a
  map from user id to a multiset of rows, because the query has no ORDER BY. POST
  stages its inserts in a loop and commits once, or rolls back.
- **The client session signal** (`AuthService`): login, with its temporary user whose
  id is the sum of the e-mail's character codes, and logout.
- **The account rules of `app.py`**:
  - the token checks of `User`, with their expiry;
  - registration;
  - e-mail verification;
  - the two login handlers, with the lockout chain of `login`;
  - the password-reset request and its completion;
  - the validation of new products and orders.

  Hashing is a pair of given functions, and time is an integer clock in seconds.
- **The `usuarios` blueprint**: registration with its required-field loop, and the
  stored, single-use reset token.
- **The MercadoPago checkout**: the preference built from the cart rows, and the
  webhook that clears a cart once a payment is approved. The SDK calls are function
  parameters.
- **The rules inside three pages**:
  - the custom-cake wizard: its step machine, extras, preview and submit guard;
  - the catalogue: category filter, image address and hand-off to the cart;
  - the profile: display name, initials, role and counters.

`EndToEnd` puts the pieces together. It shows that:

- a saved cart comes back from the server with the same (product, quantity) pairs,
  up to order;
- a cleared cart comes back whole, because clearing never reaches the server;
- the two login handlers lead the client to different users;
- every order the wizard lets through is accepted by the server.

Prices and quantities are integers. Case mapping and whitespace are ASCII. Modules:

- `Basics`, `Strings`, `Api`: shared helpers;
- `AuthSession`: `src/app/services/auth.service.ts`;
- `CartStore`: `src/app/services/cart.service.ts`;
- `CartTable`: `backend/routes/carrito.py`;
- `AppServer`: `app.py`;
- `UsuarioRoutes`: `routes/usuarios.py`;
- `Payments`: `backend/routes/pagos.py`;
- `OrderWizard`: `src/app/components/pedidos/pedidos.ts`;
- `ProductList`: `src/app/components/productos/productos.ts`;
- `Profile`: `src/app/components/usuarios/usuarios.ts`;
- `EndToEnd`: the properties that span several files.

## Model

| member | source | states |
|---|---|---|
| Api.StripApiSuffix | src/app/services/cart.service.ts:166 | the base is the URL without one trailing `/api` or `/api/`; any other URL is kept as it is |
| Api.ImageBaseValue | src/app/services/productos.service.ts:18 | the server root derived from the API URL is `http://localhost:5000` |
| Strings.ParseIntOfIntToString | backend/routes/pagos.py:68 | `int(str(n)) == n` for every integer, negative ones included |
| AuthSession.CharCodeSumSwap | src/app/services/auth.service.ts:54 | the temporary id ignores character order: swapping two adjacent characters keeps it |
| AuthSession.MapLoginReply | src/app/services/auth.service.ts:49-62 | a reply with `user` gives exactly that user; otherwise the id is the character-code sum, the e-mail is kept, the role is `user`, `email_verified` is false, and `first_name` is the text before the first '@' (all of it when there is none) |
| AuthSession.AuthService.constructor | src/app/services/auth.service.ts:36 | the session starts from the stored user |
| AuthSession.AuthService.Login | src/app/services/auth.service.ts:46-68 | the published user is the mapped reply; afterwards `getCurrentUser` returns it and `isLoggedIn` holds |
| AuthSession.AuthService.Logout | src/app/services/auth.service.ts:84-91 | afterwards `getCurrentUser` is null and `isLoggedIn` is false |
| CartStore.FindIndex | src/app/services/cart.service.ts:92 | the index of the first line with the id, or none when no line has it |
| CartStore.CartService.constructor | src/app/services/cart.service.ts:31-66 | starts empty with the session user; loads that user's cart exactly when the id is set and not 0; the published total matches the published list |
| CartStore.CartService.UpdateCart | src/app/services/cart.service.ts:85-89 | publishes the list and Σ price × quantity of it |
| CartStore.CartService.SaveCart | src/app/services/cart.service.ts:70-83 | posts `{usuario_id, items}` only for a user whose id is set and not 0, and always republishes |
| CartStore.CartService.AddToCart | src/app/services/cart.service.ts:91-101 | the list becomes `AddItem` of the old list; posted when persistable; republished |
| CartStore.AddItemQuantity | src/app/services/cart.service.ts:91-101 | adding raises that id's quantity by 1 and the item count by 1; every other id keeps its quantity and every line with another id is unchanged; the length grows only when the id was absent |
| CartStore.AddItemTotal | src/app/services/cart.service.ts:91-101 | adding raises the total by the unit price of the line the product lands on |
| CartStore.AddItemKeepsIdsUnique | src/app/services/cart.service.ts:91-101 | adding keeps ids distinct |
| CartStore.AddAllCounts | src/app/services/cart.service.ts:91-101 | after any run of additions, ids stay distinct and each id's quantity grows by the number of times it was added |
| CartStore.RemoveId | src/app/services/cart.service.ts:104 | the lines kept are exactly the lines whose id differs |
| CartStore.RemoveIdAbsent | src/app/services/cart.service.ts:104 | removing an absent id changes nothing |
| CartStore.RemoveIdAppend | src/app/services/cart.service.ts:104 | removal distributes over concatenation, so the remaining lines keep their relative order |
| CartStore.RemoveIdQuantity | src/app/services/cart.service.ts:104 | the removed id's quantity drops to 0 and every other id's quantity is kept |
| CartStore.RemoveIdKeepsIdsUnique | src/app/services/cart.service.ts:104 | removal keeps ids distinct |
| CartStore.CartService.RemoveFromCart | src/app/services/cart.service.ts:103-106 | the list becomes `RemoveId` of the old list; posted when persistable; republished |
| CartStore.SetQuantityEffect | src/app/services/cart.service.ts:108-118 | an absent id changes nothing; a quantity ≤ 0 removes the id; a positive quantity becomes that id's quantity and keeps the length; other ids keep their quantities; ids stay distinct |
| CartStore.CartService.UpdateQuantity | src/app/services/cart.service.ts:108-118 | the list becomes `SetQuantity` of the old list; an absent id leaves the whole store unchanged (no post, no publish); otherwise posted when persistable and republished |
| CartStore.CartService.ClearCart | src/app/services/cart.service.ts:120-130 | empties the list and publishes an empty list with total 0, and sends nothing to the server |
| CartStore.CartService.GetCartTotal | src/app/services/cart.service.ts:136-138 | the Σ price × quantity of the lines (`Total`), which equals the published total once the snapshot is current |
| CartStore.CartService.GetItemCount | src/app/services/cart.service.ts:140-142 | the Σ quantity of the lines (`ItemCount`), at least the number of lines when every line holds at least one unit |
| CartStore.ItemCountAtLeastLines | src/app/services/cart.service.ts:140-142 | Σ quantity ≥ number of lines when every quantity is ≥ 1 |
| CartStore.FolderTestIsSlashTest | src/app/services/cart.service.ts:175 | the `static/` and `images/` tests are subsumed by the test for a '/' |
| CartStore.NormalizeImageCases | src/app/services/cart.service.ts:166-182 | a trimmed http(s) URL is kept; a path with a '/' becomes base + '/' + the path without one leading '/'; a bare name becomes base + '/static/images/' + name |
| CartStore.Enrich | src/app/services/cart.service.ts:167-192 | one line per row, in row order, keeping id and quantity; a failed lookup gives `Producto <id>`, price 0, no image and no description; a found product gives its name, price and description, and its image normalised by `NormalizeImage` when `imagen_url` is truthy, no image otherwise |
| CartStore.DegradeIsAllLookupsFailed | src/app/services/cart.service.ts:194-203 | a failed join degrades every row exactly as failed lookups for every row would |
| CartStore.LoadedItemsKeepRows | src/app/services/cart.service.ts:152-207 | whatever the lookups return, a load keeps every row in order, with its id and quantity |
| CartStore.CartService.LoadCart | src/app/services/cart.service.ts:145-218 | empties the list; a persistable user gets a GET for that id and nothing is republished; any other user gets the empty cart published |
| CartStore.CartService.CompleteLoad | src/app/services/cart.service.ts:152-213 | installs the lines rebuilt from the reply (none on error or on an empty reply) and publishes them, with no check of which user is current |
| CartStore.CartService.OnSessionChange | src/app/services/cart.service.ts:43-65 | null empties the list and publishes the empty cart; the same id leaves the list and the snapshot alone; a different id empties the list and reloads, and for a persistable id the old snapshot stays published until the load completes |
| CartTable.StoredRows | backend/routes/carrito.py:45-51 | the rows a POST inserts, one per item and in order, exist exactly when every item has both `id` and `quantity` |
| CartTable.CartTable.Query | backend/routes/carrito.py:16 | lists each of the user's rows exactly once, in some order |
| CartTable.CartTable.ObtenerCarrito | backend/routes/carrito.py:8-28 | a missing `usuario_id` gives 401 and no rows; otherwise 200 and exactly the user's rows, as a multiset |
| CartTable.CartTable.ActualizarCarrito | backend/routes/carrito.py:31-57 | a falsy `usuario_id` gives 401; an item without a key gives 500 and the rollback keeps every row; otherwise 200, that user's rows are replaced by the posted pairs, and no other user's rows change |
| CartTable.CartTable.LimpiarCarrito | backend/routes/carrito.py:60-70 | a missing `usuario_id` gives 401 and no change; otherwise 200, and only that user's rows are gone |
| CartTable.PostThenGet | backend/routes/carrito.py:16-57 | a successful POST is read back by GET as the same pairs, up to order |
| CartTable.DeleteThenGet | backend/routes/carrito.py:16-68 | after DELETE, GET lists no rows for that user |
| AppServer.CheckEmailVerificationToken | app.py:98-101 | accepted only if the stored hash is the token's hash, and always accepted then (for a non-empty hash) |
| AppServer.CheckPasswordResetToken | app.py:107-112 | accepted only with a stored hash equal to the token's hash and `now` not past the expiry, and always accepted then |
| AppServer.ResetTokenWindow | app.py:103-112 | a freshly set reset token is accepted exactly until one hour later, that instant included |
| AppServer.NormalizeEmailIdempotent | app.py:170 | trimming and lower-casing an already normalised address changes nothing |
| AppServer.LoginChecks | app.py:221-249 | 200 iff the password matches, the account is active, not locked and under 5 failures; every other outcome is 401; success resets the counter and stamps the login; a fifth failure with the right password locks for 15 minutes; the counter is never raised |
| AppServer.LoginUserChecks | app.py:329-343 | 200 iff the password matches; a wrong password raises the counter by 1; the lock is ignored and kept |
| AppServer.LoginLockoutIsPermanent | app.py:222-240 | once the counter is at 5 or more, no sequence of `login` attempts lowers it and every later attempt is refused |
| AppServer.LockHolds | app.py:228-235 | a lock set at `now` refuses every `login` for the next 15 minutes, with any password |
| AppServer.NewUserUsable | app.py:180-186 | a new account logs in with its password, accepts its verification token and starts unverified |
| AppServer.AgregarProducto | app.py:143-164 | 201 iff `nombre` is truthy and `precio` is present and not 0, with the new row; otherwise 400 and no row |
| AppServer.CrearPedido | app.py:346-377 | 201 iff `nombre`, `email` and `producto` are truthy; the row then has the new id, those three values and `nota` as sent, `cantidad` as sent when truthy and 1 otherwise, and the parsed date (none when absent or unparsable); otherwise 400 and no row |
| AppServer.AccountStore.RegisterUser | app.py:167-191 | an empty normalised e-mail or missing password gives 400; a registered address gives 400; otherwise 201 with the new account appended; distinct addresses stay distinct |
| AppServer.AccountStore.VerifyEmail | app.py:193-210 | 400 for a missing token or address, 404 for an unknown address, 400 for a wrong token; on 200 the account is verified and no token is accepted again |
| AppServer.AccountStore.Login | app.py:212-249 | 400 for a missing field, 401 for an unknown address, else the outcome of `LoginChecks` written back to that account only |
| AppServer.AccountStore.LoginUser | app.py:321-343 | 400 for a missing field, 401 for an unknown address, else the outcome of `LoginUserChecks` written back to that account only |
| AppServer.AccountStore.RequestPasswordReset | app.py:251-274 | 400 for an empty address; an unknown address gets 200, no token and no change; a known one gets 200, the token and a one-hour reset hash |
| AppServer.AccountStore.CompletePasswordReset | app.py:277-301 | 400 for a missing field, 404 for an unknown address, 400 for a refused token; on 200 the new password works and no reset token is accepted again |
| UsuarioRoutes.ResetUrl | routes/usuarios.py:83 | the link is the reset page address with the token as its whole query value |
| UsuarioRoutes.FindMissingField | routes/usuarios.py:29-32 | none iff all of email, password and first_name are present; otherwise the first missing one in that order |
| UsuarioRoutes.FindResetToken | routes/usuarios.py:103 | the row holding the token, or none when no row holds it |
| UsuarioRoutes.UsuarioTable.Register | routes/usuarios.py:24-60 | 400 with the first missing field; 400 and no change for a known e-mail; otherwise 201 with a row of role `user`, unverified, `last_name` defaulting to '' |
| UsuarioRoutes.UsuarioTable.SolicitarReset | routes/usuarios.py:62-95 | 400 without an e-mail; 200 and no change for an unknown one; a token already held elsewhere fails with 500 and no change; otherwise the token is stored with expiry now + 1 hour and the returned link embeds it; reset tokens stay unique |
| UsuarioRoutes.UsuarioTable.ResetPassword | routes/usuarios.py:97-120 | 400 for a missing field, an unknown token, a missing expiry or an expiry strictly before now; on 200 the password is replaced, the token and expiry cleared, and the token no longer found |
| Payments.BackUrlsFor | backend/routes/pagos.py:50-59 | the redirects are base + `/cart?status=success`, `…failure` and `…pending`, base defaulting to `http://localhost:4200`, and they are pairwise different |
| Payments.ItemOf | backend/routes/pagos.py:39-46 | the item of a row whose product exists: the product's name as title and price as unit price, the row's quantity, currency MXN |
| Payments.ItemsFor | backend/routes/pagos.py:37-46 | the k-th item is `ItemOf` the k-th row whose product exists (the rows `Filter` keeps with `HasProduct`), so rows keep their order and rows without a product are skipped; every row yields an item when every product exists, none when none exists |
| Payments.PreferenceItems | backend/routes/pagos.py:37-46 | the loop builds exactly `ItemsFor` of the rows |
| Payments.CrearPreferencia | backend/routes/pagos.py:18-100 | 401 without a truthy `usuario_id`; 400 for an empty cart; the SDK receives the items, the back URLs and `str(usuario_id)`; a reply lacking `id` or `init_point` gives 500; otherwise 200 with both, whether or not the row could be stored |
| Payments.ClearOnlyWhenApproved | backend/routes/pagos.py:107-115 | a cart is cleared only for a `payment` event whose fetch returned 200 and status `approved` |
| Payments.ExternalReferenceRoundTrip | backend/routes/pagos.py:68-120 | the reference sent with the preference is read back by the webhook as the same user |
| Payments.WebhookMercadopago | backend/routes/pagos.py:103-125 | an exception gives 500 and no change; an ignored event gives 200 and no change; an approved payment removes exactly that user's rows |
| OrderWizard.PriceOfKey | src/app/components/pedidos/pedidos.ts:99-100 | the price of the option with that key, 0 for an unknown key |
| OrderWizard.RemoveKey | src/app/components/pedidos/pedidos.ts:91 | the keys kept are exactly those different from the key |
| OrderWizard.SumPricesRemoveKey | src/app/components/pedidos/pedidos.ts:91-104 | for any price table, removing every occurrence of a key lowers the sum by the key's price times its count |
| OrderWizard.ExtrasAppend | src/app/components/pedidos/pedidos.ts:89 | checking an element adds its price once more |
| OrderWizard.ExtrasRemoveKey | src/app/components/pedidos/pedidos.ts:91 | unchecking takes its price away once per occurrence |
| OrderWizard.DecorationEmoji | src/app/components/pedidos/pedidos.ts:117-118 | the emoji of the decoration with that price, sparkles when none has it |
| OrderWizard.Pedidos.constructor | src/app/components/pedidos/pedidos.ts:15-48 | the wizard starts at step 1 with the default preview and nothing sent |
| OrderWizard.Pedidos.StepTitle | src/app/components/pedidos/pedidos.ts:72-76 | each title shows exactly on its step, and every step other than 1 and 2 shows the third |
| OrderWizard.Pedidos.NextStep | src/app/components/pedidos/pedidos.ts:78-80 | advances only below 3, so the step stays within 1..3 |
| OrderWizard.Pedidos.PrevStep | src/app/components/pedidos/pedidos.ts:82-84 | goes back only above 1, so the step stays within 1..3 |
| OrderWizard.Pedidos.CalculateExtras | src/app/components/pedidos/pedidos.ts:96-104 | returns and stores the sum of the prices of the selected keys, duplicates counted, unknown keys 0 |
| OrderWizard.Pedidos.UpdatePreview | src/app/components/pedidos/pedidos.ts:113-120 | the flavour emoji (cake by default), the decoration emoji and the description built from them |
| OrderWizard.Pedidos.OnElementChange | src/app/components/pedidos/pedidos.ts:86-94 | checking appends the key and raises the extras by its price; unchecking removes every copy and lowers the extras by count × price |
| OrderWizard.Pedidos.OnSubmit | src/app/components/pedidos/pedidos.ts:129-147 | an empty name or address sets the message and sends nothing; otherwise one order for one cake is sent |
| OrderWizard.Pedidos.OnSubmitSuccess | src/app/components/pedidos/pedidos.ts:148-154 | reports the id (or N/A) and clears name and address |
| OrderWizard.Pedidos.OnSubmitError | src/app/components/pedidos/pedidos.ts:155-159 | sets the error message and keeps the form |
| ProductList.GetImageUrl | src/app/components/productos/productos.ts:41-48 | base + `/static/images/` + the image name, or + `placeholder.svg` when there is none |
| ProductList.FilterByTerm | src/app/components/productos/productos.ts:62-66 | a product is kept iff it is in the list and its name or description contains the term |
| Basics.Filter | src/app/components/productos/productos.ts:62-66 | `filter` with any callback: a product is kept iff it is in the list and the callback accepts it, and the result is no longer than the list |
| Basics.FilterAppend | src/app/components/productos/productos.ts:62-66 | for any callback, filtering distributes over concatenation, so the kept products keep their order |
| Basics.FilterIdempotent | src/app/components/productos/productos.ts:62-66 | for any callback, filtering a filtered list changes nothing |
| ProductList.FilteredView | src/app/components/productos/productos.ts:53-66 | '' and 'all' show the full list; any other category shows the matches of the full list, or of the shown one when the full list is empty |
| ProductList.FilteredViewIdempotent | src/app/components/productos/productos.ts:53-66 | choosing a category twice shows the same list as choosing it once |
| ProductList.ToCartProduct | src/app/components/productos/productos.ts:91-97 | id, name, price and description come from the product, and the image from `getImageUrl` |
| ProductList.BareNameImagesAgree | src/app/components/productos/productos.ts:44 | a bare file name gets the same address on the catalogue and on a reloaded cart line |
| ProductList.FolderPathImagesDiffer | src/app/services/cart.service.ts:175-177 | a path with a folder gets different addresses on the catalogue and on a reloaded cart line |
| ProductList.ReloadedLine | src/app/services/cart.service.ts:184-191 | a line added from the catalogue and the line rebuilt from its row agree except in quantity and image |
| ProductList.Productos.CargarProductos | src/app/components/productos/productos.ts:31-34 | sets the loading flag and clears the error |
| ProductList.Productos.OnProductsLoaded | src/app/components/productos/productos.ts:35 | both lists hold the catalogue and loading ends |
| ProductList.Productos.OnProductsFailed | src/app/components/productos/productos.ts:36 | the error message is set and loading ends |
| ProductList.Productos.FiltrarPorCategoria | src/app/components/productos/productos.ts:50-67 | the selected category is the argument and the list shown is `FilteredView` |
| ProductList.Productos.AddToCart | src/app/components/productos/productos.ts:89-101 | the cart store receives the mapped product |
| ProductList.FilterTwice | src/app/components/productos/productos.ts:50-67 | filtering twice by the same category through the page shows the same list |
| Profile.DisplayName | src/app/components/usuarios/usuarios.ts:57 | the first name when set, else the e-mail; empty only when both are |
| Profile.Heads | src/app/components/usuarios/usuarios.ts:62 | at most one character per segment |
| Profile.Initials | src/app/components/usuarios/usuarios.ts:60-63 | at most two characters, the first the upper-cased first character of the name |
| Profile.InitialsOfOneWord | src/app/components/usuarios/usuarios.ts:60-63 | a name without a space gives the single upper-cased first character |
| Profile.InitialsOfTwoWords | src/app/components/usuarios/usuarios.ts:60-63 | two words give the upper-cased first character of each |
| Profile.InitialsWithEmptySegment | src/app/components/usuarios/usuarios.ts:60-63 | a doubled space makes the second segment empty, which contributes nothing |
| Profile.SpentOf | src/app/components/usuarios/usuarios.ts:99 | the sum of the prices, non-negative when every price is |
| Profile.CustomerCounters | src/app/components/usuarios/usuarios.ts:27-31 | a customer sees three orders and 118 spent |
| Profile.Usuarios.constructor | src/app/components/usuarios/usuarios.ts:14-25 | the dashboard tab with empty fields and zero counters |
| Profile.Usuarios.LoadUserData | src/app/components/usuarios/usuarios.ts:89-103 | an administrator gets 0 orders and 0 spent; a customer the count and the sum of the recent orders |
| Profile.Usuarios.OnSessionChange | src/app/components/usuarios/usuarios.ts:54-86 | null resets every field to '' or 0 and clears `isAdmin`; a user sets the address and name; initials are recomputed only for a non-empty name; `isAdmin` iff the role is `admin` |
| Profile.Usuarios.ShowTab | src/app/components/usuarios/usuarios.ts:105-110 | the tab shown is the argument |
| EndToEnd.PostedLinesAreStored | backend/routes/carrito.py:45-51 | every line the client posts carries `id` and `quantity`, so the server stores exactly the client's pairs |
| EndToEnd.LoadedPairs | src/app/services/cart.service.ts:184-186 | a reload keeps each row's pair, whatever the lookups return |
| EndToEnd.SaveToTable | src/app/services/cart.service.ts:70-83 | after a save and its POST the table holds exactly the store's pairs for that user, and the store's lines are unchanged |
| EndToEnd.ReloadFromTable | src/app/services/cart.service.ts:145-218 | after a load and its GET the store holds exactly the table's pairs for that user, up to order, and nothing is posted |
| EndToEnd.SaveThenReload | src/app/services/cart.service.ts:70-83 | save, POST, reload and GET leave the store with its own pairs, up to order, and the table holds exactly those pairs |
| EndToEnd.ClearThenReload | src/app/services/cart.service.ts:120-130 | when the server held the cart, clearing and reloading brings back every pair, and nothing is posted |
| EndToEnd.GuestAddsTwice | src/app/services/cart.service.ts:91-101 | a guest who adds one product twice has one line of quantity 2 and twice its price as total, and nothing is posted |
| EndToEnd.LoginReplyGivesTemporaryUser | app.py:242-249 | after `login` the client keeps the temporary user: the id is the character-code sum and an administrator loses the role |
| EndToEnd.LoginUserReplyKeepsAccount | app.py:343 | after `login_user` the client keeps the account's id and role, read as unverified |
| EndToEnd.WizardOrderAccepted | app.py:356-377 | an order the wizard sends is accepted iff name and address are non-empty, for one cake, with the wizard's product text |

## Left out

- HTTP, rxjs and concurrency are not modelled:
  - subscriptions, `BehaviorSubject` plumbing and the `forkJoin` fan-out;
  - a request is recorded in `posts` or `loads`;
  - its completion is a separate call (`CompleteLoad`), with the joined lookups given as a sequence of options;
  - interleavings of several in-flight loads are not explored.
- Nothing stored in `localStorage` is modelled: the stored user, and the key removals in the cart store and the session service. The AuthService constructor takes the stored user as a parameter.
- Browser-side effects are left out:
  - `alert`, `console` logging and `event.preventDefault`;
  - redirects;
  - the image `catch` branch of `getImageUrl`, which cannot be reached with a constant API URL.
- Some client operations are not modelled:
  - `getCartItems` (a copy of the list);
  - `buscarProductos` and `onImgError`;
  - `scrollToSection`, `saveProfile`, `saveSettings` and the profile's static lists;
  - the component lifecycle hooks.
- The client-side wrappers of the auth endpoints (register, verifyEmail and the two reset calls) are not modelled. They only forward a request.
- Floating point is left out:
  - `customPrice` and `updateCustomPrice` (size multiplier and rounding);
  - the profile's `rating` and `points`;
  - the cart page's tax display;
  - a fractional or NaN quantity reaching `updateQuantity`;
  - prices and quantities are integers throughout.
- The clock and locale are left out: `vipSince` and `setMinDate`. The server clock is an integer parameter, in seconds.
- Unicode case mapping and whitespace are ASCII only.
- `AuthSession.CharCodeSum` sums whole characters. `charCodeAt(0)` (src/app/services/auth.service.ts:54) reads one UTF-16 unit, so for a character outside the Basic Multilingual Plane the code adds only its high surrogate and gets a different temporary id.
- `Profile.FirstChar` takes a whole character. `p[0]` (src/app/components/usuarios/usuarios.ts:62) is one UTF-16 unit, so a segment that starts outside the Basic Multilingual Plane gives half a surrogate pair in the code.
- `Strings.IsSpace` is one whitespace set for both languages. Python's `str.strip()` in the address normalisation of app.py (line 170 and the other handlers) also strips the control characters `\x1c`-`\x1f` and non-ASCII spaces, which `AppServer.NormalizeEmail` keeps.
- `Strings.ParseInt` accepts only an optional sign and decimal digits. Python's `int()` on the webhook's `external_reference` (backend/routes/pagos.py:117) also accepts surrounding whitespace, `_` between digits and non-ASCII digits; the model treats such text as a failed parse.
- `CartStore.Persistable`: a session user always has an integer id, so the code's `currentUser.id != null` test (src/app/services/cart.service.ts:72, 147) has no counterpart. A stored user without an id is not modelled.
- Password hashing, salts, SHA-256 and `secrets.token_urlsafe` are given functions or parameters. Transactions other than the cart POST rollback and the unique reset-token constraint are not modelled. Neither are database failures (the 500 replies of the registration and preference-store paths).
- Some request shapes are not modelled:
  - a body that is not JSON;
  - a non-numeric `usuario_id` query string;
  - JSON values of unexpected types;
  - the `fecha_actualizacion` field of the cart GET;
  - `float(precio)` in the preference items;
  - a `None` failed-attempt counter.
- `PreferenciaPago` storage is returned as an out-parameter, not kept in a table.
- The product GET routes of `app.py` and the presentation-only pages are not modelled.
- `AppServer.AccountStore.VerifyEmail` also stands for GET `/api/users/verify` (app.py:304-318), which runs the same steps.
- `CartStore.CartService`: the published list is a value copy. The code publishes the `items` array itself, and `addToCart` bumps a quantity in place, so observers share that array with the store. Aliasing between the published snapshot and the live list is not modelled.
- `AuthSession.MapLoginReply`: the two login handlers are modelled separately. Which one Flask dispatches to is left open.
- `EndToEnd.LoginUserBody` reads `login_user`'s missing `email_verified` as false and a null `first_name` as ''.

## Where the code and its design description differ

The model follows the code in each of these places:

- On a user switch, the cart store empties `items` but publishes nothing until the load completes. Observers keep the previous user's snapshot while the request is in flight (`CartStore.CartService.OnSessionChange`).
- A load result is installed without checking that the user who asked is still the current one (`CartStore.CartService.CompleteLoad`).
- `clearCart` empties the list but never reaches the server. The next load brings the cleared lines back (`EndToEnd.ClearThenReload`).
- `updateQuantity` keeps the quantity as given, without rounding it to an integer.
- Loaded rows are installed as the server returns them. Nothing restores one line per product or a quantity of at least 1.
- `login` answers without a `user` key. The client therefore always falls back to the temporary user built from the e-mail, with a character-code-sum id and role `user`.
- The catalogue and the reloaded cart compute image addresses differently. They agree for a bare file name and differ for a path with a folder (`ProductList.FolderPathImagesDiffer`).
