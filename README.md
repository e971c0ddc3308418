# Tienda: the shop front-end, modelled in Dafny

The repository is a small web shop. Its core is two browser scripts:

- `main.js` runs the shop page. It loads the catalogue from the shop's API and
  keeps three pieces of global state: `productos`, the cart `carrito` (a `Map`
  from product id to `{producto, cantidad}`) and `estado` (category, search
  text, price order, current page, four products per page). The list on screen
  is the catalogue filtered by category, filtered by search text and sorted by
  price. It is shown one page at a time, with a "Mostrando X–Y de Z" line. The
  cart adds, removes and empties entries. After each change it is saved to
  `localStorage`. Its totals are rendered, and paying is refused while it is
  empty.
- `script.js` runs a static page whose product cards are already in the DOM. It
  hides cards by category or by name and pages through the visible ones three
  at a time. It writes a "Mostrando desde–hasta de total productos" message.

The model has seven modules:

- `Texto`: the string helpers the filters use (`trim`, ASCII lower-casing,
  `includes`).
- `Listas`: a generic filter.
- `Paginacion`: the ceiling of a division and its bounds.
- `Catalogo`: products, the filtered and sorted list, the page arithmetic of
  `renderCatalogo`, and the page view.
- `Carrito`: the cart as a sequence of entries with distinct ids, with its
  totals, increment, delete and the `{id, cantidad}` lines.
- `Tienda`: a class holding main.js's global state. Its methods are the
  handlers. Each API answer is a parameter.
- `Vitrina`: a class holding script.js's cards as an array, the current page
  and the message. Its methods are script.js's functions.

## Model

| member | source | states |
|---|---|---|
| Texto.Trim | main.js:76 | the result is a slice of the input with only whitespace cut from each end, and it neither starts nor ends with whitespace |
| Texto.TrimVacioSiiEspacios | main.js:76 | `busqueda.trim()` is empty exactly when the search text is all whitespace |
| Texto.Minusculas | main.js:77-78 | lower-casing keeps the length and maps every character through the ASCII lower-case map |
| Texto.MinusculasIdempotente | main.js:77-78 | a lower-cased string has no upper-case letter and lower-casing it again changes nothing |
| Texto.Incluye | main.js:78 | an empty query is included in every string, and a query longer than the string is never included |
| Texto.IncluyeSiiSubcadena | main.js:78 | `includes(q)` holds exactly when `q` occurs at some position of the string |
| Listas.Filtrar | main.js:73 | `filter` keeps at most the input's elements, and every kept element passes the test |
| Listas.FiltrarMultiset | main.js:73 | `filter` keeps each element that passes, as many times as it occurs, and drops every other one |
| Listas.FiltrarTodo | main.js:73 | when every element passes, `filter` returns the input unchanged |
| Listas.FiltrarMismaLongitud | main.js:73 | two lists whose elements pass or fail alike, position by position, filter to the same length |
| Paginacion.TechoCotas | main.js:110 | `Math.ceil(total / porPagina)` pages hold every item, and one page fewer would not |
| Paginacion.InicioDentro | main.js:115 | on a page between 1 and the ceiling, `inicio` is a valid index of the list |
| Catalogo.ConCategoria | main.js:53 | a product loaded without a category gets "otros"; any other category and every other field stay |
| Catalogo.GetProducto | main.js:27-29 | `find` returns the first product with the id, or none when no product has it |
| Catalogo.Insertar | main.js:81-83 | inserting into a price-sorted list keeps it sorted and adds exactly that product |
| Catalogo.OrdenarPorPrecio | main.js:81-83 | the sort by price, ascending for "asc" and descending otherwise, returns a sorted permutation of its input |
| Catalogo.ListaFiltrada | main.js:69-86 | `obtenerListaFiltrada` returns no more products than the catalogue holds, sorted by price in the chosen order |
| Catalogo.ListaFiltradaCorrecta | main.js:69-86 | the list is sorted by price in the chosen order and holds each product exactly as often as the catalogue does when it passes the category and the search test, and never otherwise |
| Catalogo.ListaFiltradaSolida | main.js:69-86 | every product listed passes both tests and is in the catalogue |
| Catalogo.ListaFiltradaSinFiltros | main.js:72-79 | under "todos" and a search text of only whitespace, the list is a permutation of the whole catalogue |
| Catalogo.LongitudListaFiltrada | main.js:108-109 | the list's length is the number of products that pass both tests |
| Catalogo.CoincidenciasIgnoranStock | main.js:167-168 | changing a product's stock does not change how many products pass the filters |
| Catalogo.TotalPaginas | main.js:110 | there is at least one page, the pages hold every item, and a page fewer would not unless there is just one |
| Catalogo.AjustarPagina | main.js:112-113 | the clamped page lies between 1 and the page count, is unchanged when already there, is 1 when below and the last page when above |
| Catalogo.Rebanada | main.js:117 | `slice(inicio, fin)` is the part of the list between the two indexes cut at its end, and empty past its end |
| Catalogo.VistaPagina | main.js:115-150 | a page shows at most four products. There is no message exactly when the list is empty. Otherwise the message has `desde = inicio + 1` and `hasta - desde < 4`, and the products shown are exactly those numbered `desde..hasta`, where `hasta` is `Math.min(fin, total)`. Every page before the last is full |
| Carrito.SumasConcat | main.js:195-197 | the amount `total` and the units `cantidad` that the `forEach` accumulates split over any cut of the cart, so each entry adds its own share |
| Carrito.TotalNoNegativo | main.js:195-196 | with no negative price and positive quantities, the amount to pay is never negative |
| Carrito.UnidadesCotaInferior | main.js:188-197 | with positive quantities the unit count is at least the number of entries, and zero exactly when the cart is empty |
| Carrito.Incrementar | main.js:170-172 | adding a unit keeps ids distinct and quantities positive. It raises that product's quantity by one, creating the entry with quantity 1 when absent, and leaves every other entry alone. Units grow by one and the total by the product's price |
| Carrito.Eliminar | main.js:224 | deleting an id removes its entry and leaves every other one alone, and changes nothing when absent. Units and total drop by that entry's share |
| Carrito.Lineas | main.js:31-37 | the saved lines are the cart's entries in order, as `{id, cantidad}` |
| Carrito.LineasFieles | main.js:31-37 | the saved lines have distinct ids, each line carries the cart's quantity for its id, and the lines add up to the cart's units |
| Tienda.Normalizados | main.js:49-57 | loading keeps the number and order of products and passes each one through the category default |
| Tienda.Tienda.constructor | main.js:9-18 | the initial state: no products, an empty cart, "todos", no search text, "asc", page 1; `localStorage` keeps what an earlier visit left |
| Tienda.Tienda.Lista | main.js:69-86 | the list on screen has as many products as pass both filters |
| Tienda.Tienda.RenderCatalogo | main.js:101-151 | the page is clamped into the list's pages and the view returned is that page of the list |
| Tienda.Tienda.Refrescar | main.js:108-113 | a handler's render call leaves the page clamped into the list's pages |
| Tienda.Tienda.CargarProductos | main.js:42-64 | a successful load replaces the catalogue with the normalised products and re-clamps the page; a failed one changes nothing |
| Tienda.Tienda.CambiarPagina | main.js:88-91 | the page moves by `delta` and is then clamped |
| Tienda.Tienda.IrPagina | main.js:93-96 | the page becomes `n`, clamped |
| Tienda.Tienda.Filtrar | main.js:294-298 | the category changes and the page goes back to 1 |
| Tienda.Tienda.BuscarProducto | main.js:300-304 | the search text changes and the page goes back to 1 |
| Tienda.Tienda.OrdenarPorPrecio | main.js:306-310 | the order changes and the page goes back to 1 |
| Tienda.Tienda.ItemsCarrito | main.js:32-35 | the `forEach` loop builds exactly the cart's lines |
| Tienda.Tienda.PersistirCarrito | main.js:31-37 | afterwards `localStorage` holds exactly the cart's lines |
| Tienda.Tienda.RenderCarrito | main.js:182-210 | "Carrito vacío" shows exactly when the cart is empty. The total is the sum of price times quantity, and the counter is the sum of quantities, which is zero exactly when the cart is empty |
| Tienda.Tienda.AgregarAlCarrito | main.js:156-180 | the cart changes exactly when the reservation succeeded and the product exists. Then that product's stock drops by one, its entry gains one unit, every other entry stays, the cart is saved and the page stays. Otherwise nothing changes |
| Tienda.Tienda.QuitarDelCarrito | main.js:212-228 | an id not in the cart changes nothing and sends nothing. Otherwise a release for that entry's units is sent, and once it is answered the entry is deleted and the cart saved. A successful reload replaces the catalogue and re-clamps the page; a failed one leaves both alone |
| Tienda.Tienda.VaciarCarrito | main.js:230-248 | an empty cart changes nothing. Otherwise a release for every line is sent, and once it is answered the cart is emptied and saved. A successful reload replaces the catalogue and re-clamps the page; a failed one leaves both alone |
| Tienda.Tienda.PagarCarrito | main.js:254-289 | the payment is refused exactly when the cart is empty. Otherwise the cart's lines are sent and the gateway's answer decides between a redirect with its url and token and a warning |
| Tienda.Tienda.Iniciar | main.js:315-337 | on load the cart is emptied and saved as empty. A successful load replaces the catalogue and re-clamps the page; a failed one leaves both alone |
| Vitrina.PorCategoria | script.js:2-10 | filtering by category keeps every card and hides exactly those outside the category, unless it is "todos" |
| Vitrina.PorNombre | script.js:15-25 | searching keeps every card and hides exactly those whose lower-cased name does not include the lower-cased text |
| Vitrina.Paginar | script.js:45-47 | the `forEach` keeps one card per card |
| Vitrina.PaginarEnIndice | script.js:45-47 | card by card: a hidden card keeps its display, and a visible one is displayed exactly when the number of visible cards before it lies in `[inicio, fin)` |
| Vitrina.PaginarConserva | script.js:45-47 | the window changes only the display of visible cards: categories, names and hidden flags stay |
| Vitrina.VisiblesPaginar | script.js:34-47 | showing a page does not change how many cards are visible |
| Vitrina.MostradosPaginar | script.js:45-47 | after the window, the cards on screen are exactly the visible indexes inside `[inicio, fin)` |
| Vitrina.RangoSolapado | script.js:45-47 | the visible indexes inside a window that starts at 0 or later number the overlap of the window with `0..total` |
| Vitrina.Acotar | script.js:38-39 | the two `if`s keep a page already in range, turn a page below 1 into 1 when there is a page, turn a page above the count into the count, and so land between 1 and the count when there is a page; with no page they give the count |
| Vitrina.PaginaComoEscrita | script.js:36-39 | with no visible card mostrarPagina lands on page 0; otherwise on a real page, the asked one when it is in range |
| Vitrina.MensajeDe | script.js:58-60 | the message's total is the visible count, it never ends past that count, and it spans at most three cards |
| Vitrina.PaginaVitrina | script.js:36-39 | with the page count kept at 1 or more, every call lands on a real page |
| Vitrina.ComoEscritaConVisibles | script.js:36-39 | while some card is visible, the written clamp and the corrected one agree |
| Vitrina.SinVisiblesComoEscrita | script.js:36-60 | as written, with no visible card the page becomes 0, nothing is shown, and the message claims the three-item range -2–0 |
| Vitrina.MensajeAcotado | script.js:42-60 | on a real page the message's range counts the visible indexes in the window. It starts at 1 or later, ends at the visible count or earlier, spans at most three, and is not empty while a card is visible |
| Vitrina.MensajeComoEscrito | script.js:33-60 | while some card is visible, the message of the page mostrarPagina lands on counts exactly the cards on screen |
| Vitrina.MensajeCuentaMostrados | script.js:42-60 | on a real page the message's range counts exactly the cards left on screen |
| Vitrina.TodasVisibles | script.js:5 | filtering by "todos" makes every card visible |
| Vitrina.BusquedaVaciaVisibles | script.js:16-20 | an empty search text makes every card visible |
| Vitrina.FiltrosNoSeCombinan | script.js:2-27 | each filter decides every card's hidden flag afresh, so a category filter undoes an earlier search and the other way round |
| Vitrina.Vitrina.constructor | script.js:30-31 | the page starts at 1 over the cards in document order, with no message yet |
| Vitrina.Vitrina.ContarVisibles | script.js:34-35 | the count is the number of cards without `oculto` |
| Vitrina.Vitrina.MostrarVentana | script.js:45-47 | the array afterwards is the window applied to the cards as they were |
| Vitrina.Vitrina.MostrarPagina | script.js:33-61 | the current page is the page as clamped in script.js, 0 when no card is visible. The cards are the window of that page over the visible ones, and the message is that page's `desde`, `hasta` and visible count |
| Vitrina.Vitrina.CambiarPagina | script.js:63-65 | the page moves by `delta` from the current one and is shown as mostrarPagina does |
| Vitrina.Vitrina.ReiniciarPaginacion | script.js:67-73 | page 1 is shown, or page 0 when no card is visible: the window of that page, and its message |
| Vitrina.Vitrina.Filtrar | script.js:2-12 | the cards are hidden by category, then page 1 of the new visible set is shown, or page 0 when none is left |
| Vitrina.Vitrina.BuscarProducto | script.js:15-27 | the cards are hidden by name, then page 1 of the new visible set is shown, or page 0 when none is left |

## Left out

- `app.py` (the server) and `commit.js` are not part of this model. The server's stock reservations appear only as the boolean or optional answers the handlers receive.
- `fetch`, `alert`, `console`, `localStorage` serialisation to JSON, and every piece of HTML the scripts build: each API answer is a parameter, and `localStorage["carrito"]` is a sequence of lines.
- `formatoCLP`, the image path derived from the name, and `descripcion`: display-only.
- The pagination buttons and the "Agotado"/`disabled` flags of both pages are not modelled: they are HTML and change no state.
- Texto.Minusculas: lower-cases ASCII letters only, where `toLowerCase` also maps the rest of Unicode.
- Tienda.Tienda.AgregarAlCarrito: the cart entry holds a copy of the product, where main.js stores a reference to the same object. A later stock change on the product is therefore not seen through the cart. The copy cannot be told apart from the reference: the cart reads only `id`, `nombre` and `precio` of its products (main.js:34, 201-203, 235, 257), nothing ever writes those three fields, and `stock`, the one field that is written, is never read through the cart.
- Tienda.Tienda.QuitarDelCarrito, Tienda.Tienda.VaciarCarrito, Tienda.Tienda.AgregarAlCarrito: the `renderCarrito` call at their end is left out, since it changes no state. Its results are stated by Tienda.Tienda.RenderCarrito.
- Tienda.Tienda.AgregarAlCarrito, Tienda.Tienda.QuitarDelCarrito, Tienda.Tienda.VaciarCarrito, Tienda.Tienda.PagarCarrito, Tienda.Tienda.CargarProductos, Tienda.Tienda.Iniciar: the interleaving of these `async` handlers with other events at their `await`s is not modelled. Each runs to completion as one step.
- Catalogo.OrdenarPorPrecio: the contract states a sorted permutation but not stability, which ECMAScript 2019 requires of `Array.prototype.sort`. The insertion sort keeps products of equal price in order, but no contract promises it.
- Vitrina.Mostrados: a card counts as on screen when it has no `oculto` class and its display is not `none`. This assumes the stylesheet's `oculto` rule hides a card even over the inline `style.display = "block"` an earlier mostrarPagina left on it (script.js:46). The stylesheet is not part of this model, and Vitrina.MensajeCuentaMostrados and Vitrina.MensajeComoEscrito rest on this assumption.
- Vitrina.Vitrina.BuscarProducto: the search text is read from the DOM in script.js and is a parameter here.

## Findings

| source | as written | input that shows it | evidently intended | confidence | as-written member | corrected member |
|---|---|---|---|---|---|---|
| script.js:36-60 | `totalPaginas = Math.ceil(visibles / 3)` is 0 when no card is visible, and the second `if` then sets the page to 0. So `inicio` is -3 and the message reads "Mostrando -2–0 de 0 productos" | any category or search text that hides every card, e.g. a search text contained in no name | the page count is at least 1, as main.js:110 writes it, so the page stays 1 and the message's range counts the cards on screen | not executed | Vitrina.SinVisiblesComoEscrita | Vitrina.PaginaVitrina |
