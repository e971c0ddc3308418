/** The catalogue view of main.js: the products loaded from the shop's API,
    the list shown for the current category, search text and price order,
    and the page of that list on screen. */
module Catalogo {
  import opened Texto
  import opened Listas
  import opened Paginacion

  /** One product as main.js keeps it (the description and the image path are
      display-only and not modelled). `stock` is the page's local mirror of
      the server's stock. */
  datatype Producto = Producto(id: int, nombre: string, categoria: string, precio: int, stock: int)

  /** The category that disables the category filter. */
  const Todos: string := "todos"

  /** The category given to a product the API sends without one. */
  const SinCategoria: string := "otros"

  /** The order that sorts by ascending price; any other value sorts by
      descending price. */
  const Ascendente: string := "asc"

  /** `p.categoria || "otros"` when the products are loaded. */
  function ConCategoria(p: Producto): (r: Producto)
    ensures r.categoria != []
    ensures r.categoria == p.categoria || (p.categoria == [] && r.categoria == SinCategoria)
    ensures r.(categoria := p.categoria) == p
  {
    if p.categoria == [] then p.(categoria := SinCategoria) else p
  }

  /** `productos.find(p => p.id === id)`: the index of the first product with
      that id. */
  function GetProducto(productos: seq<Producto>, id: int): (r: Option<nat>)
    ensures r.Some? ==> r.value < |productos| && productos[r.value].id == id &&
                        forall j :: 0 <= j < r.value ==> productos[j].id != id
    ensures r.None? ==> forall j :: 0 <= j < |productos| ==> productos[j].id != id
  {
    if productos == [] then None
    else if productos[0].id == id then Some(0)
    else match GetProducto(productos[1..], id)
      case None => None
      case Some(k) => Some(k + 1)
  }

  /** The category test of main.js:72-74: everything passes under "todos". */
  predicate PasaCategoria(p: Producto, categoria: string) {
    categoria == Todos || p.categoria == categoria
  }

  /** The search test of main.js:76-79: a query that trims to nothing lets
      everything pass; otherwise the lower-cased name must include the
      lower-cased, untrimmed query. */
  predicate PasaBusqueda(p: Producto, busqueda: string) {
    Trim(busqueda) == [] || Incluye(Minusculas(p.nombre), Minusculas(busqueda))
  }

  /** The callback of `lista.filter` at main.js:73. */
  function DeCategoria(categoria: string): Producto -> bool {
    (p: Producto) => p.categoria == categoria
  }

  /** The callback of `lista.filter` at main.js:78, given the lower-cased
      query `q`. */
  function ConNombre(q: string): Producto -> bool {
    (p: Producto) => Incluye(Minusculas(p.nombre), q)
  }

  /** `a` may stand before `b`: the comparator `a.precio - b.precio` (or
      `b.precio - a.precio`) is not positive. */
  predicate EnOrden(a: Producto, b: Producto, asc: bool) {
    if asc then a.precio <= b.precio else a.precio >= b.precio
  }

  predicate Ordenada(s: seq<Producto>, asc: bool) {
    forall i, j :: 0 <= i < j < |s| ==> EnOrden(s[i], s[j], asc)
  }

  /** `x` may stand before every element of `s`. */
  predicate Cota(x: Producto, s: seq<Producto>, asc: bool) {
    forall i :: 0 <= i < |s| ==> EnOrden(x, s[i], asc)
  }

  lemma CotaPermutacion(x: Producto, s: seq<Producto>, t: seq<Producto>, asc: bool)
    requires Cota(x, s, asc) && multiset(t) == multiset(s)
    ensures Cota(x, t, asc)
  {
    forall i | 0 <= i < |t| ensures EnOrden(x, t[i], asc) {
      assert t[i] in multiset(s);
      var k :| 0 <= k < |s| && s[k] == t[i];
    }
  }

  lemma OrdenadaPrefijo(x: Producto, s: seq<Producto>, asc: bool)
    requires Ordenada(s, asc) && Cota(x, s, asc)
    ensures Ordenada([x] + s, asc)
  {
    var r := [x] + s;
    forall i, j | 0 <= i < j < |r| ensures EnOrden(r[i], r[j], asc) {
      if i > 0 { assert r[i] == s[i - 1] && r[j] == s[j - 1]; }
      else { assert r[j] == s[j - 1]; }
    }
  }

  /** Puts `p` in front of the first element it may stand before. */
  function Insertar(p: Producto, s: seq<Producto>, asc: bool): (r: seq<Producto>)
    requires Ordenada(s, asc)
    ensures Ordenada(r, asc)
    ensures multiset(r) == multiset(s) + multiset{p}
  {
    if s == [] || EnOrden(p, s[0], asc) then
      assert Cota(p, s, asc) by {
        forall i | 0 <= i < |s| ensures EnOrden(p, s[i], asc) {
          assert i == 0 || EnOrden(s[0], s[i], asc);
        }
      }
      OrdenadaPrefijo(p, s, asc);
      [p] + s
    else
      var t := Insertar(p, s[1..], asc);
      assert s == [s[0]] + s[1..];
      assert Cota(s[0], s[1..] + [p], asc) by {
        forall i | 0 <= i < |s[1..] + [p]| ensures EnOrden(s[0], (s[1..] + [p])[i], asc) {
          if i < |s| - 1 { assert (s[1..] + [p])[i] == s[i + 1]; }
        }
      }
      CotaPermutacion(s[0], s[1..] + [p], t, asc);
      OrdenadaPrefijo(s[0], t, asc);
      [s[0]] + t
  }

  /** `lista.sort(...)` by price, here an insertion sort. */
  function OrdenarPorPrecio(s: seq<Producto>, asc: bool): (r: seq<Producto>)
    ensures Ordenada(r, asc)
    ensures multiset(r) == multiset(s) && |r| == |s|
  {
    if s == [] then []
    else
      assert s == [s[0]] + s[1..];
      Insertar(s[0], OrdenarPorPrecio(s[1..], asc), asc)
  }

  /** `obtenerListaFiltrada()`: a copy of `productos`, narrowed by category
      unless it is "todos", narrowed by name when the trimmed query is not
      empty, and sorted by price. */
  function ListaFiltrada(productos: seq<Producto>, categoria: string, busqueda: string, orden: string): (r: seq<Producto>)
    ensures |r| <= |productos|
    ensures Ordenada(r, orden == Ascendente)
  {
    var lista := productos;
    var lista := if categoria != Todos then Filtrar(lista, DeCategoria(categoria)) else lista;
    var lista := if Trim(busqueda) != [] then
                   var q := Minusculas(busqueda);
                   Filtrar(lista, ConNombre(q))
                 else lista;
    OrdenarPorPrecio(lista, orden == Ascendente)
  }

  /** The filtered list holds exactly the products that pass both tests, each
      as often as in the catalogue, and is ordered by price in the chosen
      direction. */
  lemma ListaFiltradaCorrecta(productos: seq<Producto>, categoria: string, busqueda: string, orden: string)
    ensures Ordenada(ListaFiltrada(productos, categoria, busqueda, orden), orden == Ascendente)
    ensures forall p :: multiset(ListaFiltrada(productos, categoria, busqueda, orden))[p] ==
                          if PasaCategoria(p, categoria) && PasaBusqueda(p, busqueda)
                          then multiset(productos)[p] else 0
  {
    var porCategoria := if categoria != Todos then Filtrar(productos, DeCategoria(categoria)) else productos;
    if categoria != Todos {
      FiltrarMultiset(productos, DeCategoria(categoria));
    }
    if Trim(busqueda) != [] {
      var q := Minusculas(busqueda);
      FiltrarMultiset(porCategoria, ConNombre(q));
    }
  }

  /** Every listed product passes the category test and the search test. */
  lemma ListaFiltradaSolida(productos: seq<Producto>, categoria: string, busqueda: string, orden: string, i: int)
    requires 0 <= i < |ListaFiltrada(productos, categoria, busqueda, orden)|
    ensures PasaCategoria(ListaFiltrada(productos, categoria, busqueda, orden)[i], categoria)
    ensures PasaBusqueda(ListaFiltrada(productos, categoria, busqueda, orden)[i], busqueda)
    ensures ListaFiltrada(productos, categoria, busqueda, orden)[i] in productos
  {
    var r := ListaFiltrada(productos, categoria, busqueda, orden);
    ListaFiltradaCorrecta(productos, categoria, busqueda, orden);
    assert multiset(r)[r[i]] > 0;
  }

  /** Under "todos" and a query of white space only, the list is a
      permutation of the whole catalogue: nothing is filtered out. */
  lemma ListaFiltradaSinFiltros(productos: seq<Producto>, busqueda: string, orden: string)
    requires SoloEspacios(busqueda)
    ensures multiset(ListaFiltrada(productos, Todos, busqueda, orden)) == multiset(productos)
  {
    TrimVacioSiiEspacios(busqueda);
    ListaFiltradaCorrecta(productos, Todos, busqueda, orden);
  }

  /** Both tests at once. */
  function Pasa(categoria: string, busqueda: string): Producto -> bool {
    p => PasaCategoria(p, categoria) && PasaBusqueda(p, busqueda)
  }

  /** How many products of the catalogue pass both tests. */
  function Coincidencias(productos: seq<Producto>, categoria: string, busqueda: string): nat {
    |Filtrar(productos, Pasa(categoria, busqueda))|
  }

  /** The filtered list is as long as the number of products that pass both
      tests, whatever the order. */
  lemma LongitudListaFiltrada(productos: seq<Producto>, categoria: string, busqueda: string, orden: string)
    ensures |ListaFiltrada(productos, categoria, busqueda, orden)| == Coincidencias(productos, categoria, busqueda)
  {
    var r := ListaFiltrada(productos, categoria, busqueda, orden);
    var f := Filtrar(productos, Pasa(categoria, busqueda));
    ListaFiltradaCorrecta(productos, categoria, busqueda, orden);
    FiltrarMultiset(productos, Pasa(categoria, busqueda));
    assert multiset(r) == multiset(f);
    assert |r| == |multiset(r)| == |multiset(f)| == |f|;
  }

  /** How many products pass depends on no product's stock. */
  lemma CoincidenciasIgnoranStock(productos: seq<Producto>, k: int, stock: int, categoria: string, busqueda: string)
    requires 0 <= k < |productos|
    ensures Coincidencias(productos[k := productos[k].(stock := stock)], categoria, busqueda) ==
            Coincidencias(productos, categoria, busqueda)
  {
    FiltrarMismaLongitud(productos, productos[k := productos[k].(stock := stock)], Pasa(categoria, busqueda));
  }

  /** `Math.max(1, Math.ceil(total / porPagina))`: the fewest pages, and at
      least one, that hold `total` items. */
  function TotalPaginas(total: nat, porPagina: int): (r: int)
    requires porPagina >= 1
    ensures r >= 1
    ensures total <= r * porPagina
    ensures r == 1 || (r - 1) * porPagina < total
  {
    TechoCotas(total, porPagina);
    Max(1, Techo(total, porPagina))
  }

  /** main.js:112-113: a page past the last becomes the last, and a page
      before the first becomes the first. */
  function AjustarPagina(pagina: int, totalPaginas: int): (r: int)
    requires totalPaginas >= 1
    ensures 1 <= r <= totalPaginas
    ensures 1 <= pagina <= totalPaginas ==> r == pagina
    ensures pagina < 1 ==> r == 1
    ensures pagina > totalPaginas ==> r == totalPaginas
  {
    var p := if pagina > totalPaginas then totalPaginas else pagina;
    if p < 1 then 1 else p
  }

  /** `lista.slice(inicio, fin)` for `0 <= inicio <= fin`: the items from
      `inicio` up to `fin`, cut at the end of the list. */
  function Rebanada(lista: seq<Producto>, inicio: nat, fin: nat): (r: seq<Producto>)
    requires inicio <= fin
    ensures |r| <= fin - inicio
    ensures inicio <= |lista| ==> r == lista[inicio..Min(fin, |lista|)]
    ensures inicio >= |lista| ==> r == []
  {
    if inicio >= |lista| then [] else lista[inicio..Min(fin, |lista|)]
  }

  /** The text "Mostrando desde–hasta de total", or nothing when the list is
      empty. */
  datatype Info = SinInfo | Mostrando(desde: int, hasta: int, total: int)

  /** What renderCatalogo puts on screen for a page of the filtered list. */
  datatype Vista = Vista(items: seq<Producto>, info: Info)

  /** main.js:115-117 and 148-150 on a page already clamped. */
  function VistaPagina(lista: seq<Producto>, pagina: int, porPagina: int): (v: Vista)
    requires porPagina >= 1 && 1 <= pagina <= TotalPaginas(|lista|, porPagina)
    ensures |v.items| <= porPagina
    ensures lista == [] <==> v.info == SinInfo
    ensures lista == [] ==> v.items == []
    ensures lista != [] ==> v.info.Mostrando? && v.info.total == |lista| &&
                            1 <= v.info.desde <= v.info.hasta <= |lista| &&
                            v.info.desde == (pagina - 1) * porPagina + 1 &&
                            v.info.hasta - v.info.desde < porPagina &&
                            v.items == lista[v.info.desde - 1..v.info.hasta]
    ensures lista != [] ==> v.info.hasta == Min(pagina * porPagina, |lista|)
    ensures pagina < TotalPaginas(|lista|, porPagina) ==> |v.items| == porPagina
  {
    var total := |lista|;
    var inicio := (pagina - 1) * porPagina;
    var fin := inicio + porPagina;
    assert fin == pagina * porPagina by { MulDistribuye(pagina, porPagina); }
    var items := Rebanada(lista, inicio, fin);
    if total == 0 then Vista(items, SinInfo)
    else
      InicioDentro(total, porPagina, pagina);
      var totalPaginas := TotalPaginas(total, porPagina);
      if pagina < totalPaginas then
        MulMonotona(pagina, totalPaginas - 1, porPagina);
        Vista(items, Mostrando(inicio + 1, Min(fin, total), total))
      else
        Vista(items, Mostrando(inicio + 1, Min(fin, total), total))
  }
}
