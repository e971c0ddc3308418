/** The shop page of main.js: its global state (`productos`, `carrito`,
    `estado` and the cart saved in `localStorage`) and the handlers that
    change it. Answers from the API are parameters: `None` or `false` stands
    for a request that failed. */
module Tienda {
  import opened Listas
  import opened Paginacion
  import opened Catalogo
  import opened Carrito

  /** `estado.porPagina`, which nothing changes. */
  const PorPagina: int := 4

  /** The answer of `/create-transaction` when it succeeds. */
  datatype Transaccion = Transaccion(url: string, token: string)

  /** What pagarCarrito does: warn that the cart is empty, warn that the
      payment could not start, or post `token_ws` to the gateway's `url`. */
  datatype Pago = CarritoVacio | PagoNoIniciado | Redirigir(url: string, token: string)

  /** `data.map(p => ({..., categoria: p.categoria || "otros", ...}))`. */
  function Normalizados(ps: seq<Producto>): (r: seq<Producto>)
    ensures |r| == |ps|
    ensures forall i :: 0 <= i < |ps| ==> r[i] == ConCategoria(ps[i])
  {
    seq(|ps|, i requires 0 <= i < |ps| => ConCategoria(ps[i]))
  }

  class Tienda {
    var productos: seq<Producto>
    var carrito: seq<Entrada>
    /** The value of `localStorage["carrito"]`. */
    var guardado: seq<Linea>
    var categoria: string
    var busqueda: string
    var orden: string
    var pagina: int

    /** The list renderCatalogo shows. */
    function Lista(): (r: seq<Producto>)
      reads this`productos, this`categoria, this`busqueda, this`orden
      ensures |r| == Coincidencias(productos, categoria, busqueda)
    {
      LongitudListaFiltrada(productos, categoria, busqueda, orden);
      ListaFiltrada(productos, categoria, busqueda, orden)
    }

    /** The pages of the list renderCatalogo shows. */
    function Paginas(): int
      reads this`productos, this`categoria, this`busqueda
    {
      TotalPaginas(Coincidencias(productos, categoria, busqueda), PorPagina)
    }

    /** The Map's keys are distinct and every entry holds a unit; the current
        page is one of the pages of the current list. */
    ghost predicate Valid()
      reads this
    {
      IdsUnicos(carrito) && CantidadesPositivas(carrito) &&
      1 <= pagina <= Paginas()
    }

    /** `localStorage` holds the cart as it is. */
    ghost predicate Persistido()
      reads this
    {
      guardado == Lineas(carrito)
    }

    /** The state when the script has loaded: `localStorage` may still hold
        the cart of an earlier visit. */
    constructor (previo: seq<Linea>)
      ensures Valid()
      ensures productos == [] && carrito == [] && guardado == previo
      ensures categoria == Todos && busqueda == [] && orden == Ascendente && pagina == 1
    {
      productos := [];
      carrito := [];
      guardado := previo;
      categoria := Todos;
      busqueda := [];
      orden := Ascendente;
      pagina := 1;
    }

    /** The page of the list that is on screen. */
    function VistaActual(): Vista
      reads this`productos, this`categoria, this`busqueda, this`orden, this`pagina
      requires 1 <= pagina <= Paginas()
    {
      VistaPagina(Lista(), pagina, PorPagina)
    }

    /** renderCatalogo: clamps `estado.pagina` into the pages of the list and
        shows that page. */
    method RenderCatalogo() returns (v: Vista)
      modifies this`pagina
      ensures pagina == AjustarPagina(old(pagina), Paginas())
      ensures 1 <= pagina <= Paginas()
      ensures v == VistaActual()
    {
      var lista := ListaFiltrada(productos, categoria, busqueda, orden);
      var total := |lista|;
      LongitudListaFiltrada(productos, categoria, busqueda, orden);
      var totalPaginas := Max(1, Techo(total, PorPagina));
      if pagina > totalPaginas { pagina := totalPaginas; }
      if pagina < 1 { pagina := 1; }
      v := VistaPagina(lista, pagina, PorPagina);
    }

    /** A handler's call to renderCatalogo, seen from the state: the page is
        clamped and the view itself goes to the DOM. */
    method Refrescar()
      modifies this`pagina
      ensures pagina == AjustarPagina(old(pagina), Paginas())
      ensures 1 <= pagina <= Paginas()
    {
      var _ := RenderCatalogo();
    }

    /** cargarProductos: on success the catalogue is replaced and rendered;
        on failure nothing changes. */
    method CargarProductos(respuesta: Option<seq<Producto>>)
      requires Valid()
      modifies this`productos, this`pagina
      ensures Valid()
      ensures respuesta.None? ==> productos == old(productos) && pagina == old(pagina)
      ensures respuesta.Some? ==> productos == Normalizados(respuesta.value) &&
                                  pagina == AjustarPagina(old(pagina), Paginas())
    {
      if respuesta.Some? {
        productos := Normalizados(respuesta.value);
        Refrescar();
      }
    }

    /** cambiarPagina(delta). */
    method CambiarPagina(delta: int)
      requires Valid()
      modifies this`pagina
      ensures Valid()
      ensures pagina == AjustarPagina(old(pagina) + delta, Paginas())
    {
      pagina := pagina + delta;
      Refrescar();
    }

    /** irPagina(n). */
    method IrPagina(n: int)
      requires Valid()
      modifies this`pagina
      ensures Valid()
      ensures pagina == AjustarPagina(n, Paginas())
    {
      pagina := n;
      Refrescar();
    }

    /** filtrar(cat): a new category, back to the first page. */
    method Filtrar(cat: string)
      requires Valid()
      modifies this`categoria, this`pagina
      ensures Valid()
      ensures categoria == cat && pagina == 1
    {
      categoria := cat;
      pagina := 1;
      Refrescar();
    }

    /** buscarProducto(): the search box's text, back to the first page. */
    method BuscarProducto(texto: string)
      requires Valid()
      modifies this`busqueda, this`pagina
      ensures Valid()
      ensures busqueda == texto && pagina == 1
    {
      busqueda := texto;
      pagina := 1;
      Refrescar();
    }

    /** ordenarPorPrecio(v): a new order, back to the first page. */
    method OrdenarPorPrecio(v: string)
      requires Valid()
      modifies this`orden, this`pagina
      ensures Valid()
      ensures orden == v && pagina == 1
    {
      orden := v;
      pagina := 1;
      Refrescar();
    }

    /** The `{id, cantidad}` list built by the `forEach` loops of
        persistirCarrito, vaciarCarrito and pagarCarrito. */
    method ItemsCarrito() returns (items: seq<Linea>)
      ensures items == Lineas(carrito)
    {
      items := [];
      var i := 0;
      while i < |carrito|
        invariant 0 <= i <= |carrito|
        invariant items == Lineas(carrito[..i])
      {
        items := items + [Linea(carrito[i].producto.id, carrito[i].cantidad)];
        i := i + 1;
      }
      assert carrito[..i] == carrito;
    }

    /** persistirCarrito: `localStorage` takes the cart's lines. */
    method PersistirCarrito()
      modifies this`guardado
      ensures Persistido()
    {
      guardado := ItemsCarrito();
    }

    /** The totals loop of renderCarrito: the amount to pay, the unit counter,
        and whether "Carrito vacío" is shown. */
    method RenderCarrito() returns (vacio: bool, total: int, cantidad: int)
      requires Valid()
      ensures vacio <==> carrito == []
      ensures total == Total(carrito)
      ensures cantidad == Unidades(carrito)
      ensures vacio <==> cantidad == 0
    {
      vacio := |carrito| == 0;
      total, cantidad := 0, 0;
      var i := 0;
      while i < |carrito|
        invariant 0 <= i <= |carrito|
        invariant total == Total(carrito[..i]) && cantidad == Unidades(carrito[..i])
      {
        assert carrito[..i + 1][..i] == carrito[..i];
        total := total + carrito[i].producto.precio * carrito[i].cantidad;
        cantidad := cantidad + carrito[i].cantidad;
        i := i + 1;
      }
      assert carrito[..i] == carrito;
      UnidadesCotaInferior(carrito);
    }

    /** agregarAlCarrito(id): once the API has reserved a unit (`reservado`),
        the product's local stock drops by one and its cart entry gains a
        unit. A refused request, or an id with no product (the `p.stock`
        access throws), changes nothing. */
    method AgregarAlCarrito(id: int, reservado: bool) returns (agregado: bool)
      requires Valid()
      modifies this`productos, this`carrito, this`guardado, this`pagina
      ensures Valid()
      ensures agregado <==> reservado && GetProducto(old(productos), id).Some?
      ensures !agregado ==> productos == old(productos) && carrito == old(carrito) &&
                            guardado == old(guardado) && pagina == old(pagina)
      ensures agregado ==>
                GetProducto(old(productos), id).Some? &&
                var k := GetProducto(old(productos), id).value;
                productos == old(productos)[k := old(productos)[k].(stock := old(productos)[k].stock - 1)] &&
                carrito == Incrementar(old(carrito), id, productos[k]) &&
                Persistido() && pagina == old(pagina)
      ensures agregado ==> CantidadDe(carrito, id) == old(CantidadDe(carrito, id)) + 1 &&
                           (forall x :: x != id ==> EntradaDe(carrito, x) == old(EntradaDe(carrito, x))) &&
                           Unidades(carrito) == old(Unidades(carrito)) + 1
    {
      agregado := false;
      if !reservado {
        return;
      }
      var encontrado := GetProducto(productos, id);
      if encontrado.None? {
        return;
      }
      var k := encontrado.value;
      ghost var paginas := Paginas();
      CoincidenciasIgnoranStock(productos, k, productos[k].stock - 1, categoria, busqueda);
      productos := productos[k := productos[k].(stock := productos[k].stock - 1)];
      assert Paginas() == paginas;
      carrito := Incrementar(carrito, id, productos[k]);
      agregado := true;
      PersistirCarrito();
      Refrescar();
    }

    /** quitarDelCarrito(id): an id not in the cart is ignored; otherwise the
        release request for its units is sent and, once it has been answered
        (`liberado`), the entry is deleted, the cart saved and the catalogue
        reloaded. A release request that fails to reach the API rejects the
        handler before the delete. */
    method QuitarDelCarrito(id: int, liberado: bool, recarga: Option<seq<Producto>>) returns (solicitud: Option<seq<Linea>>)
      requires Valid()
      modifies this`productos, this`carrito, this`guardado, this`pagina
      ensures Valid()
      ensures old(EntradaDe(carrito, id)).None? ==>
                solicitud == None && carrito == old(carrito) &&
                guardado == old(guardado) && productos == old(productos) && pagina == old(pagina)
      ensures old(EntradaDe(carrito, id)).Some? ==> solicitud == Some([Linea(id, old(CantidadDe(carrito, id)))])
      ensures old(EntradaDe(carrito, id)).Some? && !liberado ==>
                carrito == old(carrito) &&
                guardado == old(guardado) && productos == old(productos) && pagina == old(pagina)
      ensures old(EntradaDe(carrito, id)).Some? && liberado ==>
                carrito == Eliminar(old(carrito), id) && Persistido() &&
                (recarga.None? ==> productos == old(productos) && pagina == old(pagina)) &&
                (recarga.Some? ==> productos == Normalizados(recarga.value) &&
                                   pagina == AjustarPagina(old(pagina), Paginas()))
    {
      var item := EntradaDe(carrito, id);
      if item.None? {
        solicitud := None;
        return;
      }
      solicitud := Some([Linea(id, item.value.cantidad)]);
      if !liberado {
        return;
      }
      carrito := Eliminar(carrito, id);
      PersistirCarrito();
      CargarProductos(recarga);
    }

    /** vaciarCarrito(): an empty cart is left alone; otherwise the release
        request lists every entry and, once answered, the cart is cleared,
        saved and the catalogue reloaded. */
    method VaciarCarrito(liberado: bool, recarga: Option<seq<Producto>>) returns (solicitud: Option<seq<Linea>>)
      requires Valid()
      modifies this`productos, this`carrito, this`guardado, this`pagina
      ensures Valid()
      ensures old(carrito) == [] ==>
                solicitud == None && guardado == old(guardado) &&
                productos == old(productos) && pagina == old(pagina) && carrito == []
      ensures old(carrito) != [] ==> solicitud == Some(Lineas(old(carrito)))
      ensures old(carrito) != [] && !liberado ==>
                carrito == old(carrito) &&
                guardado == old(guardado) && productos == old(productos) && pagina == old(pagina)
      ensures old(carrito) != [] && liberado ==>
                carrito == [] && guardado == [] &&
                (recarga.None? ==> productos == old(productos) && pagina == old(pagina)) &&
                (recarga.Some? ==> productos == Normalizados(recarga.value) &&
                                   pagina == AjustarPagina(old(pagina), Paginas()))
    {
      if |carrito| == 0 {
        solicitud := None;
        return;
      }
      var items := ItemsCarrito();
      solicitud := Some(items);
      if !liberado {
        return;
      }
      carrito := [];
      PersistirCarrito();
      CargarProductos(recarga);
    }

    /** pagarCarrito(): the cart's lines are sent only when there is at least
        one; the gateway's answer decides between a redirect and a warning. */
    method PagarCarrito(respuesta: Option<Transaccion>) returns (items: seq<Linea>, r: Pago)
      ensures items == Lineas(carrito)
      ensures r == CarritoVacio <==> carrito == []
      ensures carrito != [] && respuesta.None? ==> r == PagoNoIniciado
      ensures carrito != [] && respuesta.Some? ==> r == Redirigir(respuesta.value.url, respuesta.value.token)
    {
      items := ItemsCarrito();
      if |items| == 0 {
        r := CarritoVacio;
        return;
      }
      match respuesta
      case None =>
        r := PagoNoIniciado;
      case Some(t) =>
        r := Redirigir(t.url, t.token);
    }

    /** The `DOMContentLoaded` handler: the cart is cleared and saved as
        empty, then the catalogue is loaded. */
    method Iniciar(recarga: Option<seq<Producto>>)
      requires Valid()
      modifies this`productos, this`carrito, this`guardado, this`pagina
      ensures Valid()
      ensures carrito == [] && guardado == []
      ensures recarga.None? ==> productos == old(productos) && pagina == old(pagina)
      ensures recarga.Some? ==> productos == Normalizados(recarga.value) &&
                                pagina == AjustarPagina(old(pagina), Paginas())
    {
      carrito := [];
      guardado := [];
      CargarProductos(recarga);
    }
  }
}
