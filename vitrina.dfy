/** The static shop page of script.js: the product cards are already in the
    DOM, and the script hides them by category or by name and pages through
    the ones left visible, three at a time. */
module Vitrina {
  import opened Texto
  import opened Listas
  import opened Paginacion

  /** `productosPorPagina`. */
  const ProductosPorPagina: int := 3

  /** The category button that shows every card. */
  const Todas: string := "todos"

  /** One `.producto` card: its `data-categoria`, the text of its `h2`,
      whether it has the class `oculto`, and whether its `style.display` is
      "block" (`false`: "none"). */
  datatype Tarjeta = Tarjeta(categoria: string, nombre: string, oculto: bool, mostrado: bool)

  /** The text of `#info-pagina`: "Mostrando desde–hasta de total productos". */
  datatype Mensaje = Mensaje(desde: int, hasta: int, total: int)

  /** How many cards are not hidden. */
  function Visibles(s: seq<Tarjeta>): (r: nat)
    ensures r <= |s|
  {
    if s == [] then 0 else Visibles(s[..|s| - 1]) + (if s[|s| - 1].oculto then 0 else 1)
  }

  /** How many cards are on screen: not hidden and displayed. A card with the
      `oculto` class counts as off screen whatever its inline display. */
  function Mostrados(s: seq<Tarjeta>): (r: nat)
    ensures r <= Visibles(s)
  {
    if s == [] then 0
    else Mostrados(s[..|s| - 1]) + (if !s[|s| - 1].oculto && s[|s| - 1].mostrado then 1 else 0)
  }

  /** The test of filtrar: a card stays when the category is "todos" or its
      own. */
  predicate DeCategoria(t: Tarjeta, categoria: string) {
    categoria == Todas || t.categoria == categoria
  }

  /** The test of buscarProducto: the lower-cased name contains the
      lower-cased search text. */
  predicate ConTexto(t: Tarjeta, texto: string) {
    Incluye(Minusculas(t.nombre), Minusculas(texto))
  }

  /** The cards after filtrar's loop: each is hidden exactly when it fails
      the category test; nothing else about it changes. */
  function PorCategoria(s: seq<Tarjeta>, categoria: string): (r: seq<Tarjeta>)
    ensures |r| == |s|
  {
    seq(|s|, i requires 0 <= i < |s| => s[i].(oculto := !DeCategoria(s[i], categoria)))
  }

  /** The cards after buscarProducto's loop. */
  function PorNombre(s: seq<Tarjeta>, texto: string): (r: seq<Tarjeta>)
    ensures |r| == |s|
  {
    seq(|s|, i requires 0 <= i < |s| => s[i].(oculto := !ConTexto(s[i], texto)))
  }

  /** A visible card is displayed or not; a hidden one keeps its display. */
  function Mostrar(t: Tarjeta, enPagina: bool): Tarjeta {
    if t.oculto then t else t.(mostrado := enPagina)
  }

  /** The cards after mostrarPagina's `forEach`: the visible card of visible
      index `k` is displayed exactly when `inicio <= k < fin`. */
  function Paginar(s: seq<Tarjeta>, inicio: int, fin: int): (r: seq<Tarjeta>)
    ensures |r| == |s|
  {
    if s == [] then []
    else
      var n := |s| - 1;
      Paginar(s[..n], inicio, fin) + [Mostrar(s[n], inicio <= Visibles(s[..n]) < fin)]
  }

  /** How many of the visible indexes `0 .. v-1` fall in `[inicio, fin)`. */
  function Rango(v: nat, inicio: int, fin: int): nat {
    if v == 0 then 0 else Rango(v - 1, inicio, fin) + (if inicio <= v - 1 < fin then 1 else 0)
  }

  /** With a window that starts at 0 or later, the count is the overlap of
      the window with the visible indexes. */
  lemma {:induction false} RangoSolapado(v: nat, inicio: int, fin: int)
    requires 0 <= inicio <= fin
    ensures Rango(v, inicio, fin) == Max(0, Min(fin, v) - inicio)
  {
    if v > 0 {
      RangoSolapado(v - 1, inicio, fin);
    }
  }

  /** Card by card: a visible card is displayed exactly when the number of
      visible cards before it falls in `[inicio, fin)`. */
  lemma {:induction false} PaginarEnIndice(s: seq<Tarjeta>, inicio: int, fin: int)
    ensures forall i :: 0 <= i < |s| ==> Paginar(s, inicio, fin)[i] == Mostrar(s[i], inicio <= Visibles(s[..i]) < fin)
  {
    if s != [] {
      var n := |s| - 1;
      PaginarEnIndice(s[..n], inicio, fin);
      forall i | 0 <= i < |s|
        ensures Paginar(s, inicio, fin)[i] == Mostrar(s[i], inicio <= Visibles(s[..i]) < fin)
      {
        if i < n {
          assert s[..n][..i] == s[..i];
          assert Paginar(s, inicio, fin)[i] == Paginar(s[..n], inicio, fin)[i];
        } else {
          assert s[..i] == s[..n];
        }
      }
    }
  }

  /** Paginating touches only the display of visible cards: categories,
      names and the hidden flags stay. */
  lemma {:induction false} PaginarConserva(s: seq<Tarjeta>, inicio: int, fin: int)
    ensures forall i :: 0 <= i < |s| ==> Paginar(s, inicio, fin)[i].(mostrado := s[i].mostrado) == s[i]
  {
    if s != [] {
      var n := |s| - 1;
      PaginarConserva(s[..n], inicio, fin);
      assert Paginar(s, inicio, fin)[..n] == Paginar(s[..n], inicio, fin);
    }
  }

  /** So the visible count stays too. */
  lemma {:induction false} VisiblesPaginar(s: seq<Tarjeta>, inicio: int, fin: int)
    ensures Visibles(Paginar(s, inicio, fin)) == Visibles(s)
  {
    if s != [] {
      var n := |s| - 1;
      VisiblesPaginar(s[..n], inicio, fin);
      assert Paginar(s, inicio, fin)[..n] == Paginar(s[..n], inicio, fin);
    }
  }

  /** The cards left on screen are exactly the visible indexes inside the
      window. */
  lemma {:induction false} MostradosPaginar(s: seq<Tarjeta>, inicio: int, fin: int)
    ensures Mostrados(Paginar(s, inicio, fin)) == Rango(Visibles(s), inicio, fin)
  {
    if s != [] {
      var n := |s| - 1;
      MostradosPaginar(s[..n], inicio, fin);
      assert Paginar(s, inicio, fin)[..n] == Paginar(s[..n], inicio, fin);
    }
  }

  /** The two `if`s of mostrarPagina, in their order: below 1 becomes 1, then
      above `totalPaginas` becomes `totalPaginas`. With no page at all the
      second one wins. */
  function Acotar(pagina: int, totalPaginas: int): (r: int)
    ensures totalPaginas >= 1 ==> 1 <= r <= totalPaginas
    ensures 1 <= pagina <= totalPaginas ==> r == pagina
    ensures totalPaginas >= 1 && pagina < 1 ==> r == 1
    ensures pagina > totalPaginas ==> r == totalPaginas
    ensures totalPaginas < 1 ==> r == totalPaginas
  {
    var p := if pagina < 1 then 1 else pagina;
    if p > totalPaginas then totalPaginas else p
  }

  /** The page mostrarPagina lands on: `totalPaginas` is
      `Math.ceil(visibles / 3)`, which is 0 when no card is visible, and
      then the page is 0 too. */
  function PaginaComoEscrita(pagina: int, visibles: nat): (r: int)
    ensures visibles == 0 ==> r == 0
    ensures visibles > 0 ==> 1 <= r <= Techo(visibles, ProductosPorPagina)
    ensures 1 <= pagina <= Techo(visibles, ProductosPorPagina) ==> r == pagina
  {
    Acotar(pagina, Techo(visibles, ProductosPorPagina))
  }

  /** The page mostrarPagina lands on with the page count kept at 1 or more,
      as renderCatalogo of main.js does. */
  function PaginaVitrina(pagina: int, visibles: nat): (r: int)
    ensures 1 <= r <= Max(1, Techo(visibles, ProductosPorPagina))
  {
    Acotar(pagina, Max(1, Techo(visibles, ProductosPorPagina)))
  }

  /** `inicio`, the visible index the page starts at. */
  function Inicio(pagina: int): int {
    (pagina - 1) * ProductosPorPagina
  }

  /** The message for a page: `inicio + 1`, `Math.min(fin, total)` and the
      visible count. It never ends past the visible count, nor spans more
      than one page. */
  function MensajeDe(pagina: int, visibles: nat): (m: Mensaje)
    ensures m.total == visibles
    ensures m.hasta <= visibles
    ensures m.hasta - m.desde + 1 <= ProductosPorPagina
  {
    Mensaje(Inicio(pagina) + 1, Min(Inicio(pagina) + ProductosPorPagina, visibles), visibles)
  }

  /** While some card is visible the written clamp already lands on a real
      page: the two definitions differ only when nothing is visible. */
  lemma ComoEscritaConVisibles(pagina: int, visibles: nat)
    requires visibles > 0
    ensures PaginaComoEscrita(pagina, visibles) == PaginaVitrina(pagina, visibles)
  {
  }

  /** AS WRITTEN, with no visible card every call lands on page 0: the
      window is `[-3, 0)`, nothing is shown, yet the message reads
      "Mostrando -2–0 de 0 productos", a range of three. */
  lemma SinVisiblesComoEscrita(s: seq<Tarjeta>, pagina: int)
    requires Visibles(s) == 0
    ensures PaginaComoEscrita(pagina, 0) == 0
    ensures MensajeDe(0, 0) == Mensaje(-2, 0, 0)
    ensures Mostrados(Paginar(s, Inicio(0), Inicio(0) + ProductosPorPagina)) == 0
    ensures MensajeDe(0, 0).hasta - MensajeDe(0, 0).desde + 1 == 3
  {
    MostradosPaginar(s, Inicio(0), Inicio(0) + ProductosPorPagina);
  }

  /** While some card is visible, the message of the page `p` that
      mostrarPagina lands on counts exactly the cards on screen. */
  lemma MensajeComoEscrito(s: seq<Tarjeta>, pagina: int, p: int)
    requires Visibles(s) > 0 && p == PaginaComoEscrita(pagina, Visibles(s))
    ensures Mostrados(Paginar(s, Inicio(p), Inicio(p) + ProductosPorPagina)) ==
            MensajeDe(p, Visibles(s)).hasta - MensajeDe(p, Visibles(s)).desde + 1
  {
    assert 1 <= p <= Max(1, Techo(Visibles(s), ProductosPorPagina));
    MensajeCuentaMostrados(s, p);
  }

  /** With the page count kept at 1 or more, the message tells the truth on
      every page it can land on: its range counts exactly the cards on
      screen. */
  lemma MensajeCuentaMostrados(s: seq<Tarjeta>, p: int)
    requires 1 <= p <= Max(1, Techo(Visibles(s), ProductosPorPagina))
    ensures Mostrados(Paginar(s, Inicio(p), Inicio(p) + ProductosPorPagina)) ==
            MensajeDe(p, Visibles(s)).hasta - MensajeDe(p, Visibles(s)).desde + 1
  {
    MostradosPaginar(s, Inicio(p), Inicio(p) + ProductosPorPagina);
    MensajeAcotado(p, Visibles(s));
  }

  /** The message on a page between 1 and the page count: its range counts
      the visible indexes in the window, starts at 1 or later, ends at the
      visible count or earlier, spans at most one page, and is not empty
      while some card is visible. */
  lemma MensajeAcotado(p: int, v: nat)
    requires 1 <= p <= Max(1, Techo(v, ProductosPorPagina))
    ensures Rango(v, Inicio(p), Inicio(p) + ProductosPorPagina) == MensajeDe(p, v).hasta - MensajeDe(p, v).desde + 1
    ensures 1 <= MensajeDe(p, v).desde
    ensures MensajeDe(p, v).hasta <= v
    ensures MensajeDe(p, v).hasta - MensajeDe(p, v).desde + 1 <= ProductosPorPagina
    ensures v > 0 ==> MensajeDe(p, v).desde <= MensajeDe(p, v).hasta
  {
    var i := Inicio(p);
    var t := Techo(v, ProductosPorPagina);
    TechoCotas(v, ProductosPorPagina);
    MulMonotona(0, p - 1, ProductosPorPagina);
    if v > 0 {
      MulMonotona(p - 1, t - 1, ProductosPorPagina);
      assert i < v;
    } else {
      assert i == 0;
    }
    RangoSolapado(v, i, i + ProductosPorPagina);
  }

  /** After filtering by "todos" every card is visible. */
  lemma {:induction false} TodasVisibles(s: seq<Tarjeta>)
    ensures Visibles(PorCategoria(s, Todas)) == |s|
  {
    if s != [] {
      TodasVisibles(s[..|s| - 1]);
      assert PorCategoria(s, Todas)[..|s| - 1] == PorCategoria(s[..|s| - 1], Todas);
    }
  }

  /** An empty search text is contained in every name, so it shows every
      card. */
  lemma {:induction false} BusquedaVaciaVisibles(s: seq<Tarjeta>)
    ensures Visibles(PorNombre(s, "")) == |s|
  {
    if s != [] {
      BusquedaVaciaVisibles(s[..|s| - 1]);
      assert PorNombre(s, "")[..|s| - 1] == PorNombre(s[..|s| - 1], "");
      assert Minusculas("") == [];
    }
  }

  /** Each filter decides every hidden flag afresh: filtering by category
      undoes an earlier search, and searching undoes an earlier category. */
  lemma FiltrosNoSeCombinan(s: seq<Tarjeta>, categoria: string, texto: string)
    ensures PorCategoria(PorNombre(s, texto), categoria) == PorCategoria(s, categoria)
    ensures PorNombre(PorCategoria(s, categoria), texto) == PorNombre(s, texto)
  {
  }

  /** The page of script.js: the cards in document order, the current page
      and the text of `#info-pagina` (none before the first call). */
  class Vitrina {
    const tarjetas: array<Tarjeta>
    var paginaActual: int
    var info: Option<Mensaje>

    /** The page before `DOMContentLoaded`. */
    constructor (iniciales: seq<Tarjeta>)
      ensures fresh(tarjetas) && tarjetas[..] == iniciales
      ensures paginaActual == 1 && info == None
    {
      tarjetas := new Tarjeta[|iniciales|](i requires 0 <= i < |iniciales| => iniciales[i]);
      paginaActual := 1;
      info := None;
    }

    /** The visible cards mostrarPagina collects: `productosVisibles.length`. */
    method ContarVisibles() returns (total: nat)
      ensures total == Visibles(tarjetas[..])
    {
      total := 0;
      var i := 0;
      while i < tarjetas.Length
        invariant 0 <= i <= tarjetas.Length
        invariant total == Visibles(tarjetas[..i])
      {
        assert tarjetas[..i + 1][..i] == tarjetas[..i];
        if !tarjetas[i].oculto {
          total := total + 1;
        }
        i := i + 1;
      }
      assert tarjetas[..i] == tarjetas[..];
    }

    /** The `forEach` of mostrarPagina over the visible cards, `k` being the
        index among them. */
    method MostrarVentana(inicio: int, fin: int)
      modifies tarjetas
      ensures tarjetas[..] == Paginar(old(tarjetas[..]), inicio, fin)
    {
      ghost var s0 := tarjetas[..];
      var j := 0;
      var k := 0;
      while j < tarjetas.Length
        modifies tarjetas
        invariant 0 <= j <= tarjetas.Length
        invariant k == Visibles(s0[..j])
        invariant tarjetas[..j] == Paginar(s0[..j], inicio, fin)
        invariant tarjetas[j..] == s0[j..]
      {
        assert s0[..j + 1][..j] == s0[..j];
        assert tarjetas[j] == s0[j];
        if !tarjetas[j].oculto {
          tarjetas[j] := tarjetas[j].(mostrado := inicio <= k < fin);
          k := k + 1;
        }
        assert tarjetas[..j + 1] == tarjetas[..j] + [tarjetas[j]];
        j := j + 1;
      }
      assert tarjetas[..] == tarjetas[..j] && s0 == s0[..j];
    }

    /** mostrarPagina(pagina): counts the visible cards, clamps the page,
        displays the visible cards of that page only and writes the
        message. MensajeComoEscrito and SinVisiblesComoEscrita are what the
        message then says about the cards on screen. */
    method MostrarPagina(pagina: int)
      modifies tarjetas, this`paginaActual, this`info
      ensures paginaActual == PaginaComoEscrita(pagina, Visibles(old(tarjetas[..])))
      ensures tarjetas[..] == Paginar(old(tarjetas[..]), Inicio(paginaActual), Inicio(paginaActual) + ProductosPorPagina)
      ensures info == Some(MensajeDe(paginaActual, Visibles(old(tarjetas[..]))))
    {
      var total := ContarVisibles();
      var totalPaginas := Techo(total, ProductosPorPagina);
      var p := Acotar(pagina, totalPaginas);
      paginaActual := p;
      var inicio := Inicio(p);
      var fin := inicio + ProductosPorPagina;
      MostrarVentana(inicio, fin);
      info := Some(Mensaje(inicio + 1, Min(fin, total), total));
    }

    /** cambiarPagina(delta). */
    method CambiarPagina(delta: int)
      modifies tarjetas, this`paginaActual, this`info
      ensures paginaActual == PaginaComoEscrita(old(paginaActual) + delta, Visibles(old(tarjetas[..])))
      ensures tarjetas[..] == Paginar(old(tarjetas[..]), Inicio(paginaActual), Inicio(paginaActual) + ProductosPorPagina)
      ensures info == Some(MensajeDe(paginaActual, Visibles(old(tarjetas[..]))))
    {
      MostrarPagina(paginaActual + delta);
    }

    /** reiniciarPaginacion(), also the `DOMContentLoaded` handler: back to
        the first page, whose window starts at the first visible card; page 0
        when no card is visible. */
    method ReiniciarPaginacion()
      modifies tarjetas, this`paginaActual, this`info
      ensures paginaActual == if Visibles(old(tarjetas[..])) == 0 then 0 else 1
      ensures tarjetas[..] == Paginar(old(tarjetas[..]), Inicio(paginaActual), Inicio(paginaActual) + ProductosPorPagina)
      ensures info == Some(MensajeDe(paginaActual, Visibles(old(tarjetas[..]))))
    {
      MostrarPagina(1);
    }

    /** filtrar(categoria): hides the cards of other categories (none for
        "todos"), then back to the first page (page 0 when none is left). */
    method Filtrar(categoria: string)
      modifies tarjetas, this`paginaActual, this`info
      ensures paginaActual == if Visibles(PorCategoria(old(tarjetas[..]), categoria)) == 0 then 0 else 1
      ensures tarjetas[..] == Paginar(PorCategoria(old(tarjetas[..]), categoria), Inicio(paginaActual), Inicio(paginaActual) + ProductosPorPagina)
      ensures info == Some(MensajeDe(paginaActual, Visibles(PorCategoria(old(tarjetas[..]), categoria))))
    {
      ghost var s0 := tarjetas[..];
      var i := 0;
      while i < tarjetas.Length
        modifies tarjetas
        invariant 0 <= i <= tarjetas.Length
        invariant forall n :: 0 <= n < i ==> tarjetas[n] == PorCategoria(s0, categoria)[n]
        invariant forall n :: i <= n < tarjetas.Length ==> tarjetas[n] == s0[n]
      {
        if categoria == Todas || tarjetas[i].categoria == categoria {
          tarjetas[i] := tarjetas[i].(oculto := false);
        } else {
          tarjetas[i] := tarjetas[i].(oculto := true);
        }
        i := i + 1;
      }
      assert tarjetas[..] == PorCategoria(s0, categoria);
      ReiniciarPaginacion();
    }

    /** buscarProducto(texto): hides the cards whose lower-cased name does not
        contain the lower-cased text, then back to the first page (page 0 when
        none is left). */
    method BuscarProducto(texto: string)
      modifies tarjetas, this`paginaActual, this`info
      ensures paginaActual == if Visibles(PorNombre(old(tarjetas[..]), texto)) == 0 then 0 else 1
      ensures tarjetas[..] == Paginar(PorNombre(old(tarjetas[..]), texto), Inicio(paginaActual), Inicio(paginaActual) + ProductosPorPagina)
      ensures info == Some(MensajeDe(paginaActual, Visibles(PorNombre(old(tarjetas[..]), texto))))
    {
      var q := Minusculas(texto);
      ghost var s0 := tarjetas[..];
      var i := 0;
      while i < tarjetas.Length
        modifies tarjetas
        invariant 0 <= i <= tarjetas.Length
        invariant forall n :: 0 <= n < i ==> tarjetas[n] == PorNombre(s0, texto)[n]
        invariant forall n :: i <= n < tarjetas.Length ==> tarjetas[n] == s0[n]
      {
        var nombre := Minusculas(tarjetas[i].nombre);
        if Incluye(nombre, q) {
          tarjetas[i] := tarjetas[i].(oculto := false);
        } else {
          tarjetas[i] := tarjetas[i].(oculto := true);
        }
        i := i + 1;
      }
      assert tarjetas[..] == PorNombre(s0, texto);
      ReiniciarPaginacion();
    }
  }
}
