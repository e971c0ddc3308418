/** The cart of main.js: a JavaScript `Map` from product id to
    `{producto, cantidad}`. A `Map` remembers insertion order, so the cart is
    a list of entries whose product ids are distinct; `set` on a present key
    keeps its place, `set` on a new key appends and `delete` closes the gap. */
module Carrito {
  import opened Listas
  import opened Catalogo

  datatype Entrada = Entrada(producto: Producto, cantidad: int)

  /** One `{id, cantidad}` line of the saved cart and of the requests sent to
      the API. */
  datatype Linea = Linea(id: int, cantidad: int)

  /** No product id is a key twice. */
  predicate IdsUnicos(c: seq<Entrada>) {
    forall i, j :: 0 <= i < j < |c| ==> c[i].producto.id != c[j].producto.id
  }

  /** Every entry holds at least one unit. */
  predicate CantidadesPositivas(c: seq<Entrada>) {
    forall i :: 0 <= i < |c| ==> c[i].cantidad >= 1
  }

  /** No product in the cart has a negative price. */
  predicate PreciosNoNegativos(c: seq<Entrada>) {
    forall i :: 0 <= i < |c| ==> c[i].producto.precio >= 0
  }

  /** Where `carrito.get(id)` finds its entry. */
  function IndiceEntrada(c: seq<Entrada>, id: int): (r: Option<nat>)
    ensures r.Some? ==> r.value < |c| && c[r.value].producto.id == id
    ensures r.None? ==> forall i :: 0 <= i < |c| ==> c[i].producto.id != id
  {
    if c == [] then None
    else if c[0].producto.id == id then Some(0)
    else match IndiceEntrada(c[1..], id)
      case None => None
      case Some(k) => Some(k + 1)
  }

  /** `carrito.get(id)`. */
  function EntradaDe(c: seq<Entrada>, id: int): Option<Entrada> {
    match IndiceEntrada(c, id)
    case None => None
    case Some(k) => Some(c[k])
  }

  /** The quantity held for `id`, 0 when it is not in the cart. */
  function CantidadDe(c: seq<Entrada>, id: int): int {
    match EntradaDe(c, id)
    case None => 0
    case Some(e) => e.cantidad
  }

  /** With distinct ids, the entry at position `i` is what `get` returns for
      its id. */
  lemma EntradaDeEn(c: seq<Entrada>, i: int)
    requires IdsUnicos(c) && 0 <= i < |c|
    ensures EntradaDe(c, c[i].producto.id) == Some(c[i])
  {
    var k := IndiceEntrada(c, c[i].producto.id).value;
    assert k == i;
  }

  /** `producto.precio * cantidad` for one entry. */
  function Subtotal(e: Entrada): int {
    e.producto.precio * e.cantidad
  }

  /** The `total` that renderCarrito accumulates, entry by entry. */
  function Total(c: seq<Entrada>): int {
    if c == [] then 0 else Total(c[..|c| - 1]) + Subtotal(c[|c| - 1])
  }

  /** The `cantidad` that renderCarrito accumulates: units in the cart. */
  function Unidades(c: seq<Entrada>): int {
    if c == [] then 0 else Unidades(c[..|c| - 1]) + c[|c| - 1].cantidad
  }

  /** Both sums split over a concatenation. */
  lemma {:induction false} SumasConcat(a: seq<Entrada>, b: seq<Entrada>)
    ensures Total(a + b) == Total(a) + Total(b)
    ensures Unidades(a + b) == Unidades(a) + Unidades(b)
  {
    if b == [] {
      assert a + b == a;
    } else {
      SumasConcat(a, b[..|b| - 1]);
      assert (a + b)[..|a + b| - 1] == a + b[..|b| - 1];
    }
  }

  /** A cart of positive quantities holds at least one unit per entry, so its
      counter is 0 exactly when it is empty. */
  lemma {:induction false} UnidadesCotaInferior(c: seq<Entrada>)
    requires CantidadesPositivas(c)
    ensures Unidades(c) >= |c|
    ensures Unidades(c) == 0 <==> c == []
  {
    if c != [] {
      UnidadesCotaInferior(c[..|c| - 1]);
    }
  }

  /** With no negative price, the amount to pay is never negative. */
  lemma {:induction false} TotalNoNegativo(c: seq<Entrada>)
    requires PreciosNoNegativos(c) && CantidadesPositivas(c)
    ensures Total(c) >= 0
  {
    if c != [] {
      TotalNoNegativo(c[..|c| - 1]);
    }
  }

  /** The sums of a cart with one entry between two parts. */
  lemma SumasTres(a: seq<Entrada>, x: Entrada, b: seq<Entrada>)
    ensures Total(a + [x] + b) == Total(a) + Subtotal(x) + Total(b)
    ensures Unidades(a + [x] + b) == Unidades(a) + x.cantidad + Unidades(b)
  {
    SumasConcat(a + [x], b);
    SumasConcat(a, [x]);
    assert [x][..0] == [];
  }

  /** A cart is what comes before `j`, the entry at `j`, and what follows. */
  lemma Partir(c: seq<Entrada>, j: int)
    requires 0 <= j < |c|
    ensures c == c[..j] + [c[j]] + c[j + 1..]
  {
  }

  /** Replacing the entry at `j` changes each sum by the difference of the
      two entries. */
  lemma SumasReemplazo(c: seq<Entrada>, j: int, e: Entrada)
    requires 0 <= j < |c|
    ensures Total(c[j := e]) == Total(c) - Subtotal(c[j]) + Subtotal(e)
    ensures Unidades(c[j := e]) == Unidades(c) - c[j].cantidad + e.cantidad
  {
    var a, b := c[..j], c[j + 1..];
    Partir(c, j);
    Partir(c[j := e], j);
    assert c[j := e][..j] == a && c[j := e][j + 1..] == b;
    SumasTres(a, c[j], b);
    SumasTres(a, e, b);
  }

  /** Removing the entry at `j` takes it out of each sum. */
  lemma SumasQuitar(c: seq<Entrada>, j: int)
    requires 0 <= j < |c|
    ensures Total(c[..j] + c[j + 1..]) == Total(c) - Subtotal(c[j])
    ensures Unidades(c[..j] + c[j + 1..]) == Unidades(c) - c[j].cantidad
  {
    Partir(c, j);
    SumasTres(c[..j], c[j], c[j + 1..]);
    SumasConcat(c[..j], c[j + 1..]);
  }

  /** Replacing an entry by one for the same product changes what `get`
      returns for that product only. */
  lemma EntradasReemplazo(c: seq<Entrada>, j: int, e: Entrada)
    requires IdsUnicos(c) && 0 <= j < |c| && e.producto.id == c[j].producto.id
    ensures IdsUnicos(c[j := e])
    ensures forall x :: EntradaDe(c[j := e], x) == if x == e.producto.id then Some(e) else EntradaDe(c, x)
  {
    var r := c[j := e];
    forall x ensures EntradaDe(r, x) == if x == e.producto.id then Some(e) else EntradaDe(c, x) {
      if i :| 0 <= i < |c| && c[i].producto.id == x {
        EntradaDeEn(c, i);
        EntradaDeEn(r, i);
      } else {
        forall k | 0 <= k < |r| ensures r[k].producto.id != x {
          assert k == j || r[k] == c[k];
        }
      }
    }
  }

  /** Appending an entry for a product not in the cart adds it and changes
      nothing else. */
  lemma EntradasAgregar(c: seq<Entrada>, e: Entrada)
    requires IdsUnicos(c) && EntradaDe(c, e.producto.id) == None
    ensures IdsUnicos(c + [e])
    ensures forall x :: EntradaDe(c + [e], x) == if x == e.producto.id then Some(e) else EntradaDe(c, x)
  {
    var r := c + [e];
    assert IndiceEntrada(c, e.producto.id) == None;
    assert IdsUnicos(r) by {
      forall i, k | 0 <= i < k < |r| ensures r[i].producto.id != r[k].producto.id {
        if k == |c| {
          assert r[i] == c[i] && r[k] == e;
        } else {
          assert r[i] == c[i] && r[k] == c[k];
        }
      }
    }
    forall x ensures EntradaDe(r, x) == if x == e.producto.id then Some(e) else EntradaDe(c, x) {
      if x == e.producto.id {
        EntradaDeEn(r, |c|);
      } else if i :| 0 <= i < |c| && c[i].producto.id == x {
        EntradaDeEn(c, i);
        EntradaDeEn(r, i);
      } else {
        forall k | 0 <= k < |r| ensures r[k].producto.id != x {
          assert k == |c| || r[k] == c[k];
        }
      }
    }
  }

  /** Removing the entry at `j` makes `get` miss its product and changes
      nothing else. */
  lemma EntradasQuitar(c: seq<Entrada>, j: int)
    requires IdsUnicos(c) && 0 <= j < |c|
    ensures IdsUnicos(c[..j] + c[j + 1..])
    ensures forall x :: EntradaDe(c[..j] + c[j + 1..], x) == if x == c[j].producto.id then None else EntradaDe(c, x)
  {
    var r := c[..j] + c[j + 1..];
    assert forall i :: 0 <= i < |r| ==> r[i] == if i < j then c[i] else c[i + 1];
    forall x ensures EntradaDe(r, x) == if x == c[j].producto.id then None else EntradaDe(c, x) {
      if i :| 0 <= i < |c| && c[i].producto.id == x {
        EntradaDeEn(c, i);
        if i < j { EntradaDeEn(r, i); } else if i > j { EntradaDeEn(r, i - 1); }
      } else {
        forall k | 0 <= k < |r| ensures r[k].producto.id != x {
          assert r[k] == if k < j then c[k] else c[k + 1];
        }
      }
    }
  }

  /** Lines 170-172 of main.js: `carrito.get(id) || {producto: p, cantidad: 0}`,
      one more unit, and `carrito.set(id, entry)`. */
  function Incrementar(c: seq<Entrada>, id: int, p: Producto): (r: seq<Entrada>)
    requires IdsUnicos(c) && CantidadesPositivas(c) && p.id == id
    ensures IdsUnicos(r) && CantidadesPositivas(r)
    ensures CantidadDe(r, id) == CantidadDe(c, id) + 1
    ensures EntradaDe(c, id).Some? ==> EntradaDe(r, id) == Some(EntradaDe(c, id).value.(cantidad := CantidadDe(c, id) + 1))
    ensures EntradaDe(c, id).None? ==> EntradaDe(r, id) == Some(Entrada(p, 1))
    ensures forall x :: x != id ==> EntradaDe(r, x) == EntradaDe(c, x)
    ensures Unidades(r) == Unidades(c) + 1
    ensures Total(r) == Total(c) + EntradaDe(r, id).value.producto.precio
  {
    match IndiceEntrada(c, id)
    case Some(j) =>
      var e := c[j].(cantidad := c[j].cantidad + 1);
      IncrementarPresente(c, j, e);
      c[j := e]
    case None =>
      var e := Entrada(p, 1);
      IncrementarAusente(c, e);
      c + [e]
  }

  /** The entry at `j` gains a unit. */
  lemma IncrementarPresente(c: seq<Entrada>, j: int, e: Entrada)
    requires IdsUnicos(c) && CantidadesPositivas(c) && 0 <= j < |c|
    requires e == c[j].(cantidad := c[j].cantidad + 1)
    ensures IdsUnicos(c[j := e]) && CantidadesPositivas(c[j := e])
    ensures forall x :: EntradaDe(c[j := e], x) == if x == e.producto.id then Some(e) else EntradaDe(c, x)
    ensures Unidades(c[j := e]) == Unidades(c) + 1
    ensures Total(c[j := e]) == Total(c) + e.producto.precio
  {
    assert Subtotal(e) == Subtotal(c[j]) + e.producto.precio by {
      assert e.producto == c[j].producto;
      assert e.producto.precio * (c[j].cantidad + 1) == e.producto.precio * c[j].cantidad + e.producto.precio;
    }
    SumasReemplazo(c, j, e);
    EntradasReemplazo(c, j, e);
  }

  /** A new entry with one unit goes at the end. */
  lemma IncrementarAusente(c: seq<Entrada>, e: Entrada)
    requires IdsUnicos(c) && CantidadesPositivas(c) && EntradaDe(c, e.producto.id) == None
    requires e.cantidad == 1
    ensures IdsUnicos(c + [e]) && CantidadesPositivas(c + [e])
    ensures forall x :: EntradaDe(c + [e], x) == if x == e.producto.id then Some(e) else EntradaDe(c, x)
    ensures Unidades(c + [e]) == Unidades(c) + 1
    ensures Total(c + [e]) == Total(c) + e.producto.precio
  {
    SumasConcat(c, [e]);
    EntradasAgregar(c, e);
  }

  /** `carrito.delete(id)`: the entry for `id` goes, the others keep their
      order. */
  function Eliminar(c: seq<Entrada>, id: int): (r: seq<Entrada>)
    requires IdsUnicos(c) && CantidadesPositivas(c)
    ensures IdsUnicos(r) && CantidadesPositivas(r)
    ensures EntradaDe(r, id) == None
    ensures forall x :: x != id ==> EntradaDe(r, x) == EntradaDe(c, x)
    ensures EntradaDe(c, id) == None ==> r == c
    ensures Unidades(r) == Unidades(c) - CantidadDe(c, id)
    ensures Total(r) == Total(c) - (if EntradaDe(c, id).Some? then Subtotal(EntradaDe(c, id).value) else 0)
  {
    match IndiceEntrada(c, id)
    case None => c
    case Some(j) =>
      SumasQuitar(c, j);
      EntradasQuitar(c, j);
      c[..j] + c[j + 1..]
  }

  /** The `{id, cantidad}` list persistirCarrito saves and vaciarCarrito and
      pagarCarrito send, one line per entry in the cart's order. */
  function Lineas(c: seq<Entrada>): (r: seq<Linea>)
    ensures |r| == |c|
    ensures forall i :: 0 <= i < |c| ==> r[i] == Linea(c[i].producto.id, c[i].cantidad)
  {
    seq(|c|, i requires 0 <= i < |c| => Linea(c[i].producto.id, c[i].cantidad))
  }

  /** The units of a list of lines. */
  function UnidadesLineas(ls: seq<Linea>): int {
    if ls == [] then 0 else UnidadesLineas(ls[..|ls| - 1]) + ls[|ls| - 1].cantidad
  }

  /** The saved lines name each cart entry once, with the quantity the cart
      holds for it, and add up to the cart's unit counter. */
  lemma {:induction false} LineasFieles(c: seq<Entrada>)
    requires IdsUnicos(c)
    ensures forall i, j :: 0 <= i < j < |Lineas(c)| ==> Lineas(c)[i].id != Lineas(c)[j].id
    ensures forall i :: 0 <= i < |Lineas(c)| ==> Lineas(c)[i].cantidad == CantidadDe(c, Lineas(c)[i].id)
    ensures UnidadesLineas(Lineas(c)) == Unidades(c)
  {
    forall i | 0 <= i < |c| ensures Lineas(c)[i].cantidad == CantidadDe(c, Lineas(c)[i].id) {
      EntradaDeEn(c, i);
    }
    if c != [] {
      var init := c[..|c| - 1];
      LineasFieles(init);
      assert Lineas(c)[..|c| - 1] == Lineas(init);
    }
  }
}
