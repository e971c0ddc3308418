/** Page arithmetic shared by the two pages: `Math.ceil(total / porPagina)`
    and `Math.min` on integers. */
module Paginacion {

  function Min(a: int, b: int): int { if a <= b then a else b }

  function Max(a: int, b: int): int { if a >= b then a else b }

  /** `Math.ceil(total / porPagina)` on a count of items: one page per
      `porPagina` items, and one more for a partial rest. */
  function Techo(total: nat, porPagina: int): nat
    requires porPagina >= 1
    decreases total
  {
    if total == 0 then 0
    else 1 + Techo(if total >= porPagina then total - porPagina else 0, porPagina)
  }

  /** `Techo` is the fewest pages of `porPagina` items that hold `total`
      items: they hold them all, and one page fewer would not. */
  lemma {:induction false} TechoCotas(total: nat, porPagina: int)
    requires porPagina >= 1
    ensures total <= Techo(total, porPagina) * porPagina
    ensures (Techo(total, porPagina) - 1) * porPagina < total
  {
    if total > 0 {
      var resto := if total >= porPagina then total - porPagina else 0;
      TechoCotas(resto, porPagina);
      var r := Techo(resto, porPagina);
      assert Techo(total, porPagina) * porPagina == r * porPagina + porPagina;
      if total < porPagina {
        assert r == 0;
      }
    }
  }

  /** Page `pagina` of `porPagina` items starts at index
      `(pagina - 1) * porPagina`; on any page up to the last one that index
      lies inside the list. */
  lemma InicioDentro(total: nat, porPagina: int, pagina: int)
    requires porPagina >= 1 && 1 <= pagina <= Techo(total, porPagina)
    ensures 0 <= (pagina - 1) * porPagina < total
  {
    var t := Techo(total, porPagina);
    TechoCotas(total, porPagina);
    assert (pagina - 1) * porPagina <= (t - 1) * porPagina by {
      MulMonotona(pagina - 1, t - 1, porPagina);
    }
  }

  /** One page more starts `porPagina` items later. */
  lemma MulDistribuye(pagina: int, porPagina: int)
    ensures (pagina - 1) * porPagina + porPagina == pagina * porPagina
  {
  }

  lemma MulMonotona(a: int, b: int, n: nat)
    requires a <= b
    ensures a * n <= b * n
  {
  }
}
