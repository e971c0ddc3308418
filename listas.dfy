/** `Array.prototype.filter`, the list operation both pages use to narrow the
    catalogue, and the optional value `Array.prototype.find` and `Map.get`
    return. */
module Listas {

  datatype Option<T> = None | Some(value: T)

  /** The elements of `s` that satisfy `f`, in their original order. */
  function Filtrar<T>(s: seq<T>, f: T -> bool): (r: seq<T>)
    ensures |r| <= |s|
    ensures forall i :: 0 <= i < |r| ==> f(r[i])
  {
    if s == [] then []
    else if f(s[|s| - 1]) then Filtrar(s[..|s| - 1], f) + [s[|s| - 1]]
    else Filtrar(s[..|s| - 1], f)
  }

  /** Filtering keeps every occurrence of an element that satisfies `f` and
      drops every occurrence of one that does not. */
  lemma {:induction false} FiltrarMultiset<T>(s: seq<T>, f: T -> bool)
    ensures forall x :: multiset(Filtrar(s, f))[x] == if f(x) then multiset(s)[x] else 0
  {
    if s != [] {
      var init, last := s[..|s| - 1], s[|s| - 1];
      FiltrarMultiset(init, f);
      assert s == init + [last];
    }
  }

  /** When nothing is dropped the filter returns its input. */
  lemma {:induction false} FiltrarTodo<T>(s: seq<T>, f: T -> bool)
    requires forall i :: 0 <= i < |s| ==> f(s[i])
    ensures Filtrar(s, f) == s
  {
    if s != [] {
      FiltrarTodo(s[..|s| - 1], f);
      assert s == s[..|s| - 1] + [s[|s| - 1]];
    }
  }

  /** Two lists on which `f` gives the same answer position by position
      filter to lists of the same length. */
  lemma {:induction false} FiltrarMismaLongitud<T>(s: seq<T>, t: seq<T>, f: T -> bool)
    requires |s| == |t|
    requires forall i :: 0 <= i < |s| ==> f(s[i]) == f(t[i])
    ensures |Filtrar(s, f)| == |Filtrar(t, f)|
  {
    if s != [] {
      FiltrarMismaLongitud(s[..|s| - 1], t[..|t| - 1], f);
    }
  }
}
