/**
 * Python's `sorted(xs, key=k, reverse=True)` followed by `[:limite]`, over pairs
 * of an item and its key: a descending sort that keeps items with equal keys in
 * their input order, then a slice with Python's rules for a negative bound.
 */
module Ordenacao {

  /** Non-increasing keys. */
  predicate Decrescente<T>(s: seq<(T, real)>)
  {
    forall i, j :: 0 <= i < j < |s| ==> s[i].1 >= s[j].1
  }

  /** The items of `s` whose key is `v`, in their order in `s`. */
  function ComChave<T>(s: seq<(T, real)>, v: real): seq<(T, real)>
  {
    if s == [] then []
    else (if s[0].1 == v then [s[0]] else []) + ComChave(s[1..], v)
  }

  /** Inserts `x` before the first element whose key is not larger. */
  function Inserir<T>(x: (T, real), s: seq<(T, real)>): (r: seq<(T, real)>)
    ensures |r| == |s| + 1
    ensures r[0] == if s == [] || x.1 >= s[0].1 then x else s[0]
  {
    if s == [] || x.1 >= s[0].1 then [x] + s
    else [s[0]] + Inserir(x, s[1..])
  }

  /** Insertion adds `x` and loses nothing. */
  lemma {:induction false} InserirPermutacao<T>(x: (T, real), s: seq<(T, real)>)
    ensures multiset(Inserir(x, s)) == multiset(s) + multiset{x}
  {
    if s != [] && x.1 < s[0].1 {
      InserirPermutacao(x, s[1..]);
      assert s == [s[0]] + s[1..];
    }
  }

  /** Insertion into a non-increasing sequence keeps it non-increasing. */
  lemma {:induction false} InserirOrdena<T>(x: (T, real), s: seq<(T, real)>)
    requires Decrescente(s)
    ensures Decrescente(Inserir(x, s))
  {
    if s != [] && x.1 < s[0].1 {
      var resto := Inserir(x, s[1..]);
      InserirOrdena(x, s[1..]);
      assert resto[0].1 <= s[0].1;
      assert forall j :: 0 <= j < |resto| ==> resto[j].1 <= resto[0].1;
      assert Inserir(x, s) == [s[0]] + resto;
    }
  }

  lemma MultisetCabeca<T>(s: seq<T>)
    requires s != []
    ensures multiset(s) == multiset(s[1..]) + multiset{s[0]}
  {
    assert s == [s[0]] + s[1..];
  }

  /** Stable descending sort by key. */
  function OrdenarDesc<T>(s: seq<(T, real)>): (r: seq<(T, real)>)
    ensures multiset(r) == multiset(s)
    ensures |r| == |s|
    ensures Decrescente(r)
  {
    if s == [] then []
    else
      var resto := OrdenarDesc(s[1..]);
      InserirPermutacao(s[0], resto);
      InserirOrdena(s[0], resto);
      MultisetCabeca(s);
      Inserir(s[0], resto)
  }

  lemma ComChaveCons<T>(y: (T, real), t: seq<(T, real)>, v: real)
    ensures ComChave([y] + t, v) == (if y.1 == v then [y] else []) + ComChave(t, v)
  {
    assert ([y] + t)[1..] == t;
  }

  /** Inserting `x` puts it ahead of every item with the same key. */
  lemma {:induction false} InserirEstavel<T>(x: (T, real), s: seq<(T, real)>, v: real)
    ensures ComChave(Inserir(x, s), v) == (if x.1 == v then [x] else []) + ComChave(s, v)
  {
    if s == [] || x.1 >= s[0].1 {
      ComChaveCons(x, s, v);
    } else {
      var resto := Inserir(x, s[1..]);
      InserirEstavel(x, s[1..], v);
      ComChaveCons(s[0], resto, v);
      ComChaveCons(s[0], s[1..], v);
      assert s == [s[0]] + s[1..];
      var cx := if x.1 == v then [x] else [];
      var cs := if s[0].1 == v then [s[0]] else [];
      assert cx == [] || cs == [];
      assert cs + (cx + ComChave(s[1..], v)) == cx + (cs + ComChave(s[1..], v));
    }
  }

  /** The sort is stable: for every key, the items with that key keep their input order. */
  lemma {:induction false} OrdenarDescEstavel<T>(s: seq<(T, real)>, v: real)
    ensures ComChave(OrdenarDesc(s), v) == ComChave(s, v)
  {
    if s != [] {
      OrdenarDescEstavel(s[1..], v);
      InserirEstavel(s[0], OrdenarDesc(s[1..]), v);
    }
  }

  /** `s[:limite]` in Python: a negative bound counts from the end. */
  function Prefixo<T>(s: seq<T>, limite: int): (r: seq<T>)
    ensures limite >= 0 ==> |r| == (if limite <= |s| then limite else |s|)
    ensures limite < 0 ==> |r| == (if |s| + limite >= 0 then |s| + limite else 0)
    ensures |r| <= |s| && r == s[..|r|]
  {
    if limite >= 0 then (if limite <= |s| then s[..limite] else s)
    else if |s| + limite >= 0 then s[..|s| + limite] else []
  }

  lemma PrefixoDecrescente<T>(s: seq<(T, real)>, limite: int)
    requires Decrescente(s)
    ensures Decrescente(Prefixo(s, limite))
  {
  }

  /** The items without their keys. */
  function Elementos<T>(s: seq<(T, real)>): (r: seq<T>)
    ensures |r| == |s|
    ensures forall i :: 0 <= i < |s| ==> r[i] == s[i].0
  {
    seq(|s|, i requires 0 <= i < |s| => s[i].0)
  }
}
