/**
 * The pre-filter applied before ranking: keep the analyses of the chosen risk
 * tier ("todos" keeps every tier, here `None`) whose dividend yield reaches the
 * chosen minimum, in their original order.
 */
module Filtro {
  import opened Wrappers
  import opened Dados

  predicate Passa(a: AnaliseAtivo, filtroRisco: Option<Risco>, filtroDyMin: real)
  {
    (filtroRisco.None? || a.riscoNivel == filtroRisco.value) && a.dy >= filtroDyMin
  }

  /** The analyses that pass, in order. */
  function Filtradas(analises: seq<AnaliseAtivo>, filtroRisco: Option<Risco>, filtroDyMin: real)
    : (r: seq<AnaliseAtivo>)
    ensures |r| <= |analises|
    ensures forall k :: 0 <= k < |r| ==> Passa(r[k], filtroRisco, filtroDyMin)
    decreases |analises|
  {
    if analises == [] then []
    else
      var n := |analises| - 1;
      Filtradas(analises[..n], filtroRisco, filtroDyMin)
      + (if Passa(analises[n], filtroRisco, filtroDyMin) then [analises[n]] else [])
  }

  /** The analyses kept are exactly those of the input that pass. */
  lemma {:induction false} FiltradasMembros(analises: seq<AnaliseAtivo>, filtroRisco: Option<Risco>, filtroDyMin: real)
    ensures forall k :: 0 <= k < |analises| && Passa(analises[k], filtroRisco, filtroDyMin)
                        ==> analises[k] in Filtradas(analises, filtroRisco, filtroDyMin)
    ensures forall a :: a in Filtradas(analises, filtroRisco, filtroDyMin) ==> a in analises
    decreases |analises|
  {
    if analises != [] {
      var n := |analises| - 1;
      FiltradasMembros(analises[..n], filtroRisco, filtroDyMin);
      assert analises == analises[..n] + [analises[n]];
    }
  }

  /**
   * Filtering keeps the original order: filtering a concatenation concatenates
   * the filtered parts.
   */
  lemma {:induction false} FiltradasConcat(xs: seq<AnaliseAtivo>, ys: seq<AnaliseAtivo>,
                                           filtroRisco: Option<Risco>, filtroDyMin: real)
    ensures Filtradas(xs + ys, filtroRisco, filtroDyMin)
         == Filtradas(xs, filtroRisco, filtroDyMin) + Filtradas(ys, filtroRisco, filtroDyMin)
    decreases |ys|
  {
    if ys == [] {
      assert xs + ys == xs;
    } else {
      var m := |ys| - 1;
      var zs := xs + ys;
      var ultimo := if Passa(ys[m], filtroRisco, filtroDyMin) then [ys[m]] else [];
      assert zs[..|zs| - 1] == xs + ys[..m] && zs[|zs| - 1] == ys[m];
      assert Filtradas(zs, filtroRisco, filtroDyMin) == Filtradas(xs + ys[..m], filtroRisco, filtroDyMin) + ultimo;
      assert Filtradas(ys, filtroRisco, filtroDyMin) == Filtradas(ys[..m], filtroRisco, filtroDyMin) + ultimo;
      FiltradasConcat(xs, ys[..m], filtroRisco, filtroDyMin);
    }
  }

  /** With no tier chosen and no minimum above any yield, nothing is dropped. */
  lemma {:induction false} FiltroNeutro(analises: seq<AnaliseAtivo>, filtroDyMin: real)
    requires forall k :: 0 <= k < |analises| ==> analises[k].dy >= filtroDyMin
    ensures Filtradas(analises, None, filtroDyMin) == analises
    decreases |analises|
  {
    if analises != [] {
      var n := |analises| - 1;
      FiltroNeutro(analises[..n], filtroDyMin);
      assert analises == analises[..n] + [analises[n]];
    }
  }

  /** The filtering loop. */
  method FiltrarAnalises(todasAnalises: seq<AnaliseAtivo>, filtroRisco: Option<Risco>, filtroDyMin: real)
    returns (analisesFiltradas: seq<AnaliseAtivo>)
    ensures analisesFiltradas == Filtradas(todasAnalises, filtroRisco, filtroDyMin)
  {
    analisesFiltradas := [];
    var i := 0;
    while i < |todasAnalises|
      invariant 0 <= i <= |todasAnalises|
      invariant analisesFiltradas == Filtradas(todasAnalises[..i], filtroRisco, filtroDyMin)
    {
      var analise := todasAnalises[i];
      assert todasAnalises[..i + 1][..i] == todasAnalises[..i];
      if filtroRisco.Some? && analise.riscoNivel != filtroRisco.value {
        i := i + 1;
        continue;
      }
      if analise.dy < filtroDyMin {
        i := i + 1;
        continue;
      }
      analisesFiltradas := analisesFiltradas + [analise];
      i := i + 1;
    }
    assert todasAnalises[..i] == todasAnalises;
  }
}
