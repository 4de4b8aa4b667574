/**
 * The explainability agent: the factor lists and recommendation label behind a
 * score, and the three dividend scenarios of an investment.
 */
module Xai {
  import opened Wrappers
  import opened Dados
  import Finance

  /** One explanatory factor (the source formats each as a sentence with the metric's value). */
  datatype Fator =
    | DyAcimaDoAlvo | DyModerado | DyAbaixoDoEsperado
    | RoeAlto | RoeSatisfatorio | RoeBaixo
    | PlSubvalorizado | PlRazoavel | PlCaro

  /** One risk caveat. */
  datatype Ressalva = ClassificadoAltoRisco | AltaAlavancagem | DyMuitoAlto

  /** The summary and recommendation pair, from strongest to weakest. */
  datatype Recomendacao = CompraForte | Compra | Neutro | Evitar

  datatype Explicacao = Explicacao(
    positivos: seq<Fator>,
    negativos: seq<Fator>,
    neutros: seq<Fator>,
    riscos: seq<Ressalva>,
    recomendacao: Recomendacao)

  function Forca(r: Recomendacao): nat
  {
    match r
    case Evitar => 0
    case Neutro => 1
    case Compra => 2
    case CompraForte => 3
  }

  /** The label for a score: 8 and above "compra forte", 6 "compra", 4 "neutro", below "evitar". */
  function RecomendacaoPorScore(score: real): (r: Recomendacao)
    ensures r == CompraForte <==> score >= 8.0
    ensures r == Evitar <==> score < 4.0
  {
    if score >= 8.0 then CompraForte
    else if score >= 6.0 then Compra
    else if score >= 4.0 then Neutro
    else Evitar
  }

  /** A higher score never gets a weaker recommendation. */
  lemma RecomendacaoMonotona(s1: real, s2: real)
    requires s1 <= s2
    ensures Forca(RecomendacaoPorScore(s1)) <= Forca(RecomendacaoPorScore(s2))
  {
  }

  /** Where one metric's factor goes. */
  datatype Lista = Positivos | Neutros | Negativos

  function Tag(f: Fator, l: Lista, onde: Lista): seq<Fator>
  {
    if l == onde then [f] else []
  }

  /**
   * The detailed explanation of an analysis: the yield and the ROE always give one
   * factor each, the P/L gives one exactly when it is positive; caveats for an
   * "alto" tier, D/E above 1 and a yield above 15%; the label from the score.
   * Nothing of the analysis is changed.
   */
  function ExplicacaoScoreDetalhada(a: AnaliseAtivo): (e: Explicacao)
    reads a
    ensures e.riscos == (if a.riscoNivel == Alto then [ClassificadoAltoRisco] else [])
                        + (if a.debtEquity > 1.0 then [AltaAlavancagem] else [])
                        + (if a.dy > 0.15 then [DyMuitoAlto] else [])
    ensures e.recomendacao == RecomendacaoPorScore(a.score)
    ensures var dy, roe, pl := ListaDy(a.dy), ListaRoe(a.roe), ListaPl(a.pl);
            forall l :: Fatores(e, l) == Tag(DyFator(dy), dy, l) + Tag(RoeFator(roe), roe, l)
                                         + (if pl.Some? then Tag(PlFator(pl.value), pl.value, l) else [])
  {
    var dy, roe, pl := ListaDy(a.dy), ListaRoe(a.roe), ListaPl(a.pl);
    var fatores := map l: Lista ::
      Tag(DyFator(dy), dy, l) + Tag(RoeFator(roe), roe, l)
      + (if pl.Some? then Tag(PlFator(pl.value), pl.value, l) else []);
    Explicacao(
      fatores[Positivos],
      fatores[Negativos],
      fatores[Neutros],
      (if a.riscoNivel == Alto then [ClassificadoAltoRisco] else [])
        + (if a.debtEquity > 1.0 then [AltaAlavancagem] else [])
        + (if a.dy > 0.15 then [DyMuitoAlto] else []),
      RecomendacaoPorScore(a.score))
  }

  function Fatores(e: Explicacao, l: Lista): seq<Fator>
  {
    match l
    case Positivos => e.positivos
    case Neutros => e.neutros
    case Negativos => e.negativos
  }

  /** The yield is positive above 8%, neutral above 5%, negative otherwise. */
  function ListaDy(dy: real): (l: Lista)
    ensures l == Positivos <==> dy > 0.08
    ensures l == Neutros <==> 0.05 < dy <= 0.08
  {
    if dy > 0.08 then Positivos else if dy > 0.05 then Neutros else Negativos
  }

  /** The ROE is positive above 20%, neutral above 15%, negative otherwise. */
  function ListaRoe(roe: real): (l: Lista)
    ensures l == Positivos <==> roe > 0.20
    ensures l == Neutros <==> 0.15 < roe <= 0.20
  {
    if roe > 0.20 then Positivos else if roe > 0.15 then Neutros else Negativos
  }

  /** The P/L is positive below 10, neutral up to 15, negative above, and absent when not positive. */
  function ListaPl(pl: real): (l: Option<Lista>)
    ensures l.None? <==> pl <= 0.0
    ensures l == Some(Positivos) <==> 0.0 < pl < 10.0
    ensures l == Some(Neutros) <==> 10.0 <= pl <= 15.0
    ensures l == Some(Negativos) <==> pl > 15.0
  {
    if 0.0 < pl < 10.0 then Some(Positivos)
    else if 10.0 <= pl <= 15.0 then Some(Neutros)
    else if pl > 15.0 then Some(Negativos)
    else None
  }

  /** The yield factor lands in exactly one list, as the 8% and 5% cut-points say. */
  lemma ExplicacaoDy(a: AnaliseAtivo)
    ensures var e := ExplicacaoScoreDetalhada(a);
            && (DyAcimaDoAlvo in e.positivos <==> a.dy > 0.08)
            && (DyModerado in e.neutros <==> 0.05 < a.dy <= 0.08)
            && (DyAbaixoDoEsperado in e.negativos <==> a.dy <= 0.05)
  {
    var e := ExplicacaoScoreDetalhada(a);
    forall l ensures DyFator(ListaDy(a.dy)) in Fatores(e, l) <==> ListaDy(a.dy) == l {
      FatoresMembro(a, l, DyFator(ListaDy(a.dy)));
    }
    assert Fatores(e, Positivos) == e.positivos;
    assert Fatores(e, Neutros) == e.neutros;
    assert Fatores(e, Negativos) == e.negativos;
    forall l ensures (DyAcimaDoAlvo in Fatores(e, l) <==> ListaDy(a.dy) == Positivos == l) {
      FatoresMembro(a, l, DyAcimaDoAlvo);
    }
    forall l ensures (DyModerado in Fatores(e, l) <==> ListaDy(a.dy) == Neutros == l) {
      FatoresMembro(a, l, DyModerado);
    }
    forall l ensures (DyAbaixoDoEsperado in Fatores(e, l) <==> ListaDy(a.dy) == Negativos == l) {
      FatoresMembro(a, l, DyAbaixoDoEsperado);
    }
  }

  /** The ROE factor lands in exactly one list, as the 20% and 15% cut-points say. */
  lemma ExplicacaoRoe(a: AnaliseAtivo)
    ensures var e := ExplicacaoScoreDetalhada(a);
            && (RoeAlto in e.positivos <==> a.roe > 0.20)
            && (RoeSatisfatorio in e.neutros <==> 0.15 < a.roe <= 0.20)
            && (RoeBaixo in e.negativos <==> a.roe <= 0.15)
  {
    var e := ExplicacaoScoreDetalhada(a);
    assert Fatores(e, Positivos) == e.positivos;
    assert Fatores(e, Neutros) == e.neutros;
    assert Fatores(e, Negativos) == e.negativos;
    forall l ensures (RoeAlto in Fatores(e, l) <==> ListaRoe(a.roe) == Positivos == l) {
      FatoresMembro(a, l, RoeAlto);
    }
    forall l ensures (RoeSatisfatorio in Fatores(e, l) <==> ListaRoe(a.roe) == Neutros == l) {
      FatoresMembro(a, l, RoeSatisfatorio);
    }
    forall l ensures (RoeBaixo in Fatores(e, l) <==> ListaRoe(a.roe) == Negativos == l) {
      FatoresMembro(a, l, RoeBaixo);
    }
  }

  /** The P/L factor lands in the list its range says, and in none when the P/L is not positive. */
  lemma ExplicacaoPl(a: AnaliseAtivo)
    ensures var e := ExplicacaoScoreDetalhada(a);
            && (PlSubvalorizado in e.positivos <==> 0.0 < a.pl < 10.0)
            && (PlRazoavel in e.neutros <==> 10.0 <= a.pl <= 15.0)
            && (PlCaro in e.negativos <==> a.pl > 15.0)
            && (a.pl <= 0.0 ==> forall f :: f in e.positivos + e.neutros + e.negativos ==> f !in {PlSubvalorizado, PlRazoavel, PlCaro})
  {
    var e := ExplicacaoScoreDetalhada(a);
    assert Fatores(e, Positivos) == e.positivos;
    assert Fatores(e, Neutros) == e.neutros;
    assert Fatores(e, Negativos) == e.negativos;
    forall l ensures (PlSubvalorizado in Fatores(e, l) <==> ListaPl(a.pl) == Some(Positivos) && l == Positivos) {
      FatoresMembro(a, l, PlSubvalorizado);
    }
    forall l ensures (PlRazoavel in Fatores(e, l) <==> ListaPl(a.pl) == Some(Neutros) && l == Neutros) {
      FatoresMembro(a, l, PlRazoavel);
    }
    forall l ensures (PlCaro in Fatores(e, l) <==> ListaPl(a.pl) == Some(Negativos) && l == Negativos) {
      FatoresMembro(a, l, PlCaro);
    }
  }

  /** Two or three factors in all: one per metric, none for a P/L that is not positive. */
  lemma ExplicacaoContagem(a: AnaliseAtivo)
    ensures var e := ExplicacaoScoreDetalhada(a);
            |e.positivos| + |e.neutros| + |e.negativos| == if a.pl > 0.0 then 3 else 2
  {
    var e := ExplicacaoScoreDetalhada(a);
    assert Fatores(e, Positivos) == e.positivos;
    assert Fatores(e, Neutros) == e.neutros;
    assert Fatores(e, Negativos) == e.negativos;
  }

  /**
   * Each caveat appears exactly when its condition holds, at most once, and the
   * explanation's label depends on the score alone.
   */
  lemma ExplicacaoRiscos(a: AnaliseAtivo)
    ensures var e := ExplicacaoScoreDetalhada(a);
            && (ClassificadoAltoRisco in e.riscos <==> a.riscoNivel == Alto)
            && (AltaAlavancagem in e.riscos <==> a.debtEquity > 1.0)
            && (DyMuitoAlto in e.riscos <==> a.dy > 0.15)
            && |e.riscos| <= 3
            && (e.recomendacao == CompraForte <==> a.score >= 8.0)
            && (e.recomendacao == Compra <==> 6.0 <= a.score < 8.0)
            && (e.recomendacao == Neutro <==> 4.0 <= a.score < 6.0)
            && (e.recomendacao == Evitar <==> a.score < 4.0)
  {
    var e := ExplicacaoScoreDetalhada(a);
    var alto := if a.riscoNivel == Alto then [ClassificadoAltoRisco] else [];
    var alav := if a.debtEquity > 1.0 then [AltaAlavancagem] else [];
    var muito := if a.dy > 0.15 then [DyMuitoAlto] else [];
    assert e.riscos == alto + alav + muito;
    assert ClassificadoAltoRisco in e.riscos <==> ClassificadoAltoRisco in alto;
    assert AltaAlavancagem in e.riscos <==> AltaAlavancagem in alav;
    assert DyMuitoAlto in e.riscos <==> DyMuitoAlto in muito;
  }

  lemma FatoresMembro(a: AnaliseAtivo, l: Lista, f: Fator)
    ensures var dy, roe, pl := ListaDy(a.dy), ListaRoe(a.roe), ListaPl(a.pl);
            f in Fatores(ExplicacaoScoreDetalhada(a), l)
            <==> (f == DyFator(dy) && dy == l) || (f == RoeFator(roe) && roe == l)
                 || (pl.Some? && f == PlFator(pl.value) && pl.value == l)
  {
    var dy, roe, pl := ListaDy(a.dy), ListaRoe(a.roe), ListaPl(a.pl);
    var e := ExplicacaoScoreDetalhada(a);
    var parteDy, parteRoe := Tag(DyFator(dy), dy, l), Tag(RoeFator(roe), roe, l);
    var partePl := if pl.Some? then Tag(PlFator(pl.value), pl.value, l) else [];
    assert Fatores(e, l) == parteDy + parteRoe + partePl;
    assert f in parteDy <==> f == DyFator(dy) && dy == l;
    assert f in parteRoe <==> f == RoeFator(roe) && roe == l;
    assert f in partePl <==> pl.Some? && f == PlFator(pl.value) && pl.value == l;
  }

  function DyFator(l: Lista): Fator
  {
    match l
    case Positivos => DyAcimaDoAlvo
    case Neutros => DyModerado
    case Negativos => DyAbaixoDoEsperado
  }

  function RoeFator(l: Lista): Fator
  {
    match l
    case Positivos => RoeAlto
    case Neutros => RoeSatisfatorio
    case Negativos => RoeBaixo
  }

  function PlFator(l: Lista): Fator
  {
    match l
    case Positivos => PlSubvalorizado
    case Neutros => PlRazoavel
    case Negativos => PlCaro
  }

  // ---------------------------------------------------------------- scenarios

  datatype Cenario = Cenario(dy: real, rendaAnual: real, rendaMensal: real)
  datatype Cenarios = Cenarios(conservador: Cenario, realista: Cenario, otimista: Cenario)

  function CenarioCom(investido: real, dy: real): (c: Cenario)
    ensures c.dy == dy && c.rendaAnual == investido * dy
    ensures c.rendaMensal * 12.0 == c.rendaAnual
  {
    Cenario(dy, investido * dy, investido * dy / 12.0)
  }

  /**
   * The yield -20%, as is, and +20% scenarios for investing `valorInvestimento`
   * in whole shares; no scenarios (the empty dictionary) without a positive price.
   */
  function SimularCenarios(a: AnaliseAtivo, valorInvestimento: real): (r: Option<Cenarios>)
    ensures r.None? <==> a.precoAtual <= 0.0
    ensures r.Some? ==>
              var c := r.value;
              var investido := Finance.ValorInvestido(valorInvestimento, a.precoAtual);
              && c.conservador.dy == 0.8 * a.dy
              && c.realista.dy == a.dy
              && c.otimista.dy == 1.2 * a.dy
              && c.realista.rendaAnual == Finance.Item(a, valorInvestimento, 0.0).rendaAnual
              && (forall x :: x in [c.conservador, c.realista, c.otimista] ==>
                    x.rendaAnual == investido * x.dy && x.rendaMensal * 12.0 == x.rendaAnual)
    ensures r.Some? && valorInvestimento >= 0.0 && a.dy >= 0.0 ==>
              0.0 <= r.value.conservador.rendaAnual <= r.value.realista.rendaAnual <= r.value.otimista.rendaAnual
  {
    if a.precoAtual > 0.0 then
      var investido := Finance.ValorInvestido(valorInvestimento, a.precoAtual);
      assert valorInvestimento >= 0.0 && a.dy >= 0.0 ==>
        0.0 <= investido * (0.8 * a.dy) <= investido * a.dy <= investido * (1.2 * a.dy) by {
        if valorInvestimento >= 0.0 && a.dy >= 0.0 {
          OrdemCenarios(investido, a.dy);
        }
      }
      Some(Cenarios(CenarioCom(investido, 0.8 * a.dy), CenarioCom(investido, a.dy), CenarioCom(investido, 1.2 * a.dy)))
    else None
  }

  lemma OrdemCenarios(investido: real, dy: real)
    requires investido >= 0.0 && dy >= 0.0
    ensures 0.0 <= investido * (0.8 * dy) <= investido * dy <= investido * (1.2 * dy)
  {
    assert investido * (0.8 * dy) == 0.8 * (investido * dy);
    assert investido * (1.2 * dy) == 1.2 * (investido * dy);
    assert investido * dy >= 0.0;
  }
}
