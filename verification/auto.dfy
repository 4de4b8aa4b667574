/**
 * The automation agent: the year-by-year comparison of keeping and reinvesting
 * dividends, and the monthly contribution needed to reach a target income.
 */
module Auto {
  import opened Comum

  function Pot(x: real, k: nat): real
  {
    if k == 0 then 1.0 else Pot(x, k - 1) * x
  }

  /** Bernoulli's inequality: (1 + x)^k >= 1 + k*x for x >= -1. */
  lemma {:induction false} Bernoulli(x: real, k: nat)
    requires x >= -1.0
    ensures Pot(1.0 + x, k) >= 1.0 + k as real * x
  {
    if k > 0 {
      Bernoulli(x, k - 1);
      var p := Pot(1.0 + x, k - 1);
      var b := 1.0 + (k - 1) as real * x;
      assert p * (1.0 + x) >= b * (1.0 + x) by {
        MultiplicaMonotona(b, p, 1.0 + x);
      }
      assert b * (1.0 + x) == 1.0 + k as real * x + (k - 1) as real * (x * x);
      assert (k - 1) as real * (x * x) >= 0.0;
    }
  }

  datatype Simulacao = Simulacao(
    anos: seq<int>,
    valorSemReinvestimento: seq<real>,
    valorComReinvestimento: seq<real>,
    dividendosAcumulados: seq<real>,
    diferencaReinvestimento: seq<real>)

  /** Capital after k years when every dividend is reinvested. */
  function ValorCom(valorInicial: real, dyAnual: real, k: nat): real
  {
    valorInicial * Pot(1.0 + dyAnual, k)
  }

  /** Dividends collected in k years when none is reinvested. */
  function Acumulado(valorInicial: real, dyAnual: real, k: nat): real
  {
    k as real * (valorInicial * dyAnual)
  }

  lemma ValorComPasso(valorInicial: real, dyAnual: real, k: nat)
    ensures ValorCom(valorInicial, dyAnual, k + 1)
         == ValorCom(valorInicial, dyAnual, k) + ValorCom(valorInicial, dyAnual, k) * dyAnual
  {
    var p := Pot(1.0 + dyAnual, k);
    assert Pot(1.0 + dyAnual, k + 1) == p * (1.0 + dyAnual);
    assert valorInicial * (p * (1.0 + dyAnual)) == valorInicial * p + (valorInicial * p) * dyAnual;
  }

  lemma AcumuladoPasso(valorInicial: real, dyAnual: real, k: nat)
    ensures Acumulado(valorInicial, dyAnual, k + 1)
         == Acumulado(valorInicial, dyAnual, k) + valorInicial * dyAnual
  {
  }

  /**
   * Year k (1-based) of the simulation: with reinvestment the capital compounds to
   * inicial*(1+dy)^k; without it, k yearly dividends of inicial*dy pile up beside the
   * initial capital; the difference is the gain from reinvesting. No years for
   * `anos` <= 0.
   */
  method SimularReinvestimento(valorInicial: real, dyAnual: real, anos: int) returns (r: Simulacao)
    ensures var n := if anos > 0 then anos else 0;
            && |r.anos| == n && |r.valorSemReinvestimento| == n && |r.valorComReinvestimento| == n
            && |r.dividendosAcumulados| == n && |r.diferencaReinvestimento| == n
    ensures forall k :: 0 <= k < |r.anos| ==>
              && r.anos[k] == k + 1
              && r.valorComReinvestimento[k] == ValorCom(valorInicial, dyAnual, k + 1)
              && r.dividendosAcumulados[k] == Acumulado(valorInicial, dyAnual, k + 1)
              && r.valorSemReinvestimento[k] == valorInicial + Acumulado(valorInicial, dyAnual, k + 1)
              && r.diferencaReinvestimento[k] == r.valorComReinvestimento[k] - r.valorSemReinvestimento[k]
    ensures valorInicial >= 0.0 && dyAnual >= 0.0 ==>
              forall k :: 0 <= k < |r.diferencaReinvestimento| ==> r.diferencaReinvestimento[k] >= 0.0
  {
    var anosL: seq<int> := [];
    var sem: seq<real> := [];
    var com: seq<real> := [];
    var acumulados: seq<real> := [];
    var diferencas: seq<real> := [];
    var valorComReinv := valorInicial;
    var dividendosAcumulados := 0.0;
    var ano := 1;
    while ano <= anos
      invariant 1 <= ano && (anos >= 0 ==> ano <= anos + 1) && (anos < 0 ==> ano == 1)
      invariant |anosL| == ano - 1 && |sem| == ano - 1 && |com| == ano - 1
      invariant |acumulados| == ano - 1 && |diferencas| == ano - 1
      invariant valorComReinv == ValorCom(valorInicial, dyAnual, ano - 1)
      invariant dividendosAcumulados == Acumulado(valorInicial, dyAnual, ano - 1)
      invariant forall k :: 0 <= k < |anosL| ==>
                  && anosL[k] == k + 1
                  && com[k] == ValorCom(valorInicial, dyAnual, k + 1)
                  && acumulados[k] == Acumulado(valorInicial, dyAnual, k + 1)
                  && sem[k] == valorInicial + Acumulado(valorInicial, dyAnual, k + 1)
                  && diferencas[k] == com[k] - sem[k]
    {
      ValorComPasso(valorInicial, dyAnual, ano - 1);
      AcumuladoPasso(valorInicial, dyAnual, ano - 1);
      var dividendosAnoSem := valorInicial * dyAnual;
      dividendosAcumulados := dividendosAcumulados + dividendosAnoSem;
      var dividendosAnoCom := valorComReinv * dyAnual;
      valorComReinv := valorComReinv + dividendosAnoCom;
      var diferenca := valorComReinv - (valorInicial + dividendosAcumulados);
      anosL := anosL + [ano];
      sem := sem + [valorInicial + dividendosAcumulados];
      com := com + [valorComReinv];
      acumulados := acumulados + [dividendosAcumulados];
      diferencas := diferencas + [diferenca];
      ano := ano + 1;
    }
    r := Simulacao(anosL, sem, com, acumulados, diferencas);
    if valorInicial >= 0.0 && dyAnual >= 0.0 {
      forall k | 0 <= k < |diferencas| ensures diferencas[k] >= 0.0 {
        ReinvestimentoCompensa(valorInicial, dyAnual, k + 1);
      }
    }
  }

  /** Reinvesting never loses: with a non-negative capital and yield every difference is >= 0. */
  lemma ReinvestimentoCompensa(valorInicial: real, dyAnual: real, k: nat)
    requires valorInicial >= 0.0 && dyAnual >= 0.0
    ensures ValorCom(valorInicial, dyAnual, k) - (valorInicial + Acumulado(valorInicial, dyAnual, k)) >= 0.0
  {
    Bernoulli(dyAnual, k);
    MultiplicaMonotona(1.0 + k as real * dyAnual, Pot(1.0 + dyAnual, k), valorInicial);
    assert valorInicial + Acumulado(valorInicial, dyAnual, k) == (1.0 + k as real * dyAnual) * valorInicial;
  }

  /**
   * The monthly contribution that gathers, in 60 months, the capital whose yield
   * `dyMedio` pays `rendaObjetivo` a year; 0 when the yield is not positive.
   */
  function CalcularAporteMensalNecessario(rendaObjetivo: real, dyMedio: real): (aporte: real)
    ensures dyMedio <= 0.0 ==> aporte == 0.0
    ensures dyMedio > 0.0 ==> aporte * 60.0 * dyMedio == rendaObjetivo
    ensures dyMedio > 0.0 && rendaObjetivo >= 0.0 ==> aporte >= 0.0
  {
    if dyMedio <= 0.0 then 0.0
    else
      var valorNecessario := rendaObjetivo / dyMedio;
      valorNecessario / 60.0
  }
}
