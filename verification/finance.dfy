/**
 * The fundamental-analysis agent: dividend-yield normalisation, the opportunity
 * score, the risk classifier, the construction of an analysis record from the
 * market-data fields, and the aggregation of a portfolio.
 */
module Finance {
  import opened Wrappers
  import opened Somas
  import opened Dados
  import opened Comum

  function Min(x: real, y: real): real
  {
    if x <= y then x else y
  }

  // ---------------------------------------------------------------- dividend yield

  /** A yield above 1 is taken to be a percentage and divided by 100. */
  function Reescalado(dy: real): real
  {
    if dy > 1.0 then dy / 100.0 else dy
  }

  /**
   * Normalises a dividend yield: a missing or negative value becomes 0 with the
   * "invalid" notice, a percentage is rescaled, and anything above 30% is capped
   * at 0.3 with the "above the cap" banner.
   */
  function ValidarDy(dy: Option<real>): (r: (real, AlertaDy))
    ensures 0.0 <= r.0 <= 0.3
    ensures r.1 == DyInvalido <==> dy.None? || dy.value < 0.0
    ensures r.1 == DyAcimaDoTeto <==> dy.Some? && dy.value >= 0.0 && Reescalado(dy.value) > 0.3
    ensures r.1 == SemAlerta ==> dy.Some? && r.0 == Reescalado(dy.value)
    ensures r.1 == DyAcimaDoTeto ==> r.0 == 0.3
    ensures r.1 == DyInvalido ==> r.0 == 0.0
    ensures dy.Some? && 0.0 <= dy.value <= 0.3 ==> r == (dy.value, SemAlerta)
  {
    if dy.None? || dy.value < 0.0 then (0.0, DyInvalido)
    else
      var v := Reescalado(dy.value);
      if v > 0.3 then (0.3, DyAcimaDoTeto) else (v, SemAlerta)
  }

  /** Normalising an already normalised yield changes nothing and raises no alert. */
  lemma ValidarDyIdempotente(dy: Option<real>)
    ensures ValidarDy(Some(ValidarDy(dy).0)) == (ValidarDy(dy).0, SemAlerta)
  {
  }

  // ---------------------------------------------------------------- opportunity score

  /** Yield term: 4 points at 8% or more, proportional below, 0 for no yield. */
  function ScoreDy(dy: real): (t: real)
    ensures 0.0 <= t <= 4.0
    ensures dy >= 0.08 ==> t == 4.0
    ensures t == 0.0 <==> dy <= 0.0
  {
    if dy > 0.0 then Min(dy / 0.08, 1.0) * 4.0 else 0.0
  }

  /** Earnings-multiple term: 1.5 points up to P/L 15, decreasing above, 0 when P/L <= 0. */
  function ScorePl(pl: real): (t: real)
    ensures 0.0 <= t <= 1.5
    ensures 0.0 < pl <= 15.0 ==> t == 1.5
    ensures t == 0.0 <==> pl <= 0.0
  {
    Min(if pl > 0.0 then 15.0 / pl else 0.0, 1.0) * 1.5
  }

  /** Book-multiple term: 1.5 points up to P/VP 2, decreasing above, 0 when P/VP <= 0. */
  function ScorePvp(pvp: real): (t: real)
    ensures 0.0 <= t <= 1.5
    ensures 0.0 < pvp <= 2.0 ==> t == 1.5
    ensures t == 0.0 <==> pvp <= 0.0
  {
    Min(if pvp > 0.0 then 2.0 / pvp else 0.0, 1.0) * 1.5
  }

  /** Profitability term: 3 points at ROE 20% or more, proportional below. */
  function ScoreRoe(roe: real): (t: real)
    ensures 0.0 <= t <= 3.0
    ensures roe >= 0.20 ==> t == 3.0
    ensures t == 0.0 <==> roe <= 0.0
  {
    if roe > 0.0 then Min(roe / 0.20, 1.0) * 3.0 else 0.0
  }

  /** Cash-generation term: 0.5 points at a free cash flow of 1e9 or more. */
  function ScoreFcf(fcf: real): (t: real)
    ensures 0.0 <= t <= 0.5
    ensures fcf >= 1000000000.0 ==> t == 0.5
    ensures t == 0.0 <==> fcf <= 0.0
  {
    Min(if fcf > 0.0 then fcf / 1000000000.0 else 0.0, 1.0) * 0.5
  }

  /** Payout term: 1 inside [0.3, 0.6], 0.5 for another positive ratio, else 0. */
  function ScorePayout(payout: real): (t: real)
    ensures t == 1.0 <==> 0.3 <= payout <= 0.6
    ensures t == 0.5 <==> payout > 0.0 && !(0.3 <= payout <= 0.6)
    ensures t == 0.0 <==> payout <= 0.0
  {
    if 0.3 <= payout <= 0.6 then 1.0 else if payout > 0.0 then 0.5 else 0.0
  }

  datatype ResultadoScore = ResultadoScore(score: real, scoreBruto: real, superInvestimento: bool)

  /**
   * The opportunity score: the sum of the six capped terms (at most
   * 4 + 1.5 + 1.5 + 3 + 0.5 + 1 = 11.5), shown capped at 10; the asset is a
   * "super investimento" exactly when the cap hides part of the raw score.
   */
  function Score(dy: real, pl: real, pvp: real, roe: real, fcf: real, payout: real): (r: ResultadoScore)
    ensures 0.0 <= r.scoreBruto <= 11.5
    ensures 0.0 <= r.score <= 10.0
    ensures r.score <= r.scoreBruto
    ensures r.scoreBruto <= 10.0 ==> r.score == r.scoreBruto
    ensures r.scoreBruto > 10.0 ==> r.score == 10.0
    ensures r.superInvestimento <==> r.scoreBruto > 10.0
    ensures r.superInvestimento <==> r.score < r.scoreBruto
  {
    var bruto := ScoreDy(dy) + ScorePl(pl) + ScorePvp(pvp) + ScoreRoe(roe) + ScoreFcf(fcf) + ScorePayout(payout);
    ResultadoScore(Min(bruto, 10.0), bruto, bruto > 10.0)
  }

  /** The worked example: raw 4 + 1.5 + 1.5 + 2.7 + 0.5 + 1 = 11.2, shown as 10, a super investment. */
  lemma ScoreExemplo()
    ensures Score(0.10, 10.0, 0.8, 0.18, 2000000000.0, 0.45) == ResultadoScore(10.0, 11.2, true)
  {
  }

  /** A higher yield never lowers the score when the other inputs are fixed. */
  lemma {:induction false} ScoreMonotonoDy(dy1: real, dy2: real, pl: real, pvp: real, roe: real, fcf: real, payout: real)
    requires dy1 <= dy2
    ensures Score(dy1, pl, pvp, roe, fcf, payout).scoreBruto <= Score(dy2, pl, pvp, roe, fcf, payout).scoreBruto
    ensures Score(dy1, pl, pvp, roe, fcf, payout).score <= Score(dy2, pl, pvp, roe, fcf, payout).score
  {
    if dy1 > 0.0 {
      assert dy1 / 0.08 <= dy2 / 0.08;
    }
  }

  /** A higher ROE never lowers the score when the other inputs are fixed. */
  lemma {:induction false} ScoreMonotonoRoe(dy: real, pl: real, pvp: real, roe1: real, roe2: real, fcf: real, payout: real)
    requires roe1 <= roe2
    ensures Score(dy, pl, pvp, roe1, fcf, payout).scoreBruto <= Score(dy, pl, pvp, roe2, fcf, payout).scoreBruto
    ensures Score(dy, pl, pvp, roe1, fcf, payout).score <= Score(dy, pl, pvp, roe2, fcf, payout).score
  {
    if roe1 > 0.0 {
      assert roe1 / 0.20 <= roe2 / 0.20;
    }
  }

  /** Among positive P/L values a cheaper asset never scores lower. */
  lemma {:induction false} ScoreAntitonoPl(dy: real, pl1: real, pl2: real, pvp: real, roe: real, fcf: real, payout: real)
    requires 0.0 < pl1 <= pl2
    ensures Score(dy, pl2, pvp, roe, fcf, payout).scoreBruto <= Score(dy, pl1, pvp, roe, fcf, payout).scoreBruto
  {
    DivisaoAntitona(15.0, pl1, pl2);
  }

  lemma DivisaoAntitona(c: real, x: real, y: real)
    requires c >= 0.0 && 0.0 < x <= y
    ensures c / y <= c / x
  {
    assert c / y == (c / x) * (x / y);
    assert x / y <= 1.0;
  }

  // ---------------------------------------------------------------- risk

  /** Risk points: leverage (2 above D/E 1, 1 above 0.5), P/L (2 above 25, 1 above 15), yield above 12% (1). */
  function PontosRisco(debtEquity: real, pl: real, dy: real): (p: nat)
    ensures p <= 5
    ensures p == 5 <==> debtEquity > 1.0 && pl > 25.0 && dy > 0.12
    ensures p == 0 <==> debtEquity <= 0.5 && pl <= 15.0 && dy <= 0.12
  {
    (if debtEquity > 1.0 then 2 else if debtEquity > 0.5 then 1 else 0)
    + (if pl > 25.0 then 2 else if pl > 15.0 then 1 else 0)
    + (if dy > 0.12 then 1 else 0)
  }

  /** The risk tier: 4 or more points is "alto", 2 or 3 is "medio", fewer is "baixo". */
  function ClassificarRisco(debtEquity: real, pl: real, dy: real): (r: Risco)
    ensures r == Alto <==> PontosRisco(debtEquity, pl, dy) >= 4
    ensures r == Baixo <==> PontosRisco(debtEquity, pl, dy) < 2
    ensures r == Alto ==> debtEquity > 0.5 && pl > 15.0
  {
    var p := PontosRisco(debtEquity, pl, dy);
    if p >= 4 then Alto else if p >= 2 then Medio else Baixo
  }

  /** The tier never decreases when leverage grows. */
  lemma RiscoMonotonoDebtEquity(de1: real, de2: real, pl: real, dy: real)
    requires de1 <= de2
    ensures Grau(ClassificarRisco(de1, pl, dy)) <= Grau(ClassificarRisco(de2, pl, dy))
  {
  }

  /** The tier never decreases when the P/L grows. */
  lemma RiscoMonotonoPl(de: real, pl1: real, pl2: real, dy: real)
    requires pl1 <= pl2
    ensures Grau(ClassificarRisco(de, pl1, dy)) <= Grau(ClassificarRisco(de, pl2, dy))
  {
  }

  /** The tier never decreases when the yield grows. */
  lemma RiscoMonotonoDy(de: real, pl: real, dy1: real, dy2: real)
    requires dy1 <= dy2
    ensures Grau(ClassificarRisco(de, pl, dy1)) <= Grau(ClassificarRisco(de, pl, dy2))
  {
  }

  /** D/E 1.5 with P/L 30 is "alto" whatever the yield. */
  lemma RiscoExemplo(dy: real)
    ensures ClassificarRisco(1.5, 30.0, dy) == Alto
  {
  }

  // ---------------------------------------------------------------- one asset

  /**
   * The market-data fields the analysis reads, after the source's `or 0`
   * defaults; the sector and the long name may be absent.
   */
  datatype Info = Info(
    dividendYield: real,
    trailingPE: real,
    priceToBook: real,
    returnOnEquity: real,
    precoAtual: real,
    freeCashflow: real,
    payoutRatio: real,
    debtToEquity: real,
    profitMargins: real,
    setor: Option<string>,
    nomeLongo: Option<string>)

  /**
   * Builds the analysis of one asset from its market data. The dividend-growth
   * estimate, drawn at random in the source, is the parameter `crescimento`; it is
   * recorded only when the normalised yield is positive.
   */
  method AnalisarAtivo(ticker: string, info: Info, crescimento: real) returns (a: AnaliseAtivo)
    ensures fresh(a)
    ensures (a.dy, a.alertaDy) == ValidarDy(Some(info.dividendYield))
    ensures a.score == Score(a.dy, info.trailingPE, info.priceToBook, info.returnOnEquity,
                             info.freeCashflow, info.payoutRatio).score
    ensures a.scoreBruto == Score(a.dy, info.trailingPE, info.priceToBook, info.returnOnEquity,
                                  info.freeCashflow, info.payoutRatio).scoreBruto
    ensures a.superInvestimento <==> a.scoreBruto > 10.0
    ensures 0.0 <= a.dy <= 0.3 && 0.0 <= a.score <= 10.0
    ensures a.riscoNivel == ClassificarRisco(info.debtToEquity, info.trailingPE, a.dy)
    ensures a.crescimentoDividendos == if a.dy > 0.0 then crescimento else 0.0
    ensures a.ticker == ticker && a.precoAtual == info.precoAtual
    ensures a.pl == info.trailingPE && a.pvp == info.priceToBook && a.roe == info.returnOnEquity
    ensures a.freeCashFlow == info.freeCashflow && a.payoutRatio == info.payoutRatio
    ensures a.debtEquity == info.debtToEquity && a.margemLiquida == info.profitMargins
    ensures a.setor == (if info.setor.Some? then info.setor.value else "Não informado")
    ensures a.nomeEmpresa == (if info.nomeLongo.Some? then info.nomeLongo.value else ticker)
  {
    var (dy, alerta) := ValidarDy(Some(info.dividendYield));
    var s := Score(dy, info.trailingPE, info.priceToBook, info.returnOnEquity,
                   info.freeCashflow, info.payoutRatio);
    var cresc := if dy > 0.0 then crescimento else 0.0;
    var risco := ClassificarRisco(info.debtToEquity, info.trailingPE, dy);
    var setor := if info.setor.Some? then info.setor.value else "Não informado";
    var nome := if info.nomeLongo.Some? then info.nomeLongo.value else ticker;
    a := new AnaliseAtivo(ticker, nome, info.precoAtual, dy, info.trailingPE, info.priceToBook,
                          info.returnOnEquity, s.score, s.scoreBruto, s.superInvestimento, alerta,
                          info.freeCashflow, info.payoutRatio, info.debtToEquity, info.profitMargins,
                          cresc, setor, risco);
  }

  /** The record returned when retrieving the data fails: everything zero, tier left at "medio". */
  method AnaliseFalha(ticker: string) returns (a: AnaliseAtivo)
    ensures fresh(a)
    ensures a.ticker == ticker && a.nomeEmpresa == ticker
    ensures a.precoAtual == 0.0 && a.dy == 0.0 && a.score == 0.0 && a.scoreBruto == 0.0
    ensures a.pl == 0.0 && a.pvp == 0.0 && a.roe == 0.0
    ensures a.freeCashFlow == 0.0 && a.payoutRatio == 0.0 && a.debtEquity == 0.0
    ensures a.margemLiquida == 0.0 && a.crescimentoDividendos == 0.0 && a.alertaDy == SemAlerta
    ensures !a.superInvestimento && a.riscoNivel == Medio && a.setor == ""
  {
    a := new AnaliseAtivo(ticker, ticker, 0.0, 0.0, 0.0, 0.0, 0.0, 0.0, 0.0, false, SemAlerta,
                          0.0, 0.0, 0.0, 0.0, 0.0, "", Medio);
  }

  // ---------------------------------------------------------------- portfolio

  /** Whole shares bought with `valor` at `preco` (floor division). */
  function QtdAcoes(valor: real, preco: real): int
    requires preco > 0.0
  {
    (valor / preco).Floor
  }

  /** Capital actually invested: the whole shares times the price, never more than `valor`. */
  function ValorInvestido(valor: real, preco: real): (v: real)
    requires preco > 0.0
    ensures valor - preco < v <= valor
    ensures valor >= 0.0 ==> v >= 0.0
  {
    var q := QtdAcoes(valor, preco);
    PisoVezesPreco(valor, preco);
    q as real * preco
  }

  lemma PisoVezesPreco(valor: real, preco: real)
    requires preco > 0.0
    ensures valor - preco < QtdAcoes(valor, preco) as real * preco <= valor
  {
    var q := QtdAcoes(valor, preco) as real;
    var x := valor / preco;
    assert q <= x < q + 1.0;
    assert x * preco == valor;
    var qp := q * preco;
    MultiplicaMonotona(q, x, preco);
    assert qp <= valor;
    var q1 := q + 1.0;
    MultiplicaEstrita(x, q1, preco);
    assert x * preco < q1 * preco;
    assert q1 * preco == qp + preco;
    assert valor - preco < qp;
  }

  /** One line of the portfolio analysis. */
  datatype ItemCarteira = ItemCarteira(
    analise: AnaliseAtivo,
    valorAlocado: real,
    valorInvestido: real,
    qtdAcoes: int,
    rendaAnual: real,
    pesoCarteira: real)

  datatype ResumoCarteira = ResumoCarteira(
    analises: seq<ItemCarteira>,
    valorTotal: real,
    rendaTotalAnual: real,
    yieldCarteira: real,
    diversificacao: nat)

  function Item(a: AnaliseAtivo, valor: real, valorTotal: real): (it: ItemCarteira)
    requires a.precoAtual > 0.0
    ensures it.analise == a && it.valorAlocado == valor
    ensures it.valorInvestido == it.qtdAcoes as real * a.precoAtual
    ensures valor - a.precoAtual < it.valorInvestido <= valor
    ensures it.rendaAnual == it.valorInvestido * a.dy
    ensures valorTotal > 0.0 ==> it.pesoCarteira == valor / valorTotal
    ensures valorTotal <= 0.0 ==> it.pesoCarteira == 0.0
  {
    var q := QtdAcoes(valor, a.precoAtual);
    var investido := ValorInvestido(valor, a.precoAtual);
    ItemCarteira(a, valor, investido, q, investido * a.dy,
                 if valorTotal > 0.0 then valor / valorTotal else 0.0)
  }

  /** The lines of a portfolio over equally long lists: one per asset with a positive price. */
  function Itens(analises: seq<AnaliseAtivo>, valores: seq<real>, valorTotal: real): (r: seq<ItemCarteira>)
    requires |analises| == |valores|
    ensures |r| <= |analises|
    ensures forall k :: 0 <= k < |r| ==> r[k].analise in analises && r[k].analise.precoAtual > 0.0
    decreases |analises|
  {
    if analises == [] then []
    else
      var n := |analises| - 1;
      var anteriores := Itens(analises[..n], valores[..n], valorTotal);
      if analises[n].precoAtual > 0.0 then anteriores + [Item(analises[n], valores[n], valorTotal)]
      else anteriores
  }

  /** The positions of the assets with a positive price, in increasing order. */
  function Positivos(analises: seq<AnaliseAtivo>): (js: seq<nat>)
    ensures forall k :: 0 <= k < |js| ==> js[k] < |analises| && analises[js[k]].precoAtual > 0.0
    ensures forall k, l :: 0 <= k < l < |js| ==> js[k] < js[l]
    ensures forall j :: 0 <= j < |analises| && analises[j].precoAtual > 0.0 ==> j in js
    decreases |analises|
  {
    if analises == [] then []
    else
      var n := |analises| - 1;
      var anteriores := Positivos(analises[..n]);
      assert forall j :: 0 <= j < n ==> analises[..n][j] == analises[j];
      if analises[n].precoAtual > 0.0 then anteriores + [n] else anteriores
  }

  /**
   * The lines are exactly the `Item`s of the pairs whose asset has a positive
   * price, in input order: the `k`-th line comes from the `k`-th such position.
   */
  lemma {:induction false} ItensPorIndice(analises: seq<AnaliseAtivo>, valores: seq<real>, valorTotal: real)
    requires |analises| == |valores|
    ensures var r, js := Itens(analises, valores, valorTotal), Positivos(analises);
            |r| == |js|
            && forall k :: 0 <= k < |r| ==> r[k] == Item(analises[js[k]], valores[js[k]], valorTotal)
    decreases |analises|
  {
    if analises != [] {
      var n := |analises| - 1;
      var xs, vs := analises[..n], valores[..n];
      ItensPorIndice(xs, vs, valorTotal);
      ItensPasso(analises, valores, valorTotal);
      PositivosPasso(analises);
      var r0, js0 := Itens(xs, vs, valorTotal), Positivos(xs);
      IndicesDoPrefixo(analises, valores, valorTotal, r0, js0);
      IndicesPasso(analises, valores, valorTotal, r0, js0,
                   Itens(analises, valores, valorTotal), Positivos(analises));
    }
  }

  /** Positions into the prefix are positions into the whole lists, with the same elements. */
  lemma IndicesDoPrefixo(analises: seq<AnaliseAtivo>, valores: seq<real>, valorTotal: real,
                         r0: seq<ItemCarteira>, js0: seq<nat>)
    requires |analises| == |valores| > 0
    requires |r0| == |js0|
    requires var n := |analises| - 1;
             forall k :: 0 <= k < |js0| ==> js0[k] < n && analises[..n][js0[k]].precoAtual > 0.0
    requires var n := |analises| - 1;
             forall k :: 0 <= k < |r0| ==> r0[k] == Item(analises[..n][js0[k]], valores[..n][js0[k]], valorTotal)
    ensures forall k :: 0 <= k < |r0| ==> js0[k] < |analises| - 1 && analises[js0[k]].precoAtual > 0.0
    ensures forall k :: 0 <= k < |r0| ==> r0[k] == Item(analises[js0[k]], valores[js0[k]], valorTotal)
  {
    var n := |analises| - 1;
    forall k | 0 <= k < |r0|
      ensures js0[k] < n && analises[js0[k]].precoAtual > 0.0
      ensures r0[k] == Item(analises[js0[k]], valores[js0[k]], valorTotal)
    {
      var j := js0[k];
      assert analises[..n][j] == analises[j] && valores[..n][j] == valores[j];
    }
  }

  /** The induction step of `ItensPorIndice`, on the lines and positions alone. */
  lemma IndicesPasso(analises: seq<AnaliseAtivo>, valores: seq<real>, valorTotal: real,
                     r0: seq<ItemCarteira>, js0: seq<nat>, r: seq<ItemCarteira>, js: seq<nat>)
    requires |analises| == |valores| > 0
    requires |r0| == |js0|
    requires forall k :: 0 <= k < |r0| ==> js0[k] < |analises| - 1 && analises[js0[k]].precoAtual > 0.0
    requires forall k :: 0 <= k < |r0| ==> r0[k] == Item(analises[js0[k]], valores[js0[k]], valorTotal)
    requires var n := |analises| - 1;
             if analises[n].precoAtual > 0.0
             then r == r0 + [Item(analises[n], valores[n], valorTotal)] && js == js0 + [n]
             else r == r0 + [] && js == js0
    ensures |r| == |js|
    ensures forall k :: 0 <= k < |r| ==> js[k] < |analises| && analises[js[k]].precoAtual > 0.0
    ensures forall k :: 0 <= k < |r| ==> r[k] == Item(analises[js[k]], valores[js[k]], valorTotal)
  {
    var n := |analises| - 1;
    if analises[n].precoAtual > 0.0 {
      forall k | 0 <= k < |r|
        ensures js[k] < |analises| && analises[js[k]].precoAtual > 0.0
        ensures r[k] == Item(analises[js[k]], valores[js[k]], valorTotal)
      {
        if k < |r0| {
          assert r[k] == r0[k] && js[k] == js0[k];
        }
      }
    } else {
      assert r == r0;
    }
  }

  lemma PositivosPasso(analises: seq<AnaliseAtivo>)
    requires analises != []
    ensures var n := |analises| - 1;
            Positivos(analises)
            == if analises[n].precoAtual > 0.0 then Positivos(analises[..n]) + [n] else Positivos(analises[..n])
  {
  }

  lemma ItensPasso(analises: seq<AnaliseAtivo>, valores: seq<real>, valorTotal: real)
    requires |analises| == |valores| > 0
    ensures var n := |analises| - 1;
            Itens(analises, valores, valorTotal)
            == Itens(analises[..n], valores[..n], valorTotal)
               + (if analises[n].precoAtual > 0.0 then [Item(analises[n], valores[n], valorTotal)] else [])
  {
  }

  lemma RendasPasso(itens: seq<ItemCarteira>, it: ItemCarteira)
    ensures Sum(Rendas(itens + [it])) == Sum(Rendas(itens)) + it.rendaAnual
  {
    assert Rendas(itens + [it]) == Rendas(itens) + [it.rendaAnual];
    SumAppend(Rendas(itens), it.rendaAnual);
  }

  function Rendas(itens: seq<ItemCarteira>): (r: seq<real>)
    ensures |r| == |itens|
    ensures forall k :: 0 <= k < |r| ==> r[k] == itens[k].rendaAnual
  {
    seq(|itens|, k requires 0 <= k < |itens| => itens[k].rendaAnual)
  }

  function SetoresDe(itens: seq<ItemCarteira>): set<string>
  {
    set k | 0 <= k < |itens| :: itens[k].analise.setor
  }

  /** There are never more distinct sectors than lines. */
  lemma {:induction false} DiversificacaoLimitada(itens: seq<ItemCarteira>)
    ensures |SetoresDe(itens)| <= |itens|
  {
    if itens != [] {
      var n := |itens| - 1;
      DiversificacaoLimitada(itens[..n]);
      assert SetoresDe(itens) == SetoresDe(itens[..n]) + {itens[n].analise.setor} by {
        forall s | s in SetoresDe(itens) ensures s in SetoresDe(itens[..n]) + {itens[n].analise.setor} {
          var k :| 0 <= k < |itens| && itens[k].analise.setor == s;
          if k < n { assert itens[..n][k] == itens[k]; }
        }
        forall s | s in SetoresDe(itens[..n]) ensures s in SetoresDe(itens) {
          var k :| 0 <= k < n && itens[..n][k].analise.setor == s;
          assert itens[k] == itens[..n][k];
        }
      }
    }
  }

  /**
   * Aggregates a portfolio: `valorTotal` sums every entry of `valores` (also those
   * of skipped assets and those beyond the shorter list), while income, the lines
   * and the sector count come from the zipped pairs with a positive price.
   */
  method AnalisarCarteira(analises: seq<AnaliseAtivo>, valores: seq<real>) returns (r: ResumoCarteira)
    ensures r.valorTotal == Sum(valores)
    ensures var n := if |analises| <= |valores| then |analises| else |valores|;
            r.analises == Itens(analises[..n], valores[..n], r.valorTotal)
    ensures r.rendaTotalAnual == Sum(Rendas(r.analises))
    ensures r.yieldCarteira == if r.valorTotal > 0.0 then r.rendaTotalAnual / r.valorTotal else 0.0
    ensures r.diversificacao == |SetoresDe(r.analises)| <= |r.analises|
  {
    var valorTotal := Sum(valores);
    var n := if |analises| <= |valores| then |analises| else |valores|;
    var itens: seq<ItemCarteira> := [];
    var rendaTotal := 0.0;
    var i := 0;
    while i < n
      invariant 0 <= i <= n
      invariant itens == Itens(analises[..i], valores[..i], valorTotal)
      invariant rendaTotal == Sum(Rendas(itens))
    {
      ItensPasso(analises[..i + 1], valores[..i + 1], valorTotal);
      assert analises[..i + 1][..i] == analises[..i];
      assert valores[..i + 1][..i] == valores[..i];
      var a := analises[i];
      if a.precoAtual > 0.0 {
        var it := Item(a, valores[i], valorTotal);
        RendasPasso(itens, it);
        rendaTotal := rendaTotal + it.rendaAnual;
        itens := itens + [it];
      }
      i := i + 1;
    }
    assert analises[..n] == analises[..i] && valores[..n] == valores[..i];
    DiversificacaoLimitada(itens);
    r := ResumoCarteira(itens, valorTotal, rendaTotal,
                        if valorTotal > 0.0 then rendaTotal / valorTotal else 0.0,
                        |SetoresDe(itens)|);
  }

  /** An empty portfolio has all-zero figures and no lines. */
  lemma CarteiraVazia(valorTotal: real)
    ensures Itens([], [], valorTotal) == []
    ensures Sum(Rendas([])) == 0.0 && SetoresDe([]) == {}
  {
  }

  /** 1000 invested at price 50 with a 6% yield buys 20 shares and pays 60 a year. */
  lemma ItemExemplo(a: AnaliseAtivo)
    requires a.precoAtual == 50.0 && a.dy == 0.06
    ensures Item(a, 1000.0, 1000.0).qtdAcoes == 20
    ensures Item(a, 1000.0, 1000.0).valorInvestido == 1000.0
    ensures Item(a, 1000.0, 1000.0).rendaAnual == 60.0
  {
    assert 1000.0 / 50.0 == 20.0;
  }
}
