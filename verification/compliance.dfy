/**
 * The compliance agent: the risk assessment of a portfolio built by the
 * portfolio analysis (sector and single-asset concentration, predominance of
 * high-risk assets, an excessive average dividend yield).
 */
module Compliance {
  import opened Wrappers
  import opened Somas
  import opened Dados
  import opened Finance
  import opened Comum

  /** One alert; the source renders each as a sentence holding the same data. */
  datatype Alerta =
    | ConcentracaoSetor(setor: string, peso: real)
    | ConcentracaoAtivo(ticker: string, peso: real)
    | RiscoAltoPredominante
    | DyExcessivo(dyMedio: real)

  datatype AvaliacaoRiscos = AvaliacaoRiscos(
    concentracaoSetor: bool,
    concentracaoAtivo: bool,
    riscoAltoPredominante: bool,
    dyExcessivo: bool,
    alertas: seq<Alerta>)

  const LimiteSetor: real := 0.4
  const LimiteAtivo: real := 0.3
  const LimiteDyMedio: real := 0.15

  /** The sectors of the lines, each once, in order of first appearance (the order a dict keeps). */
  function Setores(itens: seq<ItemCarteira>): (ss: seq<string>)
    ensures Distintos(ss)
    ensures forall s :: s in ss <==> exists k :: 0 <= k < |itens| && itens[k].analise.setor == s
    decreases |itens|
  {
    if itens == [] then []
    else
      var n := |itens| - 1;
      var anteriores := Setores(itens[..n]);
      assert forall k :: 0 <= k < n ==> itens[..n][k] == itens[k];
      if itens[n].analise.setor in anteriores then anteriores
      else anteriores + [itens[n].analise.setor]
  }

  /** Total portfolio weight of the lines in sector `s`. */
  function PesoSetor(itens: seq<ItemCarteira>, s: string): real
    decreases |itens|
  {
    if itens == [] then 0.0
    else
      var n := |itens| - 1;
      PesoSetor(itens[..n], s) + (if itens[n].analise.setor == s then itens[n].pesoCarteira else 0.0)
  }

  /** The sector alerts, in the order of `ss`, for the sectors whose weight exceeds 40%. */
  function AlertasSetor(itens: seq<ItemCarteira>, ss: seq<string>): (r: seq<Alerta>)
    ensures forall s :: s in ss && PesoSetor(itens, s) > LimiteSetor ==> ConcentracaoSetor(s, PesoSetor(itens, s)) in r
    ensures forall al :: al in r ==> al.ConcentracaoSetor? && al.setor in ss
                                     && al.peso == PesoSetor(itens, al.setor) > LimiteSetor
    decreases |ss|
  {
    if ss == [] then []
    else
      var m := |ss| - 1;
      var anteriores := AlertasSetor(itens, ss[..m]);
      assert forall s :: s in ss <==> s in ss[..m] || s == ss[m] by {
        assert ss == ss[..m] + [ss[m]];
      }
      var p := PesoSetor(itens, ss[m]);
      anteriores + (if p > LimiteSetor then [ConcentracaoSetor(ss[m], p)] else [])
  }

  /** The single-asset alerts, in line order, for the lines whose weight exceeds 30%. */
  function AlertasAtivo(itens: seq<ItemCarteira>): (r: seq<Alerta>)
    ensures forall al :: al in r <==> exists k :: 0 <= k < |itens| && itens[k].pesoCarteira > LimiteAtivo
                                                  && al == ConcentracaoAtivo(itens[k].analise.ticker, itens[k].pesoCarteira)
    decreases |itens|
  {
    if itens == [] then []
    else
      var n := |itens| - 1;
      var anteriores := AlertasAtivo(itens[..n]);
      assert forall k :: 0 <= k < n ==> itens[..n][k] == itens[k];
      var it := itens[n];
      anteriores + (if it.pesoCarteira > LimiteAtivo
                    then [ConcentracaoAtivo(it.analise.ticker, it.pesoCarteira)] else [])
  }

  /** Number of lines classified as high risk. */
  function ContaAlto(itens: seq<ItemCarteira>): (c: nat)
    ensures c <= |itens|
    decreases |itens|
  {
    if itens == [] then 0
    else
      var n := |itens| - 1;
      ContaAlto(itens[..n]) + (if itens[n].analise.riscoNivel == Alto then 1 else 0)
  }

  function Dys(itens: seq<ItemCarteira>): (r: seq<real>)
    ensures |r| == |itens|
    ensures forall k :: 0 <= k < |r| ==> r[k] == itens[k].analise.dy
  {
    seq(|itens|, k requires 0 <= k < |itens| => itens[k].analise.dy)
  }

  /** The mean dividend yield of the lines. */
  function DyMedio(itens: seq<ItemCarteira>): real
    requires itens != []
  {
    Sum(Dys(itens)) / |itens| as real
  }

  lemma PesoSetorPasso(itens: seq<ItemCarteira>, i: nat)
    requires i < |itens|
    ensures forall s :: PesoSetor(itens[..i + 1], s)
                     == PesoSetor(itens[..i], s) + (if itens[i].analise.setor == s then itens[i].pesoCarteira else 0.0)
  {
    assert itens[..i + 1][..i] == itens[..i];
  }

  lemma SetoresPasso(itens: seq<ItemCarteira>, i: nat)
    requires i < |itens|
    ensures Setores(itens[..i + 1])
         == if itens[i].analise.setor in Setores(itens[..i]) then Setores(itens[..i])
            else Setores(itens[..i]) + [itens[i].analise.setor]
  {
    assert itens[..i + 1][..i] == itens[..i];
  }

  lemma AlertasAtivoPasso(itens: seq<ItemCarteira>, i: nat)
    requires i < |itens|
    ensures AlertasAtivo(itens[..i + 1])
         == AlertasAtivo(itens[..i])
            + (if itens[i].pesoCarteira > LimiteAtivo
               then [ConcentracaoAtivo(itens[i].analise.ticker, itens[i].pesoCarteira)] else [])
  {
    assert itens[..i + 1][..i] == itens[..i];
  }

  lemma AlertasSetorPasso(itens: seq<ItemCarteira>, ss: seq<string>, j: nat)
    requires j < |ss|
    ensures AlertasSetor(itens, ss[..j + 1])
         == AlertasSetor(itens, ss[..j])
            + (if PesoSetor(itens, ss[j]) > LimiteSetor
               then [ConcentracaoSetor(ss[j], PesoSetor(itens, ss[j]))] else [])
  {
    assert ss[..j + 1][..j] == ss[..j];
  }

  /** Some sector in first-appearance order is over the limit iff the sector of some line is. */
  lemma SetorConcentrado(itens: seq<ItemCarteira>)
    ensures (exists t :: 0 <= t < |Setores(itens)| && PesoSetor(itens, Setores(itens)[t]) > LimiteSetor)
        <==> exists k :: 0 <= k < |itens| && PesoSetor(itens, itens[k].analise.setor) > LimiteSetor
  {
    var ordem := Setores(itens);
    if exists t :: 0 <= t < |ordem| && PesoSetor(itens, ordem[t]) > LimiteSetor {
      var t :| 0 <= t < |ordem| && PesoSetor(itens, ordem[t]) > LimiteSetor;
      assert ordem[t] in ordem;
      var k :| 0 <= k < |itens| && itens[k].analise.setor == ordem[t];
    }
    if exists k :: 0 <= k < |itens| && PesoSetor(itens, itens[k].analise.setor) > LimiteSetor {
      var k :| 0 <= k < |itens| && PesoSetor(itens, itens[k].analise.setor) > LimiteSetor;
      assert itens[k].analise.setor in ordem;
      var t :| 0 <= t < |ordem| && ordem[t] == itens[k].analise.setor;
      assert 0 <= t < |Setores(itens)| && PesoSetor(itens, Setores(itens)[t]) > LimiteSetor;
    }
  }

  /** The portfolio weights of the lines. */
  function PesosLinhas(itens: seq<ItemCarteira>): (r: seq<real>)
    ensures |r| == |itens|
    ensures forall k :: 0 <= k < |r| ==> r[k] == itens[k].pesoCarteira
  {
    seq(|itens|, k requires 0 <= k < |itens| => itens[k].pesoCarteira)
  }

  /** The weights of the sectors in `ss`, added up. */
  function SomaSetores(itens: seq<ItemCarteira>, ss: seq<string>): real
    decreases |ss|
  {
    if ss == [] then 0.0 else SomaSetores(itens, ss[..|ss| - 1]) + PesoSetor(itens, ss[|ss| - 1])
  }

  /** A sector no line belongs to weighs nothing. */
  lemma {:induction false} PesoSetorAusente(itens: seq<ItemCarteira>, s: string)
    requires s !in Setores(itens)
    ensures PesoSetor(itens, s) == 0.0
    decreases |itens|
  {
    if itens != [] {
      var n := |itens| - 1;
      PesoSetorAusente(itens[..n], s);
    }
  }

  /** Adding a line adds its weight to the sum over distinct sectors once, if its sector is among them. */
  lemma {:induction false} SomaSetoresAcrescimo(itens: seq<ItemCarteira>, it: ItemCarteira, ss: seq<string>)
    requires Distintos(ss)
    ensures SomaSetores(itens + [it], ss)
         == SomaSetores(itens, ss) + (if it.analise.setor in ss then it.pesoCarteira else 0.0)
    decreases |ss|
  {
    var novos := itens + [it];
    assert novos[..|novos| - 1] == itens;
    if ss != [] {
      var m := |ss| - 1;
      SomaSetoresAcrescimo(itens, it, ss[..m]);
      assert ss == ss[..m] + [ss[m]];
      assert ss[m] !in ss[..m];
    }
  }

  lemma SetoresAcrescimo(xs: seq<ItemCarteira>, it: ItemCarteira)
    ensures Setores(xs + [it])
         == if it.analise.setor in Setores(xs) then Setores(xs) else Setores(xs) + [it.analise.setor]
  {
    assert (xs + [it])[..|xs|] == xs;
  }

  lemma PesoSetorAcrescimo(xs: seq<ItemCarteira>, it: ItemCarteira, s: string)
    ensures PesoSetor(xs + [it], s) == PesoSetor(xs, s) + (if it.analise.setor == s then it.pesoCarteira else 0.0)
  {
    assert (xs + [it])[..|xs|] == xs;
  }

  lemma SomaSetoresNovo(itens: seq<ItemCarteira>, ss: seq<string>, s: string)
    ensures SomaSetores(itens, ss + [s]) == SomaSetores(itens, ss) + PesoSetor(itens, s)
  {
    assert (ss + [s])[..|ss|] == ss;
  }

  lemma PesosAcrescimo(xs: seq<ItemCarteira>, it: ItemCarteira)
    ensures Sum(PesosLinhas(xs + [it])) == Sum(PesosLinhas(xs)) + it.pesoCarteira
  {
    assert PesosLinhas(xs + [it]) == PesosLinhas(xs) + [it.pesoCarteira];
    SumAppend(PesosLinhas(xs), it.pesoCarteira);
  }

  /** The sector weights add up to the weight of the whole portfolio. */
  lemma {:induction false} PesosSetoresSomam(itens: seq<ItemCarteira>)
    ensures SomaSetores(itens, Setores(itens)) == Sum(PesosLinhas(itens))
    decreases |itens|
  {
    if itens != [] {
      var n := |itens| - 1;
      var xs, it := itens[..n], itens[n];
      assert itens == xs + [it];
      PesosAcrescimo(xs, it);
      PesosSetoresSomam(xs);
      SomaSetoresAcrescimo(xs, it, Setores(xs));
      SetoresAcrescimo(xs, it);
      if it.analise.setor !in Setores(xs) {
        PesoSetorAusente(xs, it.analise.setor);
        PesoSetorAcrescimo(xs, it, it.analise.setor);
        SomaSetoresNovo(xs + [it], Setores(xs), it.analise.setor);
      }
    }
  }

  /** A sector weighs at least as much as any one of its lines, when no weight is negative. */
  lemma {:induction false} PesoSetorCobreAtivo(itens: seq<ItemCarteira>, k: nat)
    requires k < |itens|
    requires forall j :: 0 <= j < |itens| ==> itens[j].pesoCarteira >= 0.0
    ensures PesoSetor(itens, itens[k].analise.setor) >= itens[k].pesoCarteira
    decreases |itens|
  {
    var n := |itens| - 1;
    var s := itens[k].analise.setor;
    PesoSetorNaoNegativo(itens[..n], s);
    if k < n {
      assert itens[..n][k] == itens[k];
      PesoSetorCobreAtivo(itens[..n], k);
    }
  }

  lemma {:induction false} PesoSetorNaoNegativo(itens: seq<ItemCarteira>, s: string)
    requires forall j :: 0 <= j < |itens| ==> itens[j].pesoCarteira >= 0.0
    ensures PesoSetor(itens, s) >= 0.0
    decreases |itens|
  {
    if itens != [] {
      var n := |itens| - 1;
      assert forall j :: 0 <= j < n ==> itens[..n][j] == itens[j];
      PesoSetorNaoNegativo(itens[..n], s);
    }
  }

  /** A line above 40% alone makes its sector concentrated. */
  lemma AtivoConcentraSetor(itens: seq<ItemCarteira>, k: nat)
    requires k < |itens| && itens[k].pesoCarteira > LimiteSetor
    requires forall j :: 0 <= j < |itens| ==> itens[j].pesoCarteira >= 0.0
    ensures PesoSetor(itens, itens[k].analise.setor) > LimiteSetor
    ensures ConcentracaoSetor(itens[k].analise.setor, PesoSetor(itens, itens[k].analise.setor))
            in AlertasSetor(itens, Setores(itens))
  {
    PesoSetorCobreAtivo(itens, k);
  }

  /** The positions of the high-risk lines. */
  function PosicoesAlto(itens: seq<ItemCarteira>): set<int>
  {
    set j | 0 <= j < |itens| && itens[j].analise.riscoNivel == Alto
  }

  /** The count is exactly the number of high-risk lines. */
  lemma {:induction false} ContaAltoConta(itens: seq<ItemCarteira>)
    ensures ContaAlto(itens) == |PosicoesAlto(itens)|
    decreases |itens|
  {
    if itens != [] {
      var n := |itens| - 1;
      ContaAltoConta(itens[..n]);
      var antes := PosicoesAlto(itens[..n]);
      assert forall j :: 0 <= j < n ==> itens[..n][j] == itens[j];
      assert n !in antes;
      if itens[n].analise.riscoNivel == Alto {
        assert PosicoesAlto(itens) == antes + {n};
      } else {
        assert PosicoesAlto(itens) == antes;
      }
    }
  }

  /** When every line is high risk, high risk predominates; when none is, it does not. */
  lemma {:induction false} ContaAltoExtremos(itens: seq<ItemCarteira>)
    ensures (forall j :: 0 <= j < |itens| ==> itens[j].analise.riscoNivel == Alto) ==> ContaAlto(itens) == |itens|
    ensures (forall j :: 0 <= j < |itens| ==> itens[j].analise.riscoNivel != Alto) ==> ContaAlto(itens) == 0
    decreases |itens|
  {
    if itens != [] {
      var n := |itens| - 1;
      assert forall j :: 0 <= j < n ==> itens[..n][j] == itens[j];
      ContaAltoExtremos(itens[..n]);
    }
  }

  /** A mean of yields each at most `c` is at most `c`: with every yield at most 15% there is no yield alert. */
  lemma DyMedioLimitado(itens: seq<ItemCarteira>, c: real)
    requires itens != []
    requires forall j :: 0 <= j < |itens| ==> itens[j].analise.dy <= c
    ensures DyMedio(itens) <= c
  {
    SomaLimitada(Dys(itens), c);
    var n := |itens| as real;
    assert Sum(Dys(itens)) / n <= (n * c) / n;
  }

  lemma {:induction false} SomaLimitada(w: seq<real>, c: real)
    requires forall j :: 0 <= j < |w| ==> w[j] <= c
    ensures Sum(w) <= |w| as real * c
    decreases |w|
  {
    if w != [] {
      SomaLimitada(w[..|w| - 1], c);
    }
  }

  /** After the lines `xs`: every sector seen so far with its weight, in first-appearance order. */
  ghost predicate Acumulado(xs: seq<ItemCarteira>, setores: map<string, real>, ordem: seq<string>)
  {
    && ordem == Setores(xs)
    && (forall s :: s in setores <==> s in ordem)
    && (forall s :: s in setores ==> setores[s] == PesoSetor(xs, s))
  }

  /** The first loop of the assessment: the weight of every sector, and the order sectors were first seen in. */
  method PesosPorSetor(itens: seq<ItemCarteira>) returns (setores: map<string, real>, ordem: seq<string>)
    ensures ordem == Setores(itens)
    ensures forall s :: s in setores <==> s in ordem
    ensures forall s :: s in setores ==> setores[s] == PesoSetor(itens, s)
  {
    setores := map[];
    ordem := [];
    var i := 0;
    ghost var lidos: seq<ItemCarteira> := [];
    while i < |itens|
      invariant 0 <= i <= |itens|
      invariant lidos == itens[..i]
      invariant Acumulado(lidos, setores, ordem)
    {
      var setor := itens[i].analise.setor;
      var peso := itens[i].pesoCarteira;
      var novos := setores[setor := (if setor in setores then setores[setor] else 0.0) + peso];
      var ordem' := if setor in ordem then ordem else ordem + [setor];
      PesosPorSetorPasso(lidos, itens[i], setores, ordem, novos, ordem');
      PrefixoCresce(itens, i);
      setores, ordem, lidos := novos, ordem', lidos + [itens[i]];
      i := i + 1;
    }
    assert lidos == itens;
  }

  lemma PrefixoCresce(itens: seq<ItemCarteira>, i: nat)
    requires i < |itens|
    ensures itens[..i + 1] == itens[..i] + [itens[i]]
  {
  }

  /** One turn of the first loop keeps the weights and the first-appearance order up to date. */
  lemma PesosPorSetorPasso(xs: seq<ItemCarteira>, it: ItemCarteira, setores: map<string, real>, ordem: seq<string>,
                           novos: map<string, real>, ordem': seq<string>)
    requires Acumulado(xs, setores, ordem)
    requires var setor := it.analise.setor;
             && novos == setores[setor := (if setor in setores then setores[setor] else 0.0) + it.pesoCarteira]
             && ordem' == if setor in ordem then ordem else ordem + [setor]
    ensures Acumulado(xs + [it], novos, ordem')
  {
    var setor := it.analise.setor;
    ChavesPasso(setores, ordem, novos, ordem', setor, it.pesoCarteira);
    if setor !in setores {
      PesoSetorAusente(xs, setor);
    }
    PesosPasso(xs, it, setores, novos);
    SetoresAcrescimo(xs, it);
  }

  /** The keys of the map and the order list grow by the same sector. */
  lemma ChavesPasso(setores: map<string, real>, ordem: seq<string>, novos: map<string, real>, ordem': seq<string>,
                    setor: string, peso: real)
    requires forall s :: s in setores <==> s in ordem
    requires novos == setores[setor := (if setor in setores then setores[setor] else 0.0) + peso]
    requires ordem' == if setor in ordem then ordem else ordem + [setor]
    ensures forall s :: s in novos <==> s in ordem'
  {
  }

  /** The updated map holds each sector's weight over one more line. */
  lemma PesosPasso(xs: seq<ItemCarteira>, it: ItemCarteira, setores: map<string, real>, novos: map<string, real>)
    requires forall s :: s in setores ==> setores[s] == PesoSetor(xs, s)
    requires it.analise.setor !in setores ==> PesoSetor(xs, it.analise.setor) == 0.0
    requires var setor := it.analise.setor;
             novos == setores[setor := (if setor in setores then setores[setor] else 0.0) + it.pesoCarteira]
    ensures forall s :: s in novos ==> novos[s] == PesoSetor(xs + [it], s)
  {
    forall s | s in novos ensures novos[s] == PesoSetor(xs + [it], s) {
      PesoSetorAcrescimo(xs, it, s);
    }
  }

  /** The second loop: the alerts of the sectors over 40%, in the order given. */
  method AlertarSetores(itens: seq<ItemCarteira>, setores: map<string, real>, ordem: seq<string>)
    returns (concentracao: bool, alertas: seq<Alerta>)
    requires forall s :: s in ordem ==> s in setores && setores[s] == PesoSetor(itens, s)
    ensures alertas == AlertasSetor(itens, ordem)
    ensures concentracao <==> exists t :: 0 <= t < |ordem| && PesoSetor(itens, ordem[t]) > LimiteSetor
  {
    concentracao := false;
    alertas := [];
    var j := 0;
    while j < |ordem|
      invariant 0 <= j <= |ordem|
      invariant AlertadosAte(itens, ordem, j, concentracao, alertas)
    {
      var setor := ordem[j];
      assert setor in ordem;
      var peso := setores[setor];
      AlertarSetoresPasso(itens, ordem, j, concentracao, alertas, peso);
      if peso > LimiteSetor {
        concentracao := true;
        alertas := alertas + [ConcentracaoSetor(setor, peso)];
      }
      j := j + 1;
    }
    assert ordem[..j] == ordem;
  }

  /** What the second loop has established after the first `j` sectors. */
  ghost predicate AlertadosAte(itens: seq<ItemCarteira>, ordem: seq<string>, j: nat, concentracao: bool, alertas: seq<Alerta>)
    requires j <= |ordem|
  {
    && alertas == AlertasSetor(itens, ordem[..j])
    && (concentracao <==> exists t :: 0 <= t < j && PesoSetor(itens, ordem[t]) > LimiteSetor)
  }

  lemma AlertarSetoresPasso(itens: seq<ItemCarteira>, ordem: seq<string>, j: nat,
                            concentracao: bool, alertas: seq<Alerta>, peso: real)
    requires j < |ordem|
    requires AlertadosAte(itens, ordem, j, concentracao, alertas)
    requires peso == PesoSetor(itens, ordem[j])
    ensures AlertadosAte(itens, ordem, j + 1, concentracao || peso > LimiteSetor,
                         alertas + (if peso > LimiteSetor then [ConcentracaoSetor(ordem[j], peso)] else []))
  {
    AlertasSetorPasso(itens, ordem, j);
    if peso > LimiteSetor {
      assert 0 <= j < j + 1 && PesoSetor(itens, ordem[j]) > LimiteSetor;
    }
  }

  /** The third loop: the alerts of the lines over 30%, in line order. */
  method AlertarAtivos(itens: seq<ItemCarteira>) returns (concentracao: bool, alertas: seq<Alerta>)
    ensures alertas == AlertasAtivo(itens)
    ensures concentracao <==> exists k :: 0 <= k < |itens| && itens[k].pesoCarteira > LimiteAtivo
  {
    concentracao := false;
    alertas := [];
    var i := 0;
    while i < |itens|
      invariant 0 <= i <= |itens|
      invariant alertas == AlertasAtivo(itens[..i])
      invariant concentracao <==> exists k :: 0 <= k < i && itens[k].pesoCarteira > LimiteAtivo
    {
      AlertasAtivoPasso(itens, i);
      if itens[i].pesoCarteira > LimiteAtivo {
        concentracao := true;
        alertas := alertas + [ConcentracaoAtivo(itens[i].analise.ticker, itens[i].pesoCarteira)];
      }
      i := i + 1;
    }
    assert itens[..i] == itens;
  }

  /**
   * The risk assessment: nothing (an empty dict in the source) for an empty
   * portfolio; otherwise each flag is raised exactly when its condition holds,
   * and the alerts list the concentrated sectors (first-appearance order), then
   * the concentrated lines, then the high-risk and the yield alerts.
   */
  method AvaliarRiscosCarteira(itens: seq<ItemCarteira>) returns (r: Option<AvaliacaoRiscos>)
    ensures r.None? <==> itens == []
    ensures r.Some? ==>
              var av := r.value;
              var n := |itens| as real;
              && (av.concentracaoSetor <==>
                    exists k :: 0 <= k < |itens| && PesoSetor(itens, itens[k].analise.setor) > LimiteSetor)
              && (av.concentracaoAtivo <==> exists k :: 0 <= k < |itens| && itens[k].pesoCarteira > LimiteAtivo)
              && (av.riscoAltoPredominante <==> ContaAlto(itens) as real > n * 0.5)
              && (av.dyExcessivo <==> DyMedio(itens) > LimiteDyMedio)
              && av.alertas == AlertasSetor(itens, Setores(itens)) + AlertasAtivo(itens)
                               + (if av.riscoAltoPredominante then [RiscoAltoPredominante] else [])
                               + (if av.dyExcessivo then [DyExcessivo(DyMedio(itens))] else [])
  {
    if itens == [] {
      return None;
    }
    var setores, ordem := PesosPorSetor(itens);
    var concentracaoSetor, alertasSetor := AlertarSetores(itens, setores, ordem);
    SetorConcentrado(itens);
    var concentracaoAtivo, alertasAtivo := AlertarAtivos(itens);
    var ativosAltoRisco := ContaAlto(itens);
    var riscoAlto := ativosAltoRisco as real > |itens| as real * 0.5;
    var alertaRisco := if riscoAlto then [RiscoAltoPredominante] else [];

    var dyMedio := DyMedio(itens);
    var dyExcessivo := dyMedio > LimiteDyMedio;
    var alertaDy := if dyExcessivo then [DyExcessivo(dyMedio)] else [];

    var alertas := alertasSetor + alertasAtivo + alertaRisco + alertaDy;
    r := Some(AvaliacaoRiscos(concentracaoSetor, concentracaoAtivo, riscoAlto, dyExcessivo, alertas));
  }
}
