/**
 * The personalisation agent: it holds the investor profile, filters and
 * re-scores analyses for that profile (overwriting `score` on the caller's
 * objects), ranks them, and splits a capital among the best ones.
 */
module Invest {
  import opened Wrappers
  import opened Somas
  import opened Dados
  import opened Ordenacao
  import opened Comum

  // ---------------------------------------------------------------- filter and adjustment

  /** The risk rule alone: "alto" is refused to a conservative profile, and to a moderate one below 7. */
  predicate RiscoAceito(p: PerfilUsuario, a: AnaliseAtivo, score: real)
  {
    !(a.riscoNivel == Alto && (p.tolerancia == Conservador || (p.tolerancia == Moderado && score < 7.0)))
  }

  /**
   * Compatibility of an asset (with its current score) with a profile. A moderate
   * profile that accepts an "alto" asset for its score skips the sector rule; the
   * sector rule only excludes when at least three sectors are preferred.
   */
  function AtivoCompativelPerfil(p: PerfilUsuario, a: AnaliseAtivo, score: real): (ok: bool)
    ensures ok ==> RiscoAceito(p, a, score)
    ensures ok && a.riscoNivel == Alto ==> p.tolerancia != Conservador
    ensures p.tolerancia == Moderado && a.riscoNivel == Alto ==> (ok <==> score >= 7.0)
    ensures |p.setoresPreferidos| < 3 || a.setor in p.setoresPreferidos ==> (ok <==> RiscoAceito(p, a, score))
    ensures (|p.setoresPreferidos| >= 3 && a.setor !in p.setoresPreferidos
             && !(p.tolerancia == Moderado && a.riscoNivel == Alto)) ==> !ok
  {
    if p.tolerancia == Conservador && a.riscoNivel == Alto then false
    else if p.tolerancia == Moderado && a.riscoNivel == Alto then score >= 7.0
    else if |p.setoresPreferidos| > 0 && a.setor !in p.setoresPreferidos then |p.setoresPreferidos| < 3
    else true
  }

  /**
   * The profile adjustment of a score: +0.5 for an income objective and a yield
   * above 8%, +0.5 for a growth objective and dividend growth above 10%, +0.3 for
   * a beginner and a "baixo" asset, -0.5 for a beginner and an "alto" asset;
   * capped at 10 above and not bounded below.
   */
  function AjustarScorePerfil(p: PerfilUsuario, a: AnaliseAtivo, score: real): (r: real)
    ensures r <= 10.0
    ensures r <= score + 0.8
    ensures score <= 10.5 ==> r >= score - 0.5
    ensures r < score && score <= 10.0 ==> p.experiencia == Iniciante && a.riscoNivel == Alto
    ensures r > score ==>
              (p.objetivo == RendaPassiva && a.dy > 0.08)
              || (p.objetivo == Crescimento && a.crescimentoDividendos > 0.1)
              || (p.experiencia == Iniciante && a.riscoNivel == Baixo)
    ensures (score < 10.0 && !(p.experiencia == Iniciante && a.riscoNivel == Alto)
             && ((p.objetivo == RendaPassiva && a.dy > 0.08)
                 || (p.objetivo == Crescimento && a.crescimentoDividendos > 0.1)
                 || (p.experiencia == Iniciante && a.riscoNivel == Baixo)))
            ==> r > score
    ensures (score <= 10.5 && p.experiencia == Iniciante && a.riscoNivel == Alto
             && !(p.objetivo == RendaPassiva && a.dy > 0.08)
             && !(p.objetivo == Crescimento && a.crescimentoDividendos > 0.1))
            ==> r == score - 0.5
  {
    var porObjetivo :=
      if p.objetivo == RendaPassiva && a.dy > 0.08 then 0.5
      else if p.objetivo == Crescimento && a.crescimentoDividendos > 0.1 then 0.5
      else 0.0;
    var porExperiencia :=
      if p.experiencia == Iniciante && a.riscoNivel == Baixo then 0.3
      else if p.experiencia == Iniciante && a.riscoNivel == Alto then -0.5
      else 0.0;
    var s := score + porObjetivo + porExperiencia;
    if s <= 10.0 then s else 10.0
  }

  /** There is no lower clamp: a beginner's "alto" asset at score 0 comes out at -0.5. */
  lemma AjusteSemPiso(p: PerfilUsuario, a: AnaliseAtivo)
    requires p.experiencia == Iniciante && p.objetivo == Preservacao && a.riscoNivel == Alto
    ensures AjustarScorePerfil(p, a, 0.0) == -0.5
  {
  }

  // ---------------------------------------------------------------- the filtering pass

  /** An asset that passed the filter, with the score it had when it was checked. */
  datatype Aceito = Aceito(ativo: AnaliseAtivo, scoreAntes: real)

  function Ativos(xs: seq<Aceito>): (r: seq<AnaliseAtivo>)
    ensures |r| == |xs|
    ensures forall i :: 0 <= i < |xs| ==> r[i] == xs[i].ativo
  {
    seq(|xs|, i requires 0 <= i < |xs| => xs[i].ativo)
  }

  /**
   * The loop of the recommendation, on values: `scores` maps each object to its
   * score; every element in turn is checked against its current score and, if it
   * passes, re-scored. An object listed twice is checked and adjusted twice.
   */
  function Filtragem(p: PerfilUsuario, itens: seq<AnaliseAtivo>, scores: map<AnaliseAtivo, real>)
    : (r: (seq<Aceito>, map<AnaliseAtivo, real>))
    requires forall a :: a in itens ==> a in scores
    ensures r.1.Keys == scores.Keys
    ensures |r.0| <= |itens|
    decreases |itens|
  {
    if itens == [] then ([], scores)
    else
      var n := |itens| - 1;
      var anterior := Filtragem(p, itens[..n], scores);
      var a := itens[n];
      var s := anterior.1[a];
      if AtivoCompativelPerfil(p, a, s)
      then (anterior.0 + [Aceito(a, s)], anterior.1[a := AjustarScorePerfil(p, a, s)])
      else anterior
  }

  /**
   * Whatever passes was compatible with the profile at its check, comes from the
   * input, and ends with a score of at most 10; an object that never passes keeps
   * its score.
   */
  lemma {:induction false} FiltragemAceitos(p: PerfilUsuario, itens: seq<AnaliseAtivo>, scores: map<AnaliseAtivo, real>)
    requires forall a :: a in itens ==> a in scores
    ensures var (aceitos, m) := Filtragem(p, itens, scores);
            (forall j :: 0 <= j < |aceitos| ==>
               aceitos[j].ativo in itens
               && AtivoCompativelPerfil(p, aceitos[j].ativo, aceitos[j].scoreAntes)
               && m[aceitos[j].ativo] <= 10.0)
            && (forall a :: a in scores && a !in Ativos(aceitos) ==> m[a] == scores[a])
  {
    if itens != [] {
      var n := |itens| - 1;
      var anteriores := itens[..n];
      FiltragemAceitos(p, anteriores, scores);
      var (aceitos0, m0) := Filtragem(p, anteriores, scores);
      var (aceitos, m) := Filtragem(p, itens, scores);
      var a := itens[n];
      var s := m0[a];
      if AtivoCompativelPerfil(p, a, s) {
        assert aceitos == aceitos0 + [Aceito(a, s)];
        assert m == m0[a := AjustarScorePerfil(p, a, s)];
        assert Ativos(aceitos) == Ativos(aceitos0) + [a];
      } else {
        assert aceitos == aceitos0 && m == m0;
      }
      forall j | 0 <= j < |aceitos0| ensures aceitos0[j].ativo in itens {
        NoPrefixo(itens, n, aceitos0[j].ativo);
      }
    }
  }

  /**
   * With no object listed twice, each one is checked against its original score,
   * passes exactly when it is compatible with that score, and then holds the
   * adjusted score.
   */
  lemma {:induction false} FiltragemDistintos(p: PerfilUsuario, itens: seq<AnaliseAtivo>, scores: map<AnaliseAtivo, real>)
    requires forall a :: a in itens ==> a in scores
    requires Distintos(itens)
    ensures var (aceitos, m) := Filtragem(p, itens, scores);
            (forall j :: 0 <= j < |aceitos| ==>
               aceitos[j].ativo in itens && aceitos[j].scoreAntes == scores[aceitos[j].ativo])
            && (forall a :: a in itens ==>
                  (a in Ativos(aceitos) <==> AtivoCompativelPerfil(p, a, scores[a]))
                  && m[a] == if AtivoCompativelPerfil(p, a, scores[a]) then AjustarScorePerfil(p, a, scores[a]) else scores[a])
  {
    if itens != [] {
      var n := |itens| - 1;
      var anteriores := itens[..n];
      FiltragemDistintos(p, anteriores, scores);
      FiltragemAceitos(p, anteriores, scores);
      var (aceitos0, m0) := Filtragem(p, anteriores, scores);
      var (aceitos, m) := Filtragem(p, itens, scores);
      var a := itens[n];
      assert a !in anteriores;
      assert a !in Ativos(aceitos0);
      assert m0[a] == scores[a];
      var ok := AtivoCompativelPerfil(p, a, scores[a]);
      if ok {
        assert aceitos == aceitos0 + [Aceito(a, scores[a])];
        assert Ativos(aceitos) == Ativos(aceitos0) + [a];
      } else {
        assert aceitos == aceitos0 && m == m0;
      }
      forall j | 0 <= j < |aceitos0| ensures aceitos0[j].ativo in itens {
        NoPrefixo(itens, n, aceitos0[j].ativo);
      }
      forall b | b in itens && b != a ensures b in anteriores {
        NoPrefixo(itens, n, b);
      }
    }
  }

  /** An element of a sequence other than its last one is in the rest. */
  lemma NoPrefixo<T>(s: seq<T>, n: nat, x: T)
    requires n + 1 == |s|
    ensures x in s[..n] ==> x in s
    ensures x in s && x != s[n] ==> x in s[..n]
  {
    assert s == s[..n] + [s[n]];
  }

  /**
   * Repeated recommendation on the same object compounds: an income-seeking
   * intermediate investor sees a compatible asset yielding above 8% gain 0.5 per call.
   */
  lemma AjusteAcumula(p: PerfilUsuario, a: AnaliseAtivo, s: real)
    requires p.objetivo == RendaPassiva && p.experiencia == Intermediario && a.dy > 0.08
    requires s <= 9.0
    requires AtivoCompativelPerfil(p, a, s) && AtivoCompativelPerfil(p, a, s + 0.5)
    ensures var primeira := Filtragem(p, [a], map[a := s]).1;
            Filtragem(p, [a], primeira).1[a] == s + 1.0
  {
    assert [a][..0] == [];
  }

  // ---------------------------------------------------------------- keys read from the objects

  /** The current score of every listed object. */
  function Placar(xs: seq<AnaliseAtivo>): (m: map<AnaliseAtivo, real>)
    reads set a | a in xs
    ensures m.Keys == set a | a in xs
  {
    map a | a in xs :: a.score
  }

  /** Each object paired with its current score, the key Python's sort reads. */
  function ComScore(xs: seq<AnaliseAtivo>): (r: seq<(AnaliseAtivo, real)>)
    reads set a | a in xs
    ensures |r| == |xs|
    ensures forall i :: 0 <= i < |xs| ==> r[i] == (xs[i], xs[i].score)
  {
    seq(|xs|, i requires 0 <= i < |xs| reads set a | a in xs => (xs[i], xs[i].score))
  }

  /** The ranking step: stable descending sort by score, then `[:limite]`. */
  function Ranking(chaves: seq<(AnaliseAtivo, real)>, limite: int): (r: seq<AnaliseAtivo>)
    ensures limite >= 0 ==> |r| == (if limite <= |chaves| then limite else |chaves|)
    ensures limite < 0 ==> |r| == (if |chaves| + limite >= 0 then |chaves| + limite else 0)
    ensures forall i, j :: 0 <= i < j < |r| ==> OrdenarDesc(chaves)[i].1 >= OrdenarDesc(chaves)[j].1
    ensures forall i :: 0 <= i < |r| ==> r[i] == OrdenarDesc(chaves)[i].0
    ensures forall x :: x in r ==> exists k :: 0 <= k < |chaves| && chaves[k].0 == x
  {
    var ordenado := OrdenarDesc(chaves);
    var cortado := Prefixo(ordenado, limite);
    forall x | x in Elementos(cortado) ensures exists k :: 0 <= k < |chaves| && chaves[k].0 == x {
      var i :| 0 <= i < |cortado| && Elementos(cortado)[i] == x;
      assert ordenado[i] in multiset(chaves);
    }
    Elementos(cortado)
  }

  // ---------------------------------------------------------------- allocation weights

  /** The raw weights by risk tolerance, for the `n` best assets (1 <= n <= 5). */
  function PesosBase(t: Tolerancia, n: nat): (w: seq<real>)
    requires 1 <= n <= 5
    ensures |w| == n
    ensures forall i :: 0 <= i < n ==> w[i] > 0.0
  {
    match t
    case Conservador => [0.4, 0.25, 0.2, 0.1, 0.05][..n]
    case Agressivo => seq(n, _ => 1.0 / n as real)
    case Moderado => [0.3, 0.25, 0.2, 0.15, 0.1][..n]
  }

  lemma {:induction false} SomaPositiva(w: seq<real>)
    requires |w| > 0 && forall i :: 0 <= i < |w| ==> w[i] > 0.0
    ensures Sum(w) > 0.0
  {
    SumNonNegative(w[..|w| - 1]);
  }

  /** Each weight divided by the sum of all of them. */
  function Normalizar(w: seq<real>): (r: seq<real>)
    requires |w| > 0 && forall i :: 0 <= i < |w| ==> w[i] > 0.0
    ensures |r| == |w|
  {
    SomaPositiva(w);
    seq(|w|, i requires 0 <= i < |w| => w[i] / Sum(w))
  }

  /** Normalised weights are positive, add up to 1 and keep the order of the raw weights. */
  lemma NormalizarPropriedades(w: seq<real>)
    requires |w| > 0 && forall i :: 0 <= i < |w| ==> w[i] > 0.0
    ensures Sum(Normalizar(w)) == 1.0
    ensures forall i :: 0 <= i < |w| ==> Normalizar(w)[i] > 0.0
    ensures forall i, j :: 0 <= i < |w| && 0 <= j < |w| && w[i] >= w[j] ==> Normalizar(w)[i] >= Normalizar(w)[j]
    ensures forall i, j :: 0 <= i < |w| && 0 <= j < |w| && w[i] == w[j] ==> Normalizar(w)[i] == Normalizar(w)[j]
  {
    NormalizarSoma(w);
    NormalizarOrdem(w);
  }

  lemma NormalizarSoma(w: seq<real>)
    requires |w| > 0 && forall i :: 0 <= i < |w| ==> w[i] > 0.0
    ensures Sum(Normalizar(w)) == 1.0
    ensures forall i :: 0 <= i < |w| ==> Normalizar(w)[i] > 0.0
  {
    SomaPositiva(w);
    var total := Sum(w);
    var r := Normalizar(w);
    forall i | 0 <= i < |w| ensures r[i] == (1.0 / total) * w[i] && r[i] > 0.0 {
      DividirPositivo(w[i], total);
    }
    SumScale(w, r, 1.0 / total);
  }

  lemma NormalizarOrdem(w: seq<real>)
    requires |w| > 0 && forall i :: 0 <= i < |w| ==> w[i] > 0.0
    ensures forall i, j :: 0 <= i < |w| && 0 <= j < |w| && w[i] >= w[j] ==> Normalizar(w)[i] >= Normalizar(w)[j]
  {
    SomaPositiva(w);
    var total := Sum(w);
    var r := Normalizar(w);
    forall i, j | 0 <= i < |w| && 0 <= j < |w| && w[i] >= w[j] ensures r[i] >= r[j] {
      DividirPreservaOrdem(w[j], w[i], total);
    }
  }

  /** The weights used for the split: the raw weights of the tolerance, normalised. */
  function Pesos(t: Tolerancia, n: nat): (w: seq<real>)
    requires 1 <= n <= 5
    ensures |w| == n
  {
    Normalizar(PesosBase(t, n))
  }

  /**
   * The normalised weights are positive and add up to 1; they never increase with
   * rank for a conservative or moderate profile and are all equal for an
   * aggressive one.
   */
  lemma PesosNormalizados(t: Tolerancia, n: nat)
    requires 1 <= n <= 5
    ensures Sum(Pesos(t, n)) == 1.0
    ensures forall i :: 0 <= i < n ==> Pesos(t, n)[i] > 0.0
    ensures t != Agressivo ==> forall i, j :: 0 <= i < j < n ==> Pesos(t, n)[i] >= Pesos(t, n)[j]
    ensures t == Agressivo ==> forall i, j :: 0 <= i < n && 0 <= j < n ==> Pesos(t, n)[i] == Pesos(t, n)[j]
  {
    NormalizarPropriedades(PesosBase(t, n));
    PesosBaseOrdem(t, n);
  }

  lemma PesosBaseOrdem(t: Tolerancia, n: nat)
    requires 1 <= n <= 5
    ensures t != Agressivo ==> forall i, j :: 0 <= i < j < n ==> PesosBase(t, n)[i] >= PesosBase(t, n)[j]
    ensures t == Agressivo ==> forall i, j :: 0 <= i < n && 0 <= j < n ==> PesosBase(t, n)[i] == PesosBase(t, n)[j]
  {
  }

  lemma DividirPositivo(x: real, c: real)
    requires x > 0.0 && c > 0.0
    ensures x / c == (1.0 / c) * x && x / c > 0.0
  {
  }

  lemma DividirPreservaOrdem(x: real, y: real, c: real)
    requires x <= y && c > 0.0
    ensures x / c <= y / c
  {
  }

  function Montantes(valorTotal: real, pesos: seq<real>): (r: seq<real>)
    ensures |r| == |pesos|
    ensures forall i :: 0 <= i < |pesos| ==> r[i] == valorTotal * pesos[i]
  {
    seq(|pesos|, i requires 0 <= i < |pesos| => valorTotal * pesos[i])
  }

  function Tickers(xs: seq<AnaliseAtivo>): set<string>
  {
    set i | 0 <= i < |xs| :: xs[i].ticker
  }

  lemma TickersPasso(xs: seq<AnaliseAtivo>)
    requires xs != []
    ensures Tickers(xs) == Tickers(xs[..|xs| - 1]) + {xs[|xs| - 1].ticker}
  {
    var n := |xs| - 1;
    forall t | t in Tickers(xs) ensures t in Tickers(xs[..n]) + {xs[n].ticker} {
      var i :| 0 <= i < |xs| && xs[i].ticker == t;
      if i < n { assert xs[..n][i].ticker == t; }
    }
  }

  /** The dictionary built by assigning `vs[i]` to the ticker of `xs[i]` in order; a repeated ticker keeps the last value. */
  function Alocacao(xs: seq<AnaliseAtivo>, vs: seq<real>): (m: map<string, real>)
    requires |xs| == |vs|
    ensures m.Keys == Tickers(xs)
    decreases |xs|
  {
    if xs == [] then map[]
    else
      var n := |xs| - 1;
      TickersPasso(xs);
      Alocacao(xs[..n], vs[..n])[xs[n].ticker := vs[n]]
  }

  lemma AlocacaoPasso(xs: seq<AnaliseAtivo>, vs: seq<real>)
    requires |xs| == |vs| > 0
    ensures var n := |xs| - 1; Alocacao(xs, vs) == Alocacao(xs[..n], vs[..n])[xs[n].ticker := vs[n]]
  {
  }

  /** One more asset in the prefix assigns its amount to its ticker. */
  lemma AlocacaoPrefixoPasso(xs: seq<AnaliseAtivo>, vs: seq<real>, i: nat)
    requires i < |xs| && i < |vs|
    ensures Alocacao(xs[..i + 1], vs[..i + 1]) == Alocacao(xs[..i], vs[..i])[xs[i].ticker := vs[i]]
  {
    AlocacaoPasso(xs[..i + 1], vs[..i + 1]);
    assert xs[..i + 1][..i] == xs[..i];
    assert vs[..i + 1][..i] == vs[..i];
  }

  /** The prefix of `n` assets with all `n` amounts: at most `n` entries. */
  lemma AlocacaoCompleta(xs: seq<AnaliseAtivo>, vs: seq<real>, n: nat)
    requires n <= |xs| && n == |vs|
    ensures Alocacao(xs[..n], vs[..n]) == Alocacao(xs[..n], vs)
    ensures |Alocacao(xs[..n], vs)| <= n
  {
    assert vs[..n] == vs;
    AlocacaoTamanho(xs[..n], vs);
  }

  lemma {:induction false} AlocacaoTamanho(xs: seq<AnaliseAtivo>, vs: seq<real>)
    requires |xs| == |vs|
    ensures |Alocacao(xs, vs)| <= |xs|
  {
    if xs != [] {
      var n := |xs| - 1;
      AlocacaoTamanho(xs[..n], vs[..n]);
      var m := Alocacao(xs[..n], vs[..n]);
      assert Alocacao(xs, vs).Keys == m.Keys + {xs[n].ticker};
      assert |m.Keys + {xs[n].ticker}| <= |m.Keys| + 1;
    }
  }

  /** With distinct tickers each asset gets exactly its own amount. */
  lemma AlocacaoDistintos(xs: seq<AnaliseAtivo>, vs: seq<real>)
    requires |xs| == |vs|
    requires forall i, j :: 0 <= i < j < |xs| ==> xs[i].ticker != xs[j].ticker
    ensures forall i :: 0 <= i < |xs| ==> Alocacao(xs, vs)[xs[i].ticker] == vs[i]
  {
    forall i | 0 <= i < |xs| ensures Alocacao(xs, vs)[xs[i].ticker] == vs[i] {
      AlocacaoEm(xs, vs, i);
    }
  }

  /** The amount written for the asset at index `k` is not overwritten by a later asset with another ticker. */
  lemma {:induction false} AlocacaoEm(xs: seq<AnaliseAtivo>, vs: seq<real>, k: nat)
    requires |xs| == |vs| && k < |xs|
    requires forall j :: k < j < |xs| ==> xs[j].ticker != xs[k].ticker
    ensures xs[k].ticker in Alocacao(xs, vs) && Alocacao(xs, vs)[xs[k].ticker] == vs[k]
    decreases |xs|
  {
    var n := |xs| - 1;
    AlocacaoPasso(xs, vs);
    if k < n {
      var xs', vs' := xs[..n], vs[..n];
      assert xs'[k] == xs[k] && vs'[k] == vs[k];
      assert forall j :: k < j < |xs'| ==> xs'[j] == xs[j];
      AlocacaoEm(xs', vs', k);
      assert xs[n].ticker != xs[k].ticker;
    }
  }

  /**
   * With distinct tickers and a non-negative total, the suggestion gives every
   * asset a non-negative amount and the amounts add up to the total.
   */
  lemma MontantesSomamTotal(t: Tolerancia, n: nat, valorTotal: real)
    requires 1 <= n <= 5
    requires valorTotal >= 0.0
    ensures Sum(Montantes(valorTotal, Pesos(t, n))) == valorTotal
    ensures forall i :: 0 <= i < n ==> Montantes(valorTotal, Pesos(t, n))[i] >= 0.0
  {
    var w := Pesos(t, n);
    PesosNormalizados(t, n);
    MontantesDePesos(w, valorTotal);
  }

  lemma MontantesDePesos(w: seq<real>, valorTotal: real)
    requires Sum(w) == 1.0 && valorTotal >= 0.0
    requires forall i :: 0 <= i < |w| ==> w[i] > 0.0
    ensures Sum(Montantes(valorTotal, w)) == valorTotal
    ensures forall i :: 0 <= i < |w| ==> Montantes(valorTotal, w)[i] >= 0.0
  {
    SumScale(w, Montantes(valorTotal, w), valorTotal);
    forall i | 0 <= i < |w| ensures Montantes(valorTotal, w)[i] >= 0.0 {
      MultiplicaMonotona(0.0, valorTotal, w[i]);
    }
  }

  /** The amounts a map gives to the tickers of `xs`, in the order of `xs`. */
  function ValoresPorTicker(m: map<string, real>, xs: seq<AnaliseAtivo>): (r: seq<real>)
    requires forall i :: 0 <= i < |xs| ==> xs[i].ticker in m
    ensures |r| == |xs|
    ensures forall i :: 0 <= i < |xs| ==> r[i] == m[xs[i].ticker]
  {
    seq(|xs|, i requires 0 <= i < |xs| => m[xs[i].ticker])
  }

  lemma {:induction false} TickersDistintosTamanho(xs: seq<AnaliseAtivo>)
    requires forall i, j :: 0 <= i < j < |xs| ==> xs[i].ticker != xs[j].ticker
    ensures |Tickers(xs)| == |xs|
  {
    if xs != [] {
      var n := |xs| - 1;
      TickersDistintosTamanho(xs[..n]);
      TickersPasso(xs);
      assert xs[n].ticker !in Tickers(xs[..n]);
    }
  }

  /**
   * The suggestion for the first `n` recommended assets with distinct tickers and
   * a non-negative total: one entry per asset, each non-negative, together equal
   * to the total; non-increasing in rank for a conservative or moderate profile
   * and all equal for an aggressive one.
   */
  lemma SugestaoDistribuiTotal(t: Tolerancia, xs: seq<AnaliseAtivo>, valorTotal: real)
    requires 1 <= |xs| <= 5
    requires forall i, j :: 0 <= i < j < |xs| ==> xs[i].ticker != xs[j].ticker
    requires valorTotal >= 0.0
    ensures var m := Alocacao(xs, Montantes(valorTotal, Pesos(t, |xs|)));
            && |m| == |xs|
            && (forall i :: 0 <= i < |xs| ==> xs[i].ticker in m && m[xs[i].ticker] >= 0.0)
            && Sum(ValoresPorTicker(m, xs)) == valorTotal
            && (t != Agressivo ==> forall i, j :: 0 <= i < j < |xs| ==> m[xs[i].ticker] >= m[xs[j].ticker])
            && (t == Agressivo ==> forall i, j :: 0 <= i < |xs| && 0 <= j < |xs| ==> m[xs[i].ticker] == m[xs[j].ticker])
  {
    PesosNormalizados(t, |xs|);
    ReparteTotal(xs, Pesos(t, |xs|), valorTotal);
  }

  /** `SugestaoDistribuiTotal` for any positive weights adding up to 1. */
  lemma ReparteTotal(xs: seq<AnaliseAtivo>, w: seq<real>, valorTotal: real)
    requires |xs| == |w|
    requires forall i, j :: 0 <= i < j < |xs| ==> xs[i].ticker != xs[j].ticker
    requires valorTotal >= 0.0 && Sum(w) == 1.0
    requires forall i :: 0 <= i < |w| ==> w[i] > 0.0
    ensures var m := Alocacao(xs, Montantes(valorTotal, w));
            && |m| == |xs|
            && (forall i :: 0 <= i < |xs| ==> xs[i].ticker in m && m[xs[i].ticker] >= 0.0)
            && Sum(ValoresPorTicker(m, xs)) == valorTotal
            && ((forall i, j :: 0 <= i < j < |w| ==> w[i] >= w[j]) ==>
                  forall i, j :: 0 <= i < j < |xs| ==> m[xs[i].ticker] >= m[xs[j].ticker])
            && ((forall i, j :: 0 <= i < |w| && 0 <= j < |w| ==> w[i] == w[j]) ==>
                  forall i, j :: 0 <= i < |xs| && 0 <= j < |xs| ==> m[xs[i].ticker] == m[xs[j].ticker])
  {
    var vs := Montantes(valorTotal, w);
    var m := Alocacao(xs, vs);
    AlocacaoResumo(xs, vs);
    MontantesDePesos(w, valorTotal);
    assert Sum(ValoresPorTicker(m, xs)) == valorTotal;
    assert forall i :: 0 <= i < |xs| ==> m[xs[i].ticker] == vs[i];
    OrdemMontantes(m, xs, vs, w, valorTotal);
  }

  /** Amounts proportional to the weights keep the order and the equalities of the weights. */
  lemma OrdemMontantes(m: map<string, real>, xs: seq<AnaliseAtivo>, vs: seq<real>, w: seq<real>, c: real)
    requires |xs| == |vs| == |w| && c >= 0.0
    requires forall i :: 0 <= i < |xs| ==> xs[i].ticker in m && m[xs[i].ticker] == vs[i]
    requires forall i :: 0 <= i < |vs| ==> vs[i] == c * w[i]
    ensures (forall i, j :: 0 <= i < j < |w| ==> w[i] >= w[j]) ==>
              forall i, j :: 0 <= i < j < |xs| ==> m[xs[i].ticker] >= m[xs[j].ticker]
    ensures (forall i, j :: 0 <= i < |w| && 0 <= j < |w| ==> w[i] == w[j]) ==>
              forall i, j :: 0 <= i < |xs| && 0 <= j < |xs| ==> m[xs[i].ticker] == m[xs[j].ticker]
  {
    if forall i, j :: 0 <= i < j < |w| ==> w[i] >= w[j] {
      forall i, j | 0 <= i < j < |xs| ensures m[xs[i].ticker] >= m[xs[j].ticker] {
        MontantesNaOrdem(w[j], w[i], c, m[xs[j].ticker], m[xs[i].ticker]);
      }
    }
  }

  /** Two amounts `c` times their weights are ordered as the weights are. */
  lemma MontantesNaOrdem(x: real, y: real, c: real, a: real, b: real)
    requires x <= y && c >= 0.0 && a == c * x && b == c * y
    ensures a <= b
  {
    MultiplicaMonotona(x, y, c);
  }

  /** With distinct tickers the dictionary has one entry per asset, holding that asset's amount. */
  lemma AlocacaoResumo(xs: seq<AnaliseAtivo>, vs: seq<real>)
    requires |xs| == |vs|
    requires forall i, j :: 0 <= i < j < |xs| ==> xs[i].ticker != xs[j].ticker
    ensures var m := Alocacao(xs, vs);
            && |m| == |xs|
            && (forall i :: 0 <= i < |xs| ==> xs[i].ticker in m && m[xs[i].ticker] == vs[i])
            && ValoresPorTicker(m, xs) == vs
  {
    var m := Alocacao(xs, vs);
    AlocacaoDistintos(xs, vs);
    TickersDistintosTamanho(xs);
    assert |m| == |m.Keys|;
    forall i | 0 <= i < |xs| ensures xs[i].ticker in m {
      assert xs[i].ticker in Tickers(xs);
    }
  }

  // ---------------------------------------------------------------- the agent

  class RendyInvestAgent {
    var perfilUsuario: Option<PerfilUsuario>

    constructor ()
      ensures perfilUsuario == None
    {
      perfilUsuario := None;
    }

    method DefinirPerfil(perfil: PerfilUsuario)
      modifies this
      ensures perfilUsuario == Some(perfil)
    {
      perfilUsuario := Some(perfil);
    }

    /**
     * Without a profile: the analyses ranked by score, nothing changed. With one:
     * each analysis that passes the filter has its `score` overwritten by the
     * adjusted one (in place), and those are ranked by the new score.
     */
    method RecomendarAtivos(analises: seq<AnaliseAtivo>, limite: int) returns (r: seq<AnaliseAtivo>)
      modifies set a | a in analises
      ensures perfilUsuario.None? ==> forall a :: a in analises ==> a.score == old(a.score)
      ensures perfilUsuario.None? ==> r == Ranking(ComScore(analises), limite)
      ensures perfilUsuario.Some? ==>
                var (aceitos, m) := Filtragem(perfilUsuario.value, analises, old(Placar(analises)));
                (forall a :: a in analises ==> a.score == m[a])
                && r == Ranking(ComScore(Ativos(aceitos)), limite)
      ensures limite >= 0 ==> |r| <= limite
      ensures forall i, j :: 0 <= i < j < |r| ==> r[i].score >= r[j].score
      ensures forall a :: a in r ==> a in analises
      ensures perfilUsuario.Some? ==>
                forall a :: a in r ==> a.score <= 10.0 && RiscoAceitoAlgumDia(perfilUsuario.value, a)
    {
      if perfilUsuario.None? {
        r := Ranking(ComScore(analises), limite);
        RankingPorScore(analises, limite, r);
        return;
      }
      var p := perfilUsuario.value;
      ghost var inicial := Placar(analises);
      var filtrados := AjustarPorPerfil(p, analises);
      r := Ranking(ComScore(filtrados), limite);
      RankingPorScore(filtrados, limite, r);
      FiltragemAceitos(p, analises, inicial);
      ghost var aceitos := Filtragem(p, analises, inicial).0;
      forall a | a in r ensures a.score <= 10.0 && RiscoAceitoAlgumDia(p, a) {
        var k :| 0 <= k < |filtrados| && filtrados[k] == a;
        assert aceitos[k].ativo == a;
      }
    }

    /**
     * The suggested split of `valorTotal` over the first (at most five) recommended
     * assets, with the normalised weights of the profile's risk tolerance.
     */
    method GerarSugestaoAlocacao(valorTotal: real, ativos: seq<AnaliseAtivo>) returns (alocacao: map<string, real>)
      ensures perfilUsuario.None? || ativos == [] ==> alocacao == map[]
      ensures |alocacao| <= 5
      ensures perfilUsuario.Some? && ativos != [] ==>
                var n := if |ativos| <= 5 then |ativos| else 5;
                alocacao == Alocacao(ativos[..n], Montantes(valorTotal, Pesos(perfilUsuario.value.tolerancia, n)))
    {
      if perfilUsuario.None? || ativos == [] {
        return map[];
      }
      var n := if |ativos| <= 5 then |ativos| else 5;
      var pesos := Pesos(perfilUsuario.value.tolerancia, n);
      alocacao := Repartir(valorTotal, ativos, pesos);
    }
  }

  /**
   * The loop of the suggestion: the amount `valorTotal * pesos[i]` assigned, in
   * order, to the ticker of the `i`-th asset.
   */
  method Repartir(valorTotal: real, ativos: seq<AnaliseAtivo>, pesos: seq<real>) returns (alocacao: map<string, real>)
    requires |pesos| <= |ativos|
    ensures alocacao == Alocacao(ativos[..|pesos|], Montantes(valorTotal, pesos))
    ensures |alocacao| <= |pesos|
  {
    var n := |pesos|;
    ghost var montantes := Montantes(valorTotal, pesos);
    alocacao := map[];
    var i := 0;
    while i < n
      invariant 0 <= i <= n
      invariant alocacao == Alocacao(ativos[..i], montantes[..i])
    {
      AlocacaoPrefixoPasso(ativos, montantes, i);
      assert montantes[i] == valorTotal * pesos[i];
      alocacao := alocacao[ativos[i].ticker := valorTotal * pesos[i]];
      i := i + 1;
    }
    AlocacaoCompleta(ativos, montantes, n);
  }

  /**
   * The filtering loop of the recommendation: every analysis, in order, checked
   * against its current score; the ones that pass have their `score` overwritten
   * by the adjusted one and are collected.
   */
  method AjustarPorPerfil(p: PerfilUsuario, analises: seq<AnaliseAtivo>) returns (filtrados: seq<AnaliseAtivo>)
    modifies set a | a in analises
    ensures var (aceitos, m) := Filtragem(p, analises, old(Placar(analises)));
            (forall a :: a in analises ==> a.score == m[a]) && filtrados == Ativos(aceitos)
  {
    ghost var inicial := Placar(analises);
    filtrados := [];
    ghost var aceitos: seq<Aceito> := [];
    var i := 0;
    while i < |analises|
      invariant 0 <= i <= |analises|
      invariant aceitos == Filtragem(p, analises[..i], inicial).0
      invariant forall a :: a in analises ==> a.score == Filtragem(p, analises[..i], inicial).1[a]
      invariant filtrados == Ativos(aceitos)
    {
      assert analises[..i + 1][..i] == analises[..i];
      var a := analises[i];
      if AtivoCompativelPerfil(p, a, a.score) {
        aceitos := aceitos + [Aceito(a, a.score)];
        a.score := AjustarScorePerfil(p, a, a.score);
        filtrados := filtrados + [a];
      }
      i := i + 1;
    }
    assert analises[..i] == analises;
  }

  /** An asset some check of the profile let through: never "alto" for a conservative profile. */
  predicate RiscoAceitoAlgumDia(p: PerfilUsuario, a: AnaliseAtivo)
  {
    a.riscoNivel == Alto ==> p.tolerancia != Conservador
  }

  /** The ranking read from the objects is ordered by their current scores. */
  lemma RankingPorScore(xs: seq<AnaliseAtivo>, limite: int, r: seq<AnaliseAtivo>)
    requires r == Ranking(ComScore(xs), limite)
    ensures forall i, j :: 0 <= i < j < |r| ==> r[i].score >= r[j].score
    ensures forall a :: a in r ==> a in xs
  {
    var chaves := ComScore(xs);
    var ordenado := OrdenarDesc(chaves);
    forall i | 0 <= i < |r| ensures ordenado[i].1 == r[i].score {
      assert ordenado[i] in multiset(chaves);
      var k :| 0 <= k < |chaves| && chaves[k] == ordenado[i];
    }
  }
}
