/**
 * The support agent: a fixed FAQ, looked up by a first-match scan in which an
 * entry answers when any word of its (lower-cased) question occurs inside the
 * lower-cased query. Lower-casing is a parameter `lower`.
 */
module Support {

  /** The characters `str.split()` treats as whitespace. */
  predicate Espaco(c: char)
  {
    c == ' ' || c == '\t' || c == '\n' || c == '\r' || c == '\U{B}' || c == '\U{C}'
    || ('\U{1C}' <= c <= '\U{1F}') || c == '\U{85}' || c == '\U{A0}' || c == '\U{1680}'
    || ('\U{2000}' <= c <= '\U{200A}') || c == '\U{2028}' || c == '\U{2029}'
    || c == '\U{202F}' || c == '\U{205F}' || c == '\U{3000}'
  }

  /** Length of the run of non-space characters that starts `s`. */
  function Corrida(s: string): (n: nat)
    ensures n <= |s|
    ensures forall k :: 0 <= k < n ==> !Espaco(s[k])
    ensures n < |s| ==> Espaco(s[n])
  {
    if s == [] || Espaco(s[0]) then 0 else 1 + Corrida(s[1..])
  }

  /** `str.split()` with no argument: the maximal runs of non-space characters, in order. */
  function Palavras(s: string): (ps: seq<string>)
    ensures forall i :: 0 <= i < |ps| ==> |ps[i]| > 0 && forall k :: 0 <= k < |ps[i]| ==> !Espaco(ps[i][k])
    decreases |s|
  {
    if s == [] then []
    else if Espaco(s[0]) then Palavras(s[1..])
    else
      var n := Corrida(s);
      [s[..n]] + Palavras(s[n..])
  }

  /** `p` occurs in `t` starting at index `i`. */
  predicate OcorreEm(p: string, t: string, i: int)
  {
    0 <= i <= |t| - |p| && t[i..i + |p|] == p
  }

  /** Python's `p in t` on strings, computed by trying every starting position. */
  function Contida(p: string, t: string): (ok: bool)
    ensures ok <==> exists i :: OcorreEm(p, t, i)
    decreases |t|
  {
    if |p| > |t| then false
    else if t[..|p|] == p then
      assert OcorreEm(p, t, 0);
      true
    else
      var r := Contida(p, t[1..]);
      ContidaCauda(p, t);
      r
  }

  lemma ContidaCauda(p: string, t: string)
    requires |p| <= |t| && t[..|p|] != p
    ensures (exists i :: OcorreEm(p, t, i)) <==> exists j :: OcorreEm(p, t[1..], j)
  {
    if exists i :: OcorreEm(p, t, i) {
      var i :| OcorreEm(p, t, i);
      assert i != 0;
      assert t[1..][i - 1..i - 1 + |p|] == t[i..i + |p|];
      assert OcorreEm(p, t[1..], i - 1);
    }
    if exists j :: OcorreEm(p, t[1..], j) {
      var j :| OcorreEm(p, t[1..], j);
      assert t[1..][j..j + |p|] == t[j + 1..j + 1 + |p|];
      assert OcorreEm(p, t, j + 1);
    }
  }

  /** Whether the FAQ question `q` answers `pergunta`: one of its words occurs in the query. */
  predicate Responde(lower: string -> string, q: string, pergunta: string)
  {
    exists palavra :: palavra in Palavras(lower(q)) && Contida(palavra, lower(pergunta))
  }

  /** An occurrence in a suffix is an occurrence in the whole string. */
  lemma OcorreNoSufixo(p: string, s: string, d: nat, j: int)
    requires d <= |s| && OcorreEm(p, s[d..], j)
    ensures OcorreEm(p, s, d + j)
  {
    assert s[d + j..d + j + |p|] == s[d..][j..j + |p|];
  }

  /** Every word of `s` occurs in `s`. */
  lemma {:induction false} PalavrasOcorrem(s: string)
    ensures forall palavra :: palavra in Palavras(s) ==> Contida(palavra, s)
    decreases |s|
  {
    if s == [] {
    } else if Espaco(s[0]) {
      PalavrasOcorrem(s[1..]);
      forall palavra | palavra in Palavras(s) ensures Contida(palavra, s) {
        assert palavra in Palavras(s[1..]) && Contida(palavra, s[1..]);
        var j :| OcorreEm(palavra, s[1..], j);
        OcorreNoSufixo(palavra, s, 1, j);
      }
    } else {
      var n := Corrida(s);
      PalavrasOcorrem(s[n..]);
      forall palavra | palavra in Palavras(s) ensures Contida(palavra, s) {
        if palavra == s[..n] {
          assert OcorreEm(palavra, s, 0);
        } else {
          assert palavra in Palavras(s[n..]) && Contida(palavra, s[n..]);
          var j :| OcorreEm(palavra, s[n..], j);
          OcorreNoSufixo(palavra, s, n, j);
        }
      }
    }
  }

  /** A space-free piece between spaces (or the ends of the string) is one of its words. */
  lemma {:induction false} PalavraEntreEspacos(x: string, m: string, y: string)
    requires x == [] || Espaco(x[|x| - 1])
    requires |m| > 0 && forall k :: 0 <= k < |m| ==> !Espaco(m[k])
    requires y == [] || Espaco(y[0])
    ensures m in Palavras(x + m + y)
    decreases |x|
  {
    var s := x + m + y;
    if x == [] {
      assert s == m + y;
      CorridaAteEspaco(s, |m|);
      assert s[..|m|] == m;
    } else if Espaco(x[0]) {
      assert s[1..] == x[1..] + m + y;
      PalavraEntreEspacos(x[1..], m, y);
    } else {
      var n := Corrida(s);
      assert n < |x| by {
        assert s[|x| - 1] == x[|x| - 1];
      }
      assert s[n..] == x[n..] + m + y;
      PalavraEntreEspacos(x[n..], m, y);
    }
  }

  /** `p` sits in `s` at index `i` with a space (or an end of the string) on either side. */
  predicate Delimitada(s: string, p: string, i: int)
  {
    0 <= i && i + |p| <= |s| && s[i..i + |p|] == p
    && (i == 0 || Espaco(s[i - 1])) && (i + |p| == |s| || Espaco(s[i + |p|]))
  }

  /** Conversely, every word of `s` is a piece of `s` bounded by spaces or the ends of `s`. */
  lemma {:induction false} PalavraDelimitada(s: string, p: string)
    requires p in Palavras(s)
    ensures exists i :: Delimitada(s, p, i)
    decreases |s|
  {
    assert s != [];
    if Espaco(s[0]) {
      assert p in Palavras(s[1..]);
      PalavraDelimitada(s[1..], p);
      var i :| Delimitada(s[1..], p, i);
      DelimitadaNoSufixo(s, p, 1, i);
    } else {
      var n := Corrida(s);
      assert n > 0;
      if p == s[..n] {
        assert Delimitada(s, p, 0);
      } else {
        assert p in Palavras(s[n..]);
        PalavraDelimitada(s[n..], p);
        var i :| Delimitada(s[n..], p, i);
        assert |p| > 0 && !Espaco(p[0]);
        DelimitadaNoSufixo(s, p, n, i);
      }
    }
  }

  /** A bounded piece of the suffix `s[d..]` is a bounded piece of `s`, unless it starts the suffix after a non-space. */
  lemma DelimitadaNoSufixo(s: string, p: string, d: nat, i: int)
    requires d <= |s| && Delimitada(s[d..], p, i)
    requires (d > 0 && Espaco(s[d - 1])) || (|p| > 0 && !Espaco(p[0]) && (d == |s| || Espaco(s[d])))
    ensures Delimitada(s, p, d + i)
  {
    assert s[d + i..d + i + |p|] == s[d..][i..i + |p|];
    if |p| > 0 {
      assert s[d + i] == p[0];
    }
    assert i == 0 || s[d + i - 1] == s[d..][i - 1];
    assert i + |p| == |s[d..]| || s[d + i + |p|] == s[d..][i + |p|];
  }

  lemma CorridaAteEspaco(s: string, n: nat)
    requires 0 < n <= |s| && (n == |s| || Espaco(s[n]))
    requires forall k :: 0 <= k < n ==> !Espaco(s[k])
    ensures Corrida(s) == n
  {
  }

  /** An empty query (after lower-casing) matches no question, since words are never empty. */
  lemma PerguntaVaziaNaoResponde(lower: string -> string, q: string, pergunta: string)
    requires lower(pergunta) == ""
    ensures !Responde(lower, q, pergunta)
  {
    forall palavra | palavra in Palavras(lower(q)) ensures !Contida(palavra, lower(pergunta)) {
      assert |palavra| > 0;
    }
  }

  lemma PalavraOPrimeira()
    ensures "o" in Palavras("como funciona o score da rendy ai?")
  {
    assert "como funciona o score da rendy ai?" == "como funciona " + "o" + " score da rendy ai?";
    PalavraEntreEspacos("como funciona ", "o", " score da rendy ai?");
  }

  /**
   * Any query holding the letter 'o' is answered by the first entry, whose
   * lower-cased question has the one-letter word "o".
   */
  lemma PrimeiraEntradaCapturaO(lower: string -> string, pergunta: string)
    requires lower(Faq[0].0) == "como funciona o score da rendy ai?"
    requires 'o' in lower(pergunta)
    ensures Responde(lower, Faq[0].0, pergunta)
  {
    PalavraOPrimeira();
    LetraContida('o', lower(pergunta));
    assert "o" in Palavras(lower(Faq[0].0)) && Contida("o", lower(pergunta));
  }

  lemma LetraContida(c: char, t: string)
    requires c in t
    ensures Contida([c], t)
  {
    var k :| 0 <= k < |t| && t[k] == c;
    assert t[k..k + 1] == [c];
    assert OcorreEm([c], t, k);
  }

  const RespostaPadrao: string :=
    "Desculpe, não encontrei uma resposta específica para sua pergunta. "
    + "Consulte nosso glossário ou entre em contato conosco."

  /** The FAQ in the order the source's dict holds it. */
  const Faq: seq<(string, string)> := [
    ("Como funciona o score da Rendy AI?",
     "O score combina 4 indicadores principais: Dividend Yield (peso 4), ROE (peso 3), P/L e P/VP (peso 1.5 cada). "
     + "Também considera Free Cash Flow e Payout Ratio. O máximo é 10 pontos."),
    ("O que é um 'Super Investimento'?",
     "São ações que ultrapassaram 10 pontos no cálculo bruto do score, indicando fundamentos excepcionais "
     + "segundo nossos critérios de análise."),
    ("Como interpretar o Dividend Yield?",
     "DY é o percentual de dividendos pagos sobre o preço da ação. Valores entre 6-12% são considerados "
     + "atrativos, mas DY muito alto (>15%) pode indicar problemas na empresa."),
    ("Qual a diferença entre P/L e P/VP?",
     "P/L compara preço com lucro (quanto você paga por cada real de lucro). P/VP compara preço com "
     + "patrimônio (valor contábil). Ambos baixos podem indicar ação barata."),
    ("Como diversificar minha carteira?",
     "Recomendamos investir em pelo menos 3-5 setores diferentes, não concentrar mais de 20% em uma "
     + "única ação, e balancear entre ações de alto e baixo risco.")
  ]

  class RendySupportAgent {
    const faq: seq<(string, string)>

    constructor ()
      ensures faq == Faq
    {
      faq := Faq;
    }

    /**
     * The answer of the first FAQ entry whose question answers the query, or the
     * default answer when none does.
     */
    method ResponderPergunta(lower: string -> string, pergunta: string) returns (r: string)
      ensures (forall i :: 0 <= i < |faq| ==> !Responde(lower, faq[i].0, pergunta)) ==> r == RespostaPadrao
      ensures (exists i :: 0 <= i < |faq| && Responde(lower, faq[i].0, pergunta)) ==>
                exists i :: 0 <= i < |faq| && Responde(lower, faq[i].0, pergunta) && r == faq[i].1
                            && forall j :: 0 <= j < i ==> !Responde(lower, faq[j].0, pergunta)
    {
      var perguntaLower := lower(pergunta);
      var i := 0;
      while i < |faq|
        invariant 0 <= i <= |faq|
        invariant forall j :: 0 <= j < i ==> !Responde(lower, faq[j].0, pergunta)
      {
        var palavras := Palavras(lower(faq[i].0));
        if exists palavra :: palavra in palavras && Contida(palavra, perguntaLower) {
          return faq[i].1;
        }
        i := i + 1;
      }
      return RespostaPadrao;
    }
  }
}
