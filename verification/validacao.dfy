/**
 * The e-mail check: a match of `^[\w.-]+@[\w.-]+\.\w{2,}$` from the start of the
 * string, where `$` also accepts one final newline. The word-character class `\w`
 * is a parameter `w`; it never holds for '@', '.' or a newline.
 */
module Validacao {
  import opened Wrappers

  /** The bracket class `[\w.-]`. */
  predicate Classe(w: char -> bool, c: char)
  {
    w(c) || c == '.' || c == '-'
  }

  predicate NaClasse(w: char -> bool, s: string)
  {
    forall k :: 0 <= k < |s| ==> Classe(w, s[k])
  }

  predicate Palavra(w: char -> bool, s: string)
  {
    forall k :: 0 <= k < |s| ==> w(s[k])
  }

  /** The three groups of the pattern: user, domain and a top-level part of two or more word characters. */
  predicate Partes(w: char -> bool, usuario: string, dominio: string, final: string)
  {
    |usuario| >= 1 && NaClasse(w, usuario)
    && |dominio| >= 1 && NaClasse(w, dominio)
    && |final| >= 2 && Palavra(w, final)
  }

  /** `t` is exactly user@domain.final for some choice of the three groups. */
  ghost predicate Forma(w: char -> bool, t: string)
  {
    exists usuario, dominio, final :: Partes(w, usuario, dominio, final)
                                      && t == usuario + ['@'] + dominio + ['.'] + final
  }

  /** What the regular expression accepts under `re.match`. */
  ghost predicate CasaPadrao(w: char -> bool, s: string)
  {
    Forma(w, s) || (|s| > 0 && s[|s| - 1] == '\n' && Forma(w, s[..|s| - 1]))
  }

  /** Index of the first `c` in `s`. */
  function PrimeiroIndice(s: string, c: char): (r: Option<nat>)
    ensures r.None? <==> c !in s
    ensures r.Some? ==> r.value < |s| && s[r.value] == c && c !in s[..r.value]
  {
    if s == [] then None
    else if s[0] == c then Some(0)
    else match PrimeiroIndice(s[1..], c)
      case None => None
      case Some(i) =>
        assert s[..i + 1] == [s[0]] + s[1..][..i];
        Some(i + 1)
  }

  /** Index of the last `c` in `s`. */
  function UltimoIndice(s: string, c: char): (r: Option<nat>)
    ensures r.None? <==> c !in s
    ensures r.Some? ==> r.value < |s| && s[r.value] == c && c !in s[r.value + 1..]
    decreases |s|
  {
    if s == [] then None
    else
      var n := |s| - 1;
      if s[n] == c then Some(n)
      else
        assert s == s[..n] + [s[n]];
        match UltimoIndice(s[..n], c)
        case None => None
        case Some(i) =>
          assert s[i + 1..] == s[..n][i + 1..] + [s[n]];
          Some(i)
  }

  /** Without a final newline, or after dropping it, the string is what the recognizer splits. */
  function SemQuebraFinal(s: string): string
  {
    if |s| > 0 && s[|s| - 1] == '\n' then s[..|s| - 1] else s
  }

  /** Splits `t` at its first '@' and at the last '.' after it into user, domain and final part. */
  function Grupos(t: string): (g: Option<(string, string, string)>)
    ensures g.Some? ==> t == g.value.0 + ['@'] + g.value.1 + ['.'] + g.value.2
  {
    match PrimeiroIndice(t, '@')
    case None => None
    case Some(i) =>
      match UltimoIndice(t[i + 1..], '.')
      case None => None
      case Some(d) =>
        Recompor(t, i, d);
        Some((t[..i], t[i + 1..][..d], t[i + 1..][d + 1..]))
  }

  lemma Corte(s: string, k: nat)
    requires k < |s|
    ensures s == s[..k] + [s[k]] + s[k + 1..]
  {
  }

  /** Cutting at an '@' and then at a '.' after it loses nothing. */
  lemma Recompor(t: string, i: nat, d: nat)
    requires i < |t| && t[i] == '@'
    requires d < |t[i + 1..]| && t[i + 1..][d] == '.'
    ensures t == t[..i] + ['@'] + t[i + 1..][..d] + ['.'] + t[i + 1..][d + 1..]
  {
    var resto := t[i + 1..];
    Corte(t, i);
    Corte(resto, d);
    assert t == t[..i] + ['@'] + (resto[..d] + ['.'] + resto[d + 1..]);
  }

  /** The recognizer: drop one final newline, split, and check each group. */
  function ValidarEmail(w: char -> bool, s: string): (ok: bool)
    ensures ok ==> |s| >= 6 && '@' in s && '.' in s
  {
    var t := SemQuebraFinal(s);
    assert forall k :: 0 <= k < |t| ==> t[k] == s[k];
    match Grupos(t)
    case None => false
    case Some(g) =>
      var ok := Partes(w, g.0, g.1, g.2);
      assert t[|g.0|] == '@' && t[|g.0| + 1 + |g.1|] == '.';
      ok
  }

  /** Splitting at the first '@' and the last '.' finds the groups of any decomposition. */
  lemma FormaUnica(w: char -> bool, usuario: string, dominio: string, final: string)
    requires !w('@') && !w('.')
    requires Partes(w, usuario, dominio, final)
    ensures Grupos(usuario + ['@'] + dominio + ['.'] + final) == Some((usuario, dominio, final))
  {
    assert '@' !in usuario by {
      assert forall k :: 0 <= k < |usuario| ==> usuario[k] != '@';
    }
    assert '.' !in final by {
      assert forall k :: 0 <= k < |final| ==> final[k] != '.';
    }
    GruposDaJuncao(usuario, dominio, final);
  }

  /** A user part without '@' and a final part without '.' are what the split finds. */
  lemma GruposDaJuncao(usuario: string, dominio: string, final: string)
    requires '@' !in usuario && '.' !in final
    ensures Grupos(usuario + ['@'] + dominio + ['.'] + final) == Some((usuario, dominio, final))
  {
    var t := usuario + ['@'] + dominio + ['.'] + final;
    var resto := dominio + ['.'] + final;
    Fatias(usuario, dominio, final);
    FatiasResto(dominio, final);
    PrimeiroNaJuncao(usuario, '@', resto);
    UltimoNaJuncao(dominio, '.', final);
    GruposEm(t, |usuario|, |dominio|);
  }

  /** The pieces of user@rest. */
  lemma Fatias(usuario: string, dominio: string, final: string)
    ensures var t := usuario + ['@'] + dominio + ['.'] + final;
            t == usuario + ['@'] + (dominio + ['.'] + final)
            && t[..|usuario|] == usuario && t[|usuario| + 1..] == dominio + ['.'] + final
  {
    var t := usuario + ['@'] + dominio + ['.'] + final;
    assert t == usuario + ['@'] + (dominio + ['.'] + final);
    assert t[..|usuario|] == usuario;
  }

  /** The pieces of domain.final. */
  lemma FatiasResto(dominio: string, final: string)
    ensures var r := dominio + ['.'] + final;
            r[..|dominio|] == dominio && r[|dominio| + 1..] == final
  {
    var r := dominio + ['.'] + final;
    assert r[..|dominio|] == dominio;
  }

  /** The split at a given first '@' and last '.' after it. */
  lemma GruposEm(t: string, i: nat, d: nat)
    requires PrimeiroIndice(t, '@') == Some(i)
    requires UltimoIndice(t[i + 1..], '.') == Some(d)
    ensures Grupos(t) == Some((t[..i], t[i + 1..][..d], t[i + 1..][d + 1..]))
  {
  }

  lemma PrimeiroNaJuncao(x: string, c: char, y: string)
    requires c !in x
    ensures PrimeiroIndice(x + [c] + y, c) == Some(|x|)
  {
    var s := x + [c] + y;
    assert s[|x|] == c;
    assert s[..|x|] == x;
  }

  /** The last `c` of `x + [c] + y` is the one after `x` when `y` has none. */
  lemma UltimoNaJuncao(x: string, c: char, y: string)
    requires c !in y
    ensures UltimoIndice(x + [c] + y, c) == Some(|x|)
  {
    var s := x + [c] + y;
    assert s[|x|] == c;
    assert s[|x| + 1..] == y;
  }

  /** A decomposition never ends in a newline. */
  lemma FormaSemQuebra(w: char -> bool, t: string)
    requires !w('\n')
    requires Forma(w, t)
    ensures |t| > 0 && t[|t| - 1] != '\n'
  {
    var usuario, dominio, final :| Partes(w, usuario, dominio, final)
                                   && t == usuario + ['@'] + dominio + ['.'] + final;
    assert t[|t| - 1] == final[|final| - 1];
    assert w(final[|final| - 1]);
  }

  /** The recognizer accepts exactly the strings the pattern matches. */
  lemma ValidarEmailCorreto(w: char -> bool, s: string)
    requires !w('@') && !w('.') && !w('\n')
    ensures ValidarEmail(w, s) <==> CasaPadrao(w, s)
  {
    var t := SemQuebraFinal(s);
    if ValidarEmail(w, s) {
      var g := Grupos(t).value;
      assert Partes(w, g.0, g.1, g.2);
      assert Forma(w, t);
    }
    if CasaPadrao(w, s) {
      if Forma(w, s) && |s| > 0 && s[|s| - 1] == '\n' {
        FormaSemQuebra(w, s);
      }
      assert Forma(w, t);
      var usuario, dominio, final :| Partes(w, usuario, dominio, final)
                                     && t == usuario + ['@'] + dominio + ['.'] + final;
      FormaUnica(w, usuario, dominio, final);
    }
  }

  /** An example alphabet for `\w`: the lower-case ASCII letters. */
  predicate Minuscula(c: char)
  {
    'a' <= c <= 'z'
  }

  /**
   * An address in which no '.' comes after an '@' (in particular one without '@')
   * is rejected, by the recognizer for any `w` and by the pattern for a proper `\w`.
   */
  lemma EmailSemPonto(w: char -> bool, s: string)
    requires forall i, j :: 0 <= i < j < |s| && s[i] == '@' ==> s[j] != '.'
    ensures !ValidarEmail(w, s)
    ensures !w('@') && !w('.') && !w('\n') ==> !CasaPadrao(w, s)
  {
    GruposSemPonto(s);
    if !w('@') && !w('.') && !w('\n') {
      ValidarEmailCorreto(w, s);
    }
  }

  lemma GruposSemPonto(s: string)
    requires forall i, j :: 0 <= i < j < |s| && s[i] == '@' ==> s[j] != '.'
    ensures Grupos(SemQuebraFinal(s)).None?
  {
    var t := SemQuebraFinal(s);
    assert forall k :: 0 <= k < |t| ==> t[k] == s[k];
    GruposAchamPonto(t);
  }

  /** A successful split has an '@' before a '.'. */
  lemma GruposAchamPonto(t: string)
    ensures Grupos(t).Some? ==> exists i, j :: 0 <= i < j < |t| && t[i] == '@' && t[j] == '.'
  {
    if Grupos(t).Some? {
      var i := PrimeiroIndice(t, '@').value;
      var d := UltimoIndice(t[i + 1..], '.').value;
      assert t[i + 1..][d] == t[i + 1 + d];
      assert 0 <= i < i + 1 + d < |t| && t[i] == '@' && t[i + 1 + d] == '.';
    }
  }

  /** An address without a '.' after the '@' fails. */
  lemma EmailSemPontoExemplo()
    ensures !ValidarEmail(Minuscula, "ana@rendy")
  {
    var t := "ana@rendy";
    assert SemQuebraFinal(t) == t by {
      assert t[|t| - 1] == 'y';
    }
    assert '.' !in t;
  }

  /** `$` lets one final newline through: appending it to a string without one changes nothing. */
  lemma UmaQuebraFinal(w: char -> bool, s: string)
    requires s == [] || s[|s| - 1] != '\n'
    ensures ValidarEmail(w, s + ['\n']) == ValidarEmail(w, s)
  {
    assert (s + ['\n'])[..|s|] == s;
  }

  /** Two final newlines are never accepted. */
  lemma DuasQuebrasFinais(w: char -> bool, s: string)
    requires !w('\n')
    ensures !ValidarEmail(w, s + ['\n', '\n'])
  {
    var u := s + ['\n', '\n'];
    var t := SemQuebraFinal(u);
    assert t == s + ['\n'];
  }
}
