/** Escaping text into a TypeScript template literal, and what the literal then evaluates to. */
module Template {
  import opened Basics

  /** Python's `s.replace(old, new)`. */
  function Replace(s: string, pattern: string, text: string): string
    requires |pattern| >= 1
  {
    if |s| < |pattern| then s
    else if s[..|pattern|] == pattern then text + Replace(s[|pattern|..], pattern, text)
    else [s[0]] + Replace(s[1..], pattern, text)
  }

  function EscapeBackslashes(s: string): string { Replace(s, ['\\'], ['\\', '\\']) }

  function EscapeBackticks(s: string): string { Replace(s, ['`'], ['\\', '`']) }

  function EscapeSubstitutions(s: string): string { Replace(s, ['$', '{'], ['\\', '$', '{']) }

  function EscapeForTs(content: string): string {
    EscapeSubstitutions(EscapeBackticks(EscapeBackslashes(content)))
  }

  /** One pass over the text. */
  function EscapeOnce(s: string): string {
    if s == [] then []
    else
      var rest := EscapeOnce(s[1..]);
      if s[0] == '\\' || s[0] == '`' || (s[0] == '$' && |s| >= 2 && s[1] == '{') then ['\\', s[0]] + rest
      else [s[0]] + rest
  }

  lemma BackslashStep(s: string)
    requires s != []
    ensures EscapeBackslashes(s) == (if s[0] == '\\' then ['\\', '\\'] else [s[0]]) + EscapeBackslashes(s[1..])
  {
    assert s[..1] == ['\\'] <==> s[0] == '\\';
  }

  lemma BacktickStep(c: char, s: string)
    ensures EscapeBackticks([c] + s) == (if c == '`' then ['\\', '`'] else [c]) + EscapeBackticks(s)
  {
    var t := [c] + s;
    assert t[..1] == [c] && t[1..] == s;
    assert t[..1] == ['`'] <==> c == '`';
  }

  lemma SubstitutionStep(c: char, s: string)
    ensures c != '$' || s == [] || s[0] != '{' ==> EscapeSubstitutions([c] + s) == [c] + EscapeSubstitutions(s)
    ensures EscapeSubstitutions(['$', '{'] + s) == ['\\', '$', '{'] + EscapeSubstitutions(s)
  {
    var t, u := [c] + s, ['$', '{'] + s;
    assert t[1..] == s && u[..2] == ['$', '{'] && u[2..] == s;
    if |t| >= 2 {
      assert t[..2] == [c, s[0]];
      assert t[..2] == ['$', '{'] <==> c == '$' && s[0] == '{';
    } else {
      assert t == [c] && s == [];
    }
  }

  /** The first two passes: what they make of the first character, and of the rest. */
  function TwoPasses(s: string): string { EscapeBackticks(EscapeBackslashes(s)) }

  lemma TwoPassesStep(s: string)
    requires s != []
    ensures TwoPasses(s) == (if s[0] == '\\' || s[0] == '`' then ['\\', s[0]] else [s[0]]) + TwoPasses(s[1..])
  {
    hide EscapeBackslashes, EscapeBackticks;
    var rest := EscapeBackslashes(s[1..]);
    BackslashStep(s);
    if s[0] == '\\' {
      assert ['\\', '\\'] + rest == ['\\'] + (['\\'] + rest);
      BacktickStep('\\', ['\\'] + rest);
      BacktickStep('\\', rest);
      assert ['\\'] + (['\\'] + EscapeBackticks(rest)) == ['\\', '\\'] + EscapeBackticks(rest);
    } else {
      BacktickStep(s[0], rest);
    }
  }

  /** The three whole-string replacements amount to one pass. */
  lemma {:induction false} EscapeIsOnePass(s: string)
    ensures EscapeForTs(s) == EscapeOnce(s)
  {
    hide EscapeSubstitutions, TwoPasses, EscapeBackslashes, EscapeBackticks;
    Unfold(s);
    if s == [] {
      NothingToEscape();
    } else {
      TwoPassesStep(s);
      EscapeIsOnePass(s[1..]);
      Unfold(s[1..]);
      var rest := TwoPasses(s[1..]);
      if s[0] == '\\' || s[0] == '`' {
        assert ['\\', s[0]] + rest == ['\\'] + ([s[0]] + rest);
        SubstitutionStep('\\', [s[0]] + rest);
        SubstitutionStep(s[0], rest);
      } else if s[0] == '$' && |s| >= 2 && s[1] == '{' {
        TwoPassesStep(s[1..]);
        var tail := TwoPasses(s[1..][1..]);
        assert ['$'] + rest == ['$', '{'] + tail;
        SubstitutionStep('$', tail);
        SubstitutionStep('{', tail);
      } else {
        if |s| >= 2 { TwoPassesStep(s[1..]); } else { NothingToEscape(); }
        SubstitutionStep(s[0], rest);
      }
    }
  }

  lemma Unfold(s: string)
    ensures EscapeForTs(s) == EscapeSubstitutions(TwoPasses(s))
  {
  }

  lemma NothingToEscape()
    ensures TwoPasses([]) == [] && EscapeSubstitutions([]) == []
  {
  }

  /** No backslash, no backtick and no start of a substitution. */
  ghost predicate Plain(s: string) {
    forall i :: 0 <= i < |s| ==>
      s[i] != '\\' && s[i] != '`' && !(s[i] == '$' && i + 1 < |s| && s[i + 1] == '{')
  }

  lemma {:induction false} OncePlain(s: string)
    ensures |EscapeOnce(s)| >= |s| && (Plain(s) ==> EscapeOnce(s) == s) && (|EscapeOnce(s)| == |s| ==> Plain(s))
  {
    if s != [] {
      OncePlain(s[1..]);
      assert forall i :: 1 <= i < |s| ==> s[i] == s[1..][i - 1];
      assert forall i :: 1 <= i < |s| - 1 ==> s[i + 1] == s[1..][i];
      assert [s[0]] + s[1..] == s;
    }
  }

  /** Text is left alone exactly if there is nothing in it to escape. */
  lemma UnchangedIff(s: string)
    ensures EscapeForTs(s) == s <==> Plain(s)
  {
    hide EscapeForTs, EscapeOnce, Plain;
    EscapeIsOnePass(s);
    OncePlain(s);
  }

  // ---------- What the literal evaluates to ----------

  /** The value of the characters between the backticks, by section 12.9.6 of ECMA-262 (2023): None if
      the literal ends early, starts a substitution, or has an escape other than of a backslash, a
      backtick or a dollar sign. Both CR and CR LF stand for LF. */
  function Cooked(t: string): Option<string> {
    if t == [] then Some([])
    else if t[0] == '`' then None
    else if t[0] == '$' && |t| >= 2 && t[1] == '{' then None
    else if t[0] == '\\' then
      if |t| >= 2 && (t[1] == '\\' || t[1] == '`' || t[1] == '$') then Prepend(t[1], Cooked(t[2..])) else None
    else if t[0] == '\r' then Prepend('\n', Cooked(t[if |t| >= 2 && t[1] == '\n' then 2 else 1..]))
    else Prepend(t[0], Cooked(t[1..]))
  }

  function Prepend(c: char, rest: Option<string>): Option<string> {
    if rest.None? then None else Some([c] + rest.value)
  }

  function LineEndings(s: string): string {
    if s == [] then []
    else if s[0] == '\r' then ['\n'] + LineEndings(s[if |s| >= 2 && s[1] == '\n' then 2 else 1..])
    else [s[0]] + LineEndings(s[1..])
  }

  lemma EscapeOnceHead(s: string)
    requires s != []
    ensures var e := EscapeOnce(s);
            e != [] && (e[0] == '{' <==> s[0] == '{') && (e[0] == '\n' <==> s[0] == '\n') && e[0] != '`'
            && (s[0] == '\n' ==> e[1..] == EscapeOnce(s[1..]))
  {
  }

  /** For every text: the escaped literal is well formed and evaluates to the text with its line
      endings normalised. */
  lemma {:induction false} CookedEscape(s: string)
    ensures Cooked(EscapeOnce(s)) == Some(LineEndings(s))
    decreases |s|
  {
    if s != [] {
      var e, rest := EscapeOnce(s), EscapeOnce(s[1..]);
      CookedEscape(s[1..]);
      if |s| >= 2 { EscapeOnceHead(s[1..]); }
      if s[0] == '\\' || s[0] == '`' || (s[0] == '$' && |s| >= 2 && s[1] == '{') {
        assert e[0] == '\\' && e[1] == s[0] && e[2..] == rest;
      } else {
        assert e[0] == s[0] && e[1..] == rest;
        if s[0] == '\r' && |s| >= 2 && s[1] == '\n' {
          CookedEscape(s[2..]);
          assert s[1..][1..] == s[2..] && e[2..] == EscapeOnce(s[2..]);
        } else if |s| >= 2 {
          assert e[1] == rest[0];
        }
      }
    }
  }

  lemma {:induction false} NormalisedHasNoCr(s: string)
    ensures '\r' !in LineEndings(s)
    ensures '\r' !in s ==> LineEndings(s) == s
    decreases |s|
  {
    if s != [] {
      NormalisedHasNoCr(s[1..]);
      if |s| >= 2 { NormalisedHasNoCr(s[2..]); }
      assert [s[0]] + s[1..] == s;
    }
  }

  /** Escaping and evaluating gives the text back exactly when it has no carriage return. */
  lemma EscapeRoundTripIff(content: string)
    ensures Cooked(EscapeForTs(content)) == Some(content) <==> '\r' !in content
    ensures Cooked(EscapeForTs(content)).Some?
  {
    hide EscapeForTs, Cooked, EscapeOnce, LineEndings;
    EscapeIsOnePass(content);
    CookedEscape(content);
    NormalisedHasNoCr(content);
  }
}
