/**
 * The parts of Go's `strings` and `fmt` packages that the core relies on:
 * `strings.Fields`, `strings.ToLower` (as far as a comparison with an ASCII
 * word can observe it) and `fmt.Sprintf` with a format whose only verb is `%s`.
 */
module GoStrings {

  /** Go's `unicode.IsSpace`: the characters with the Unicode White_Space property. */
  predicate IsSpace(c: char) {
    || c == ' ' || c == '\t' || c == '\n' || c == '\U{000B}' || c == '\U{000C}' || c == '\r'
    || c == '\U{0085}' || c == '\U{00A0}' || c == '\U{1680}'
    || ('\U{2000}' <= c <= '\U{200A}')
    || c == '\U{2028}' || c == '\U{2029}' || c == '\U{202F}' || c == '\U{205F}' || c == '\U{3000}'
  }

  predicate NoSpace(w: string) {
    forall i :: 0 <= i < |w| ==> !IsSpace(w[i])
  }

  predicate AllSpace(w: string) {
    forall i :: 0 <= i < |w| ==> IsSpace(w[i])
  }

  /** A field as `strings.Fields` returns it: a non-empty run of non-space characters. */
  predicate IsField(w: string) {
    w != [] && NoSpace(w)
  }

  /** The longest prefix of `s` without white space. */
  function Word(s: string): (w: string)
    ensures w <= s && NoSpace(w)
    ensures |w| < |s| ==> IsSpace(s[|w|])
  {
    if s == [] || IsSpace(s[0]) then [] else [s[0]] + Word(s[1..])
  }

  /** `strings.Fields`: the maximal runs of non-space characters of `s`, in order. */
  function Fields(s: string): (r: seq<string>)
    ensures forall i :: 0 <= i < |r| ==> IsField(r[i])
    decreases |s|
  {
    if s == [] then []
    else if IsSpace(s[0]) then Fields(s[1..])
    else
      var w := Word(s);
      [w] + Fields(s[|w|..])
  }

  /**
   * The string `seps[0] + ws[0] + seps[1] + ... + ws[n-1] + seps[n]`:
   * the fields `ws` laid out between the separators `seps`.
   */
  function Spell(ws: seq<string>, seps: seq<string>): string
    requires |seps| == |ws| + 1
  {
    if ws == [] then seps[0] else seps[0] + ws[0] + Spell(ws[1..], seps[1..])
  }

  /** Separators suitable for `n` fields: white space only, and non-empty between two fields. */
  predicate Separators(seps: seq<string>, n: nat) {
    && |seps| == n + 1
    && (forall i :: 0 <= i < |seps| ==> AllSpace(seps[i]))
    && (forall i :: 0 < i < n ==> seps[i] != [])
  }

  /** Extra white space in front of the first separator comes out in front of the spelling. */
  lemma SpellPrepend(ws: seq<string>, seps: seq<string>, a: string)
    requires |seps| == |ws| + 1
    ensures Spell(ws, [a + seps[0]] + seps[1..]) == a + Spell(ws, seps)
  {
    var seps' := [a + seps[0]] + seps[1..];
    assert seps'[1..] == seps[1..];
  }

  /** White space added in front of the first separator keeps the separators valid. */
  lemma SeparatorsPrepend(seps: seq<string>, n: nat, c: char)
    requires Separators(seps, n) && IsSpace(c)
    ensures Separators([[c] + seps[0]] + seps[1..], n)
  {
    var r := [[c] + seps[0]] + seps[1..];
    forall i | 0 <= i < |r| ensures AllSpace(r[i]) {
      if i > 0 {
        assert r[i] == seps[i];
      }
    }
  }

  /** An empty separator before a field that already has separators around it. */
  lemma SeparatorsCons(seps: seq<string>, n: nat)
    requires Separators(seps, n)
    requires n > 0 ==> seps[0] != []
    ensures Separators([[]] + seps, n + 1)
  {
    var r := [[]] + seps;
    forall i | 0 < i < |r| ensures r[i] == seps[i - 1] {}
  }

  /** The white space `strings.Fields` discards from `s`, one separator around each field. */
  function SeparatorsOf(s: string): seq<string>
    decreases |s|
  {
    if s == [] then [[]]
    else if IsSpace(s[0]) then
      var rest := SeparatorsOf(s[1..]);
      if rest == [] then [] else [[s[0]] + rest[0]] + rest[1..]
    else
      var w := Word(s);
      [[]] + SeparatorsOf(s[|w|..])
  }

  /** `SeparatorsOf(s)` are separators for `strings.Fields(s)` that spell `s` back. */
  predicate SpellsBack(s: string) {
    && Separators(SeparatorsOf(s), |Fields(s)|)
    && (s != [] && IsSpace(s[0]) ==> SeparatorsOf(s)[0] != [])
    && Spell(Fields(s), SeparatorsOf(s)) == s
  }

  /** A leading space joins the first separator of the rest. */
  lemma {:induction false} SpellsBackSpace(s: string)
    requires s != [] && IsSpace(s[0]) && SpellsBack(s[1..])
    ensures SpellsBack(s)
  {
    var rest := SeparatorsOf(s[1..]);
    var ws := Fields(s[1..]);
    assert Fields(s) == ws;
    assert SeparatorsOf(s) == [[s[0]] + rest[0]] + rest[1..];
    SpellPrepend(ws, rest, [s[0]]);
    SeparatorsPrepend(rest, |ws|, s[0]);
    assert s == [s[0]] + s[1..];
  }

  /** A leading word is the first field, with an empty separator in front. */
  lemma {:induction false} SpellsBackWord(s: string)
    requires s != [] && !IsSpace(s[0]) && SpellsBack(s[|Word(s)|..])
    ensures SpellsBack(s)
  {
    var w := Word(s);
    var tail := s[|w|..];
    var rest := SeparatorsOf(tail);
    var ws := [w] + Fields(tail);
    var seps := [[]] + rest;
    assert Fields(s) == ws;
    assert SeparatorsOf(s) == seps;
    if Fields(tail) != [] {
      assert tail != [] && tail[0] == s[|w|] && IsSpace(tail[0]);
    }
    SeparatorsCons(rest, |Fields(tail)|);
    assert ws[1..] == Fields(tail) && seps[1..] == rest;
    assert Spell(ws, seps) == w + tail;
    assert s == w + tail;
  }

  /**
   * The separators `SeparatorsOf(s)` are white space, non-empty between two
   * fields, and laid out with `strings.Fields(s)` they spell `s` again.
   */
  lemma {:induction false} SeparatorsOfSpell(s: string)
    ensures Separators(SeparatorsOf(s), |Fields(s)|)
    ensures s != [] && IsSpace(s[0]) ==> SeparatorsOf(s)[0] != []
    ensures Spell(Fields(s), SeparatorsOf(s)) == s
    decreases |s|
  {
    if s == [] {
    } else if IsSpace(s[0]) {
      SeparatorsOfSpell(s[1..]);
      SpellsBackSpace(s);
    } else {
      SeparatorsOfSpell(s[|Word(s)|..]);
      SpellsBackWord(s);
    }
  }

  /** Skipping white space does not change the fields. */
  lemma {:induction false} FieldsSkipSpace(sp: string, x: string)
    requires AllSpace(sp)
    ensures Fields(sp + x) == Fields(x)
    decreases |sp|
  {
    if sp == [] {
      assert sp + x == x;
    } else {
      assert (sp + x)[0] == sp[0] && IsSpace(sp[0]);
      assert (sp + x)[1..] == sp[1..] + x;
      FieldsSkipSpace(sp[1..], x);
    }
  }

  /** A word followed by white space or by nothing is read as one field. */
  lemma {:induction false} WordOf(w: string, rest: string)
    requires NoSpace(w)
    requires rest == [] || IsSpace(rest[0])
    ensures Word(w + rest) == w
    decreases |w|
  {
    if w != [] {
      assert (w + rest)[1..] == w[1..] + rest;
      WordOf(w[1..], rest);
    }
  }

  /** White space, then a word ended by white space or by the end: the word is the first field. */
  lemma {:induction false} FieldsOfLeadingWord(sp: string, w: string, rest: string)
    requires AllSpace(sp) && IsField(w)
    requires rest == [] || IsSpace(rest[0])
    ensures Fields(sp + (w + rest)) == [w] + Fields(rest)
  {
    FieldsSkipSpace(sp, w + rest);
    WordOf(w, rest);
    assert (w + rest)[|w|..] == rest;
  }

  /** Dropping the first separator leaves separators for one field fewer. */
  lemma SeparatorsTail(seps: seq<string>, n: nat)
    requires Separators(seps, n + 1)
    ensures Separators(seps[1..], n)
  {
  }

  /** After the first field, the spelling continues with white space or ends. */
  lemma {:induction false} SpellAfterFirstField(ws: seq<string>, seps: seq<string>)
    requires ws != [] && Separators(seps, |ws|)
    ensures var rest := Spell(ws[1..], seps[1..]); rest == [] || IsSpace(rest[0])
  {
    var rest := Spell(ws[1..], seps[1..]);
    if |ws| > 1 {
      assert seps[1] != [] && AllSpace(seps[1]);
      assert rest == seps[1] + (ws[1] + Spell(ws[2..], seps[2..]));
      assert rest[0] == seps[1][0];
    } else {
      assert rest == seps[1] && AllSpace(seps[1]);
    }
  }

  /** Reading the fields back from a spelled-out string gives the fields it was spelled from. */
  lemma {:induction false} FieldsOfSpell(ws: seq<string>, seps: seq<string>)
    requires forall i :: 0 <= i < |ws| ==> IsField(ws[i])
    requires Separators(seps, |ws|)
    ensures Fields(Spell(ws, seps)) == ws
    decreases |ws|
  {
    if ws == [] {
      FieldsSkipSpace(seps[0], []);
      assert seps[0] + [] == seps[0];
    } else {
      var rest := Spell(ws[1..], seps[1..]);
      SeparatorsTail(seps, |ws| - 1);
      FieldsOfSpell(ws[1..], seps[1..]);
      SpellAfterFirstField(ws, seps);
      FieldsOfLeadingWord(seps[0], ws[0], rest);
      assert Spell(ws, seps) == seps[0] + (ws[0] + rest);
    }
  }

  /**
   * `strings.Fields(s)` returns `ws` exactly when `s` is `ws` laid out between
   * white-space separators, with at least one space between consecutive fields.
   */
  lemma FieldsCharacterized(s: string, ws: seq<string>)
    ensures Fields(s) == ws <==>
      (forall i :: 0 <= i < |ws| ==> IsField(ws[i])) &&
      exists seps :: Separators(seps, |ws|) && Spell(ws, seps) == s
  {
    if Fields(s) == ws {
      var seps := SeparatorsOf(s);
      SeparatorsOfSpell(s);
      assert Separators(seps, |ws|) && Spell(ws, seps) == s;
    }
    if (forall i :: 0 <= i < |ws| ==> IsField(ws[i])) &&
       exists seps :: Separators(seps, |ws|) && Spell(ws, seps) == s
    {
      var seps :| Separators(seps, |ws|) && Spell(ws, seps) == s;
      FieldsOfSpell(ws, seps);
    }
  }

  /** `unicode.ToLower` on ASCII letters; every other character is kept. */
  function LowerChar(c: char): char {
    if 'A' <= c <= 'Z' then (c as int + 32) as char else c
  }

  /** `strings.ToLower`, character by character. */
  function ToLower(s: string): (r: string)
    ensures |r| == |s|
    ensures forall i :: 0 <= i < |s| ==> r[i] == LowerChar(s[i])
  {
    if s == [] then [] else [LowerChar(s[0])] + ToLower(s[1..])
  }

  /** Lower-casing a character gives the ASCII letter `l` exactly when it is `l` in either case. */
  lemma LowerCharMatches(c: char, l: char)
    requires 'a' <= l <= 'z'
    ensures LowerChar(c) == l <==> c == l || c as int == l as int - 32
  {
  }

  /**
   * Lower-casing gives the ASCII word `lower` exactly when each character is
   * that word's letter in either case (`upper` is the word in upper case).
   */
  lemma ToLowerMatches(x: string, lower: string, upper: string)
    requires |lower| == |upper|
    requires forall i :: 0 <= i < |lower| ==> 'a' <= lower[i] <= 'z' && upper[i] as int == lower[i] as int - 32
    ensures ToLower(x) == lower <==>
      |x| == |lower| && forall i :: 0 <= i < |x| ==> x[i] == lower[i] || x[i] == upper[i]
  {
    if |x| == |lower| {
      forall i | 0 <= i < |x|
        ensures ToLower(x)[i] == lower[i] <==> x[i] == lower[i] || x[i] == upper[i]
      {
        LowerCharMatches(x[i], lower[i]);
      }
      if forall i :: 0 <= i < |x| ==> x[i] == lower[i] || x[i] == upper[i] {
        assert ToLower(x) == lower;
      }
    }
  }

  /**
   * `fmt.Sprintf(format, arg)` for a format whose only verb is one `%s`:
   * the first `%s` is replaced by `arg`, the rest is copied.
   */
  function FormatOne(format: string, arg: string): string
    decreases |format|
  {
    if |format| < 2 then format
    else if format[0] == '%' && format[1] == 's' then arg + format[2..]
    else [format[0]] + FormatOne(format[1..], arg)
  }

  /**
   * A format `p + "%s" + q` whose only `%` is the verb's formats to
   * `p + arg + q`, as `fmt.Sprintf` does.
   */
  lemma {:induction false} FormatOneSplice(p: string, q: string, arg: string)
    requires '%' !in p && '%' !in q
    ensures FormatOne(p + "%s" + q, arg) == p + arg + q
    decreases |p|
  {
    var format := p + "%s" + q;
    if p == [] {
      assert format == "%s" + q;
    } else {
      var tail := p[1..];
      assert p == [p[0]] + tail;
      assert '%' !in tail;
      assert format[0] == p[0] != '%';
      assert format[1..] == tail + "%s" + q;
      FormatOneSplice(tail, q, arg);
      assert FormatOne(format, arg) == [p[0]] + FormatOne(format[1..], arg);
    }
  }
}
