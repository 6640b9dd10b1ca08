/**
 * The anchored regular expressions the models validate with
 * (`^\d{3}\.\d{3}\.\d{3}-\d{2}$` and the like), as a pattern language of
 * required and optional single-character elements: a bounded repetition
 * `a{m,n}` is m required copies of `a` followed by n - m optional ones.
 * `\d` is an ASCII digit.
 */
module Patterns {
  import opened Text

  /** What one pattern element accepts: `\d` or one literal character. */
  datatype Atom = Digit | Lit(c: char)

  datatype Elem = Req(atom: Atom) | Opt(atom: Atom)

  predicate Accepts(a: Atom, c: char) {
    match a
    case Digit => IsDigit(c)
    case Lit(x) => c == x
  }

  /** Whole-string match of an anchored pattern, trying the optional elements both ways. */
  predicate Match(s: string, p: seq<Elem>)
    decreases |p|
  {
    if p == [] then s == []
    else
      var rest := p[1..];
      match p[0]
      case Req(a) => s != [] && Accepts(a, s[0]) && Match(s[1..], rest)
      case Opt(a) => (s != [] && Accepts(a, s[0]) && Match(s[1..], rest)) || Match(s, rest)
  }

  /** `a{n}`. */
  function Times(a: Atom, n: nat): (r: seq<Elem>)
    ensures |r| == n && forall i :: 0 <= i < n ==> r[i] == Req(a)
  {
    if n == 0 then [] else [Req(a)] + Times(a, n - 1)
  }

  /** A literal string. */
  function Word(w: string): (r: seq<Elem>)
    ensures |r| == |w| && forall i :: 0 <= i < |w| ==> r[i] == Req(Lit(w[i]))
  {
    if w == [] then [] else [Req(Lit(w[0]))] + Word(w[1..])
  }

  predicate AllRequired(p: seq<Elem>) {
    forall i :: 0 <= i < |p| ==> p[i].Req?
  }

  /** Position by position: s is as long as p and every character is accepted by its element. */
  predicate Fits(s: string, p: seq<Elem>) {
    |s| == |p| && forall i :: 0 <= i < |s| ==> Accepts(p[i].atom, s[i])
  }

  /** A pattern of required elements only matches exactly the strings that fit it. */
  lemma {:induction false} MatchRequired(s: string, p: seq<Elem>)
    requires AllRequired(p)
    ensures Match(s, p) <==> Fits(s, p)
    decreases |p|
  {
    if p != [] && s != [] {
      MatchRequired(s[1..], p[1..]);
      assert Fits(s, p) <==> Accepts(p[0].atom, s[0]) && Fits(s[1..], p[1..]) by {
        if Accepts(p[0].atom, s[0]) && Fits(s[1..], p[1..]) {
          forall i | 0 <= i < |s|
            ensures Accepts(p[i].atom, s[i])
          {
            if i > 0 { assert s[1..][i - 1] == s[i] && p[1..][i - 1] == p[i]; }
          }
        }
      }
    }
  }

  /** A required prefix consumes exactly its own length. */
  lemma {:induction false} MatchRequiredPrefix(s: string, a: seq<Elem>, b: seq<Elem>)
    requires AllRequired(a)
    ensures Match(s, a + b) <==> |s| >= |a| && Fits(s[..|a|], a) && Match(s[|a|..], b)
    decreases |a|
  {
    if a == [] {
      assert a + b == b;
      assert s[..0] == [] && s[0..] == s;
    } else {
      assert (a + b)[0] == a[0] && (a + b)[1..] == a[1..] + b;
      if s != [] {
        MatchRequiredPrefix(s[1..], a[1..], b);
        if |s| >= |a| {
          assert s[1..][..|a| - 1] == s[..|a|][1..];
          assert s[1..][|a| - 1..] == s[|a|..];
          MatchRequired(s[..|a|], a);
          MatchRequired(s[..|a|][1..], a[1..]);
        }
      }
    }
  }

  // ---------------------------------------------------------------------------
  // The patterns of the models
  // ---------------------------------------------------------------------------

  /** `^\d{3}\.\d{3}\.\d{3}-\d{2}$`: a CPF written 000.000.000-00. */
  function CpfPattern(): seq<Elem> {
    Times(Digit, 3) + Word(".") + Times(Digit, 3) + Word(".") + Times(Digit, 3) + Word("-") + Times(Digit, 2)
  }

  /** `^\(\d{2}\) \d{4,5}-\d{4}$`: a telefone written (00) 0000-0000 or (00) 00000-0000. */
  function TelefonePattern(): seq<Elem> {
    Word("(") + Times(Digit, 2) + Word(") ") + Times(Digit, 4) + [Opt(Digit)] + Word("-") + Times(Digit, 4)
  }

  /** `^\d{2}:\d{2}$`: a time written HH:MM (the pattern bounds neither hours nor minutes). */
  function HoraPattern(): seq<Elem> {
    Times(Digit, 2) + Word(":") + Times(Digit, 2)
  }

  predicate IsCpf(s: string) {
    Match(s, CpfPattern())
  }

  predicate IsTelefone(s: string) {
    Match(s, TelefonePattern())
  }

  predicate IsHora(s: string) {
    Match(s, HoraPattern())
  }

  /** The digit positions of a CPF, and the separator at every other position. */
  predicate CpfShape(s: string) {
    |s| == 14 && s[3] == '.' && s[7] == '.' && s[11] == '-'
    && forall i :: 0 <= i < 14 && i != 3 && i != 7 && i != 11 ==> IsDigit(s[i])
  }

  /** A telefone whose first local group has g digits: (DD), a space, g digits, '-', 4 digits. */
  predicate TelefoneShape(s: string, g: nat) {
    |s| == g + 10 && s[0] == '(' && IsDigit(s[1]) && IsDigit(s[2]) && s[3] == ')' && s[4] == ' '
    && (forall i :: 5 <= i < g + 5 ==> IsDigit(s[i]))
    && s[g + 5] == '-'
    && (forall i :: g + 6 <= i < g + 10 ==> IsDigit(s[i]))
  }

  predicate HoraShape(s: string) {
    |s| == 5 && IsDigit(s[0]) && IsDigit(s[1]) && s[2] == ':' && IsDigit(s[3]) && IsDigit(s[4])
  }

  lemma CpfPatternRequired()
    ensures AllRequired(CpfPattern()) && |CpfPattern()| == 14
    ensures forall i :: 0 <= i < 14 && i != 3 && i != 7 && i != 11 ==> CpfPattern()[i] == Req(Digit)
    ensures CpfPattern()[3] == Req(Lit('.')) && CpfPattern()[7] == Req(Lit('.')) && CpfPattern()[11] == Req(Lit('-'))
  {
  }

  /** A CPF is valid iff it is 14 characters: three groups of three digits and two check digits. */
  lemma CpfIff(s: string)
    ensures IsCpf(s) <==> CpfShape(s)
  {
    CpfPatternRequired();
    MatchRequired(s, CpfPattern());
    var p := CpfPattern();
    if Fits(s, p) {
      assert Accepts(p[3].atom, s[3]) && Accepts(p[7].atom, s[7]) && Accepts(p[11].atom, s[11]);
    }
    if CpfShape(s) {
      forall i | 0 <= i < |s|
        ensures Accepts(p[i].atom, s[i])
      {
        if i == 3 || i == 7 || i == 11 {
        } else {
          assert p[i] == Req(Digit);
        }
      }
    }
  }

  lemma HoraIff(s: string)
    ensures IsHora(s) <==> HoraShape(s)
  {
    var p := HoraPattern();
    assert AllRequired(p) && |p| == 5;
    assert p[0] == p[1] == p[3] == p[4] == Req(Digit) && p[2] == Req(Lit(':'));
    MatchRequired(s, p);
    if Fits(s, p) {
      assert Accepts(p[0].atom, s[0]) && Accepts(p[1].atom, s[1]) && Accepts(p[2].atom, s[2]);
      assert Accepts(p[3].atom, s[3]) && Accepts(p[4].atom, s[4]);
    }
  }

  /** A time like "25:00" or "99:99" passes the pattern: it checks shape only. */
  lemma HoraAcceptsOutOfRange()
    ensures IsHora("25:00") && IsHora("99:99")
  {
    HoraIff("25:00");
    HoraIff("99:99");
  }

  /**
   * A telefone is valid iff it is (DD) followed by four or five digits, a
   * hyphen and four digits: 14 or 15 characters.
   */
  lemma TelefoneIff(s: string)
    ensures IsTelefone(s) <==> TelefoneShape(s, 4) || TelefoneShape(s, 5)
  {
    var head := Word("(") + Times(Digit, 2) + Word(") ") + Times(Digit, 4);
    var tail := Word("-") + Times(Digit, 4);
    assert TelefonePattern() == head + ([Opt(Digit)] + tail);
    assert |head| == 9 && AllRequired(head) && AllRequired(tail) && |tail| == 5;
    assert head[0] == Req(Lit('(')) && head[3] == Req(Lit(')')) && head[4] == Req(Lit(' '));
    assert forall i :: (i == 1 || i == 2 || 5 <= i < 9) ==> head[i] == Req(Digit);
    assert tail[0] == Req(Lit('-')) && forall i :: 1 <= i < 5 ==> tail[i] == Req(Digit);
    var longTail := [Req(Digit)] + tail;
    assert AllRequired(longTail);
    MatchRequiredPrefix(s, head, [Opt(Digit)] + tail);
    if |s| >= 9 {
      var r := s[9..];
      MatchRequired(s[..9], head);
      MatchRequired(r, tail);
      MatchRequired(r, longTail);
      assert Match(r, [Opt(Digit)] + tail) <==> Match(r, longTail) || Match(r, tail);
      ShapeSplit(s, head, tail, longTail);
    }
  }

  lemma ShapeSplit(s: string, head: seq<Elem>, tail: seq<Elem>, longTail: seq<Elem>)
    requires |s| >= 9 && |head| == 9 && |tail| == 5 && longTail == [Req(Digit)] + tail
    requires head[0] == Req(Lit('(')) && head[3] == Req(Lit(')')) && head[4] == Req(Lit(' '))
    requires forall i :: (i == 1 || i == 2 || 5 <= i < 9) ==> head[i] == Req(Digit)
    requires tail[0] == Req(Lit('-')) && forall i :: 1 <= i < 5 ==> tail[i] == Req(Digit)
    ensures Fits(s[..9], head) && (Fits(s[9..], longTail) || Fits(s[9..], tail))
        <==> TelefoneShape(s, 4) || TelefoneShape(s, 5)
  {
    var h := s[..9];
    var r := s[9..];
    assert Fits(h, head) <==> (s[0] == '(' && IsDigit(s[1]) && IsDigit(s[2]) && s[3] == ')' && s[4] == ' '
                               && forall i :: 5 <= i < 9 ==> IsDigit(s[i])) by {
      if s[0] == '(' && IsDigit(s[1]) && IsDigit(s[2]) && s[3] == ')' && s[4] == ' '
         && forall i :: 5 <= i < 9 ==> IsDigit(s[i]) {
        forall i | 0 <= i < 9
          ensures Accepts(head[i].atom, h[i])
        {
          assert h[i] == s[i];
        }
      }
      if Fits(h, head) {
        assert Accepts(head[0].atom, h[0]) && Accepts(head[1].atom, h[1]) && Accepts(head[2].atom, h[2]);
        assert Accepts(head[3].atom, h[3]) && Accepts(head[4].atom, h[4]);
        forall i | 5 <= i < 9
          ensures IsDigit(s[i])
        {
          assert Accepts(head[i].atom, h[i]);
        }
      }
    }
    assert Fits(r, tail) <==> |s| == 14 && s[9] == '-' && forall i :: 10 <= i < 14 ==> IsDigit(s[i]) by {
      if |s| == 14 && s[9] == '-' && forall i :: 10 <= i < 14 ==> IsDigit(s[i]) {
        forall i | 0 <= i < 5
          ensures Accepts(tail[i].atom, r[i])
        {
          assert r[i] == s[i + 9];
        }
      }
      if Fits(r, tail) {
        assert Accepts(tail[0].atom, r[0]);
        forall i | 10 <= i < 14
          ensures IsDigit(s[i])
        {
          assert Accepts(tail[i - 9].atom, r[i - 9]);
        }
      }
    }
    assert Fits(r, longTail) <==> |s| == 15 && IsDigit(s[9]) && s[10] == '-' && forall i :: 11 <= i < 15 ==> IsDigit(s[i]) by {
      if |s| == 15 && IsDigit(s[9]) && s[10] == '-' && forall i :: 11 <= i < 15 ==> IsDigit(s[i]) {
        forall i | 0 <= i < 6
          ensures Accepts(longTail[i].atom, r[i])
        {
          assert r[i] == s[i + 9];
          if i > 0 { assert longTail[i] == tail[i - 1]; }
        }
      }
      if Fits(r, longTail) {
        assert Accepts(longTail[0].atom, r[0]) && Accepts(longTail[1].atom, r[1]);
        forall i | 11 <= i < 15
          ensures IsDigit(s[i])
        {
          assert longTail[i - 9] == tail[i - 10];
          assert Accepts(longTail[i - 9].atom, r[i - 9]);
        }
      }
    }
  }
}
