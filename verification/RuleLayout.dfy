/** The tokenizer on text laid out in any way: which characters and operators it reads as tokens, and that white space
    and commas between them do not matter. */
module RuleLayout {
  import opened RuleTokens

  // ---- what is a token ----

  predicate WordChar(c: char) {
    'a' <= c <= 'z' || 'A' <= c <= 'Z' || '0' <= c <= '9' || c in "_.$[]-"
  }

  /** A name, a number or a keyword. */
  predicate WordText(t: string) {
    t != "" && forall k :: 0 <= k < |t| ==> WordChar(t[k])
  }

  /** Text without the quote, except behind a backslash. */
  predicate Inside(s: string, quote: char) {
    || s == ""
    || (s[0] == '\\' && |s| >= 2 && Inside(s[2..], quote))
    || (s[0] != '\\' && s[0] != quote && Inside(s[1..], quote))
  }

  predicate QuotedText(t: string) {
    && |t| >= 2 && (t[0] == '\'' || t[0] == '\"') && t[|t| - 1] == t[0]
    && Inside(t[1..|t| - 1], t[0])
  }

  predicate SymbolText(t: string) {
    || t in {"==", "!=", ">=", "<=", "&&", "||"}
    || t in {"(", ")", ">", "<", "!", "?", ":"}
  }

  predicate TokenText(t: string) {
    WordText(t) || QuotedText(t) || SymbolText(t) || t == "is not"
  }

  /** White space and commas. */
  predicate Blank(g: string) {
    forall k :: 0 <= k < |g| ==> g[k] in " \t\n\r,"
  }

  lemma {:induction false} InsideCloses(t: string, i: nat, inside: string)
    requires |t| >= 2 && 1 <= i < |t| && t[i..|t| - 1] == inside && t[|t| - 1] == t[0] && t[0] != '\\'
    requires Inside(inside, t[0])
    ensures LiteralEnd(t, i, t[0]) == Closed(|t|)
    decreases |inside|
  {
    if inside != "" {
      assert t[i] == inside[0];
      if inside[0] == '\\' {
        InsideCloses(t, i + 2, inside[2..]);
      } else {
        InsideCloses(t, i + 1, inside[1..]);
      }
    }
  }

  lemma TokenLegal(t: string)
    requires TokenText(t)
    ensures LegalToken(t)
  {
    if QuotedText(t) {
      InsideCloses(t, 1, t[1..|t| - 1]);
    } else if WordText(t) {
      forall k | 0 <= k < |t| ensures IsIdentChar(t[k]) { assert WordChar(t[k]); }
    }
  }

  // ---- one character, two characters ----

  /** What the tokenizer makes of a single character: white space and commas are passed over, letters, digits and
      the six signs of a name are a word, seven signs stand for themselves, and everything else is an error. */
  lemma OneCharacter(c: char, some: bool)
    ensures Scan([c], some)
            == if c in " \t\n\r," then Tokens([])
               else if WordChar(c) || [c] in {"(", ")", ">", "<", "!", "?", ":"} then Tokens([[c]])
               else Malformed
  {
    var s := [c];
    assert s[1..] == "" && s[..1] == s;
    if IsIdentChar(c) { WordEndIs(s, 0, 1); }
  }

  /** Two signs are one token exactly for the six operators that have two. */
  lemma TwoSigns(a: char, b: char)
    requires !WordChar(a) && !IsQuote(a)
    ensures Scan([a, b], false) == Tokens([[a, b]]) <==> [a, b] in {"==", "!=", ">=", "<=", "&&", "||"}
  {
    var s := [a, b];
    assert s[..2] == s && s[2..] == "" && s[1..] == [b] && s[..1] == [a];
    if PairOp(s) {
      assert [s] + [] == [s];
    } else {
      OneCharacter(b, false);
      OneCharacter(b, true);
      assert |[a]| != |s| && |[b]| != |s|;
      if SingleOp(a) && Scan([b], true).Tokens? { assert ([[a]] + Scan([b], true).tokens)[0] == [a]; }
    }
  }

  // ---- tokens and what follows them ----

  /** What follows a token does not run into it. */
  predicate Stops(t: string, rest: string) {
    rest != "" ==>
      && (WordText(t) || t == "is not" ==> !WordChar(rest[0]))
      && (t in {">", "<", "!"} ==> rest[0] != '=')
  }

  lemma {:induction false} ScanBlank(g: string, rest: string, some: bool)
    requires Blank(g)
    ensures Scan(g + rest, some) == Scan(rest, some)
  {
    if g == "" {
      assert g + rest == rest;
    } else {
      assert (g + rest)[1..] == g[1..] + rest && (g + rest)[0] == g[0];
      ScanBlank(g[1..], rest, some);
    }
  }

  lemma WordStops(t: string, rest: string)
    requires WordText(t) && Stops(t, rest)
    ensures var s := t + rest; WordEnd(s, 0) == |t| && s[0] == t[0] && s[..|t|] == t && !IsSpace(s[0]) && s[0] != ','
    ensures var s := t + rest; !(|s| >= 2 && PairOp(s[..2])) && !SingleOp(s[0]) && !IsQuote(s[0])
  {
    var s := t + rest;
    forall k | 0 <= k < |t| ensures IsIdentChar(s[k]) { assert s[k] == t[k] && WordChar(t[k]); }
    if rest != "" { assert s[|t|] == rest[0]; }
    WordEndIs(s, 0, |t|);
    if |s| >= 2 { assert s[..2][0] == t[0]; }
  }

  lemma LexIsNotStops(rest: string)
    requires Stops("is not", rest)
    ensures Lex("is not" + rest) == Token("is not", 6)
  {
    var s := "is not" + rest;
    WordEndIs(s, 0, 2);
    assert s[..2] == "is" && s[3..6] == "not" && SpaceEnd(s, 3) == 3 && SpaceEnd(s, 2) == 3;
    if rest != "" { assert s[6] == rest[0]; }
  }

  lemma LexSymbol(t: string, rest: string)
    requires SymbolText(t) && Stops(t, rest)
    ensures Lex(t + rest) == Token(t, |t|)
  {
    var s := t + rest;
    assert s[..|t|] == t && s[0] == t[0];
    if |t| == 1 && |s| >= 2 {
      assert s[..2] == [t[0], rest[0]];
      NoPair(t[0], rest[0]);
    }
  }

  lemma NoPair(a: char, b: char)
    requires [a] in {"(", ")", ">", "<", "!", "?", ":"} && ([a] in {">", "<", "!"} ==> b != '=')
    ensures !PairOp([a, b])
  {
    assert [a, b][0] == a && [a, b][1] == b && [a][0] == a;
  }

  lemma LexQuoted(t: string, rest: string)
    requires QuotedText(t)
    ensures Lex(t + rest) == Token(t, |t|)
  {
    var s := t + rest;
    assert s[..|t|] == t && s[0] == t[0];
    InsideCloses(t, 1, t[1..|t| - 1]);
    ClosedLocally(t, s, 1, t[0]);
    if |s| >= 2 { assert s[..2][0] == t[0]; }
  }

  lemma LexStops(t: string, rest: string)
    requires TokenText(t) && Stops(t, rest)
    requires t == "is" ==> !NotAt(t + rest, SpaceEnd(t + rest, 2))
    ensures Lex(t + rest) == Token(t, |t|)
  {
    hide Stops, QuotedText, SymbolText;
    if t == "is not" {
      LexIsNotStops(rest);
    } else if WordText(t) {
      WordStops(t, rest);
    } else if QuotedText(t) {
      LexQuoted(t, rest);
    } else {
      LexSymbol(t, rest);
    }
  }

  lemma StopsNot(u: string, rest: string)
    requires TokenText(u) && u != "not" && Stops(u, rest)
    ensures !NotAt(u + rest, 0)
  {
    var s := u + rest;
    assert s[0] == u[0];
    if |s| >= 3 { assert s[0..3][0] == s[0] && s[0..3][1] == s[1] && s[0..3][2] == s[2]; }
    if WordText(u) {
      WordStops(u, rest);
      if |u| < |s| { assert s[|u|] == rest[0]; }
      if |u| == 3 { assert s[0..3] == u; }
      if |u| > 3 { assert s[3] == u[3] && WordChar(u[3]); }
    } else {
      assert u[0] != "not"[0];
    }
  }

  lemma StartsElse(s: string, i: nat)
    requires i < |s| && s[i] != 'n'
    ensures !NotAt(s, i)
  {
    if i + 3 <= |s| { assert s[i..i + 3][0] == s[i]; }
  }

  /** `is` followed by something else than `not`. */
  lemma IsApart(g: string, u: string, rest: string)
    requires Blank(g) && TokenText(u) && u != "not" && Stops(u, rest)
    ensures var s := "is" + (g + (u + rest)); !NotAt(s, SpaceEnd(s, 2))
  {
    hide WordText, QuotedText, SymbolText, LegalToken, Stops, SpaceEnd;
    var s, n := "is" + (g + (u + rest)), 2 + |g|;
    var e := SpaceEnd(s, 2);
    TokenLegal(u);
    LegalStart(u);
    assert s == ("is" + g) + (u + rest) && s[n] == u[0];
    if e < n {
      assert s[e] == g[e - 2];
      StartsElse(s, e);
    } else {
      NotAtShift("is" + g, u + rest);
      StopsNot(u, rest);
    }
  }

  lemma IsAtEnd(g: string)
    requires Blank(g)
    ensures var s := "is" + g; !NotAt(s, SpaceEnd(s, 2))
  {
    var s := "is" + g;
    var e := SpaceEnd(s, 2);
    if e < |s| {
      assert s[e] == g[e - 2];
      StartsElse(s, e);
    }
  }

  // ---- whole texts ----

  /** Tokens with gaps before each, and after the last. */
  function LaidOut(ts: seq<string>, gaps: seq<string>): string
    requires |gaps| == |ts| + 1
  {
    if ts == [] then gaps[0] else gaps[0] + (ts[0] + LaidOut(ts[1..], gaps[1..]))
  }

  /** One token may directly follow the other: not two words, and no sign that an equals sign would make another. */
  predicate MayTouch(t: string, u: string) {
    && !((WordText(t) || t == "is not") && (WordText(u) || u == "is not"))
    && !(t in {">", "<", "!"} && u == "==")
  }

  /** Gaps of white space and commas, none of them empty where tokens would run together. */
  predicate Layout(ts: seq<string>, gaps: seq<string>) {
    && |gaps| == |ts| + 1 && (forall k :: 0 <= k < |gaps| ==> Blank(gaps[k]))
    && forall k :: 0 <= k < |ts| - 1 ==> gaps[k + 1] != "" || MayTouch(ts[k], ts[k + 1])
  }

  lemma LayoutTail(ts: seq<string>, gaps: seq<string>)
    requires ts != [] && Layout(ts, gaps)
    ensures Layout(ts[1..], gaps[1..])
  {
    forall k | 0 <= k < |ts[1..]| - 1 ensures gaps[1..][k + 1] != "" || MayTouch(ts[1..][k], ts[1..][k + 1]) {
      assert ts[1..][k] == ts[k + 1] && gaps[1..][k + 1] == gaps[k + 2];
    }
  }

  lemma LayoutStops(ts: seq<string>, gaps: seq<string>)
    requires ts != [] && Layout(ts, gaps) && forall t :: t in ts ==> TokenText(t)
    ensures Stops(ts[0], LaidOut(ts[1..], gaps[1..]))
  {
    var rest := LaidOut(ts[1..], gaps[1..]);
    if gaps[1] != "" {
      assert Blank(gaps[1]) && rest[0] == gaps[1][0] && gaps[1][0] in " \t\n\r,";
    } else if |ts| >= 2 {
      assert ts[1] in ts && rest[0] == ts[1][0] && MayTouch(ts[0], ts[1]);
      FirstSign(ts[1]);
    }
  }

  lemma FirstSign(t: string)
    requires TokenText(t)
    ensures t != "" && (WordChar(t[0]) <==> WordText(t) || t == "is not") && (t[0] == '=' ==> t == "==")
  {
    if QuotedText(t) { assert !WordChar(t[0]); }
    if WordText(t) { assert WordChar(t[0]); }
  }

  /** Whatever white space and commas there are between them, tokens are read back as they are, if no `is` directly
      precedes a `not`. They need nothing between them where they do not run together. */
  lemma {:induction false} ReadsLayout(ts: seq<string>, gaps: seq<string>, some: bool)
    requires Layout(ts, gaps) && NoneMerge(ts) && forall t :: t in ts ==> TokenText(t)
    ensures Scan(LaidOut(ts, gaps), some) == Tokens(ts)
    decreases |ts|
  {
    if ts == [] {
      ScanBlank(gaps[0], "", some);
      assert gaps[0] + "" == gaps[0];
    } else {
      var t, rest := ts[0], LaidOut(ts[1..], gaps[1..]);
      LayoutTail(ts, gaps);
      LayoutStops(ts, gaps);
      assert forall i :: 0 <= i < |ts[1..]| ==> ts[1..][i] == ts[i + 1];
      ReadsLayout(ts[1..], gaps[1..], true);
      ScanBlank(gaps[0], t + rest, some);
      if t == "is" { IsLaidOut(ts, gaps); }
      LexStops(t, rest);
      assert (t + rest)[|t|..] == rest && [t] + ts[1..] == ts;
    }
  }

  lemma IsLaidOut(ts: seq<string>, gaps: seq<string>)
    requires ts != [] && ts[0] == "is" && Layout(ts, gaps) && NoneMerge(ts) && forall t :: t in ts ==> TokenText(t)
    ensures var s := "is" + LaidOut(ts[1..], gaps[1..]); !NotAt(s, SpaceEnd(s, 2))
  {
    LayoutTail(ts, gaps);
    if |ts| == 1 {
      IsAtEnd(gaps[1]);
    } else {
      LayoutStops(ts[1..], gaps[1..]);
      IsApart(gaps[1], ts[1], LaidOut(ts[1..][1..], gaps[1..][1..]));
    }
  }
}
