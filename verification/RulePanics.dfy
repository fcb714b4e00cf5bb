/** When the tokenizer panics: exactly the texts in which, after at least one token, a literal is opened that
    is never closed and ends in an odd number of backslashes. */
module RulePanics {
  import opened RuleTokens

  /** The number of backslashes directly before position `i` of a text that starts with a quote. */
  function Backslashes(s: string, i: nat): nat
    requires i <= |s|
  {
    if i > 1 && s[i - 1] == '\\' then 1 + Backslashes(s, i - 1) else 0
  }

  /** Position `i` follows an odd number of backslashes. */
  predicate Escaped(s: string, i: nat)
    requires i <= |s|
  {
    i > 1 && s[i - 1] == '\\' && !Escaped(s, i - 1)
  }

  lemma {:induction false} EscapedIsOdd(s: string, i: nat)
    requires i <= |s|
    ensures Escaped(s, i) <==> Backslashes(s, i) % 2 == 1
  {
    if i > 1 && s[i - 1] == '\\' { EscapedIsOdd(s, i - 1); }
  }

  /** The text opens a literal that no quote closes, since each follows an odd number of backslashes, and its
      last character is a backslash that escapes nothing. */
  predicate RunsAway(s: string) {
    && s != "" && IsQuote(s[0]) && Escaped(s, |s|)
    && forall k :: 1 <= k < |s| && s[k] == s[0] ==> Escaped(s, k)
  }

  lemma {:induction false} DanglingFrom(s: string, i: nat)
    requires s != "" && IsQuote(s[0]) && 1 <= i <= |s| && !Escaped(s, i)
    ensures LiteralEnd(s, i, s[0]) == Dangling <==>
            Escaped(s, |s|) && forall k :: i <= k < |s| && s[k] == s[0] ==> Escaped(s, k)
    decreases |s| - i
  {
    if i < |s| {
      if s[i] == '\\' {
        assert Escaped(s, i + 1);
        if i + 1 < |s| { DanglingFrom(s, i + 2); }
      } else if s[i] != s[0] {
        DanglingFrom(s, i + 1);
      }
    }
  }

  lemma LexRunsAway(s: string)
    requires s != "" && IsQuote(s[0])
    ensures Lex(s) == Runaway <==> RunsAway(s)
  {
    DanglingFrom(s, 1);
    if |s| >= 2 { assert s[..2][0] == s[0]; }
  }

  // ---- a quote ends what is read before it ----

  lemma {:induction false} WordEndsAt(a: string, rest: string, i: nat)
    requires i <= |a| && rest != "" && IsQuote(rest[0])
    ensures WordEnd(a + rest, i) == WordEnd(a, i)
    decreases |a| - i
  {
    if i < |a| && IsIdentChar(a[i]) { WordEndsAt(a, rest, i + 1); }
  }

  lemma {:induction false} SpaceEndsAt(a: string, rest: string, i: nat)
    requires i <= |a| && rest != "" && IsQuote(rest[0])
    ensures SpaceEnd(a + rest, i) == SpaceEnd(a, i)
    decreases |a| - i
  {
    if i < |a| && IsSpace(a[i]) { SpaceEndsAt(a, rest, i + 1); }
  }

  lemma NotEndsAt(a: string, rest: string, j: nat)
    requires j <= |a| && rest != "" && IsQuote(rest[0])
    ensures NotAt(a + rest, j) == NotAt(a, j)
  {
    var s := a + rest;
    if j + 3 <= |a| {
      assert s[j..j + 3] == a[j..j + 3];
    } else if j + 3 <= |s| {
      assert s[j..j + 3][|a| - j] == rest[0];
    }
  }

  /** What is read before a quote does not depend on what follows it. */
  lemma LexBeforeQuote(a: string, rest: string)
    requires a != "" && rest != "" && IsQuote(rest[0])
    ensures Lex(a) == Skip <==> Lex(a + rest) == Skip
    ensures Lex(a).Token? ==> Lex(a + rest) == Lex(a)
    ensures Lex(a + rest).Token? && Lex(a + rest).width <= |a| ==> Lex(a) == Lex(a + rest)
  {
    hide SingleOp, NotAt;
    var s := a + rest;
    assert s[0] == a[0];
    assert |a| >= 2 ==> s[..2] == a[..2];
    assert |a| == 1 ==> s[..2] == [a[0], rest[0]];
    assert s[..1] == a[..1];
    if IsQuote(a[0]) {
      if LiteralEnd(a, 1, a[0]).Closed? { Closes(a, s); }
      if LiteralEnd(s, 1, a[0]).Closed? && LiteralEnd(s, 1, a[0]).end <= |a| { Closes(s, a); }
    } else {
      WordEndsAt(a, rest, 0);
      var w := WordEnd(a, 0);
      assert s[..w] == a[..w];
      SpaceEndsAt(a, rest, w);
      NotEndsAt(a, rest, SpaceEnd(a, w));
    }
  }

  lemma Closes(a: string, s: string)
    requires a != "" && s != "" && a[0] == s[0] && LiteralEnd(a, 1, a[0]).Closed?
    requires LiteralEnd(a, 1, a[0]).end <= |s| && (|a| <= |s| ==> s[..|a|] == a) && (|s| <= |a| ==> a[..|s|] == s)
    ensures LiteralEnd(s, 1, a[0]) == LiteralEnd(a, 1, a[0])
    ensures s[..LiteralEnd(a, 1, a[0]).end] == a[..LiteralEnd(a, 1, a[0]).end]
  {
    var end := LiteralEnd(a, 1, a[0]).end;
    assert a[..end] == s[..end];
    ClosedLocally(a, s, 1, a[0]);
  }

  // ---- the whole text ----

  /** After tokens that have been read, at least one of them, a literal runs away at `i`. */
  predicate RunsAwayAt(e: string, i: nat, some: bool) {
    && i < |e| && RunsAway(e[i..])
    && Scan(e[..i], some).Tokens? && (some || Scan(e[..i], some).tokens != [])
  }

  lemma {:induction false} RunsAwayLater(s: string, some: bool, n: nat)
    requires s != "" && 0 < n <= |s|
    requires (Lex(s) == Skip && n == 1) || (Lex(s).Token? && n == Lex(s).width)
    ensures forall i :: n <= i < |s| && IsQuote(s[i]) ==>
              (RunsAwayAt(s, i, some) <==> RunsAwayAt(s[n..], i - n, some || Lex(s).Token?))
  {
    forall i | n <= i < |s| && IsQuote(s[i])
      ensures RunsAwayAt(s, i, some) <==> RunsAwayAt(s[n..], i - n, some || Lex(s).Token?)
    {
      var a := s[..i];
      assert a + s[i..] == s && s[n..][i - n..] == s[i..] && a[n..] == s[n..][..i - n];
      LexBeforeQuote(a, s[i..]);
      assert a != "" && Lex(a) == Lex(s);
    }
  }

  /** Nothing runs away within what is read as one token, or skipped. */
  lemma NotWithin(s: string, some: bool, i: nat)
    requires s != "" && RunsAwayAt(s, i, some)
    ensures i == 0 || (Lex(s) == Skip && i >= 1) || (Lex(s).Token? && i >= Lex(s).width)
  {
    if i > 0 {
      var a := s[..i];
      assert a + s[i..] == s && s[i..][0] == s[i];
      LexBeforeQuote(a, s[i..]);
    }
  }

  lemma {:induction false} PanicsAt(s: string, some: bool)
    ensures Scan(s, some).Panics? <==> exists i: nat :: RunsAwayAt(s, i, some)
    decreases |s|
  {
    if s == "" { return; }
    match Lex(s)
    case Skip => PanicsNext(s, some, 1);
    case Token(t, w) => PanicsNext(s, some, w);
    case _ => PanicsHere(s, some);
  }

  lemma {:induction false} PanicsNext(s: string, some: bool, n: nat)
    requires s != "" && 0 < n <= |s|
    requires (Lex(s) == Skip && n == 1) || (Lex(s).Token? && n == Lex(s).width)
    ensures Scan(s, some).Panics? <==> exists i: nat :: RunsAwayAt(s, i, some)
    decreases |s|, 0
  {
    hide RunsAwayAt, Lex;
    var more := some || Lex(s).Token?;
    PanicsAt(s[n..], more);
    RunsAwayLater(s, some, n);
    if i: nat :| RunsAwayAt(s[n..], i, more) {
      RunsAwayIsQuote(s[n..], i, more);
      assert s[n..][i] == s[i + n];
      assert RunsAwayAt(s[n..], (i + n) - n, more);
      assert RunsAwayAt(s, i + n, some);
    }
    if i: nat :| RunsAwayAt(s, i, some) {
      RunsAwayIsQuote(s, i, some);
      NotWithin(s, some, i);
      if i == 0 { NotHere(s, some); }
      assert RunsAwayAt(s[n..], i - n, more);
    }
  }

  lemma RunsAwayIsQuote(s: string, i: nat, some: bool)
    requires RunsAwayAt(s, i, some)
    ensures i < |s| && IsQuote(s[i])
  {
    assert s[i..][0] == s[i];
  }

  /** Where a literal runs away nothing can be skipped or read as a token. */
  lemma NotHere(s: string, some: bool)
    requires s != "" && (Lex(s) == Skip || Lex(s).Token?)
    ensures !RunsAwayAt(s, 0, some)
  {
    assert s[0..] == s;
    if IsQuote(s[0]) { LexRunsAway(s); }
  }

  lemma PanicsHere(s: string, some: bool)
    requires s != "" && (Lex(s) == Unexpected || Lex(s) == Runaway)
    ensures Scan(s, some).Panics? <==> exists i: nat :: RunsAwayAt(s, i, some)
  {
    assert s[0..] == s && s[..0] == "";
    if IsQuote(s[0]) { LexRunsAway(s); }
    if Scan(s, some).Panics? { assert RunsAwayAt(s, 0, some); }
    if i: nat :| RunsAwayAt(s, i, some) { NotWithin(s, some, i); }
  }

  /** The tokenizer panics exactly on a text that reads as at least one token up to a quote from which on a
      literal runs away. */
  lemma PanicsExactly(e: string)
    ensures Scan(e, false).Panics? <==>
              exists i: nat ::
                && i < |e| && RunsAway(e[i..])
                && Scan(e[..i], false).Tokens? && Scan(e[..i], false).tokens != []
  {
    PanicsAt(e, false);
    if i: nat :| RunsAwayAt(e, i, false) {}
    if i: nat :| i < |e| && RunsAway(e[i..]) && Scan(e[..i], false).Tokens? && Scan(e[..i], false).tokens != [] {
      assert RunsAwayAt(e, i, false);
    }
  }

  /** One word, a quote and a backslash. */
  lemma PanicExample()
    ensures Scan("a '\\", false) == Panics
  {
    var e := "a '\\";
    assert e[..2] == "a " && e[2..] == "'\\";
    assert Lex("a ") == Token("a", 1) by { WordEndIs("a ", 0, 1); }
    assert Lex(" ") == Skip && " "[1..] == "" && "a "[1..] == " ";
    assert Scan(" ", true) == Tokens([]);
    assert Scan("a ", false) == Tokens(["a"]);
    assert RunsAway(e[2..]);
    PanicsExactly(e);
  }
}
