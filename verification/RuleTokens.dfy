/** The tokenizer of the rule evaluator: what it reads off the front of an expression, the loop that
    reads all of it, and the proof that it reads back any tokens printed with spaces between them. */
module RuleTokens {

  predicate IsSpace(b: char) {
    b == ' ' || b == '\t' || b == '\n' || b == '\r'
  }

  predicate IsIdentChar(b: char) {
    'a' <= b <= 'z' || 'A' <= b <= 'Z' || '0' <= b <= '9'
    || b == '_' || b == '.' || b == '$' || b == '[' || b == ']' || b == '-'
  }

  predicate IsQuote(b: char) {
    b == '\'' || b == '\"'
  }

  predicate PairOp(t: string) {
    t == "==" || t == "!=" || t == ">=" || t == "<=" || t == "&&" || t == "||"
  }

  predicate SingleOp(b: char) {
    b == '(' || b == ')' || b == '>' || b == '<' || b == '!' || b == '?' || b == ':'
  }

  // ---- spans ----

  /** Where a string literal ends: after its closing quote, nowhere, or beyond the end of the text
      because its last character is a backslash. */
  datatype Close = Closed(end: nat) | Open | Dangling

  function LiteralEnd(s: string, i: nat, quote: char): (c: Close)
    requires i <= |s| + 1
    ensures c.Closed? ==> i < c.end <= |s|
    decreases |s| + 1 - i
  {
    if i > |s| then Dangling
    else if i == |s| then Open
    else if s[i] == '\\' then LiteralEnd(s, i + 2, quote)
    else if s[i] == quote then Closed(i + 1)
    else LiteralEnd(s, i + 1, quote)
  }

  function WordEnd(s: string, i: nat): (j: nat)
    requires i <= |s|
    ensures i <= j <= |s| && (forall k :: i <= k < j ==> IsIdentChar(s[k])) && (j < |s| ==> !IsIdentChar(s[j]))
    decreases |s| - i
  {
    if i < |s| && IsIdentChar(s[i]) then WordEnd(s, i + 1) else i
  }

  function SpaceEnd(s: string, i: nat): (j: nat)
    requires i <= |s|
    ensures i <= j <= |s| && (forall k :: i <= k < j ==> IsSpace(s[k])) && (j < |s| ==> !IsSpace(s[j]))
    decreases |s| - i
  {
    if i < |s| && IsSpace(s[i]) then SpaceEnd(s, i + 1) else i
  }

  predicate StartsWithAt(s: string, i: nat, lit: string) {
    i + |lit| <= |s| && s[i..i + |lit|] == lit
  }

  /** The word `not`, and no longer word, stands at `j`. */
  predicate NotAt(s: string, j: nat) {
    StartsWithAt(s, j, "not") && (j + 3 == |s| || !IsIdentChar(s[j + 3]))
  }

  // ---- one token ----

  datatype Lexeme = Skip | Token(text: string, width: nat) | Unexpected | Runaway

  /** What the front of a non-empty text is read as. */
  function Lex(s: string): (l: Lexeme)
    requires s != ""
    ensures l.Token? ==> 0 < l.width <= |s|
  {
    if IsSpace(s[0]) || s[0] == ',' then Skip
    else if |s| >= 2 && PairOp(s[..2]) then Token(s[..2], 2)
    else if SingleOp(s[0]) then Token(s[..1], 1)
    else if IsQuote(s[0]) then
      match LiteralEnd(s, 1, s[0])
      case Closed(end) => Token(s[..end], end)
      case Open => Unexpected
      case Dangling => Runaway
    else
      var w := WordEnd(s, 0);
      if w == 0 then Unexpected
      else if s[..w] == "is" && NotAt(s, SpaceEnd(s, w)) then Token("is not", SpaceEnd(s, w) + 3)
      else Token(s[..w], w)
  }

  /** An expression is tokens, or malformed, or makes the tokenizer panic: after at least one token, an
      unclosed literal that ends in a backslash. */
  datatype Scanned = Tokens(tokens: seq<string>) | Malformed | Panics

  function Prepend(before: seq<string>, rest: Scanned): Scanned {
    if rest.Tokens? then Tokens(before + rest.tokens) else rest
  }

  /** The tokens of a text, some having been read already or not. */
  function Scan(s: string, some: bool): Scanned
    decreases |s|
  {
    if s == "" then Tokens([]) else
    match Lex(s)
    case Skip => Scan(s[1..], some)
    case Token(t, w) => Prepend([t], Scan(s[w..], true))
    case Unexpected => Malformed
    case Runaway => if some then Panics else Malformed
  }

  // ---- the loop ----

  method EndOfLiteral(s: string, quote: char) returns (end: nat, closed: bool)
    requires s != ""
    ensures match LiteralEnd(s, 1, quote)
            case Closed(e) => closed && end == e
            case Open => !closed && end == |s|
            case Dangling => !closed && end == |s| + 1
  {
    end := 1;
    while end < |s|
      invariant end <= |s| + 1 && LiteralEnd(s, end, quote) == LiteralEnd(s, 1, quote)
      decreases |s| + 1 - end
    {
      if s[end] == '\\' {
        end := end + 2;
      } else if s[end] == quote {
        return end + 1, true;
      } else {
        end := end + 1;
      }
    }
    closed := false;
  }

  method EndOfWord(s: string) returns (end: nat)
    ensures end == WordEnd(s, 0)
  {
    end := 0;
    while end < |s| && IsIdentChar(s[end])
      invariant end <= |s| && WordEnd(s, end) == WordEnd(s, 0)
    {
      end := end + 1;
    }
  }

  method EndOfSpaces(s: string, start: nat) returns (end: nat)
    requires start <= |s|
    ensures end == SpaceEnd(s, start)
  {
    end := start;
    while end < |s| && IsSpace(s[end])
      invariant end <= |s| && SpaceEnd(s, end) == SpaceEnd(s, start)
    {
      end := end + 1;
    }
  }

  /** No token is an unclosed literal, so the comparison below never takes one for the token just read. */
  predicate NoneOpen(tokens: seq<string>) {
    forall t :: t in tokens ==> t != "" && (IsQuote(t[0]) ==> LiteralEnd(t, 1, t[0]) == Closed(|t|))
  }

  /** A literal is closed by what stands before its end. */
  lemma {:induction false} ClosedLocally(s: string, t: string, i: nat, quote: char)
    requires i <= |s| + 1 && LiteralEnd(s, i, quote).Closed?
    requires var end := LiteralEnd(s, i, quote).end; end <= |t| && t[..end] == s[..end]
    ensures LiteralEnd(t, i, quote) == LiteralEnd(s, i, quote)
    decreases |s| + 1 - i
  {
    var end := LiteralEnd(s, i, quote).end;
    assert t[i] == t[..end][i] && s[i] == s[..end][i];
    if s[i] == '\\' {
      ClosedLocally(s, t, i + 2, quote);
    } else if s[i] != quote {
      ClosedLocally(s, t, i + 1, quote);
    }
  }

  lemma LexClosed(s: string)
    requires s != "" && Lex(s).Token?
    ensures NoneOpen([Lex(s).text])
  {
    var l := Lex(s);
    if IsQuote(s[0]) { ClosedLocally(s, l.text, 1, s[0]); }
  }

  /** What one turn of the loop makes of the text that is left. */
  ghost predicate Turn(rest: string, tokens: seq<string>, tokens': seq<string>, read: nat, stopped: bool,
                       result: Scanned)
    requires rest != ""
  {
    match Lex(rest)
    case Skip => !stopped && tokens' == tokens && read == 1
    case Token(t, w) => !stopped && tokens' == tokens + [t] && read == w
    case Unexpected => stopped && result == Malformed
    case Runaway => stopped && result == if tokens != [] then Panics else Malformed
  }

  lemma TurnScans(rest: string, tokens: seq<string>, tokens': seq<string>, read: nat, result: Scanned)
    requires rest != "" && Turn(rest, tokens, tokens', read, false, result)
    ensures 0 < read <= |rest|
    ensures Prepend(tokens, Scan(rest, tokens != [])) == Prepend(tokens', Scan(rest[read..], tokens' != []))
  {
    hide Lex;
    match Lex(rest)
    case Skip =>
    case Token(t, w) => PrependMore(tokens, t, Scan(rest[w..], true));
  }

  lemma PrependMore(tokens: seq<string>, t: string, rest: Scanned)
    ensures Prepend(tokens, Prepend([t], rest)) == Prepend(tokens + [t], rest)
  {
    if rest.Tokens? { assert tokens + ([t] + rest.tokens) == tokens + [t] + rest.tokens; }
  }

  lemma TurnCloses(rest: string, tokens: seq<string>, tokens': seq<string>, read: nat, result: Scanned)
    requires rest != "" && Turn(rest, tokens, tokens', read, false, result) && NoneOpen(tokens)
    ensures NoneOpen(tokens')
  {
    if Lex(rest).Token? { LexClosed(rest); }
  }

  lemma TurnStops(rest: string, tokens: seq<string>, tokens': seq<string>, read: nat, result: Scanned)
    requires rest != "" && Turn(rest, tokens, tokens', read, true, result)
    ensures Prepend(tokens, Scan(rest, tokens != [])) == result
  {}

  /** Before anything and after everything has been read. */
  lemma Ends(expression: string, tokens: seq<string>)
    ensures NoneOpen([]) && Prepend([], Scan(expression, false)) == Scan(expression, false)
    ensures expression[0..] == expression
    ensures Prepend(tokens, Scan(expression[|expression|..], tokens != [])) == Tokens(tokens)
  {
    hide Lex;
    assert expression[0..] == expression && expression[|expression|..] == "";
    assert forall rest: seq<string> :: [] + rest == rest;
    assert tokens + [] == tokens;
  }

  lemma OpenIsNoToken(rest: string, tokens: seq<string>)
    requires rest != "" && IsQuote(rest[0]) && NoneOpen(tokens) && !LiteralEnd(rest, 1, rest[0]).Closed?
    ensures rest !in tokens && rest[..|rest|] == rest
  {}

  method ReadLiteral(rest: string, tokens: seq<string>)
    returns (tokens': seq<string>, read: nat, stopped: bool, result: Scanned)
    requires rest != "" && IsQuote(rest[0]) && NoneOpen(tokens)
    ensures Turn(rest, tokens, tokens', read, stopped, result)
  {
    tokens', stopped, result := tokens, false, Malformed;
    var closed;
    read, closed := EndOfLiteral(rest, rest[0]);
    if closed { tokens' := tokens + [rest[..read]]; } else { OpenIsNoToken(rest, tokens); }
    if |tokens'| == 0 {
      stopped := true;
    } else if read > |rest| {
      stopped, result := true, Panics;
    } else if tokens'[|tokens'| - 1] != rest[..read] {
      stopped := true;
    }
  }

  method ReadWord(rest: string, tokens: seq<string>)
    returns (tokens': seq<string>, read: nat, stopped: bool, result: Scanned)
    requires rest != "" && !IsSpace(rest[0]) && rest[0] != ',' && !(|rest| >= 2 && PairOp(rest[..2]))
    requires !SingleOp(rest[0]) && !IsQuote(rest[0])
    ensures Turn(rest, tokens, tokens', read, stopped, result)
  {
    tokens', stopped, result := tokens, false, Malformed;
    read := EndOfWord(rest);
    if read == 0 { return tokens, 0, true, Malformed; }
    var word := rest[..read];
    if word == "is" {
      var j := EndOfSpaces(rest, read);
      if NotAt(rest, j) { return tokens + ["is not"], j + 3, false, Malformed; }
    }
    tokens' := tokens + [word];
  }

  /** One turn of the loop of tokenize. */
  method ReadOne(rest: string, tokens: seq<string>)
    returns (tokens': seq<string>, read: nat, stopped: bool, result: Scanned)
    requires rest != "" && NoneOpen(tokens)
    ensures Turn(rest, tokens, tokens', read, stopped, result)
  {
    tokens', read, stopped, result := tokens, 1, false, Malformed;
    if IsSpace(rest[0]) || rest[0] == ',' { return; }
    if |rest| >= 2 && PairOp(rest[..2]) {
      tokens', read := tokens + [rest[..2]], 2;
    } else if SingleOp(rest[0]) {
      tokens' := tokens + [rest[..1]];
    } else if IsQuote(rest[0]) {
      tokens', read, stopped, result := ReadLiteral(rest, tokens);
    } else {
      tokens', read, stopped, result := ReadWord(rest, tokens);
    }
  }

  method Tokenize(expression: string) returns (result: Scanned)
    ensures result == Scan(expression, false)
  {
    hide Scan, NoneOpen, Prepend, Turn;
    var tokens, i := [], 0;
    Ends(expression, tokens);
    while i < |expression|
      invariant i <= |expression| && NoneOpen(tokens)
      invariant Prepend(tokens, Scan(expression[i..], tokens != [])) == Scan(expression, false)
      decreases |expression| - i
    {
      var rest := expression[i..];
      var tokens', read, stopped;
      tokens', read, stopped, result := ReadOne(rest, tokens);
      if stopped {
        TurnStops(rest, tokens, tokens', read, result);
        return;
      }
      TurnScans(rest, tokens, tokens', read, result);
      TurnCloses(rest, tokens, tokens', read, result);
      assert rest[read..] == expression[i + read..];
      tokens, i := tokens', i + read;
    }
    Ends(expression, tokens);
    result := Tokens(tokens);
  }

  // ---- round trip ----

  predicate IsLiteral(t: string) {
    t != "" && IsQuote(t[0]) && LiteralEnd(t, 1, t[0]) == Closed(|t|)
  }

  predicate IsWord(t: string) {
    t != "" && forall k :: 0 <= k < |t| ==> IsIdentChar(t[k])
  }

  /** What a token may be. */
  predicate LegalToken(t: string) {
    PairOp(t) || (|t| == 1 && SingleOp(t[0])) || IsLiteral(t) || IsWord(t) || t == "is not"
  }

  function Spaced(ts: seq<string>): string {
    if ts == [] then "" else if |ts| == 1 then ts[0] else ts[0] + (" " + Spaced(ts[1..]))
  }

  /** The word `is` directly followed by the word `not` is one token. */
  function Merge(ts: seq<string>): seq<string> {
    if ts == [] then []
    else if |ts| >= 2 && ts[0] == "is" && ts[1] == "not" then ["is not"] + Merge(ts[2..])
    else [ts[0]] + Merge(ts[1..])
  }

  lemma {:induction false} WordEndIs(s: string, i: nat, n: nat)
    requires i <= n <= |s| && (forall k :: i <= k < n ==> IsIdentChar(s[k])) && (n < |s| ==> !IsIdentChar(s[n]))
    ensures WordEnd(s, i) == n
    decreases n - i
  {
    if i < n { WordEndIs(s, i + 1, n); }
  }

  /** Nothing, or a space. */
  predicate Ended(rest: string) {
    rest == "" || rest[0] == ' '
  }

  lemma LexWord(t: string, rest: string)
    requires IsWord(t) && Ended(rest)
    requires t == "is" ==> !NotAt(t + rest, SpaceEnd(t + rest, 2))
    ensures Lex(t + rest) == Token(t, |t|)
  {
    var s := t + rest;
    assert s[0] == t[0] && (forall k :: 0 <= k < |t| ==> s[k] == t[k]) && s[..|t|] == t;
    WordEndIs(s, 0, |t|);
    if |s| >= 2 { assert s[..2][0] == t[0]; }
  }

  lemma LexIsNot(rest: string)
    requires Ended(rest)
    ensures Lex("is not" + rest) == Token("is not", 6)
  {
    var s := "is not" + rest;
    WordEndIs(s, 0, 2);
    assert s[..2] == "is" && s[3..6] == "not";
    assert SpaceEnd(s, 3) == 3 && SpaceEnd(s, 2) == 3;
  }

  lemma {:induction false} LexLegal(t: string, rest: string)
    requires LegalToken(t) && Ended(rest)
    requires t == "is" ==> !NotAt(t + rest, SpaceEnd(t + rest, 2))
    ensures Lex(t + rest) == Token(t, |t|)
  {
    var s := t + rest;
    assert s[..|t|] == t && s[0] == t[0];
    if t == "is not" {
      LexIsNot(rest);
    } else if IsWord(t) {
      LexWord(t, rest);
    } else if IsLiteral(t) {
      ClosedLocally(t, s, 1, t[0]);
      if |s| >= 2 { assert s[..2][0] == t[0]; }
    } else if |t| == 1 {
      if |s| >= 2 { assert s[..2] == [t[0], ' ']; }
    }
  }

  lemma LegalStart(t: string)
    requires LegalToken(t)
    ensures t != "" && !IsSpace(t[0]) && t[0] != ','
  {}

  lemma NotAtStart(t: string, rest: string)
    requires LegalToken(t) && t != "not" && Ended(rest)
    ensures !NotAt(t + rest, 0)
  {
    var s := t + rest;
    assert s[0] == t[0];
    if |s| >= 3 { assert s[0..3][0] == s[0] && s[0..3][1] == s[1] && s[0..3][2] == s[2]; }
    if IsWord(t) {
      if |t| < |s| { assert s[|t|] == rest[0]; }
      if |t| == 3 { assert s[0..3] == t; }
      if |t| > 3 { assert s[3] == t[3]; }
    } else {
      assert t[0] != "not"[0];
    }
  }

  lemma NotAtShift(before: string, s: string)
    ensures NotAt(before + s, |before|) == NotAt(s, 0)
  {
    var all := before + s;
    if |s| >= 3 {
      assert all[|before|..|before| + 3] == s[0..3];
      if |s| > 3 { assert all[|before| + 3] == s[3]; }
    }
  }

  /** Whether the text after a token `is` would be read with it: whether it begins with the token `not`. */
  lemma IsFollowed(u: string, rest: string)
    requires LegalToken(u) && Ended(rest)
    ensures var s := "is" + (" " + (u + rest));
            SpaceEnd(s, 2) == 3 && (NotAt(s, 3) <==> u == "not")
  {
    var s := "is" + (" " + (u + rest));
    LegalStart(u);
    assert s == "is " + (u + rest) && s[2] == ' ' && s[3] == u[0];
    assert SpaceEnd(s, 3) == 3;
    NotAtShift("is ", u + rest);
    if u != "not" { NotAtStart(u, rest); }
  }

  lemma SpacedEnds(ts: seq<string>)
    requires ts != []
    ensures exists rest :: Ended(rest) && Spaced(ts) == ts[0] + rest
  {
    if |ts| == 1 {
      assert Ended("") && Spaced(ts) == ts[0] + "";
    } else {
      assert Ended(" " + Spaced(ts[1..]));
    }
  }

  lemma ScanSpace(s: string, some: bool)
    ensures Scan(" " + s, some) == Scan(s, some)
  {
    assert (" " + s)[1..] == s;
  }

  lemma ScanToken(t: string, rest: string, some: bool)
    requires LegalToken(t) && Ended(rest)
    requires t == "is" ==> !NotAt(t + rest, SpaceEnd(t + rest, 2))
    ensures Scan(t + rest, some) == Prepend([t], Scan(rest, true))
  {
    LexLegal(t, rest);
    assert (t + rest)[|t|..] == rest;
  }

  /** Reading back tokens printed with spaces between them gives the same tokens, with every `is`
      directly followed by `not` merged. */
  lemma {:induction false} ScansBack(ts: seq<string>, some: bool)
    requires forall t :: t in ts ==> LegalToken(t)
    ensures Scan(Spaced(ts), some) == Tokens(Merge(ts))
    decreases |ts|
  {
    if |ts| == 1 {
      assert ts[0] + "" == ts[0] && [ts[0]] + Merge(ts[1..]) == [ts[0]];
      LastIs(ts[0]);
      ScanToken(ts[0], "", some);
    } else if |ts| >= 2 {
      var tail := Spaced(ts[1..]);
      SpacedEnds(ts[1..]);
      var rest :| Ended(rest) && tail == ts[1] + rest;
      if ts[0] == "is" { IsFollowed(ts[1], rest); }
      if ts[0] == "is" && ts[1] == "not" {
        ScansMerged(ts, some);
      } else {
        ScanToken(ts[0], " " + tail, some);
        ScanSpace(tail, true);
        ScansBack(ts[1..], true);
      }
    }
  }

  lemma LastIs(t: string)
    ensures t == "is" ==> !NotAt(t + "", SpaceEnd(t + "", 2))
  {}

  lemma {:induction false} ScansMerged(ts: seq<string>, some: bool)
    requires |ts| >= 2 && ts[0] == "is" && ts[1] == "not"
    requires forall t :: t in ts ==> LegalToken(t)
    ensures Scan(Spaced(ts), some) == Tokens(Merge(ts))
    decreases |ts|, 0
  {
    var after := if |ts| == 2 then "" else " " + Spaced(ts[2..]);
    assert Spaced(ts) == "is not" + after by {
      assert Spaced(ts[1..]) == "not" + after by { assert ts[1..][1..] == ts[2..]; }
      assert "is" + (" " + ("not" + after)) == "is not" + after;
    }
    ScanToken("is not", after, some);
    ScansBack(ts[2..], true);
    if |ts| > 2 { ScanSpace(Spaced(ts[2..]), true); }
  }

  /** No `is` is directly followed by `not`. */
  predicate NoneMerge(ts: seq<string>) {
    forall i :: 0 <= i < |ts| - 1 && ts[i] == "is" ==> ts[i + 1] != "not"
  }

  lemma {:induction false} MergeChanges(ts: seq<string>)
    ensures |Merge(ts)| <= |ts| && (Merge(ts) == ts <==> NoneMerge(ts))
    decreases |ts|
  {
    if ts == [] {
    } else if |ts| >= 2 && ts[0] == "is" && ts[1] == "not" {
      MergeChanges(ts[2..]);
    } else {
      MergeChanges(ts[1..]);
      assert ts == [ts[0]] + ts[1..];
      if NoneMerge(ts[1..]) {
        forall i | 0 <= i < |ts| - 1 && ts[i] == "is" ensures ts[i + 1] != "not" {
          if i > 0 { assert ts[1..][i - 1] == ts[i] && ts[1..][i] == ts[i + 1]; }
        }
      }
      if Merge(ts) == ts { assert Merge(ts[1..]) == ts[1..]; }
    }
  }

  /** Tokens are read back unchanged exactly when no `is` is directly followed by `not`. */
  lemma RoundTrip(ts: seq<string>)
    requires forall t :: t in ts ==> LegalToken(t)
    ensures Scan(Spaced(ts), false).Tokens?
    ensures Scan(Spaced(ts), false) == Tokens(ts) <==> NoneMerge(ts)
  {
    ScansBack(ts, false);
    MergeChanges(ts);
  }

  lemma MergeHead(t: string, ts: seq<string>)
    ensures t != "is" ==> Merge([t] + ts) == [t] + Merge(ts)
    ensures ts != [] && ts[0] != "not" ==> Merge([t] + ts) == [t] + Merge(ts)
    ensures t == "is" && ts != [] && ts[0] == "not" ==> Merge([t] + ts) == ["is not"] + Merge(ts[1..])
  {
    assert ([t] + ts)[1..] == ts;
    if ts != [] { assert ([t] + ts)[2..] == ts[1..]; }
  }

  /** Where nothing in `a` merges, and its last token does not either, `a` is kept as it is. */
  lemma {:induction false} MergeAfter(a: seq<string>, b: seq<string>)
    requires NoneMerge(a) && (a != [] ==> a[|a| - 1] != "is")
    ensures Merge(a + b) == a + Merge(b)
    decreases |a|
  {
    if a == [] {
      assert a + b == b;
    } else {
      var rest := a[1..];
      assert forall i :: 0 <= i < |rest| ==> rest[i] == a[i + 1];
      MergeAfter(rest, b);
      if rest != [] { assert (rest + b)[0] == a[1]; }
      MergeHead(a[0], rest + b);
      assert a + b == [a[0]] + (rest + b) && [a[0]] + (rest + Merge(b)) == a + Merge(b);
    }
  }
}
