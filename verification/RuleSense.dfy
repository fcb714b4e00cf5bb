/** What a rule says, told from its words alone: the order of numbers, texts and truth values, what each operator asks,
    and the proof that the evaluator answers it, whatever the layout of the text. */
module RuleSense {
  import opened Basics
  import opened RuleMachine
  import opened RuleMeaning
  import opened RuleTokens
  import opened RuleLayout
  import opened RuleEvaluator

  // ---- values ----

  /** Lexicographic: the first difference decides, and a beginning comes before the whole. */
  ghost predicate Precedes(a: string, b: string) {
    exists k: nat :: DiffersAt(a, b, k)
  }

  predicate DiffersAt(a: string, b: string, k: nat) {
    k <= |a| && k < |b| && a[..k] == b[..k] && (k == |a| || a[k] < b[k])
  }

  predicate SameKind(v: Value, w: Value) {
    (v.Int? && w.Int?) || (v.Float? && w.Float?) || (v.Str? && w.Str?) || (v.Bool? && w.Bool?)
  }

  /** The one is greater than the other. */
  ghost predicate Exceeds(v: Value, w: Value) {
    || (v.Int? && w.Int? && v.n > w.n)
    || (v.Float? && w.Float? && v.x > w.x)
    || (v.Str? && w.Str? && Precedes(w.s, v.s))
    || (v.Bool? && w.Bool? && v.b && !w.b)
  }

  /** The answer to what an operator asks of two values, if it can be asked. */
  ghost function Answer(word: string, v: Value, w: Value): Option<Value> {
    var comparable := v.Nil? || w.Nil? || SameKind(v, w);
    if word in {"==", "is"} then (if comparable then Some(Bool(v == w)) else None)
    else if word in {"!=", "is not"} then (if comparable then Some(Bool(v != w)) else None)
    else if word == ">" then (if SameKind(v, w) then Some(Bool(Exceeds(v, w))) else None)
    else if word == ">=" then (if SameKind(v, w) then Some(Bool(Exceeds(v, w) || v == w)) else None)
    else if word == "<" then (if SameKind(v, w) then Some(Bool(Exceeds(w, v))) else None)
    else if word == "<=" then (if SameKind(v, w) then Some(Bool(Exceeds(w, v) || v == w)) else None)
    else if word == "&&" then (if v.Bool? && w.Bool? then Some(Bool(v.b && w.b)) else None)
    else if word == "||" then (if v.Bool? && w.Bool? then Some(Bool(v.b || w.b)) else None)
    else None
  }

  predicate Operator(word: string) {
    word in {"==", "is", "!=", "is not", ">", ">=", "<", "<=", "&&", "||"}
  }

  lemma {:induction false} PrecedesIsBefore(a: string, b: string)
    ensures Precedes(a, b) <==> Before(a, b)
    decreases |a|
  {
    if a == "" {
      if b != "" { assert DiffersAt(a, b, 0); }
    } else if b != "" {
      PrecedesIsBefore(a[1..], b[1..]);
      if a[0] == b[0] && Precedes(a[1..], b[1..]) {
        var k: nat :| DiffersAt(a[1..], b[1..], k);
        assert a[..k + 1] == [a[0]] + a[1..][..k] && b[..k + 1] == [b[0]] + b[1..][..k];
        assert DiffersAt(a, b, k + 1);
      }
      if a[0] < b[0] { assert DiffersAt(a, b, 0); }
      if k: nat :| DiffersAt(a, b, k) {
        if k > 0 {
          assert a[..k][0] == a[0] && b[..k][0] == b[0];
          assert a[1..][..k - 1] == a[..k][1..] && b[1..][..k - 1] == b[..k][1..];
          assert DiffersAt(a[1..], b[1..], k - 1);
        }
      }
    }
  }

  lemma CompareSays(v: Value, w: Value, op: Op)
    requires op in {Eq, Ne, Gt, Ge, Lt, Le}
    ensures !(v.Nil? || w.Nil?) ==>
              Compare(Val(v), Val(w), op)
              == if !SameKind(v, w) then None else ByOrder(op, v == w, Exceeds(w, v))
    ensures v.Nil? || w.Nil? ==>
              Compare(Val(v), Val(w), op) == if op == Eq then Some(v == w) else if op == Ne then Some(v != w) else None
    ensures SameKind(v, w) ==> (Exceeds(v, w) <==> !Exceeds(w, v) && v != w)
  {
    hide Precedes, Before;
    if v.Str? && w.Str? {
      PrecedesIsBefore(v.s, w.s);
      PrecedesIsBefore(w.s, v.s);
      BeforeOrders(v.s, w.s);
      BeforeOrders(w.s, v.s);
    }
  }

  lemma AnswerIsBinary(word: string, v: Value, w: Value)
    requires Operator(word)
    ensures InfixWord(word) && Binary(OpOf(word).value, Val(v), Val(w)) == Answer(word, v, w)
  {
    hide Compare, Exceeds;
    if OpOf(word).value in {Eq, Ne, Gt, Ge, Lt, Le} { CompareSays(v, w, OpOf(word).value); }
  }

  // ---- expressions ----

  /** What a word or a quoted text stands for, if it is not the name of a function: the constants, then numbers, then
      the inside of a quoted text, then fields. */
  function Reading(t: string, env: Env): Option<Value> {
    if t in {"true", "false"} then Some(Bool(t == "true"))
    else if t in {"null", "nil"} then Some(Nil)
    else if env.number(t).Some? then env.number(t)
    else if QuotedText(t) then Some(Str(t[1..|t| - 1]))
    else env.field(t)
  }

  /** A registered name, unless it reads as a constant or a number. */
  predicate FunctionName(t: string, env: Env) {
    WordText(t) && t in env.funcs && t !in {"true", "false", "null", "nil", "is", "not"} && env.number(t).None?
  }

  /** The words of an expression are words, its operators operators, and names are called that are those of functions.
      */
  predicate Sayable(e: Expr, env: Env) {
    match e
    case Leaf(t) => (QuotedText(t) || (WordText(t) && t !in {"is", "not"})) && !FunctionName(t, env)
    case Negation(w, x) => w in {"!", "not"} && Sayable(x, env)
    case Infix(w, l, r) => Operator(w) && Sayable(l, env) && Sayable(r, env)
    case Call(f, xs) => FunctionName(f, env) && SayableAll(xs, env)
    case Choice(w, l, r, y, n) =>
      Operator(w) && Sayable(l, env) && Sayable(r, env) && Sayable(y, env) && Sayable(n, env)
  }

  predicate SayableAll(xs: Exprs, env: Env) {
    xs.Next? ==> Sayable(xs.head, env) && SayableAll(xs.tail, env)
  }

  ghost function Asked(word: string, v: Option<Value>, w: Option<Value>): Option<Value> {
    if v.Some? && w.Some? then Answer(word, v.value, w.value) else None
  }

  function Denial(v: Option<Value>): Option<Value> {
    if v.Some? && v.value.Bool? then Some(Bool(!v.value.b)) else None
  }

  /** The one value or the other; both have to have one. */
  function Chosen(c: Option<Value>, yes: Option<Value>, no: Option<Value>): Option<Value> {
    if c.Some? && c.value.Bool? && yes.Some? && no.Some? then (if c.value.b then yes else no) else None
  }

  /** What an expression says. */
  ghost function Sense(e: Expr, env: Env): Option<Value>
    requires Sayable(e, env)
  {
    match e
    case Leaf(t) => Reading(t, env)
    case Negation(_, x) => Denial(Sense(x, env))
    case Infix(w, l, r) => Asked(w, Sense(l, env), Sense(r, env))
    case Call(f, xs) => if SenseAll(xs, env).Some? then env.funcs[f](SenseAll(xs, env).value) else None
    case Choice(w, l, r, y, n) => Chosen(Asked(w, Sense(l, env), Sense(r, env)), Sense(y, env), Sense(n, env))
  }

  ghost function SenseAll(xs: Exprs, env: Env): Option<seq<Value>>
    requires SayableAll(xs, env)
  {
    if xs.Done? then Some([]) else
    var v, vs := Sense(xs.head, env), SenseAll(xs.tail, env);
    if v.Some? && vs.Some? then Some([v.value] + vs.value) else None
  }

  lemma OperandSays(t: string)
    requires QuotedText(t) || (WordText(t) && t !in {"is", "not"})
    ensures OperandWord(t)
    ensures QuotedText(t) ==> Quoted(t) && t !in {"true", "false", "null", "nil"}
    ensures WordText(t) ==> !Quoted(t) && !QuotedText(t)
  {
    if WordText(t) {
      assert WordChar(t[0]);
      assert !WordChar("is not"[2]) && (|t| == 6 ==> WordChar(t[2]));
    }
  }

  lemma LeafSays(t: string, env: Env)
    requires Sayable(Leaf(t), env)
    ensures Legal(Leaf(t), env) && Meaning(Leaf(t), env) == Reading(t, env)
  {
    hide OpOf, OperandWord, Quoted, QuotedText, WordText;
    OperandSays(t);
  }

  lemma NameSays(f: string, env: Env)
    requires FunctionName(f, env)
    ensures OperandWord(f) && Resolve(f, env) == Function(env.funcs[f])
  {
    hide OpOf, OperandWord, Quoted, QuotedText, WordText;
    OperandSays(f);
  }

  lemma AskedIsCombined(word: string, v: Option<Value>, w: Option<Value>)
    requires Operator(word)
    ensures InfixWord(word) && Combine(OpOf(word).value, v, w) == Asked(word, v, w)
  {
    hide Answer, Binary, OpOf;
    AnswerIsBinary(word, if v.Some? then v.value else Nil, if w.Some? then w.value else Nil);
  }

  /** The meaning the machine computes is what the expression says. */
  lemma {:induction false} MeansWhatItSays(e: Expr, env: Env)
    requires Sayable(e, env)
    ensures Legal(e, env) && Meaning(e, env) == Sense(e, env)
    decreases e
  {
    hide Asked, Combine, OpOf, Operator, Reading, FunctionName, Resolve;
    match e
    case Leaf(t) => LeafSays(t, env);
    case Negation(w, x) =>
      NegationWord(w);
      MeansWhatItSays(x, env);
    case Infix(w, l, r) =>
      MeansWhatItSays(l, env);
      MeansWhatItSays(r, env);
      AskedIsCombined(w, Sense(l, env), Sense(r, env));
    case Call(f, xs) =>
      NameSays(f, env);
      AllMean(xs, env);
    case Choice(w, l, r, y, n) =>
      MeansWhatItSays(l, env);
      MeansWhatItSays(r, env);
      MeansWhatItSays(y, env);
      MeansWhatItSays(n, env);
      AskedIsCombined(w, Sense(l, env), Sense(r, env));
  }

  lemma NegationWord(w: string)
    requires w in {"!", "not"}
    ensures OpOf(w) == Some(Not)
  {}

  lemma {:induction false} AllMean(xs: Exprs, env: Env)
    requires SayableAll(xs, env)
    ensures LegalAll(xs, env) && MeaningAll(xs, env) == SenseAll(xs, env)
    decreases xs
  {
    hide Meaning, Sense, Legal;
    if xs.Next? {
      MeansWhatItSays(xs.head, env);
      AllMean(xs.tail, env);
    }
  }

  lemma SignsAreTokens()
    ensures TokenText("(") && TokenText(")") && TokenText("?") && TokenText(":") && TokenText("!") && TokenText("not")
  {}

  lemma OperatorToken(w: string)
    requires Operator(w)
    ensures TokenText(w)
  {}

  lemma {:induction false} SaidInTokens(e: Expr, env: Env)
    requires Sayable(e, env)
    ensures forall t :: t in Print(e) ==> TokenText(t)
    decreases e
  {
    hide WordText, QuotedText, SymbolText, Operator;
    SignsAreTokens();
    match e
    case Leaf(_) =>
    case Negation(_, x) => SaidInTokens(x, env);
    case Infix(w, l, r) =>
      OperatorToken(w);
      SaidInTokens(l, env);
      SaidInTokens(r, env);
    case Call(_, xs) => AllInTokens(xs, env);
    case Choice(w, l, r, y, n) =>
      OperatorToken(w);
      SaidInTokens(l, env);
      SaidInTokens(r, env);
      SaidInTokens(y, env);
      SaidInTokens(n, env);
  }

  lemma {:induction false} AllInTokens(xs: Exprs, env: Env)
    requires SayableAll(xs, env)
    ensures forall t :: t in PrintAll(xs) ==> TokenText(t)
    decreases xs
  {
    if xs.Next? {
      SaidInTokens(xs.head, env);
      AllInTokens(xs.tail, env);
    }
  }

  // ---- texts ----

  predicate SayableChain(c: Chain, env: Env) {
    Sayable(c.e, env) && (c.Link? ==> Operator(c.word) && SayableChain(c.rest, env))
  }

  /** What a chain says: each operator asks about what is before it and all that comes after. */
  ghost function ChainSense(c: Chain, env: Env): Option<Value>
    requires SayableChain(c, env)
  {
    if c.One? then Sense(c.e, env) else Asked(c.word, Sense(c.e, env), ChainSense(c.rest, env))
  }

  lemma {:induction false} ChainMeans(c: Chain, env: Env)
    requires SayableChain(c, env)
    ensures LegalChain(c, env) && ChainMeaning(c, env) == ChainSense(c, env)
    ensures forall t :: t in PrintChain(c) ==> TokenText(t)
    decreases c
  {
    hide Asked, Combine, OpOf, Operator, Meaning, Sense, Sayable, Legal, Print, InfixWord;
    MeansWhatItSays(c.e, env);
    SaidInTokens(c.e, env);
    if c.Link? {
      ChainMeans(c.rest, env);
      OperatorToken(c.word);
      AskedIsCombined(c.word, Sense(c.e, env), ChainSense(c.rest, env));
    }
  }

  function Result(v: Option<Value>): Outcome {
    if v.Some? then Evaluated(Val(v.value)) else Failed
  }

  /** The text of an expression, in any layout, evaluates to what it says, and fails exactly when that is nothing. */
  lemma TextSays(c: Chain, gaps: seq<string>, env: Env)
    requires SayableChain(c, env) && NoneMerge(PrintChain(c)) && Layout(PrintChain(c), gaps)
    ensures EvaluateText(LaidOut(PrintChain(c), gaps), env) == Result(ChainSense(c, env))
  {
    hide PrintChain, ChainSense, ChainMeaning, LegalChain, Layout, EvaluateTokens, NoneMerge;
    ChainMeans(c, env);
    ReadsLayout(PrintChain(c), gaps, false);
    EvaluatesChain(c, env);
  }

  // ---- a negation without parentheses ----

  lemma Denies(v: Value)
    ensures Finish(Some(Machine([Val(v)], [Not]))) == (if v.Bool? then Some([Val(Bool(!v.b))]) else None)
  {
    var m := Machine([Val(v)], [Not]);
    assert m.ops[..0] == [] && m.values[..0] == [];
    if v.Bool? {
      var left: seq<Item> := [Val(Bool(!v.b))];
      assert ProcessOp(m.values, Not) == Some([] + left) && [] + left == left;
      assert ApplyTop(m) == Some(Machine(left, []));
      assert Drain(Machine(left, [])) == Some(left);
    }
  }

  lemma FinishDenied(tokens: seq<string>, v: Option<Value>, env: Env)
    requires Finish(Then(Some(Machine([], [])), tokens, env)) == Finish(Push([], [Not], v))
    ensures EvaluateTokens(tokens, env) == if Denial(v).Some? then Some(Val(Denial(v).value)) else None
  {
    hide Drain, Run;
    if v.Some? {
      assert [] + [Val(v.value)] == [Val(v.value)];
      Denies(v.value);
    }
  }

  lemma {:induction false} DenialRuns(w: string, c: Chain, env: Env)
    requires w in {"!", "not"} && SayableChain(c, env) && c.e.Leaf?
    ensures EvaluateTokens([w] + PrintChain(c), env)
            == if Denial(ChainSense(c, env)).Some? then Some(Val(Denial(ChainSense(c, env)).value)) else None
  {
    hide Run, Drain, OpOf, Asked, Combine, Meaning, Sense, Legal, Resolve, ChainSense, Sayable, EvaluateTokens;
    NegationWord(w);
    ChainMeans(c, env);
    MeansWhatItSays(c.e, env);
    var start, v := Some(Machine([], [Not])), Meaning(c.e, env);
    ThenToken(Some(Machine([], [])), w, PrintChain(c), env);
    StartsDenied(w, env);
    LeafRuns(c.e, env);
    if c.Link? {
      var op, after := OpOf(c.word).value, ChainMeaning(c.rest, env);
      InfixOnly(c.word);
      ThenConcat(start, Print(c.e), [c.word] + PrintChain(c.rest), env);
      ThenToken(Push([], [Not], v), c.word, PrintChain(c.rest), env);
      if v.Some? {
        assert [] + [Val(v.value)] == [Val(v.value)] && [Not] + [op] == [Not, op];
        ThenChain(c.rest, [Val(v.value)], [Not, op], env);
        FinishBoth([], [Not], op, v.value, after);
      } else {
        NothingCombined(op, after);
      }
    }
    FinishDenied([w] + PrintChain(c), ChainMeaning(c, env), env);
  }

  /** A `!` or `not` before an operand without parentheses denies all that follows, however many operators there are. */
  lemma DenialReaches(w: string, c: Chain, gaps: seq<string>, env: Env)
    requires w in {"!", "not"} && SayableChain(c, env) && c.e.Leaf?
    requires var ts := [w] + PrintChain(c); NoneMerge(ts) && Layout(ts, gaps)
    ensures EvaluateText(LaidOut([w] + PrintChain(c), gaps), env) == Result(Denial(ChainSense(c, env)))
  {
    hide PrintChain, ChainSense, EvaluateTokens, Layout, NoneMerge;
    SignsAreTokens();
    ChainMeans(c, env);
    ReadsLayout([w] + PrintChain(c), gaps, false);
    DenialRuns(w, c, env);
  }

  lemma NothingCombined(op: Op, w: Option<Value>)
    ensures Combine(op, None, w) == None
  {}

  lemma InfixOnly(w: string)
    requires Operator(w)
    ensures OpOf(w).Some? && OpOf(w).value !in {LParen, Not, Else, Func}
  {}

  lemma StartsDenied(w: string, env: Env)
    requires OpOf(w) == Some(Not)
    ensures Stepped(Some(Machine([], [])), w, env) == Some(Machine([], [Not]))
  {
    assert [] + [Not] == [Not];
  }

  lemma LeafRuns(e: Expr, env: Env)
    requires e.Leaf? && Legal(e, env)
    ensures Then(Some(Machine([], [Not])), Print(e), env) == Push([], [Not], Meaning(e, env))
  {
    ThenLast(Some(Machine([], [Not])), e.token, env);
  }

  // ---- the comparisons in full ----

  /** Two operands and an operator between them: for the spaces between, any layout. */
  lemma PairSays(a: string, word: string, b: string, g: string, h: string, env: Env)
    requires Sayable(Leaf(a), env) && Sayable(Leaf(b), env) && Operator(word) && Blank(g) && Blank(h)
    requires WordText(word) || word == "is not" ==> g != "" && h != ""
    ensures EvaluateText(a + (g + (word + (h + b))), env)
            == Result(Asked(word, Reading(a, env), Reading(b, env)))
  {
    hide Asked, EvaluateText, Reading;
    var c, ts, gaps := Link(Leaf(a), word, One(Leaf(b))), [a, word, b], ["", g, h, ""];
    assert PrintChain(c) == ts;
    OperandSays(a);
    OperandSays(b);
    OperatorTouches(a, word, b);
    assert ts[1..] == [word, b] && [word, b][1..] == [b] && [b][1..] == [];
    assert gaps[1..] == [g, h, ""] && [g, h, ""][1..] == [h, ""] && [h, ""][1..] == [""];
    assert LaidOut([b], [h, ""]) == h + (b + "") == h + b;
    assert LaidOut([word, b], [g, h, ""]) == g + (word + (h + b));
    assert LaidOut(ts, gaps) == a + (g + (word + (h + b)));
    TextSays(c, gaps, env);
  }

  lemma OperatorTouches(a: string, word: string, b: string)
    requires Operator(word) && (QuotedText(a) || (WordText(a) && a !in {"is", "not"}))
    requires QuotedText(b) || (WordText(b) && b !in {"is", "not"})
    ensures NoneMerge([a, word, b])
    ensures !WordText(word) && word != "is not" ==> MayTouch(a, word) && MayTouch(word, b)
  {
    FirstSign(a);
    FirstSign(b);
  }

  /** A word or a quoted text alone evaluates to what it stands for. */
  lemma WordSays(a: string, env: Env)
    requires Sayable(Leaf(a), env)
    ensures EvaluateText(a, env) == Result(Reading(a, env))
  {
    hide EvaluateText, Reading;
    var gaps := ["", ""];
    assert PrintChain(One(Leaf(a))) == [a] && [a][1..] == [] && gaps[1..] == [""];
    assert LaidOut([a], gaps) == "" + (a + "") == a;
    TextSays(One(Leaf(a)), gaps, env);
  }

  /** A choice outside parentheses. */
  lemma ChoiceSays(c: Expr, yes: Expr, no: Expr, gaps: seq<string>, env: Env)
    requires Sayable(c, env) && Sayable(yes, env) && Sayable(no, env)
    requires var ts := Print(c) + (["?"] + (Print(yes) + ([":"] + Print(no)))); NoneMerge(ts) && Layout(ts, gaps)
    ensures EvaluateText(LaidOut(Print(c) + (["?"] + (Print(yes) + ([":"] + Print(no)))), gaps), env)
            == Result(Chosen(Sense(c, env), Sense(yes, env), Sense(no, env)))
  {
    hide Print, Sense, Sayable, Legal, Meaning, EvaluateTokens, Layout, NoneMerge;
    SignsAreTokens();
    MeansWhatItSays(c, env);
    MeansWhatItSays(yes, env);
    MeansWhatItSays(no, env);
    SaidInTokens(c, env);
    SaidInTokens(yes, env);
    SaidInTokens(no, env);
    ReadsLayout(Print(c) + (["?"] + (Print(yes) + ([":"] + Print(no)))), gaps, false);
    OpenChoice(c, yes, no, env);
  }

  // ---- the comparisons, one by one ----

  function Spread(a: string, word: string, b: string): string {
    a + (" " + (word + (" " + b)))
  }

  /** The text of a numeral that reads as an integer. */
  predicate Numeral(t: string, n: int, env: Env) {
    WordText(t) && t !in {"true", "false", "null", "nil", "is", "not"} && env.number(t) == Some(Int(n))
  }

  lemma IntegersCompared(a: string, b: string, x: int, y: int, env: Env)
    requires Numeral(a, x, env) && Numeral(b, y, env)
    ensures EvaluateText(Spread(a, ">", b), env) == Evaluated(Val(Bool(x > y)))
    ensures EvaluateText(Spread(a, ">=", b), env) == Evaluated(Val(Bool(x >= y)))
    ensures EvaluateText(Spread(a, "<", b), env) == Evaluated(Val(Bool(x < y)))
    ensures EvaluateText(Spread(a, "<=", b), env) == Evaluated(Val(Bool(x <= y)))
    ensures EvaluateText(Spread(a, "==", b), env) == Evaluated(Val(Bool(x == y)))
    ensures EvaluateText(Spread(a, "!=", b), env) == Evaluated(Val(Bool(x != y)))
    ensures EvaluateText(Spread(a, "is", b), env) == Evaluated(Val(Bool(x == y)))
    ensures EvaluateText(Spread(a, "is not", b), env) == Evaluated(Val(Bool(x != y)))
  {
    hide EvaluateText, WordText, QuotedText;
    forall word | word in {">", ">=", "<", "<=", "==", "!=", "is", "is not"}
      ensures EvaluateText(Spread(a, word, b), env) == Result(Answer(word, Int(x), Int(y)))
    {
      PairSays(a, word, b, " ", " ", env);
    }
  }

  /** Numerals that read as floats, with the reals they are read as. */
  lemma FloatsCompared(a: string, b: string, x: real, y: real, env: Env)
    requires WordText(a) && WordText(b) && {a, b} !! {"true", "false", "null", "nil", "is", "not"}
    requires env.number(a) == Some(Float(x)) && env.number(b) == Some(Float(y))
    ensures EvaluateText(Spread(a, ">", b), env) == Evaluated(Val(Bool(x > y)))
    ensures EvaluateText(Spread(a, ">=", b), env) == Evaluated(Val(Bool(x >= y)))
    ensures EvaluateText(Spread(a, "<", b), env) == Evaluated(Val(Bool(x < y)))
    ensures EvaluateText(Spread(a, "<=", b), env) == Evaluated(Val(Bool(x <= y)))
    ensures EvaluateText(Spread(a, "==", b), env) == Evaluated(Val(Bool(x == y)))
    ensures EvaluateText(Spread(a, "!=", b), env) == Evaluated(Val(Bool(x != y)))
  {
    hide EvaluateText, WordText, QuotedText;
    assert a in {a, b} && b in {a, b};
    forall word | word in {">", ">=", "<", "<=", "==", "!="}
      ensures EvaluateText(Spread(a, word, b), env) == Result(Answer(word, Float(x), Float(y)))
    {
      PairSays(a, word, b, " ", " ", env);
    }
  }

  /** A quoted text that is not also read as a number. */
  predicate Text(t: string, env: Env) {
    QuotedText(t) && env.number(t).None?
  }

  function Within(t: string): string
    requires |t| >= 2
  {
    t[1..|t| - 1]
  }

  lemma TextsCompared(a: string, b: string, env: Env)
    requires Text(a, env) && Text(b, env)
    ensures EvaluateText(a, env) == Evaluated(Val(Str(Within(a))))
    ensures EvaluateText(Spread(a, ">", b), env) == Evaluated(Val(Bool(Precedes(Within(b), Within(a)))))
    ensures EvaluateText(Spread(a, "<", b), env) == Evaluated(Val(Bool(Precedes(Within(a), Within(b)))))
    ensures EvaluateText(Spread(a, "==", b), env) == Evaluated(Val(Bool(Within(a) == Within(b))))
    ensures EvaluateText(Spread(a, "!=", b), env) == Evaluated(Val(Bool(Within(a) != Within(b))))
  {
    hide EvaluateText, Precedes;
    OperandSays(a);
    OperandSays(b);
    WordSays(a, env);
    forall word | word in {">", "<", "==", "!="}
      ensures EvaluateText(Spread(a, word, b), env) == Result(Answer(word, Str(Within(a)), Str(Within(b))))
    {
      PairSays(a, word, b, " ", " ", env);
    }
  }

  /** The constants: of the two truth values `true` is the greater one, and nothing equals nothing else. */
  lemma ConstantsSay(env: Env)
    ensures EvaluateText("true", env) == Evaluated(Val(Bool(true)))
    ensures EvaluateText("false", env) == Evaluated(Val(Bool(false)))
    ensures EvaluateText("null", env) == EvaluateText("nil", env) == Evaluated(Val(Nil))
    ensures EvaluateText(Spread("true", ">", "false"), env) == Evaluated(Val(Bool(true)))
    ensures EvaluateText(Spread("true", "<", "false"), env) == Evaluated(Val(Bool(false)))
    ensures EvaluateText(Spread("true", "&&", "false"), env) == Evaluated(Val(Bool(false)))
    ensures EvaluateText(Spread("true", "||", "false"), env) == Evaluated(Val(Bool(true)))
    ensures EvaluateText(Spread("null", "is", "nil"), env) == Evaluated(Val(Bool(true)))
    ensures EvaluateText(Spread("null", "is", "true"), env) == Evaluated(Val(Bool(false)))
    ensures EvaluateText(Spread("null", ">", "true"), env) == Failed
  {
    hide EvaluateText, WordText;
    ConstantWords();
    WordSays("true", env);
    WordSays("false", env);
    WordSays("null", env);
    WordSays("nil", env);
    PairSays("true", ">", "false", " ", " ", env);
    PairSays("true", "<", "false", " ", " ", env);
    PairSays("true", "&&", "false", " ", " ", env);
    PairSays("true", "||", "false", " ", " ", env);
    PairSays("null", "is", "nil", " ", " ", env);
    PairSays("null", "is", "true", " ", " ", env);
    PairSays("null", ">", "true", " ", " ", env);
  }

  lemma ConstantWords()
    ensures WordText("true") && WordText("false") && WordText("null") && WordText("nil")
  {}
}
