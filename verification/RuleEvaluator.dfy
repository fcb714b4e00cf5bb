/** The rule evaluator itself: its stacks and loops, proved to compute what RuleMachine and RuleTokens
    say, and what that means for the text of a printed expression. */
module RuleEvaluator {
  import opened Basics
  import opened RuleMachine
  import opened RuleMeaning
  import opened RuleTokens

  class Stack<T> {
    var data: seq<T>

    constructor ()
      ensures data == []
    {
      data := [];
    }

    method Push(v: T)
      modifies this
      ensures data == old(data) + [v]
    {
      data := data + [v];
    }

    /** Popping an empty stack is an error and changes nothing. */
    method Pop() returns (top: Option<T>)
      modifies this
      ensures old(data) == [] ==> top == None && data == []
      ensures old(data) != [] ==> top.Some? && old(data) == data + [top.value]
    {
      if |data| == 0 { return None; }
      top := Some(data[|data| - 1]);
      data := data[..|data| - 1];
    }

    method Peek() returns (top: Option<T>)
      ensures top == if data == [] then None else Some(data[|data| - 1])
    {
      if |data| == 0 { return None; }
      top := Some(data[|data| - 1]);
    }
  }

  function Reversed(s: seq<Value>): (r: seq<Value>)
    ensures |r| == |s| && forall k :: 0 <= k < |s| ==> r[k] == s[|s| - 1 - k]
  {
    seq(|s|, k requires 0 <= k < |s| => s[|s| - 1 - k])
  }

  /** The swapping loop of processFunc. */
  method Reverse(s: seq<Value>) returns (r: seq<Value>)
    ensures r == Reversed(s)
  {
    r := s;
    var i, j := 0, |s| - 1;
    while i < j
      invariant 0 <= i <= j + 1 && i + j == |s| - 1 && |r| == |s|
      invariant forall k :: i <= k <= j ==> r[k] == s[k]
      invariant forall k :: 0 <= k < i || j < k < |s| ==> r[k] == s[|s| - 1 - k]
    {
      var first, last := r[i], r[j];
      r := r[i := last][j := first];
      i, j := i + 1, j - 1;
    }
  }

  /** Whether a step succeeded, and if so what it left: an error ends the evaluation, so what it leaves is
      never looked at. */
  ghost predicate Leaves<T>(ok: bool, after: T, spec: Option<T>) {
    ok == spec.Some? && (ok ==> after == spec.value)
  }

  datatype Outcome = Evaluated(item: Item) | Failed | Panicked

  /** EvaluateWithVars: the tokens of the text, run. */
  function EvaluateText(expression: string, env: Env): Outcome {
    match Scan(expression, false)
    case Malformed => Failed
    case Panics => Panicked
    case Tokens(ts) =>
      match EvaluateTokens(ts, env)
      case Some(item) => Evaluated(item)
      case None => Failed
  }

  class Evaluator {
    const number: string -> Option<Value>
    const field: string -> Option<Value>
    var funcs: map<string, Fn>

    constructor (number: string -> Option<Value>, field: string -> Option<Value>)
      ensures this.number == number && this.field == field && funcs == map[]
    {
      this.number, this.field, funcs := number, field, map[];
    }

    function Environment(): Env
      reads this
    {
      Env(number, funcs, field)
    }

    method RegisterFunction(name: string, fn: Fn)
      modifies this
      ensures funcs == old(funcs)[name := fn]
    {
      funcs := funcs[name := fn];
    }

    static method ProcessFunc(values: Stack<Item>) returns (ok: bool)
      modifies values
      ensures Leaves(ok, values.data, CallTop(old(values.data), []))
    {
      var argsReversed := [];
      assert Reversed([]) == [];
      while |values.data| > 0
        invariant CallTop(values.data, Reversed(argsReversed)) == CallTop(old(values.data), [])
        decreases |values.data|
      {
        ghost var was := values.data;
        var top := values.Pop();
        assert was[..|was| - 1] == values.data;
        match top.value
        case Marker(fn) =>
          var args := Reverse(argsReversed);
          var result := fn(args);
          if result.None? { return false; }
          values.Push(Val(result.value));
          return true;
        case Val(v) =>
          assert [v] + Reversed(argsReversed) == Reversed(argsReversed + [v]);
          argsReversed := argsReversed + [v];
      }
      ok := false;
    }

    static method ProcessOp(values: Stack<Item>, op: Op) returns (ok: bool)
      modifies values
      ensures Leaves(ok, values.data, RuleMachine.ProcessOp(old(values.data), op))
    {
      match op
      case Not =>
        var v := values.Pop();
        if v.None? { return false; }
        var result := Negated(v.value);
        if result.None? { return false; }
        values.Push(Val(result.value));
        return true;
      case Else =>
        ok := ProcessElse(values);
      case Func =>
        ok := ProcessFunc(values);
      case LParen =>
        ok := false;
      case And | Or | Eq | Ne | Gt | Ge | Lt | Le =>
        ok := ProcessBinary(values, op);
    }

    static method ProcessElse(values: Stack<Item>) returns (ok: bool)
      modifies values
      ensures Leaves(ok, values.data, RuleMachine.ProcessOp(old(values.data), Else))
    {
      hide CallTop, Binary;
      ghost var was := values.data;
      var no := values.Pop();
      if no.None? { return false; }
      var yes := values.Pop();
      if yes.None? { return false; }
      var cond := values.Pop();
      if cond.None? { return false; }
      assert was == values.data + [cond.value, yes.value, no.value];
      if !(cond.value.Val? && cond.value.v.Bool?) { return false; }
      values.Push(if cond.value.v.b then yes.value else no.value);
      ok := true;
    }

    static method ProcessBinary(values: Stack<Item>, op: Op) returns (ok: bool)
      requires op !in {LParen, Not, Else, Func}
      modifies values
      ensures Leaves(ok, values.data, RuleMachine.ProcessOp(old(values.data), op))
    {
      hide CallTop, Binary;
      ghost var was := values.data;
      var right := values.Pop();
      if right.None? { return false; }
      var left := values.Pop();
      if left.None? { return false; }
      assert was == values.data + [left.value, right.value];
      var result := Binary(op, left.value, right.value);
      if result.None? { return false; }
      values.Push(Val(result.value));
      ok := true;
    }

    static method PopAndProcess(values: Stack<Item>, ops: Stack<Op>) returns (ok: bool)
      requires ops.data != []
      modifies values, ops
      ensures Leaves(ok, Machine(values.data, ops.data), ApplyTop(Machine(old(values.data), old(ops.data))))
      ensures |ops.data| < |old(ops.data)|
    {
      hide RuleMachine.ProcessOp;
      ghost var was := ops.data;
      var op := ops.Pop();
      assert was[..|was| - 1] == ops.data;
      ok := ProcessOp(values, op.value);
    }

    /** The loop of processParen. */
    static method UnwindToParen(values: Stack<Item>, ops: Stack<Op>) returns (ok: bool)
      modifies values, ops
      ensures Leaves(ok, Machine(values.data, ops.data), Unwind(Machine(old(values.data), old(ops.data))))
    {
      hide ApplyTop;
      while |ops.data| > 0
        invariant Unwind(Machine(values.data, ops.data)) == Unwind(Machine(old(values.data), old(ops.data)))
        decreases |ops.data|
      {
        var peek := ops.Peek();
        if peek == Some(LParen) { return true; }
        ok := PopAndProcess(values, ops);
        if !ok { return; }
      }
      ok := true;
    }

    static method ProcessParen(values: Stack<Item>, ops: Stack<Op>) returns (ok: bool)
      modifies values, ops
      ensures Leaves(ok, Machine(values.data, ops.data), CloseParen(Machine(old(values.data), old(ops.data))))
    {
      hide ApplyTop, Unwind;
      ok := UnwindToParen(values, ops);
      if !ok { return; }
      var peek := ops.Peek();
      if peek != Some(LParen) { return false; }
      ghost var was := ops.data;
      var _ := ops.Pop();
      assert was[..|was| - 1] == ops.data;
      if |ops.data| > 0 {
        peek := ops.Peek();
        if peek == Some(Not) || peek == Some(Func) { ok := PopAndProcess(values, ops); }
      }
    }

    /** One turn of the loop over the tokens. */
    method ProcessToken(t: string, values: Stack<Item>, ops: Stack<Op>) returns (ok: bool)
      modifies values, ops
      ensures Leaves(ok, Machine(values.data, ops.data),
              Step(Machine(old(values.data), old(ops.data)), t, Environment()))
    {
      var op := OpOf(t);
      if op.Some? {
        ops.Push(op.value);
        ok := true;
      } else if t == ")" {
        ok := ProcessParen(values, ops);
      } else if t == "?" {
        ok := true;
        if |ops.data| > 0 { ok := PopAndProcess(values, ops); }
      } else {
        match Resolve(t, Environment())
        case Plain(v) =>
          values.Push(Val(v));
          ok := true;
        case Function(fn) =>
          ops.Push(Func);
          values.Push(Marker(fn));
          ok := true;
        case Unresolved =>
          ok := false;
      }
    }

    method EvaluateWithVars(expression: string) returns (result: Outcome)
      ensures result == EvaluateText(expression, Environment())
    {
      var scanned := Tokenize(expression);
      if scanned.Malformed? { return Failed; }
      if scanned.Panics? { return Panicked; }
      var tokens := scanned.tokens;
      var values := new Stack<Item>();
      var ops := new Stack<Op>();
      ghost var env := Environment();
      for i := 0 to |tokens|
        invariant env == Environment()
        invariant Run(Machine(values.data, ops.data), tokens[i..], env) == Run(Machine([], []), tokens, env)
      {
        assert tokens[i..][1..] == tokens[i + 1..];
        var ok := ProcessToken(tokens[i], values, ops);
        if !ok { return Failed; }
      }
      ghost var end := Machine(values.data, ops.data);
      while |ops.data| > 0
        invariant env == Environment() && Drain(Machine(values.data, ops.data)) == Drain(end)
        decreases |ops.data|
      {
        var ok := PopAndProcess(values, ops);
        if !ok { return Failed; }
      }
      var top := values.Pop();
      result := if top.Some? then Evaluated(top.value) else Failed;
    }
  }

  /** The text of an expression, printed with all its parentheses and a space between tokens, evaluates
      to exactly what the expression means, or fails exactly when it means nothing. The only premise on
      the tokens, beyond being tokens, is that no `is` is directly followed by `not`. */
  lemma TextMeaning(c: Chain, env: Env)
    requires LegalChain(c, env) && NoneMerge(PrintChain(c))
    requires forall t :: t in PrintChain(c) ==> LegalToken(t)
    ensures EvaluateText(Spaced(PrintChain(c)), env)
            == if ChainMeaning(c, env).Some? then Evaluated(Val(ChainMeaning(c, env).value)) else Failed
  {
    RoundTrip(PrintChain(c));
    EvaluatesChain(c, env);
  }

  // ---- where the text means something else ----

  lemma {:induction false} LastToken(e: Expr, env: Env)
    requires Legal(e, env)
    ensures var ts := Print(e); ts != [] && ts[|ts| - 1] != "is"
  {}

  /** A parenthesis with one expression in it, and then another closing one. */
  lemma RunsWrapped(x: Expr, values: seq<Item>, ops: seq<Op>, rest: seq<string>, env: Env)
    requires Legal(x, env) && !Pending(ops)
    ensures Then(Some(Machine(values, ops)), ["("] + (Print(x) + ([")"] + rest)), env)
            == Then(Push(values, ops, Meaning(x, env)), rest, env)
  {
    hide Run, Print, Meaning, Legal, CloseParen;
    ThenToken(Some(Machine(values, ops)), "(", Print(x) + ([")"] + rest), env);
    ThenTree(x, values, ops + [LParen], [")"] + rest, env);
    ThenToken(Push(values, ops + [LParen], Meaning(x, env)), ")", rest, env);
    Unwrapped(values, ops, Meaning(x, env), env);
  }

  lemma Unwrapped(values: seq<Item>, ops: seq<Op>, v: Option<Value>, env: Env)
    requires !Pending(ops)
    ensures Stepped(Push(values, ops + [LParen], v), ")", env) == Push(values, ops, v)
  {
    if v.Some? { CloseEmpty(values + [Val(v.value)], ops); }
  }

  lemma EndKept()
    ensures Merge([")"] + [")"]) == [")"] + [")"]
  {
    var end := [")"] + [")"];
    assert end[0] == ")" && end[1] == ")" && end + [] == end;
    MergeAfter(end, []);
  }

  lemma MergedTokens(p: seq<string>, q: seq<string>)
    requires NoneMerge(p) && NoneMerge(q) && p != [] && q != [] && p[|p| - 1] != "is" && q[|q| - 1] != "is"
    ensures Merge(["("] + (p + (["is"] + (["not", "("] + (q + [")"]) + [")"]))))
            == ["("] + (p + (["is not"] + (["("] + (q + ([")"] + [")"])))))
  {
    hide Merge, NoneMerge;
    var end := [")"] + [")"];
    EndKept();
    MergeAfter(q, end);
    MergeHead("(", q + end);
    var tail := ["not", "("] + (q + [")"]) + [")"];
    assert tail == ["not"] + (["("] + (q + end)) && tail[1..] == ["("] + (q + end);
    MergeHead("is", tail);
    MergeAfter(p, ["is"] + tail);
    MergeHead("(", p + (["is"] + tail));
  }

  lemma {:induction false} MergedRuns(l: Expr, x: Expr, env: Env)
    requires Legal(l, env) && Legal(x, env)
    ensures EvaluateTokens(["("] + (Print(l) + (["is not"] + (["("] + (Print(x) + ([")"] + [")"]))))), env)
            == var v := Combine(Ne, Meaning(l, env), Meaning(x, env)); if v.Some? then Some(Val(v.value)) else None
  {
    hide Run, Print, Meaning, Legal, CloseParen;
    var a, b := Meaning(l, env), Meaning(x, env);
    var tail := ["("] + (Print(x) + ([")"] + [")"]));
    ThenToken(Some(Machine([], [])), "(", Print(l) + (["is not"] + tail), env);
    ThenTree(l, [], [] + [LParen], ["is not"] + tail, env);
    ThenToken(Push([], [] + [LParen], a), "is not", tail, env);
    if a.Some? {
      RunsWrapped(x, [] + [Val(a.value)], [] + [LParen] + [Ne], [")"], env);
      Combined([], [], Ne, a, b, env);
      var v := Combine(Ne, a, b);
      if v.Some? { assert Drain(Machine([] + [Val(v.value)], [])) == Some([] + [Val(v.value)]); }
    }
  }

  /** The text of `( l is not ( x ) )`, meant as a comparison of l with the negation of x, is read as the
      inequality of l and x. */
  lemma {:induction false} IsNotMerged(l: Expr, x: Expr, env: Env)
    requires Legal(l, env) && Legal(x, env) && NoneMerge(Print(l)) && NoneMerge(Print(x))
    requires forall t :: t in Print(l) + Print(x) ==> LegalToken(t)
    ensures EvaluateText(Spaced(Print(Infix("is", l, Negation("not", x)))), env)
            == var v := Combine(Ne, Meaning(l, env), Meaning(x, env));
                if v.Some? then Evaluated(Val(v.value)) else Failed
  {
    var e := Infix("is", l, Negation("not", x));
    assert Print(e) == ["("] + (Print(l) + (["is"] + (["not", "("] + (Print(x) + [")"]) + [")"])));
    TokensLegal(Print(l), Print(x));
    ScansBack(Print(e), false);
    LastToken(l, env);
    LastToken(x, env);
    MergedTokens(Print(l), Print(x));
    MergedRuns(l, x, env);
  }

  lemma TokensLegal(p: seq<string>, q: seq<string>)
    requires forall t :: t in p + q ==> LegalToken(t)
    ensures forall t :: t in ["("] + (p + (["is"] + (["not", "("] + (q + [")"]) + [")"]))) ==> LegalToken(t)
  {
    assert forall t :: t in p || t in q ==> t in p + q;
  }

  lemma Agreement(a: Value, b: Value)
    ensures Combine(Ne, Some(a), Some(b)) == Combine(Eq, Some(a), Negated(Val(b)))
            <==> Binary(Ne, Val(a), Val(b)).None? || (a.Bool? && b.Bool?)
  {}

  /** So that text means what its tree means exactly when the two cannot be compared or are both booleans. */
  lemma {:induction false} IsNotAgrees(l: Expr, x: Expr, env: Env)
    requires Legal(l, env) && Legal(x, env) && NoneMerge(Print(l)) && NoneMerge(Print(x))
    requires forall t :: t in Print(l) + Print(x) ==> LegalToken(t)
    requires Meaning(l, env).Some? && Meaning(x, env).Some?
    ensures Legal(Infix("is", l, Negation("not", x)), env)
    ensures var e, a, b := Infix("is", l, Negation("not", x)), Meaning(l, env).value, Meaning(x, env).value;
            var meant := if Meaning(e, env).Some? then Evaluated(Val(Meaning(e, env).value)) else Failed;
            EvaluateText(Spaced(Print(e)), env) == meant <==> Binary(Ne, Val(a), Val(b)).None? || (a.Bool? && b.Bool?)
  {
    hide EvaluateText, Print, LegalToken, NoneMerge, Combine, Binary;
    IsNotMerged(l, x, env);
    Agreement(Meaning(l, env).value, Meaning(x, env).value);
  }
}
