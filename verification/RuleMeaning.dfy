/** What rules mean: a recursive, strict meaning for expression trees, and the proof that the
    machine computes it from the tokens of a tree printed with all its parentheses. */
module RuleMeaning {
  import opened Basics
  import opened RuleMachine

  datatype Expr =
    | Leaf(token: string)
    | Negation(word: string, operand: Expr)
    | Infix(word: string, left: Expr, right: Expr)
    | Call(name: string, args: Exprs)
    | Choice(word: string, left: Expr, right: Expr, yes: Expr, no: Expr)

  datatype Exprs = Done | Next(head: Expr, tail: Exprs)

  predicate InfixWord(t: string) {
    OpOf(t).Some? && OpOf(t).value !in {LParen, Not, Else}
  }

  /** A token that is read as a value or a function name. */
  predicate OperandWord(t: string) {
    OpOf(t).None? && t != ")" && t != "?"
  }

  /** Every word stands where its kind belongs; a name that is called is that of a function, and no other is. */
  predicate Legal(e: Expr, env: Env) {
    match e
    case Leaf(t) => OperandWord(t) && !Resolve(t, env).Function?
    case Negation(w, x) => OpOf(w) == Some(Not) && Legal(x, env)
    case Infix(w, l, r) => InfixWord(w) && Legal(l, env) && Legal(r, env)
    case Call(f, xs) => OperandWord(f) && Resolve(f, env).Function? && LegalAll(xs, env)
    case Choice(w, l, r, y, n) => InfixWord(w) && Legal(l, env) && Legal(r, env) && Legal(y, env) && Legal(n, env)
  }

  predicate LegalAll(xs: Exprs, env: Env) {
    xs.Next? ==> Legal(xs.head, env) && LegalAll(xs.tail, env)
  }

  function Print(e: Expr): seq<string> {
    match e
    case Leaf(t) => [t]
    case Negation(w, x) => [w, "("] + (Print(x) + [")"])
    case Infix(w, l, r) => ["("] + (Print(l) + ([w] + (Print(r) + [")"])))
    case Call(f, xs) => [f, "("] + (PrintAll(xs) + [")"])
    case Choice(w, l, r, y, n) =>
      ["("] + (Print(l) + ([w] + (Print(r) + (["?"] + (Print(y) + ([":"] + (Print(n) + [")"])))))))
  }

  function PrintAll(xs: Exprs): seq<string> {
    if xs.Done? then [] else Print(xs.head) + PrintAll(xs.tail)
  }

  /** Every part is evaluated, whether its value is used or not; the result is undefined if any part is. */
  function Meaning(e: Expr, env: Env): Option<Value>
    requires Legal(e, env)
  {
    match e
    case Leaf(t) => if Resolve(t, env).Plain? then Some(Resolve(t, env).value) else None
    case Negation(_, x) =>
      (match Meaning(x, env)
       case Some(v) => Negated(Val(v))
       case None => None)
    case Infix(w, l, r) => Combine(OpOf(w).value, Meaning(l, env), Meaning(r, env))
    case Call(f, xs) =>
      (match MeaningAll(xs, env)
       case Some(vs) => Resolve(f, env).fn(vs)
       case None => None)
    case Choice(w, l, r, y, n) =>
      (match (Combine(OpOf(w).value, Meaning(l, env), Meaning(r, env)), Meaning(y, env), Meaning(n, env))
       case (Some(Bool(b)), Some(v), Some(v')) => Some(if b then v else v')
       case _ => None)
  }

  function MeaningAll(xs: Exprs, env: Env): Option<seq<Value>>
    requires LegalAll(xs, env)
  {
    if xs.Done? then Some([]) else
    match (Meaning(xs.head, env), MeaningAll(xs.tail, env))
    case (Some(v), Some(vs)) => Some([v] + vs)
    case _ => None
  }

  function Combine(op: Op, l: Option<Value>, r: Option<Value>): Option<Value> {
    if l.Some? && r.Some? then Binary(op, Val(l.value), Val(r.value)) else None
  }

  // ---- running a list of tokens, possibly after a failure ----

  function Then(m: Option<Machine>, tokens: seq<string>, env: Env): Option<Machine> {
    if m.Some? then Run(m.value, tokens, env) else None
  }

  lemma ThenConcat(m: Option<Machine>, a: seq<string>, b: seq<string>, env: Env)
    ensures Then(m, a + b, env) == Then(Then(m, a, env), b, env)
  {
    if m.Some? { RunConcat(m.value, a, b, env); }
  }

  function Stepped(m: Option<Machine>, t: string, env: Env): Option<Machine> {
    if m.Some? then Step(m.value, t, env) else None
  }

  lemma ThenToken(m: Option<Machine>, t: string, rest: seq<string>, env: Env)
    ensures Then(m, [t] + rest, env) == Then(Stepped(m, t, env), rest, env)
  {
    assert ([t] + rest)[1..] == rest;
  }

  lemma ThenLast(m: Option<Machine>, t: string, env: Env)
    ensures Then(m, [t], env) == Stepped(m, t, env)
  {
    ThenToken(m, t, [], env);
    assert [t] + [] == [t];
  }

  /** The machine after the value of an expression, if it has one, has been pushed. */
  function Push(values: seq<Item>, ops: seq<Op>, v: Option<Value>): Option<Machine> {
    if v.Some? then Some(Machine(values + [Val(v.value)], ops)) else None
  }

  function Items(vs: seq<Value>): (items: seq<Item>)
    ensures |items| == |vs| && forall i :: 0 <= i < |vs| ==> items[i] == Val(vs[i])
  {
    seq(|vs|, i requires 0 <= i < |vs| => Val(vs[i]))
  }

  // ---- what closing a parenthesis does ----

  lemma Unwound(values: seq<Item>, ops: seq<Op>)
    ensures Unwind(Machine(values, ops + [LParen])) == Some(Machine(values, ops + [LParen]))
  {}

  /** Nothing but one value since the parenthesis was opened. */
  lemma CloseEmpty(values: seq<Item>, ops: seq<Op>)
    ensures CloseParen(Machine(values, ops + [LParen]))
            == if Pending(ops) then ApplyTop(Machine(values, ops)) else Some(Machine(values, ops))
  {
    Unwound(values, ops);
    assert (ops + [LParen])[..|ops|] == ops;
  }

  /** One operator since the parenthesis was opened. */
  lemma CloseOne(values: seq<Item>, ops: seq<Op>, op: Op)
    requires op != LParen && !Pending(ops)
    ensures CloseParen(Machine(values, ops + [LParen, op]))
            == if ProcessOp(values, op).Some? then Some(Machine(ProcessOp(values, op).value, ops)) else None
  {
    var all := ops + [LParen, op];
    assert all[..|all| - 1] == ops + [LParen];
    if ProcessOp(values, op).Some? {
      var v := ProcessOp(values, op).value;
      Unwound(v, ops);
      CloseEmpty(v, ops);
      assert Unwind(Machine(values, all)) == Unwind(Machine(v, ops + [LParen]));
    }
  }

  lemma ProcessTwo(values: seq<Item>, l: Item, r: Item, op: Op)
    requires op !in {LParen, Not, Else, Func}
    ensures ProcessOp(values + [l] + [r], op) == Pushed(values, Binary(op, l, r))
  {
    assert (values + [l] + [r])[..|values|] == values;
  }

  lemma {:induction false} CallArgs(values: seq<Item>, fn: Fn, vs: seq<Value>, later: seq<Value>)
    ensures CallTop(values + [Marker(fn)] + Items(vs), later) == Pushed(values, fn(vs + later))
    decreases |vs|
  {
    var n := |vs|;
    var all := values + [Marker(fn)] + Items(vs);
    if n == 0 {
      assert all == values + [Marker(fn)] && all[..|values|] == values && vs + later == later;
    } else {
      assert all[..|all| - 1] == values + [Marker(fn)] + Items(vs[..n - 1]);
      CallArgs(values, fn, vs[..n - 1], [vs[n - 1]] + later);
      assert vs[..n - 1] + ([vs[n - 1]] + later) == vs + later;
    }
  }

  // ---- the machine computes the meaning ----

  /** Running the tokens of a tree pushes exactly its meaning and leaves the operators below it alone,
      or fails exactly when the tree has no meaning, from any stacks whose top operator is neither a
      negation nor a call. */
  lemma {:induction false} RunsMeaning(e: Expr, values: seq<Item>, ops: seq<Op>, env: Env)
    requires Legal(e, env) && !Pending(ops)
    ensures Run(Machine(values, ops), Print(e), env) == Push(values, ops, Meaning(e, env))
    decreases e, 3
  {
    match e
    case Leaf(t) => ThenLast(Some(Machine(values, ops)), t, env);
    case Negation(_, _) => RunsNegation(e, values, ops, env);
    case Infix(_, _, _) => RunsInfix(e, values, ops, env);
    case Call(_, _) => RunsCall(e, values, ops, env);
    case Choice(_, _, _, _, _) => RunsChoice(e, values, ops, env);
  }

  lemma {:induction false} ThenTree(e: Expr, values: seq<Item>, ops: seq<Op>, rest: seq<string>, env: Env)
    requires Legal(e, env) && !Pending(ops)
    ensures Then(Some(Machine(values, ops)), Print(e) + rest, env)
            == Then(Push(values, ops, Meaning(e, env)), rest, env)
    decreases e, 4
  {
    RunsMeaning(e, values, ops, env);
    ThenConcat(Some(Machine(values, ops)), Print(e), rest, env);
  }

  lemma {:induction false} RunsNegation(e: Expr, values: seq<Item>, ops: seq<Op>, env: Env)
    requires e.Negation? && Legal(e, env) && !Pending(ops)
    ensures Run(Machine(values, ops), Print(e), env) == Push(values, ops, Meaning(e, env))
    decreases e, 0
  {
    hide Run, CloseParen;
    var m, inner := Some(Machine(values, ops)), ops + [Not];
    var tail := Print(e.operand) + [")"];
    assert Print(e) == [e.word] + (["("] + tail);
    ThenToken(m, e.word, ["("] + tail, env);
    ThenToken(Some(Machine(values, inner)), "(", tail, env);
    ThenTree(e.operand, values, inner + [LParen], [")"], env);
    Denied(values, ops, Meaning(e.operand, env), env);
  }

  lemma Denied(values: seq<Item>, ops: seq<Op>, v: Option<Value>, env: Env)
    ensures Then(Push(values, ops + [Not] + [LParen], v), [")"], env)
            == Push(values, ops, if v.Some? then Negated(Val(v.value)) else None)
  {
    var inner := ops + [Not];
    ThenLast(Push(values, inner + [LParen], v), ")", env);
    if v.Some? {
      var pushed := values + [Val(v.value)];
      CloseEmpty(pushed, inner);
      assert pushed[..|values|] == values && inner[..|ops|] == ops;
    }
  }

  /** Two operands and the operator between them, all still on the stacks. */
  function Both(values: seq<Item>, ops: seq<Op>, op: Op, l: Option<Value>, r: Option<Value>): Option<Machine> {
    if l.Some? && r.Some? then Some(Machine(values + [Val(l.value)] + [Val(r.value)], ops + [op])) else None
  }

  lemma {:induction false} ThenPair(e: Expr, values: seq<Item>, ops: seq<Op>, rest: seq<string>, env: Env)
    requires (e.Infix? || e.Choice?) && Legal(e, env) && !Pending(ops)
    ensures Then(Some(Machine(values, ops)), Print(e.left) + ([e.word] + (Print(e.right) + rest)), env)
            == Then(Both(values, ops, OpOf(e.word).value, Meaning(e.left, env), Meaning(e.right, env)), rest, env)
    decreases e, 1
  {
    hide Run, CloseParen, Unwind, CallTop;
    var op, v := OpOf(e.word).value, Meaning(e.left, env);
    ThenTree(e.left, values, ops, [e.word] + (Print(e.right) + rest), env);
    ThenToken(Push(values, ops, v), e.word, Print(e.right) + rest, env);
    if v.Some? {
      assert !Pending(ops + [op]);
      ThenTree(e.right, values + [Val(v.value)], ops + [op], rest, env);
    }
  }

  lemma {:induction false} RunsInfix(e: Expr, values: seq<Item>, ops: seq<Op>, env: Env)
    requires e.Infix? && Legal(e, env) && !Pending(ops)
    ensures Run(Machine(values, ops), Print(e), env) == Push(values, ops, Meaning(e, env))
    decreases e, 2
  {
    hide Run, CloseParen;
    var op, l, r := OpOf(e.word).value, Meaning(e.left, env), Meaning(e.right, env);
    ThenToken(Some(Machine(values, ops)), "(", Print(e.left) + ([e.word] + (Print(e.right) + [")"])), env);
    ThenPair(e, values, ops + [LParen], [")"], env);
    Combined(values, ops, op, l, r, env);
  }

  lemma Combined(values: seq<Item>, ops: seq<Op>, op: Op, l: Option<Value>, r: Option<Value>, env: Env)
    requires op !in {LParen, Not, Else, Func} && !Pending(ops)
    ensures Then(Both(values, ops + [LParen], op, l, r), [")"], env) == Push(values, ops, Combine(op, l, r))
  {
    ThenLast(Both(values, ops + [LParen], op, l, r), ")", env);
    if l.Some? && r.Some? {
      assert ops + [LParen] + [op] == ops + [LParen, op];
      CloseOne(values + [Val(l.value)] + [Val(r.value)], ops, op);
      ProcessTwo(values, Val(l.value), Val(r.value), op);
    }
  }

  lemma {:induction false} ThenAll(xs: Exprs, values: seq<Item>, ops: seq<Op>, rest: seq<string>, env: Env)
    requires LegalAll(xs, env) && !Pending(ops)
    ensures var vs := MeaningAll(xs, env);
            Then(Some(Machine(values, ops)), PrintAll(xs) + rest, env)
            == Then(if vs.Some? then Some(Machine(values + Items(vs.value), ops)) else None, rest, env)
    decreases xs, 0
  {
    hide Run, Step, Print, Meaning, Legal;
    if xs.Done? {
      assert PrintAll(xs) + rest == rest && values + Items([]) == values;
    } else {
      assert PrintAll(xs) + rest == Print(xs.head) + (PrintAll(xs.tail) + rest);
      ThenTree(xs.head, values, ops, PrintAll(xs.tail) + rest, env);
      var v := Meaning(xs.head, env);
      if v.Some? {
        ThenAll(xs.tail, values + [Val(v.value)], ops, rest, env);
        var vs := MeaningAll(xs.tail, env);
        if vs.Some? {
          assert values + [Val(v.value)] + Items(vs.value) == values + Items([v.value] + vs.value);
        }
      }
    }
  }

  lemma {:induction false} RunsCall(e: Expr, values: seq<Item>, ops: seq<Op>, env: Env)
    requires e.Call? && Legal(e, env) && !Pending(ops)
    ensures Run(Machine(values, ops), Print(e), env) == Push(values, ops, Meaning(e, env))
    decreases e, 0
  {
    hide Run, CloseParen;
    var m, inner, fn := Some(Machine(values, ops)), ops + [Func], Resolve(e.name, env).fn;
    var tail := PrintAll(e.args) + [")"];
    assert Print(e) == [e.name] + (["("] + tail);
    ThenToken(m, e.name, ["("] + tail, env);
    ThenToken(Some(Machine(values + [Marker(fn)], inner)), "(", tail, env);
    ThenAll(e.args, values + [Marker(fn)], inner + [LParen], [")"], env);
    var vs := MeaningAll(e.args, env);
    if vs.Some? { Called(values, ops, fn, vs.value, env); }
  }

  lemma Called(values: seq<Item>, ops: seq<Op>, fn: Fn, vs: seq<Value>, env: Env)
    ensures Then(Some(Machine(values + [Marker(fn)] + Items(vs), ops + [Func] + [LParen])), [")"], env)
            == Push(values, ops, fn(vs))
  {
    var pushed, inner := values + [Marker(fn)] + Items(vs), ops + [Func];
    ThenLast(Some(Machine(pushed, inner + [LParen])), ")", env);
    CloseEmpty(pushed, inner);
    CallArgs(values, fn, vs, []);
    assert vs + [] == vs && inner[..|ops|] == ops;
  }

  /** A question mark applies the operator of the condition at once. */
  lemma Decided(values: seq<Item>, ops: seq<Op>, op: Op, l: Option<Value>, r: Option<Value>, env: Env)
    requires op !in {LParen, Not, Else, Func}
    ensures Stepped(Both(values, ops, op, l, r), "?", env) == Push(values, ops, Combine(op, l, r))
  {
    if l.Some? && r.Some? {
      ProcessTwo(values, Val(l.value), Val(r.value), op);
      assert (ops + [op])[..|ops|] == ops;
    }
  }

  lemma {:induction false} RunsChoice(e: Expr, values: seq<Item>, ops: seq<Op>, env: Env)
    requires e.Choice? && Legal(e, env) && !Pending(ops)
    ensures Run(Machine(values, ops), Print(e), env) == Push(values, ops, Meaning(e, env))
    decreases e, 2
  {
    hide Run, Both, Combine, CloseParen, CallTop;
    var op, l, r := OpOf(e.word).value, Meaning(e.left, env), Meaning(e.right, env);
    var inner := ops + [LParen];
    var end := Print(e.no) + [")"];
    var tail := Print(e.yes) + ([":"] + end);
    ThenToken(Some(Machine(values, ops)), "(", Print(e.left) + ([e.word] + (Print(e.right) + (["?"] + tail))), env);
    ThenPair(e, values, inner, ["?"] + tail, env);
    ThenToken(Both(values, inner, op, l, r), "?", tail, env);
    Decided(values, inner, op, l, r, env);
    var cond := Combine(op, l, r);
    if cond.Some? { RunsBranches(e, cond.value, values, ops, env); }
  }

  /** The part of a choice after its condition. */
  lemma {:induction false} RunsBranches(e: Expr, cond: Value, values: seq<Item>, ops: seq<Op>, env: Env)
    requires e.Choice? && Legal(e, env) && !Pending(ops)
    ensures var y, n := Meaning(e.yes, env), Meaning(e.no, env);
            Then(Some(Machine(values + [Val(cond)], ops + [LParen])), Print(e.yes)
                 + ([":"] + (Print(e.no) + [")"])), env)
            == Push(values, ops, if cond.Bool? && y.Some? && n.Some? then Some(if cond.b then y.value else n.value)
                else None)
    decreases e, 1
  {
    hide Run, CallTop, Unwind, Meaning, CloseParen;
    var y, n, inner := Meaning(e.yes, env), Meaning(e.no, env), ops + [LParen];
    var pushed := values + [Val(cond)];
    ThenTree(e.yes, pushed, inner, [":"] + (Print(e.no) + [")"]), env);
    ThenToken(Push(pushed, inner, y), ":", Print(e.no) + [")"], env);
    if y.Some? {
      ThenTree(e.no, pushed + [Val(y.value)], inner + [Else], [")"], env);
      if n.Some? { Selected(values, ops, cond, y.value, n.value, env); }
    }
  }

  lemma Selected(values: seq<Item>, ops: seq<Op>, cond: Value, y: Value, n: Value, env: Env)
    requires !Pending(ops)
    ensures Then(Some(Machine(values + [Val(cond)] + [Val(y)] + [Val(n)], ops + [LParen] + [Else])), [")"], env)
            == Push(values, ops, if cond.Bool? then Some(if cond.b then y else n) else None)
  {
    var all := values + [Val(cond)] + [Val(y)] + [Val(n)];
    ThenLast(Some(Machine(all, ops + [LParen] + [Else])), ")", env);
    assert ops + [LParen] + [Else] == ops + [LParen, Else];
    CloseOne(all, ops, Else);
    assert all[..|values|] == values;
  }

  // ---- whole expressions ----

  /** Operands with operators between them and no parentheses around. */
  datatype Chain = One(e: Expr) | Link(e: Expr, word: string, rest: Chain)

  predicate LegalChain(c: Chain, env: Env) {
    Legal(c.e, env) && (c.Link? ==> InfixWord(c.word) && LegalChain(c.rest, env))
  }

  function PrintChain(c: Chain): seq<string> {
    if c.One? then Print(c.e) else Print(c.e) + ([c.word] + PrintChain(c.rest))
  }

  /** The right-associated fold, whatever the operators are. */
  function ChainMeaning(c: Chain, env: Env): Option<Value>
    requires LegalChain(c, env)
  {
    if c.One? then Meaning(c.e, env) else Combine(OpOf(c.word).value, Meaning(c.e, env), ChainMeaning(c.rest, env))
  }

  function Finish(m: Option<Machine>): Option<seq<Item>> {
    if m.Some? then Drain(m.value) else None
  }

  lemma FinishBoth(values: seq<Item>, ops: seq<Op>, op: Op, v: Value, w: Option<Value>)
    requires op !in {LParen, Not, Else, Func}
    ensures Finish(Push(values + [Val(v)], ops + [op], w)) == Finish(Push(values, ops, Combine(op, Some(v), w)))
  {
    if w.Some? {
      ProcessTwo(values, Val(v), Val(w.value), op);
      assert (ops + [op])[..|ops|] == ops;
    }
  }

  lemma {:induction false} ThenChain(c: Chain, values: seq<Item>, ops: seq<Op>, env: Env)
    requires LegalChain(c, env) && !Pending(ops)
    ensures Finish(Then(Some(Machine(values, ops)), PrintChain(c), env))
            == Finish(Push(values, ops, ChainMeaning(c, env)))
  {
    hide Run, CloseParen, CallTop, Print, Meaning, Legal, Drain;
    if c.One? {
      RunsMeaning(c.e, values, ops, env);
    } else {
      var op, v := OpOf(c.word).value, Meaning(c.e, env);
      ThenTree(c.e, values, ops, [c.word] + PrintChain(c.rest), env);
      ThenToken(Push(values, ops, v), c.word, PrintChain(c.rest), env);
      if v.Some? {
        ThenChain(c.rest, values + [Val(v.value)], ops + [op], env);
        var w := ChainMeaning(c.rest, env);
        FinishBoth(values, ops, op, v.value, w);
      }
    }
  }

  /** The value of a chain of any length is its right-associated fold: no operator binds closer than
      another. Evaluation fails exactly when the fold is undefined. */
  lemma EvaluatesChain(c: Chain, env: Env)
    requires LegalChain(c, env)
    ensures EvaluateTokens(PrintChain(c), env)
            == if ChainMeaning(c, env).Some? then Some(Val(ChainMeaning(c, env).value)) else None
  {
    ThenChain(c, [], [], env);
    var v := ChainMeaning(c, env);
    if v.Some? { assert Drain(Machine([Val(v.value)], [])) == Some([Val(v.value)]); }
  }

  /** So `a && b || c` means what it does where && binds closer exactly when a holds or c does not. */
  lemma {:induction false} NoPrecedence(a: Expr, b: Expr, c: Expr, x: bool, y: bool, z: bool, env: Env)
    requires Legal(a, env) && Legal(b, env) && Legal(c, env)
    requires Meaning(a, env) == Some(Bool(x)) && Meaning(b, env) == Some(Bool(y)) && Meaning(c, env) == Some(Bool(z))
    ensures EvaluateTokens(Print(a) + (["&&"] + (Print(b) + (["||"] + Print(c)))), env)
            == Some(Val(Bool((x && y) || z)))
            <==> x || !z
  {
    hide EvaluateTokens, Legal, Meaning, Print;
    var chain := Link(a, "&&", Link(b, "||", One(c)));
    EvaluatesChain(chain, env);
    assert PrintChain(chain.rest) == Print(b) + (["||"] + Print(c));
    assert PrintChain(chain) == Print(a) + (["&&"] + (Print(b) + (["||"] + Print(c))));
    assert ChainMeaning(chain.rest.rest, env) == Some(Bool(z));
    assert ChainMeaning(chain.rest, env) == Some(Bool(y || z));
  }

  /** A parenthesised choice whose condition is itself closed by a parenthesis always fails: the question
      mark takes the opening parenthesis for the operator of the condition. */
  lemma ClosedConditionRejected(c: Expr, values: seq<Item>, ops: seq<Op>, rest: seq<string>, env: Env)
    requires Legal(c, env) && !Pending(ops)
    ensures Run(Machine(values, ops), ["("] + (Print(c) + (["?"] + rest)), env) == None
  {
    hide Run, CloseParen, CallTop, Print, Meaning, Legal;
    ThenToken(Some(Machine(values, ops)), "(", Print(c) + (["?"] + rest), env);
    ThenTree(c, values, ops + [LParen], ["?"] + rest, env);
    ThenToken(Push(values, ops + [LParen], Meaning(c, env)), "?", rest, env);
  }

  lemma Chosen(v: Value, y: Value, n: Value)
    ensures Drain(Machine([Val(v)] + [Val(y)] + [Val(n)], [] + [Else]))
            == if v.Bool? then Some([Val(if v.b then y else n)]) else None
  {
    var m := Machine([Val(v)] + [Val(y)] + [Val(n)], [] + [Else]);
    assert m.ops[..|m.ops| - 1] == [] && m.values[..0] == [];
    assert m.ops[|m.ops| - 1] == Else && m.values == [Val(v), Val(y), Val(n)];
    var left: seq<Item> := [Val(if v.Bool? && v.b then y else n)];
    if v.Bool? {
      assert ProcessOp(m.values, Else).value == left;
      assert Drain(Machine(left, [])) == Some(left);
    }
  }

  /** Outside any parenthesis such a choice is evaluated. */
  lemma {:induction false} OpenChoice(c: Expr, yes: Expr, no: Expr, env: Env)
    requires Legal(c, env) && Legal(yes, env) && Legal(no, env)
    ensures EvaluateTokens(Print(c) + (["?"] + (Print(yes) + ([":"] + Print(no)))), env)
            == match (Meaning(c, env), Meaning(yes, env), Meaning(no, env))
               case (Some(Bool(b)), Some(v), Some(w)) => Some(Val(if b then v else w))
               case _ => None
  {
    hide Run, CloseParen, CallTop, Print, Meaning, Legal, Resolve;
    var v, y, n := Meaning(c, env), Meaning(yes, env), Meaning(no, env);
    ThenTree(c, [], [], ["?"] + (Print(yes) + ([":"] + Print(no))), env);
    ThenToken(Push([], [], v), "?", Print(yes) + ([":"] + Print(no)), env);
    if v.Some? {
      assert [] + [Val(v.value)] == [Val(v.value)];
      ThenTree(yes, [Val(v.value)], [], [":"] + Print(no), env);
      ThenToken(Push([Val(v.value)], [], y), ":", Print(no), env);
      if y.Some? {
        RunsMeaning(no, [Val(v.value)] + [Val(y.value)], [] + [Else], env);
        if n.Some? { Chosen(v.value, y.value, n.value); }
      }
    }
  }
}
