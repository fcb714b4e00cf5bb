/** The two-stack machine of the rule evaluator, as functions: what one token, and a list of
    tokens, does to the stack of values and the stack of pending operators. */
module RuleMachine {
  import opened Basics

  /** A value a rule works on. `Other` is any value of a type that cannot be compared. */
  datatype Value = Nil | Bool(b: bool) | Str(s: string) | Int(n: int) | Float(x: real) | Other(id: nat)

  /** A registered function; it may fail. */
  type Fn = seq<Value> -> Option<Value>

  /** What is on the value stack: a value, or the marker a function call starts with. */
  datatype Item = Val(v: Value) | Marker(fn: Fn)

  datatype Op = Eq | Ne | Gt | Ge | Lt | Le | And | Or | LParen | Not | Else | Func

  /** What an evaluator is given: how tokens are read as numbers, the registered functions, and how
      fields are looked up. A field that is missing is nil; a lookup may also fail. */
  datatype Env = Env(number: string -> Option<Value>, funcs: map<string, Fn>, field: string -> Option<Value>)

  /** Stacks, with their top at the end. */
  datatype Machine = Machine(values: seq<Item>, ops: seq<Op>)

  // ---- comparing ----

  function Before(a: string, b: string): bool {
    if b == "" then false
    else if a == "" then true
    else a[0] < b[0] || (a[0] == b[0] && Before(a[1..], b[1..]))
  }

  /** A comparison whose operands are equal, or in order, or neither. */
  function ByOrder(op: Op, equal: bool, less: bool): Option<bool> {
    match op
    case Eq => Some(equal)
    case Ne => Some(!equal)
    case Lt => Some(less)
    case Le => Some(equal || less)
    case Gt => Some(!equal && !less)
    case Ge => Some(!less)
    case _ => None
  }

  function Compare(l: Item, r: Item, op: Op): Option<bool> {
    if l == Val(Nil) || r == Val(Nil) then
      var both := l == Val(Nil) && r == Val(Nil);
      if op == Eq then Some(both) else if op == Ne then Some(!both) else None
    else
      match (l, r)
      case (Val(Bool(a)), Val(Bool(b))) => ByOrder(op, a == b, !a && b)
      case (Val(Str(a)), Val(Str(b))) => ByOrder(op, a == b, Before(a, b))
      case (Val(Int(a)), Val(Int(b))) => ByOrder(op, a == b, a < b)
      case (Val(Float(a)), Val(Float(b))) => ByOrder(op, a == b, a < b)
      case _ => None
  }

  // ---- operators ----

  function Binary(op: Op, l: Item, r: Item): Option<Value> {
    match op
    case And | Or =>
      (match (l, r)
       case (Val(Bool(a)), Val(Bool(b))) => Some(Bool(if op == And then a && b else a || b))
       case _ => None)
    case Eq | Ne | Gt | Ge | Lt | Le =>
      (match Compare(l, r, op)
       case Some(b) => Some(Bool(b))
       case None => None)
    case _ => None
  }

  function Negated(v: Item): Option<Value> {
    match v
    case Val(Bool(b)) => Some(Bool(!b))
    case _ => None
  }

  function Pushed(values: seq<Item>, result: Option<Value>): Option<seq<Item>> {
    match result
    case Some(v) => Some(values + [Val(v)])
    case None => None
  }

  /** processFunc: the arguments are everything above the topmost marker. */
  function CallTop(values: seq<Item>, args: seq<Value>): Option<seq<Item>> {
    if values == [] then None else
    var below, top := values[..|values| - 1], values[|values| - 1];
    match top
    case Marker(fn) => Pushed(below, fn(args))
    case Val(v) => CallTop(below, [v] + args)
  }

  /** processOp. */
  function ProcessOp(values: seq<Item>, op: Op): Option<seq<Item>> {
    var n := |values|;
    match op
    case Not => if n < 1 then None else Pushed(values[..n - 1], Negated(values[n - 1]))
    case Else =>
      if n < 3 then None else
      (match values[n - 3]
       case Val(Bool(b)) => Some(values[..n - 3] + [if b then values[n - 2] else values[n - 1]])
       case _ => None)
    case Func => CallTop(values, [])
    case LParen => None
    case _ => if n < 2 then None else Pushed(values[..n - 2], Binary(op, values[n - 2], values[n - 1]))
  }

  /** Pop an operator and apply it. */
  function ApplyTop(m: Machine): (r: Option<Machine>)
    requires m.ops != []
    ensures r.Some? ==> |r.value.ops| == |m.ops| - 1
  {
    match ProcessOp(m.values, m.ops[|m.ops| - 1])
    case Some(values) => Some(Machine(values, m.ops[..|m.ops| - 1]))
    case None => None
  }

  /** Apply operators down to the nearest opening parenthesis, or to the bottom. */
  function Unwind(m: Machine): (r: Option<Machine>)
    ensures r.Some? ==> r.value.ops == [] || r.value.ops[|r.value.ops| - 1] == LParen
    decreases |m.ops|
  {
    if m.ops == [] || m.ops[|m.ops| - 1] == LParen then Some(m) else
    match ApplyTop(m)
    case Some(m') => Unwind(m')
    case None => None
  }

  /** A negation or a call whose parenthesis has just been closed. */
  predicate Pending(ops: seq<Op>) {
    |ops| > 0 && (ops[|ops| - 1] == Not || ops[|ops| - 1] == Func)
  }

  /** processParen. */
  function CloseParen(m: Machine): Option<Machine> {
    match Unwind(m)
    case None => None
    case Some(u) =>
      if u.ops == [] then None else
      var below := Machine(u.values, u.ops[..|u.ops| - 1]);
      if Pending(below.ops) then ApplyTop(below) else Some(below)
  }

  // ---- tokens ----

  /** The operator a token pushes, if it does nothing but push one. */
  function OpOf(t: string): Option<Op> {
    if t == "==" || t == "is" then Some(Eq)
    else if t == "!=" || t == "is not" then Some(Ne)
    else if t == ">" then Some(Gt)
    else if t == ">=" then Some(Ge)
    else if t == "<" then Some(Lt)
    else if t == "<=" then Some(Le)
    else if t == "&&" then Some(And)
    else if t == "||" then Some(Or)
    else if t == "!" || t == "not" then Some(Not)
    else if t == "(" then Some(LParen)
    else if t == ":" then Some(Else)
    else None
  }

  datatype Resolved = Plain(value: Value) | Function(fn: Fn) | Unresolved

  predicate Quoted(t: string) {
    |t| >= 2 && t[0] == t[|t| - 1] && (t[0] == '\'' || t[0] == '\"')
  }

  /** resolveValue: the first reading that applies. */
  function Resolve(t: string, env: Env): Resolved {
    if t == "true" then Plain(Bool(true))
    else if t == "false" then Plain(Bool(false))
    else if t == "null" || t == "nil" then Plain(Nil)
    else if env.number(t).Some? then Plain(env.number(t).value)
    else if Quoted(t) then Plain(Str(t[1..|t| - 1]))
    else if t in env.funcs then Function(env.funcs[t])
    else if env.field(t).Some? then Plain(env.field(t).value)
    else Unresolved
  }

  function Step(m: Machine, t: string, env: Env): Option<Machine> {
    if OpOf(t).Some? then Some(m.(ops := m.ops + [OpOf(t).value]))
    else if t == ")" then CloseParen(m)
    else if t == "?" then (if m.ops == [] then Some(m) else ApplyTop(m))
    else
      match Resolve(t, env)
      case Plain(v) => Some(m.(values := m.values + [Val(v)]))
      case Function(fn) => Some(Machine(m.values + [Marker(fn)], m.ops + [Func]))
      case Unresolved => None
  }

  function Run(m: Machine, tokens: seq<string>, env: Env): Option<Machine>
    decreases |tokens|
  {
    if tokens == [] then Some(m) else
    match Step(m, tokens[0], env)
    case Some(m') => Run(m', tokens[1..], env)
    case None => None
  }

  /** Apply what operators remain, the last one first. */
  function Drain(m: Machine): Option<seq<Item>>
    decreases |m.ops|
  {
    if m.ops == [] then Some(m.values) else
    match ApplyTop(m)
    case Some(m') => Drain(m')
    case None => None
  }

  /** EvaluateWithVars on the tokens of an expression. */
  function EvaluateTokens(tokens: seq<string>, env: Env): Option<Item> {
    match Run(Machine([], []), tokens, env)
    case None => None
    case Some(m) =>
      match Drain(m)
      case Some(values) => if values == [] then None else Some(values[|values| - 1])
      case None => None
  }

  lemma {:induction false} RunConcat(m: Machine, a: seq<string>, b: seq<string>, env: Env)
    ensures Run(m, a + b, env) == if Run(m, a, env).Some? then Run(Run(m, a, env).value, b, env) else None
    decreases |a|
  {
    if a == [] {
      assert a + b == b;
    } else {
      assert (a + b)[1..] == a[1..] + b;
      if Step(m, a[0], env).Some? { RunConcat(Step(m, a[0], env).value, a[1..], b, env); }
    }
  }

  // ---- what comparing promises ----

  lemma {:induction false} BeforeOrders(a: string, b: string)
    ensures !(Before(a, b) && Before(b, a)) && (a != b ==> Before(a, b) || Before(b, a)) && !Before(a, a)
  {
    if a != "" && b != "" {
      BeforeOrders(a[1..], b[1..]);
      BeforeOrders(a[1..], a[1..]);
      assert a == [a[0]] + a[1..] && b == [b[0]] + b[1..];
    } else if a != "" {
      BeforeOrders(a[1..], a[1..]);
    }
  }

  /** Which comparisons are defined: those with nil for equality only, otherwise those of two
      values of the same comparable type. */
  lemma CompareDefined(l: Value, r: Value, op: Op)
    ensures Compare(Val(l), Val(r), op).Some? <==>
            if l.Nil? || r.Nil? then op == Eq || op == Ne
            else op in {Eq, Ne, Gt, Ge, Lt, Le}
                 && ((l.Bool? && r.Bool?) || (l.Str? && r.Str?) || (l.Int? && r.Int?) || (l.Float? && r.Float?))
  {}

  /** Where they are defined, the six comparisons are those of one total order. */
  lemma CompareOrders(l: Value, r: Value)
    requires Compare(Val(l), Val(r), Lt).Some?
    ensures var c := (op: Op) => Compare(Val(l), Val(r), op);
            && c(Eq) == Some(l == r) && c(Ne) == Some(l != r)
            && c(Gt) == Compare(Val(r), Val(l), Lt) && c(Ge) == Compare(Val(r), Val(l), Le)
            && c(Le) == Some(c(Lt) == Some(true) || l == r)
            && (c(Lt) == Some(true) ==> c(Gt) == Some(false) && l != r)
            && (l != r ==> c(Lt) == Some(true) || c(Gt) == Some(true))
  {
    match (l, r)
    case (Str(a), Str(b)) => BeforeOrders(a, b);
    case _ =>
  }

  lemma {:induction false} BeforeTransitive(a: string, b: string, c: string)
    requires Before(a, b) && Before(b, c)
    ensures Before(a, c)
  {
    if a != "" && a[0] == b[0] == c[0] { BeforeTransitive(a[1..], b[1..], c[1..]); }
  }

  lemma CompareTransitive(a: Value, b: Value, c: Value)
    requires Compare(Val(a), Val(b), Lt) == Some(true) && Compare(Val(b), Val(c), Lt) == Some(true)
    ensures Compare(Val(a), Val(c), Lt) == Some(true)
  {
    if a.Str? { BeforeTransitive(a.s, b.s, c.s); }
  }
}
