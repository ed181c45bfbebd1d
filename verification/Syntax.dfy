/** Tokens, queries and their printed form. */
module Syntax {
  import opened Predicates

  datatype FnName = FnWhere | FnDelete | FnGraph | FnUnion | FnIntersect | FnDiff | FnLoad

  /** The tokens of queries. Invalid stands for the token types that start and continue no expression. */
  datatype Token =
    | TPipe | TLeftParen | TRightParen | TComma | TAssign
    | TCompare(cmp: Cmp)
    | TLogic(op: Connective)
    | TIdent(name: string)
    | TString(s: string)
    | TNumber(n: int)
    | TField(field: string)
    | TFunction(fn: FnName)
    | TMethod(fn: FnName)
    | TInvalid

  // ----- binding powers -----

  const BIND_NONE: nat := 0
  const BIND_ASSIGNMENT: nat := 2
  const BIND_PIPE: nat := 3
  const BIND_FUNC: nat := 4
  const BIND_OR: nat := 5
  const BIND_AND: nat := 6
  const BIND_EQ: nat := 7
  const BIND_COMPARE: nat := 8
  const BIND_CALL: nat := 10
  const BIND_ATOM: nat := 12

  function CmpPower(op: Cmp): nat {
    if op.CmpEq? || op.CmpNe? || op.CmpRegex? || op.CmpNotRegex? then BIND_EQ else BIND_COMPARE
  }

  function LogicPower(op: Connective): nat {
    if op.And? then BIND_AND else BIND_OR
  }

  // ----- queries -----

  /** A dump expression: a variable or a file, followed by calls. Method style is r.f(a), otherwise r | f(a). */
  datatype Dumps =
    | Var(name: string)
    | File(path: string)
    | Filtered(recv: Dumps, asMethod: bool, fn: FnName, pred: Expr)
    | Combined(recv: Dumps, asMethod: bool, fn: FnName, arg: Dumps)

  /** A statement: an expression, possibly assigned to names. */
  datatype Statement = Statement(targets: seq<string>, body: Dumps)

  /** The calls take the arguments their functions have. */
  predicate WellFormed(d: Dumps) {
    match d
    case Var(_) => true
    case File(_) => true
    case Filtered(r, _, fn, p) => WellFormed(r) && (fn.FnWhere? || fn.FnDelete? || fn.FnGraph?)
    case Combined(r, _, fn, a) => WellFormed(r) && WellFormed(a) && (fn.FnUnion? || fn.FnIntersect? || fn.FnDiff?)
  }

  // ----- printing -----

  function AtomTokens(a: Atom): seq<Token> {
    match a
    case Num(n) => [TNumber(n)]
    case Str(s) => [TString(s)]
    case Field(name) => [TField(name)]
    case Label(key) => [TField(LABELS), TField(key)]
  }

  function Power(e: Expr): nat {
    match e
    case Leaf(_) => BIND_ATOM
    case Compare(op, _, _) => CmpPower(op)
    case Logic(op, _, _) => LogicPower(op)
  }

  function Operator(e: Expr): Token
    requires !e.Leaf?
  {
    match e
    case Compare(op, _, _) => TCompare(op)
    case Logic(op, _, _) => TLogic(op)
  }

  /** e with parentheses only where an operand binds weaker than level; operators associate to the left. */
  function Print(e: Expr, level: nat): seq<Token>
    decreases e, 1
  {
    if Power(e) < level then [TLeftParen] + PrintBare(e) + [TRightParen] else PrintBare(e)
  }

  function PrintBare(e: Expr): seq<Token>
    decreases e, 0
  {
    match e
    case Leaf(a) => AtomTokens(a)
    case _ => Print(e.left, Power(e)) + [Operator(e)] + Print(e.right, Power(e) + 1)
  }

  function CallTokens(asMethod: bool, fn: FnName): seq<Token> {
    if asMethod then [TMethod(fn), TLeftParen] else [TPipe, TFunction(fn), TLeftParen]
  }

  function PrintDumps(d: Dumps): seq<Token>
    decreases d, 0
  {
    match d
    case Var(name) => [TIdent(name)]
    case File(path) => [TMethod(FnLoad), TLeftParen, TString(path), TRightParen]
    case Filtered(r, asMethod, fn, p) => PrintDumps(r) + CallTokens(asMethod, fn) + Print(p, BIND_FUNC) + [TRightParen]
    case Combined(r, asMethod, fn, a) => PrintDumps(r) + CallTokens(asMethod, fn) + PrintOperand(a) + [TRightParen]
  }

  /** An operand of a call: a variable, or anything in parentheses. */
  function PrintOperand(d: Dumps): seq<Token>
    decreases d, 1
  {
    if d.Var? then [TIdent(d.name)] else [TLeftParen] + PrintDumps(d) + [TRightParen]
  }

  function PrintNames(names: seq<string>): seq<Token>
    requires names != []
  {
    if |names| == 1 then [TIdent(names[0])] else [TIdent(names[0]), TComma] + PrintNames(names[1..])
  }

  function PrintStatement(s: Statement): seq<Token> {
    if s.targets == [] then PrintDumps(s.body) else PrintNames(s.targets) + [TAssign] + PrintDumps(s.body)
  }

  predicate OnlyPipes(d: Dumps) {
    match d
    case Filtered(r, asMethod, _, _) => !asMethod && OnlyPipes(r)
    case Combined(r, asMethod, _, a) => !asMethod && OnlyPipes(r) && OnlyPipes(a)
    case _ => true
  }

  /** The dump expression with every call in pipe style. */
  function AsPipes(d: Dumps): (r: Dumps)
    ensures OnlyPipes(r)
  {
    match d
    case Filtered(r, _, fn, p) => Filtered(AsPipes(r), false, fn, p)
    case Combined(r, _, fn, a) => Combined(AsPipes(r), false, fn, AsPipes(a))
    case _ => d
  }
}
