/**
 * Filter predicates: their syntax, their meaning as a short-circuit
 * evaluation, and their types. The meaning is the reference that the
 * compiled chunks are proved against.
 */
module Predicates {
  import opened Results
  import opened Goroutines

  datatype Cmp =
    | CmpEq | CmpNe | CmpRegex | CmpNotRegex
    | CmpLt | CmpLe | CmpGt | CmpGe | CmpContains | CmpIn | CmpMatches

  datatype Connective = And | Or

  datatype Atom =
    | Num(n: int)
    | Str(s: string)
    | Field(name: string)
    | Label(key: string) // labels.key, written as two field accessors

  datatype Expr =
    | Leaf(atom: Atom)
    | Compare(cmp: Cmp, left: Expr, right: Expr)
    | Logic(op: Connective, left: Expr, right: Expr)

  /** The values a predicate computes with. */
  datatype Scalar = SBool(b: bool) | SNum(n: int) | SStr(s: string) | SMap(m: map<string, string>)

  /** What the program meets outside itself: regular expressions, sorting and files. */
  datatype World = World(
    compiles: string -> bool,
    matches: (string, string) -> bool, // pattern, subject
    sort: seq<Goroutine> -> seq<Goroutine>,
    load: string -> Option<seq<Goroutine>>)

  const LABELS := ".labels"

  function LabelName(key: string): string {
    LABELS + key
  }

  predicate HasPrefix(s: string, prefix: string) {
    prefix <= s
  }

  function CutPrefix(s: string, prefix: string): string {
    if prefix <= s then s[|prefix|..] else s
  }

  predicate Substring(container: string, part: string) {
    exists i | 0 <= i <= |container| :: OccursAt(container, part, i)
  }

  predicate OccursAt(container: string, part: string, i: nat)
    requires i <= |container|
  {
    part <= container[i..]
  }

  /** Go's ordering of strings. */
  predicate StringLess(a: string, b: string) {
    if b == "" then false
    else if a == "" then true
    else a[0] < b[0] || (a[0] == b[0] && StringLess(a[1..], b[1..]))
  }

  lemma StringOrderTotal(a: string, b: string)
    ensures !StringLess(a, a)
    ensures StringLess(a, b) ==> a != b && !StringLess(b, a)
    ensures a == b || StringLess(a, b) || StringLess(b, a)
  {
    if a != "" && b != "" && a[0] == b[0] {
      StringOrderTotal(a[1..], b[1..]);
      assert a == [a[0]] + a[1..] && b == [b[0]] + b[1..];
    }
    if a != "" && b == a {
      StringOrderTotal(a[1..], a[1..]);
    }
  }

  function LabelValue(g: Goroutine, key: string): string {
    if key in g.labels then g.labels[key] else "<nil>"
  }

  /** The value of a field accessor; None when the name is not a field. */
  function FieldValue(g: Goroutine, name: string): Option<Scalar> {
    if name == ".id" then Some(SNum(g.id))
    else if name == ".header" then Some(SStr(g.header))
    else if name == ".trace" then Some(SStr(g.trace))
    else if name == ".lines" then Some(SNum(g.lineCount))
    else if name == ".duration" then Some(SNum(g.duration))
    else if name == ".state" then Some(SStr(g.state))
    else if name == ".createdBy" then Some(SNum(g.createdBy))
    else if name == ".dups" then Some(SNum(g.dups))
    else if name == LABELS then Some(SMap(g.labels))
    else if HasPrefix(name, LABELS) then Some(SStr(LabelValue(g, CutPrefix(name, ".labels."))))
    else None
  }

  predicate IsField(name: string) {
    name in {".id", ".header", ".trace", ".lines", ".duration", ".state", ".createdBy", ".dups"} ||
      HasPrefix(name, LABELS)
  }

  predicate KnownAtom(a: Atom) {
    match a
    case Field(name) => IsField(name)
    case Label(key) => IsField(LabelName(key))
    case _ => true
  }

  /** Every accessor of e names a field. */
  predicate Known(e: Expr) {
    match e
    case Leaf(a) => KnownAtom(a)
    case Compare(_, l, r) => Known(l) && Known(r)
    case Logic(_, l, r) => Known(l) && Known(r)
  }

  /** The meaning of a comparison of two operands. */
  function Apply(w: World, op: Cmp, l: Scalar, r: Scalar): (v: Result<Scalar>)
    ensures v.Err? ==> v.error in {BadRegex, InvalidType, MismatchedTypes}
    ensures v.Ok? ==> v.value.SBool?
  {
    match op
    case CmpContains => Holds(l, r)
    case CmpIn => Holds(r, l)
    case CmpRegex => MatchRegex(w, l, r, true)
    case CmpMatches => MatchRegex(w, l, r, true)
    case CmpNotRegex => MatchRegex(w, l, r, false)
    case _ =>
      match (l, r)
      case (SNum(a), SNum(b)) => Ok(SBool(Ordered(op, a < b, a == b)))
      case (SStr(a), SStr(b)) => Ok(SBool(Ordered(op, StringLess(a, b), a == b)))
      // two booleans or two maps are comparable, but every comparison is false
      case (SBool(_), SBool(_)) => Ok(SBool(false))
      case (SMap(_), SMap(_)) => Ok(SBool(false))
      case _ => Err(MismatchedTypes)
  }

  predicate Ordered(op: Cmp, less: bool, equal: bool) {
    match op
    case CmpEq => equal
    case CmpNe => !equal
    case CmpLt => less
    case CmpLe => less || equal
    case CmpGt => !less && !equal
    case _ => !less
  }

  function Holds(container: Scalar, part: Scalar): Result<Scalar> {
    match (container, part)
    case (SStr(c), SStr(p)) => Ok(SBool(Substring(c, p)))
    case (SMap(c), SStr(p)) => Ok(SBool(p in c))
    case _ => Err(InvalidType)
  }

  function MatchRegex(w: World, subject: Scalar, pattern: Scalar, expected: bool): Result<Scalar> {
    if !pattern.SStr? || !subject.SStr? then Err(InvalidType)
    else if !w.compiles(pattern.s) then Err(BadRegex)
    else Ok(SBool(w.matches(pattern.s, subject.s) == expected))
  }

  function AtomValue(a: Atom, g: Goroutine): Option<Scalar> {
    match a
    case Num(n) => Some(SNum(n))
    case Str(s) => Some(SStr(s))
    case Field(name) => FieldValue(g, name)
    case Label(key) => FieldValue(g, LabelName(key))
  }

  /** The value of the left operand with which the right one has to be evaluated. */
  predicate Undecided(op: Connective) {
    op.And?
  }

  /**
   * Short-circuit evaluation of e on g with room free stack slots: operands are
   * evaluated left to right, and the right operand of and/or only if the left
   * one does not decide.
   */
  function Eval(w: World, e: Expr, g: Goroutine, room: int): Result<Scalar> {
    match e
    case Leaf(a) =>
      if AtomValue(a, g).None? then Err(NotModelled)
      else if room <= 0 then Err(StackOverflow)
      else Ok(AtomValue(a, g).value)
    case Compare(op, l, r) =>
      (match Eval(w, l, g, room)
       case Err(err) => Err(err)
       case Ok(a) =>
         match Eval(w, r, g, room - 1)
         case Err(err) => Err(err)
         case Ok(b) => Apply(w, op, a, b))
    case Logic(op, l, r) =>
      match Eval(w, l, g, room)
      case Err(err) => Err(err)
      case Ok(SBool(b)) => if b == Undecided(op) then Eval(w, r, g, room) else Ok(SBool(b))
      case Ok(_) => Err(InvalidType)
  }

  /** The number of instructions evaluation retires when it succeeds. */
  function Cost(w: World, e: Expr, g: Goroutine, room: int): nat {
    match e
    case Leaf(_) => 1
    case Compare(_, l, r) => Cost(w, l, g, room) + Cost(w, r, g, room - 1) + 1
    case Logic(op, l, r) =>
      Cost(w, l, g, room) +
      (if Eval(w, l, g, room) == Ok(SBool(Undecided(op))) then 1 + Cost(w, r, g, room) else 3)
  }

  /** The number of stack slots evaluation needs. */
  function Depth(e: Expr): nat {
    match e
    case Leaf(_) => 1
    case Compare(_, l, r) => Max(Depth(l), Depth(r) + 1)
    case Logic(_, l, r) => Max(Depth(l), Depth(r))
  }

  function Max(a: nat, b: nat): nat {
    if a < b then b else a
  }

  datatype Type = TBool | TNum | TStr | TMap

  predicate HasType(v: Scalar, t: Type) {
    match t
    case TBool => v.SBool?
    case TNum => v.SNum?
    case TStr => v.SStr?
    case TMap => v.SMap?
  }

  function FieldType(name: string): Option<Type> {
    if name in {".id", ".lines", ".duration", ".createdBy", ".dups"} then Some(TNum)
    else if name in {".header", ".trace", ".state"} then Some(TStr)
    else if name == LABELS then Some(TMap)
    else if HasPrefix(name, LABELS) then Some(TStr)
    else None
  }

  function AtomType(a: Atom): Option<Type> {
    match a
    case Num(_) => Some(TNum)
    case Str(_) => Some(TStr)
    case Field(name) => FieldType(name)
    case Label(key) => FieldType(LabelName(key))
  }

  /** The type of a well-typed predicate expression. */
  function TypeOf(e: Expr): Option<Type> {
    match e
    case Leaf(a) => AtomType(a)
    case Compare(op, l, r) =>
      var a, b := TypeOf(l), TypeOf(r);
      if a.Some? && b.Some? && Comparable(op, a.value, b.value) then Some(TBool) else None
    case Logic(_, l, r) =>
      if TypeOf(l) == Some(TBool) && TypeOf(r) == Some(TBool) then Some(TBool) else None
  }

  predicate Comparable(op: Cmp, l: Type, r: Type) {
    match op
    case CmpContains => r == TStr && (l == TStr || l == TMap)
    case CmpIn => l == TStr && (r == TStr || r == TMap)
    case CmpRegex => l == TStr && r == TStr
    case CmpMatches => l == TStr && r == TStr
    case CmpNotRegex => l == TStr && r == TStr
    case _ => l == r && (l == TNum || l == TStr)
  }

  lemma WellTypedAtom(a: Atom, g: Goroutine)
    ensures AtomType(a).Some? <==> KnownAtom(a)
    ensures AtomValue(a, g).Some? <==> KnownAtom(a)
    ensures KnownAtom(a) ==> HasType(AtomValue(a, g).value, AtomType(a).value)
  {
  }

  lemma WellTypedApply(w: World, op: Cmp, l: Scalar, r: Scalar, tl: Type, tr: Type)
    requires Comparable(op, tl, tr) && HasType(l, tl) && HasType(r, tr)
    ensures match Apply(w, op, l, r)
            case Ok(v) => v.SBool?
            case Err(err) => err == BadRegex
  {
  }

  /** The types refuse exactly the comparisons that are errors, and those of booleans or maps, which are all false. */
  lemma IllTypedApply(w: World, op: Cmp, l: Scalar, r: Scalar, tl: Type, tr: Type)
    requires !Comparable(op, tl, tr) && HasType(l, tl) && HasType(r, tr)
    ensures if tl == tr && tl in {TBool, TMap} && op in {CmpEq, CmpNe, CmpLt, CmpLe, CmpGt, CmpGe}
            then Apply(w, op, l, r) == Ok(SBool(false))
            else Apply(w, op, l, r) in {Err(InvalidType), Err(MismatchedTypes)}
  {
  }

  /**
   * Type soundness: a well-typed expression has a value of its type, or fails
   * on a bad regular expression or on a full stack. With Depth(e) free slots the
   * stack is never the reason.
   */
  lemma {:induction false} WellTypedEval(w: World, e: Expr, g: Goroutine, room: int)
    requires TypeOf(e).Some?
    ensures Known(e)
    ensures match Eval(w, e, g, room)
            case Ok(v) => HasType(v, TypeOf(e).value)
            case Err(err) => err == BadRegex || (err == StackOverflow && room < Depth(e))
  {
    hide AtomType, AtomValue, KnownAtom, Apply, Comparable;
    match e
    case Leaf(a) => WellTypedAtom(a, g);
    case Compare(op, l, r) =>
      WellTypedEval(w, l, g, room);
      WellTypedEval(w, r, g, room - 1);
      if Eval(w, l, g, room).Ok? && Eval(w, r, g, room - 1).Ok? {
        WellTypedApply(w, op, Eval(w, l, g, room).value, Eval(w, r, g, room - 1).value,
          TypeOf(l).value, TypeOf(r).value);
      }
    case Logic(_, l, r) =>
      WellTypedEval(w, l, g, room);
      WellTypedEval(w, r, g, room);
  }

  /** With Depth(e) free slots the stack does not overflow and the result does not depend on how many there are. */
  lemma {:induction false} EnoughRoom(w: World, e: Expr, g: Goroutine, room: int, room': int)
    requires Depth(e) <= room && Depth(e) <= room'
    ensures Eval(w, e, g, room) == Eval(w, e, g, room')
    ensures Eval(w, e, g, room) != Err(StackOverflow)
  {
    hide AtomValue, Apply;
    match e
    case Leaf(_) =>
    case Compare(_, l, r) =>
      EnoughRoom(w, l, g, room, room');
      EnoughRoom(w, r, g, room - 1, room' - 1);
    case Logic(_, l, r) =>
      EnoughRoom(w, l, g, room, room');
      EnoughRoom(w, r, g, room, room');
  }

  /** Only atoms are compared. */
  predicate Flat(e: Expr) {
    match e
    case Leaf(_) => true
    case Compare(_, l, r) => l.Leaf? && r.Leaf?
    case Logic(_, l, r) => Flat(l) && Flat(r)
  }

  /** Nesting and/or costs no stack: comparisons between atoms never need more than two slots. */
  lemma {:induction false} FlatDepth(e: Expr)
    requires Flat(e)
    ensures Depth(e) <= 2
  {
    match e
    case Logic(_, l, r) => FlatDepth(l); FlatDepth(r);
    case _ =>
  }
}
