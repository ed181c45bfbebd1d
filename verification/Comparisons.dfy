/** What the operators of predicates mean for the values of their operands. */
module Comparisons {
  import opened Results
  import opened Goroutines
  import opened Chunks
  import opened Predicates
  import opened Machine

  // ----- strings -----

  /** a and b agree before position i, and there a has the smaller character or has ended. */
  ghost predicate Below(a: string, b: string, i: nat) {
    i < |b| && i <= |a| && a[..i] == b[..i] && (i == |a| || a[i] < b[i])
  }

  /** Strings are ordered by the first position where they differ; a proper prefix is less. */
  lemma {:induction false} StringLessAt(a: string, b: string)
    ensures StringLess(a, b) <==> exists i: nat :: Below(a, b, i)
  {
    if a == "" || b == "" || a[0] != b[0] {
      if StringLess(a, b) {
        assert Below(a, b, 0);
      }
      forall i: nat | Below(a, b, i) ensures StringLess(a, b) {
        BelowHead(a, b, i);
      }
    } else {
      StringLessAt(a[1..], b[1..]);
      if StringLess(a, b) {
        var i: nat :| Below(a[1..], b[1..], i);
        assert a[..i + 1] == [a[0]] + a[1..][..i] && b[..i + 1] == [b[0]] + b[1..][..i];
        assert Below(a, b, i + 1);
      }
      forall i: nat | Below(a, b, i) ensures StringLess(a, b) {
        assert i > 0;
        assert a[1..][..i - 1] == a[..i][1..] && b[1..][..i - 1] == b[..i][1..];
        assert Below(a[1..], b[1..], i - 1);
      }
    }
  }

  lemma BelowHead(a: string, b: string, i: nat)
    requires Below(a, b, i)
    ensures i > 0 ==> a != "" && b != "" && a[0] == b[0]
  {
    if i > 0 {
      assert a[..i][0] == a[0] && b[..i][0] == b[0];
    }
  }

  ghost predicate Parts(whole: string, before: string, part: string, after: string) {
    whole == before + part + after
  }

  lemma SubstringParts(whole: string, part: string)
    ensures Substring(whole, part) <==> exists before, after :: Parts(whole, before, part, after)
  {
    if Substring(whole, part) {
      var i :| 0 <= i <= |whole| && OccursAt(whole, part, i);
      var after := whole[i..][|part|..];
      assert whole == whole[..i] + whole[i..] && whole[i..] == part + after;
      assert Parts(whole, whole[..i], part, after);
    }
    forall before, after | Parts(whole, before, part, after) ensures Substring(whole, part) {
      assert whole[|before|..] == part + after;
      assert OccursAt(whole, part, |before|);
    }
  }

  // ----- kinds of values -----

  /** The kinds of values the machine tells apart. */
  predicate SameKind(l: Value<nat>, r: Value<nat>) {
    match l
    case VScalar(a) =>
      r.VScalar? && a.SBool? == r.v.SBool? && a.SNum? == r.v.SNum? && a.SStr? == r.v.SStr? && a.SMap? == r.v.SMap?
    case VDump(_) => r.VDump?
    case VGoroutine(_) => r.VGoroutine?
    case VDiff(_, _, _) => r.VDiff?
  }

  /** Values can be compared if and only if they are of the same kind. */
  lemma KindsCompare(l: Value<nat>, r: Value<nat>, op: OpCode)
    ensures Comparison(l, r, op).Ok? <==> SameKind(l, r)
  {
  }

  // ----- comparisons -----

  /** The operands have values. */
  ghost predicate Operands(w: World, l: Expr, r: Expr, g: Goroutine, room: int, a: Scalar, b: Scalar) {
    Eval(w, l, g, room) == Ok(a) && Eval(w, r, g, room - 1) == Ok(b)
  }

  lemma NumbersCompare(w: World, op: Cmp, l: Expr, r: Expr, g: Goroutine, room: int, a: int, b: int)
    requires Operands(w, l, r, g, room, SNum(a), SNum(b))
    ensures var v := Eval(w, Compare(op, l, r), g, room);
            && (op.CmpEq? ==> v == Ok(SBool(a == b)))
            && (op.CmpNe? ==> v == Ok(SBool(a != b)))
            && (op.CmpLt? ==> v == Ok(SBool(a < b)))
            && (op.CmpLe? ==> v == Ok(SBool(a <= b)))
            && (op.CmpGt? ==> v == Ok(SBool(a > b)))
            && (op.CmpGe? ==> v == Ok(SBool(a >= b)))
            && (v.Err? <==> op in {CmpContains, CmpIn, CmpRegex, CmpNotRegex, CmpMatches})
  {
  }

  lemma StringsCompare(w: World, op: Cmp, l: Expr, r: Expr, g: Goroutine, room: int, a: string, b: string)
    requires Operands(w, l, r, g, room, SStr(a), SStr(b))
    ensures var v := Eval(w, Compare(op, l, r), g, room);
            && (op.CmpEq? ==> v == Ok(SBool(a == b)))
            && (op.CmpNe? ==> v == Ok(SBool(a != b)))
            && (op.CmpLt? ==> v == Ok(SBool(exists i: nat :: Below(a, b, i))))
            && (op.CmpLe? ==> v == Ok(SBool(a == b || exists i: nat :: Below(a, b, i))))
            && (op.CmpGt? ==> v == Ok(SBool(exists i: nat :: Below(b, a, i))))
            && (op.CmpGe? ==> v == Ok(SBool(a == b || exists i: nat :: Below(b, a, i))))
  {
    hide StringLess, Below;
    StringLessAt(a, b);
    StringLessAt(b, a);
    StringOrderTotal(a, b);
  }

  lemma StringsContain(w: World, op: Cmp, l: Expr, r: Expr, g: Goroutine, room: int, a: string, b: string)
    requires Operands(w, l, r, g, room, SStr(a), SStr(b))
    ensures var v := Eval(w, Compare(op, l, r), g, room);
            && (op.CmpContains? ==> v == Ok(SBool(exists before, after :: Parts(a, before, b, after))))
            && (op.CmpIn? ==> v == Ok(SBool(exists before, after :: Parts(b, before, a, after))))
            && (op.CmpRegex? || op.CmpMatches? || op.CmpNotRegex? ==>
                  v == if w.compiles(b) then Ok(SBool(w.matches(b, a) != op.CmpNotRegex?)) else Err(BadRegex))
  {
    SubstringParts(a, b);
    SubstringParts(b, a);
  }

  /** The labels of a goroutine contain the names of its labels. */
  lemma LabelsContain(w: World, l: Expr, r: Expr, g: Goroutine, room: int, m: map<string, string>, key: string)
    ensures Operands(w, l, r, g, room, SMap(m), SStr(key)) ==>
              Eval(w, Compare(CmpContains, l, r), g, room) == Ok(SBool(key in m))
    ensures Operands(w, l, r, g, room, SStr(key), SMap(m)) ==>
              Eval(w, Compare(CmpIn, l, r), g, room) == Ok(SBool(key in m))
  {
  }
}
