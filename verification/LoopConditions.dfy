/** `LoopItem.evaluate_condition` and the test that ends a loop. */
module LoopConditions {
  import opened Wrappers
  import opened WorkflowGraph

  /** Values up to Python's equality: True and False are the numbers 1 and 0. */
  function Norm(v: Value): Value {
    match v
    case Bool(b) => Num(if b then 1.0 else 0.0)
    case List(items) => List(seq(|items|, i requires 0 <= i < |items| => Norm(items[i])))
    case Dict(fields) => Dict(map k | k in fields :: Norm(fields[k]))
    case _ => v
  }

  /** Python's equality; NaN equals nothing. */
  predicate PyEq(a: Value, b: Value) { !a.NaN? && !b.NaN? && Norm(a) == Norm(b) }

  /** A list compares its elements by identity first; here NaN is one object. */
  predicate PyIn(v: Value, items: seq<Value>) { exists i :: 0 <= i < |items| && Norm(items[i]) == Norm(v) }

  predicate HasSubstring(s: string, t: string) {
    t == [] || (|s| >= |t| && (s[..|t|] == t || HasSubstring(s[1..], t)))
  }

  predicate EndsWith(s: string, t: string) { |t| <= |s| && s[|s| - |t|..] == t }

  /** The order of two numbers that are not NaN. */
  predicate Less(a: Value, b: Value) {
    || (a.Num? && b.Num? && a.n < b.n)
    || (a.Infinite? && !a.positive && b != a)
    || (b.Infinite? && b.positive && a != b)
  }

  function Compare(op: Operator, a: Value, b: Value): bool
    requires Compares(op)
  {
    match op
    case Gt => Less(b, a)
    case Lt => Less(a, b)
    case Ge => !Less(a, b)
    case Le => !Less(b, a)
  }

  function Evaluate(v: Value, op: Operator, arg: Value): Result<bool> {
    match v
    case Str(s) => (
      match op
      case Contains => if arg.Str? then Ok(HasSubstring(s, arg.s)) else Raise
      case NotContains => if arg.Str? then Ok(!HasSubstring(s, arg.s)) else Raise
      case StartWith => if arg.Str? then Ok(arg.s <= s) else Raise
      case EndWith => if arg.Str? then Ok(EndsWith(s, arg.s)) else Raise
      case Is => Ok(PyEq(v, arg))
      case IsNot => Ok(!PyEq(v, arg))
      case Empty => Ok(s == "")
      case NotEmpty => Ok(s != "")
      case _ => Raise)
    case Num(_) => Numeric(v, op, arg)
    case Infinite(_) => Numeric(v, op, arg)
    case NaN => Numeric(v, op, arg)
    case Bool(_) => Numeric(v, op, arg)  // bool is an int, so the source's bool branch is never reached
    case Dict(fields) => (
      match op
      case Empty => Ok(fields.Keys == {})
      case NotEmpty => Ok(fields.Keys != {})
      case _ => Raise)
    case List(items) => (
      match op
      case Contains => Ok(PyIn(arg, items))
      case NotContains => Ok(!PyIn(arg, items))
      case Is => Ok(PyEq(v, arg))
      case IsNot => Ok(!PyEq(v, arg))
      case Empty => Ok(items == [])
      case NotEmpty => Ok(items != [])
      case _ => Raise)
    case Null => Ok(op.Empty?)
    case Stream(_) => Raise
  }

  predicate IsNumber(v: Value) { v.Num? || v.Infinite? || v.NaN? || v.Bool? }

  /** An order comparison. */
  predicate Compares(op: Operator) { op.Gt? || op.Lt? || op.Ge? || op.Le? }

  function Numeric(v: Value, op: Operator, arg: Value): Result<bool>
    requires IsNumber(v)
  {
    if op.Eq? then Ok(PyEq(v, arg))
    else if op.Ne? then Ok(!PyEq(v, arg))
    else if op.Empty? then Ok(false)
    else if op.NotEmpty? then Ok(true)
    else if Compares(op) && IsNumber(arg) then
      Ok(!v.NaN? && !arg.NaN? && Compare(op, Norm(v), Norm(arg)))
    else Raise
  }

  function Opposite(op: Operator): Operator {
    match op
    case Contains => NotContains
    case NotContains => Contains
    case Is => IsNot
    case IsNot => Is
    case Empty => NotEmpty
    case NotEmpty => Empty
    case Eq => Ne
    case Ne => Eq
    case Gt => Le
    case Le => Gt
    case Lt => Ge
    case Ge => Lt
    case _ => op
  }

  /** An operator and its opposite always raise together; when they do not raise they answer oppositely,
      except that only the two emptiness operators do on a missing value, and that order comparisons with NaN are all
      false. */
  lemma OppositesDisagree(v: Value, op: Operator, arg: Value)
    requires Opposite(op) != op
    ensures Evaluate(v, op, arg).Raise? <==> Evaluate(v, Opposite(op), arg).Raise?
    ensures Evaluate(v, op, arg).Ok? ==>
              (Evaluate(v, op, arg).value != Evaluate(v, Opposite(op), arg).value
               <==> (v.Null? ==> op.Empty? || op.NotEmpty?) && !(Compares(op) && (v.NaN? || arg.NaN?)))
  {
    if IsNumber(v) { OppositeNumbers(v, op, arg); } else { OppositeOthers(v, op, arg); }
  }

  lemma OppositeOthers(v: Value, op: Operator, arg: Value)
    requires !IsNumber(v) && Opposite(op) != op
    ensures Evaluate(v, op, arg).Raise? <==> Evaluate(v, Opposite(op), arg).Raise?
    ensures Evaluate(v, op, arg).Ok? ==>
              (Evaluate(v, op, arg).value != Evaluate(v, Opposite(op), arg).value
               <==> (v.Null? ==> op.Empty? || op.NotEmpty?) && !(Compares(op) && (v.NaN? || arg.NaN?)))
  {
    if v.Str? { OppositeTexts(v, op, arg); }
  }

  lemma OppositeTexts(v: Value, op: Operator, arg: Value)
    requires v.Str? && Opposite(op) != op
    ensures Evaluate(v, op, arg).Raise? <==> Evaluate(v, Opposite(op), arg).Raise?
    ensures Evaluate(v, op, arg).Ok? ==>
              !Compares(op) && Evaluate(v, op, arg).value != Evaluate(v, Opposite(op), arg).value
  {}

  lemma OppositeNumbers(v: Value, op: Operator, arg: Value)
    requires IsNumber(v) && Opposite(op) != op
    ensures Evaluate(v, op, arg).Raise? <==> Evaluate(v, Opposite(op), arg).Raise?
    ensures Evaluate(v, op, arg).Ok? ==>
              (Evaluate(v, op, arg).value != Evaluate(v, Opposite(op), arg).value
               <==> (v.Null? ==> op.Empty? || op.NotEmpty?) && !(Compares(op) && (v.NaN? || arg.NaN?)))
  {
    assert Evaluate(v, op, arg) == Numeric(v, op, arg);
    assert Evaluate(v, Opposite(op), arg) == Numeric(v, Opposite(op), arg);
    NumericOpposites(v, op, arg);
  }

  lemma NumericOpposites(v: Value, op: Operator, arg: Value)
    requires IsNumber(v) && Opposite(op) != op
    ensures Numeric(v, op, arg).Raise? <==> Numeric(v, Opposite(op), arg).Raise?
    ensures Numeric(v, op, arg).Ok? ==>
              (Numeric(v, op, arg).value != Numeric(v, Opposite(op), arg).value
               <==> !(Compares(op) && (v.NaN? || arg.NaN?)))
  {}

  /** A truth value cannot be tested with the operators offered for truth values. */
  lemma BooleanTestsRaise(b: bool, arg: Value)
    ensures Evaluate(Bool(b), Is, arg).Raise? && Evaluate(Bool(b), IsNot, arg).Raise?
  {}

  function Conditions(g: Graph, mem: Memory, conds: seq<Condition>): Result<seq<bool>> {
    if conds == [] then Ok([])
    else
      var head := TestCondition(g, mem, conds[0]);
      if head.Raise? then Raise
      else
        var tail := Conditions(g, mem, conds[1..]);
        if tail.Raise? then Raise else Ok([head.value] + tail.value)
  }

  function TestCondition(g: Graph, mem: Memory, c: Condition): Result<bool> {
    if c.variable.None? || c.operator.None? then Raise
    else
      var v := Lookup(g, mem, c.variable.value);
      if v.Raise? then Raise
      else
        match c.operand
        case Constant(arg) => Evaluate(v.value, c.operator.value, arg)
        case Variable(ref) => (
          var arg := Lookup(g, mem, ref);
          if arg.Raise? then Raise else Evaluate(v.value, c.operator.value, arg.value))
        case BadMode => Raise
  }

  /** Whether the termination condition of a loop holds. */
  function ShouldEnd(g: Graph, mem: Memory, loop: Kind): Result<bool>
    requires loop.Loop?
  {
    var cs := Conditions(g, mem, loop.conditions);
    if cs.Raise? then Raise
    else match loop.logic
      case And => Ok(forall i :: 0 <= i < |cs.value| ==> cs.value[i])
      case Or => Ok(exists i :: 0 <= i < |cs.value| && cs.value[i])
      case BadLogic => Raise
  }

  // ---------- when a loop ends ----------

  lemma {:induction false} ConditionsMeaning(g: Graph, mem: Memory, conds: seq<Condition>)
    ensures var r := Conditions(g, mem, conds);
            && (r.Raise? <==> exists i :: 0 <= i < |conds| && TestCondition(g, mem, conds[i]).Raise?)
            && (r.Ok? ==> |r.value| == |conds|
                          && forall i :: 0 <= i < |conds| ==> TestCondition(g, mem, conds[i]) == Ok(r.value[i]))
    decreases |conds|
  {
    if conds != [] {
      var rest := conds[1..];
      ConditionsMeaning(g, mem, rest);
      forall i | 0 <= i < |rest| ensures rest[i] == conds[i + 1] {}
    }
  }

  /** Every test can be made. */
  ghost predicate Testable(g: Graph, mem: Memory, loop: Kind)
    requires loop.Loop?
  {
    !loop.logic.BadLogic? && forall i :: 0 <= i < |loop.conditions| ==> TestCondition(g, mem, loop.conditions[i]).Ok?
  }

  /** Condition `i` of the loop is tested and is `b`. */
  predicate IsTested(g: Graph, mem: Memory, loop: Kind, i: nat, b: bool)
    requires loop.Loop?
  {
    i < |loop.conditions| && TestCondition(g, mem, loop.conditions[i]) == Ok(b)
  }

  /** The loop does not end: with "and" some condition is false, with "or" every one is. */
  ghost predicate Unmet(g: Graph, mem: Memory, loop: Kind)
    requires loop.Loop?
  {
    && Testable(g, mem, loop)
    && if loop.logic.And? then exists i: nat :: IsTested(g, mem, loop, i, false)
       else forall i: nat :: i < |loop.conditions| ==> IsTested(g, mem, loop, i, false)
  }

  /** The loop ends: with "and" every condition is true, with "or" some condition is. */
  ghost predicate Met(g: Graph, mem: Memory, loop: Kind)
    requires loop.Loop?
  {
    && Testable(g, mem, loop)
    && if loop.logic.And? then forall i: nat :: i < |loop.conditions| ==> IsTested(g, mem, loop, i, true)
       else exists i: nat :: IsTested(g, mem, loop, i, true)
  }

  /** What the tests of the conditions say together; the question raises exactly when a test raises or the logic is
      neither "and" nor "or". Without conditions "and" ends a loop at once and "or" never does. */
  lemma ShouldEndMeaning(g: Graph, mem: Memory, loop: Kind)
    requires loop.Loop?
    ensures ShouldEnd(g, mem, loop).Raise? <==> !Testable(g, mem, loop)
    ensures ShouldEnd(g, mem, loop) == Ok(true) <==> Met(g, mem, loop)
    ensures ShouldEnd(g, mem, loop) == Ok(false) <==> Unmet(g, mem, loop)
    ensures loop.conditions == [] && !loop.logic.BadLogic? ==> ShouldEnd(g, mem, loop) == Ok(loop.logic.And?)
  {
    ConditionsMeaning(g, mem, loop.conditions);
    var cs := Conditions(g, mem, loop.conditions);
    if cs.Ok? {
      TestedTogether(g, mem, loop, cs.value);
    }
  }

  lemma TestedTogether(g: Graph, mem: Memory, loop: Kind, bs: seq<bool>)
    requires loop.Loop? && |bs| == |loop.conditions|
    requires forall i :: 0 <= i < |bs| ==> TestCondition(g, mem, loop.conditions[i]) == Ok(bs[i])
    ensures (forall i :: 0 <= i < |bs| ==> bs[i])
            <==> forall i: nat :: i < |loop.conditions| ==> IsTested(g, mem, loop, i, true)
    ensures (exists i :: 0 <= i < |bs| && bs[i]) <==> exists i: nat :: IsTested(g, mem, loop, i, true)
    ensures (forall i :: 0 <= i < |bs| ==> !bs[i])
            <==> forall i: nat :: i < |loop.conditions| ==> IsTested(g, mem, loop, i, false)
    ensures (exists i :: 0 <= i < |bs| && !bs[i]) <==> exists i: nat :: IsTested(g, mem, loop, i, false)
  {
    forall i: nat, b | i < |bs| ensures IsTested(g, mem, loop, i, b) <==> bs[i] == b {}
    if forall i: nat :: i < |loop.conditions| ==> IsTested(g, mem, loop, i, true) {
      forall i | 0 <= i < |bs| ensures bs[i] { assert IsTested(g, mem, loop, i, true); }
    }
    if forall i: nat :: i < |loop.conditions| ==> IsTested(g, mem, loop, i, false) {
      forall i | 0 <= i < |bs| ensures !bs[i] { assert IsTested(g, mem, loop, i, false); }
    }
    if i :| 0 <= i < |bs| && bs[i] { assert IsTested(g, mem, loop, i, true); }
    if i :| 0 <= i < |bs| && !bs[i] { assert IsTested(g, mem, loop, i, false); }
  }

  /** What a condition compares: its variable with a constant, or with another variable. */
  lemma TestMeaning(g: Graph, mem: Memory, c: Condition, v: Value, arg: Value, op: Operator)
    requires c.operator == Some(op) && c.variable.Some? && Lookup(g, mem, c.variable.value) == Ok(v)
    requires c.operand == Constant(arg) || (c.operand.Variable? && Lookup(g, mem, c.operand.ref) == Ok(arg))
    ensures TestCondition(g, mem, c) == Evaluate(v, op, arg)
  {}

  /** It cannot be tested when it lacks a variable or an operator, when a lookup raises, or when its mode is unknown. */
  lemma TestRaises(g: Graph, mem: Memory, c: Condition)
    requires || c.variable.None? || c.operator.None? || Lookup(g, mem, c.variable.value).Raise? || c.operand.BadMode?
             || (c.operand.Variable? && Lookup(g, mem, c.operand.ref).Raise?)
    ensures TestCondition(g, mem, c).Raise?
  {}

  // ---------- what the operators mean ----------

  /** `t` occurs in `s`. */
  ghost predicate Occurs(s: string, t: string) { exists a, b :: s == a + t + b }

  lemma {:induction false} SubstringMeaning(s: string, t: string)
    ensures HasSubstring(s, t) <==> Occurs(s, t)
    decreases |s|
  {
    if t == [] {
      assert s == [] + t + s;
    } else {
      if s != [] { SubstringMeaning(s[1..], t); }
      OccursLater(s, t);
    }
  }

  /** A text occurs at the beginning or later. */
  lemma OccursLater(s: string, t: string)
    requires t != []
    ensures Occurs(s, t) <==> (|s| >= |t| && s[..|t|] == t) || (s != [] && Occurs(s[1..], t))
  {
    if |s| >= |t| && s[..|t|] == t { assert s == [] + t + s[|t|..]; }
    if s != [] && Occurs(s[1..], t) { OccursStill(s, t); }
    if Occurs(s, t) { OccursSomewhere(s, t); }
  }

  lemma OccursStill(s: string, t: string)
    requires s != [] && Occurs(s[1..], t)
    ensures Occurs(s, t)
  {
    var a, b :| s[1..] == a + t + b;
    assert s == ([s[0]] + a) + t + b;
  }

  lemma OccursSomewhere(s: string, t: string)
    requires t != [] && Occurs(s, t)
    ensures (|s| >= |t| && s[..|t|] == t) || (s != [] && Occurs(s[1..], t))
  {
    var a, b :| s == a + t + b;
    if a == [] {
      assert s[..|t|] == t;
    } else {
      assert s[1..] == a[1..] + t + b;
    }
  }

  lemma BeginsWith(s: string, t: string)
    ensures t <= s <==> exists b :: s == t + b
  {
    if t <= s { assert s == t + s[|t|..]; }
  }

  lemma EndsIn(s: string, t: string)
    ensures EndsWith(s, t) <==> exists a :: s == a + t
  {
    if EndsWith(s, t) { assert s == s[..|s| - |t|] + t; }
    if a :| s == a + t { assert s[|s| - |t|..] == t; }
  }

  /** The operators on texts. */
  lemma TextOperators(s: string, t: string)
    ensures Evaluate(Str(s), Contains, Str(t)) == Ok(Occurs(s, t))
    ensures Evaluate(Str(s), StartWith, Str(t)).Ok?
    ensures Evaluate(Str(s), StartWith, Str(t)).value <==> exists b :: s == t + b
    ensures Evaluate(Str(s), EndWith, Str(t)).Ok?
    ensures Evaluate(Str(s), EndWith, Str(t)).value <==> exists a :: s == a + t
    ensures Evaluate(Str(s), Is, Str(t)) == Ok(s == t)
    ensures Evaluate(Str(s), Empty, Str(t)) == Ok(|s| == 0)
  {
    SubstringMeaning(s, t);
    BeginsWith(s, t);
    EndsIn(s, t);
  }

  /** A text is no number, no list and no dictionary, and is not to be searched for one. */
  lemma TextAndOthers(s: string, arg: Value)
    requires !arg.Str?
    ensures Evaluate(Str(s), Contains, arg).Raise? && Evaluate(Str(s), StartWith, arg).Raise?
    ensures Evaluate(Str(s), EndWith, arg).Raise? && Evaluate(Str(s), Is, arg) == Ok(false)
  {}

  /** The number that a truth value or a number is. */
  function NumberOf(v: Value): real
    requires v.Num? || v.Bool?
  {
    if v.Num? then v.n else if v.b then 1.0 else 0.0
  }

  /** The operators on numbers, truth values being 1 and 0. */
  lemma NumberOperators(v: Value, arg: Value)
    requires (v.Num? || v.Bool?) && (arg.Num? || arg.Bool?)
    ensures Evaluate(v, Eq, arg) == Ok(NumberOf(v) == NumberOf(arg))
    ensures Evaluate(v, Gt, arg) == Ok(NumberOf(v) > NumberOf(arg))
    ensures Evaluate(v, Lt, arg) == Ok(NumberOf(v) < NumberOf(arg))
    ensures Evaluate(v, Empty, arg) == Ok(false)
  {}

  /** Every number lies between the infinities. */
  lemma InfiniteOperators(n: real)
    ensures Evaluate(Num(n), Lt, Infinite(true)) == Ok(true) && Evaluate(Num(n), Gt, Infinite(false)) == Ok(true)
    ensures Evaluate(Infinite(false), Lt, Infinite(true)) == Ok(true)
    ensures Evaluate(Infinite(true), Lt, Num(n)) == Ok(false) && Evaluate(Infinite(false), Gt, Num(n)) == Ok(false)
    ensures forall p: bool :: Evaluate(Infinite(p), Lt, Infinite(p)) == Ok(false)
                              && Evaluate(Infinite(p), Eq, Infinite(p)) == Ok(true)
                              && Evaluate(Infinite(p), Eq, Num(n)) == Ok(false)
  {}

  /** Numbers cannot be ordered with anything else, and equal nothing else. */
  lemma NumberAndOthers(v: Value, op: Operator, arg: Value)
    requires IsNumber(v) && !IsNumber(arg) && Compares(op)
    ensures Evaluate(v, op, arg).Raise? && Evaluate(v, Eq, arg) == Ok(false)
  {}

  /** A list contains what equals one of its elements; lists are equal element by element, and dictionaries key by
      key. */
  lemma ListOperators(items: seq<Value>, arg: Value)
    ensures Evaluate(List(items), Empty, arg) == Ok(|items| == 0)
    ensures Evaluate(List(items), Contains, arg).Ok?
    ensures !arg.NaN? ==>
              (Evaluate(List(items), Contains, arg).value <==> exists i :: 0 <= i < |items| && PyEq(items[i], arg))
    ensures Evaluate(List(items), Is, arg).Ok?
    ensures Evaluate(List(items), Is, arg).value <==>
              && arg.List? && |arg.items| == |items|
              && forall i :: 0 <= i < |items| ==> Norm(items[i]) == Norm(arg.items[i])
  {
    if arg.List? && |arg.items| == |items| && forall i :: 0 <= i < |items| ==> Norm(items[i]) == Norm(arg.items[i]) {
      assert Norm(List(items)).items == Norm(arg).items;
    }
    if arg.List? && PyEq(List(items), arg) {
      forall i | 0 <= i < |items| ensures Norm(items[i]) == Norm(arg.items[i]) {
        assert Norm(List(items)).items[i] == Norm(arg).items[i];
      }
    }
  }

  /** Values of different kinds are not equal, but for truth values and numbers; plain values equal only themselves. */
  lemma EqualityMeaning(a: Value, b: Value)
    ensures a.Str? || b.Str? || a.Null? || b.Null? || a.Stream? || b.Stream? ==> (PyEq(a, b) <==> a == b)
    ensures (a.Num? || a.Bool?) && (b.Num? || b.Bool?) ==> (PyEq(a, b) <==> NumberOf(a) == NumberOf(b))
    ensures (a.Num? || a.Bool?) && !(b.Num? || b.Bool?) ==> !PyEq(a, b)
    ensures a.Dict? && b.Dict? ==>
              (PyEq(a, b) <==> a.fields.Keys == b.fields.Keys
                               && forall k <- a.fields :: k in b.fields && Norm(a.fields[k]) == Norm(b.fields[k]))
    ensures a.Dict? && !b.Dict? ==> !PyEq(a, b)
  {
    if a.Dict? && b.Dict? {
      assert Norm(a).fields.Keys == a.fields.Keys && Norm(b).fields.Keys == b.fields.Keys;
      if a.fields.Keys == b.fields.Keys
         && forall k <- a.fields :: k in b.fields && Norm(a.fields[k]) == Norm(b.fields[k]) {
        assert Norm(a).fields == Norm(b).fields;
      }
      if PyEq(a, b) {
        forall k <- a.fields ensures k in b.fields && Norm(a.fields[k]) == Norm(b.fields[k]) {
          assert Norm(a).fields[k] == Norm(b).fields[k];
        }
      }
    }
  }

  /** What cannot be asked of a value raises; on a missing value every operator is answered, "empty" with yes. */
  lemma OtherOperators(v: Value, op: Operator, arg: Value)
    ensures v.Str? && (Compares(op) || op.Eq? || op.Ne? || op.Unknown?) ==> Evaluate(v, op, arg).Raise?
    ensures IsNumber(v) && (op.Contains? || op.StartWith? || op.EndWith? || op.Is? || op.Unknown?) ==>
              Evaluate(v, op, arg).Raise?
    ensures v.List? && (Compares(op) || op.Eq? || op.StartWith? || op.EndWith? || op.Unknown?) ==>
              Evaluate(v, op, arg).Raise?
    ensures v.Dict? && !op.Empty? && !op.NotEmpty? ==> Evaluate(v, op, arg).Raise?
    ensures v.Dict? ==> Evaluate(v, Empty, arg) == Ok(v.fields == map[])
    ensures v.Null? ==> Evaluate(v, op, arg) == Ok(op == Empty)
    ensures v.Stream? ==> Evaluate(v, op, arg).Raise?
  {}

  /** Nothing is false but the missing value, the empty ones and zero. */
  lemma FalseValues(v: Value)
    ensures !Truthy(v) <==>
              v == Null || PyEq(v, Num(0.0)) || v == Str("") || v == List([]) || v == Dict(map[])
  {
    if v.Dict? && v.fields.Keys == {} { assert v.fields == map[]; }
  }
}
