/** The language the calculator reads, said without a parser, and the parser against it (internal/api/mcp_handler.go). */
module CalculatorGrammar {
  import opened Common
  import opened Calculator

  datatype Op = Plus | Minus | Times | Over | Power

  datatype Expr = Num(digits: string) | Neg(arg: Expr) | Bin(op: Op, left: Expr, right: Expr)

  predicate WellFormed(e: Expr) {
    match e
    case Num(d) => d != "" && forall i :: 0 <= i < |d| ==> InNumber(d[i])
    case Neg(a) => WellFormed(a)
    case Bin(_, l, r) => WellFormed(l) && WellFormed(r)
  }

  function Symbol(op: Op): char {
    match op case Plus => '+' case Minus => '-' case Times => '*' case Over => '/' case Power => '^'
  }

  /** How tightly a tree's top binds: 1 sums, 2 products, 3 powers, 4 primaries (a minus sign included). */
  function Level(e: Expr): (k: nat)
    ensures 1 <= k <= 4
  {
    match e
    case Bin(Plus, _, _) => 1
    case Bin(Minus, _, _) => 1
    case Bin(Times, _, _) => 2
    case Bin(Over, _, _) => 2
    case Bin(Power, _, _) => 3
    case _ => 4
  }

  /** Sums and products lean left, powers lean right. */
  function LeftLevel(op: Op): nat {
    match op case Plus => 1 case Minus => 1 case Times => 2 case Over => 2 case Power => 4
  }

  function RightLevel(op: Op): nat {
    match op case Plus => 2 case Minus => 2 case Times => 3 case Over => 3 case Power => 3
  }

  function Apply<V>(alg: Algebra<V>, op: Op, v: V, w: V): Result<V, Error> {
    match op
    case Plus => Ok(alg.add(v, w))
    case Minus => Ok(alg.sub(v, w))
    case Times => Ok(alg.mul(v, w))
    case Over => if alg.isZero(w) then Err(DivisionByZero) else Ok(alg.div(v, w))
    case Power => Ok(alg.pow(v, w))
  }

  /** The meaning of a tree, left operand first. */
  function Eval<V>(alg: Algebra<V>, e: Expr): Result<V, Error> {
    match e
    case Num(d) => (match alg.parse(d) case Some(v) => Ok(v) case None => Err(BadNumber(d)))
    case Neg(a) => (match Eval(alg, a) case Err(x) => Err(x) case Ok(v) => Ok(alg.neg(v)))
    case Bin(op, l, r) =>
      match Eval(alg, l)
      case Err(x) => Err(x)
      case Ok(v) =>
        match Eval(alg, r)
        case Err(x) => Err(x)
        case Ok(w) => Apply(alg, op, v, w)
  }

  // ---- The grammar ----

  predicate IsNumeral(s: string) {
    s != "" && forall i :: 0 <= i < |s| ==> s[i] in "0123456789."
  }

  /**
   * `s` is a text of `e` at level `k`, any tree being allowed to stand in parentheses. Sums and products take
   * their left operand at their own level, powers their right one.
   */
  ghost predicate Derives(k: nat, s: string, e: Expr)
    decreases |s|, if k >= 4 then 1 else 5 - k
  {
    if k >= 4 then
      match e
      case Num(d) => (s == d && IsNumeral(s)) || Enclosed(s, e)
      case Neg(a) => (s != "" && s[0] == '-' && Derives(4, s[1..], a)) || Enclosed(s, e)
      case Bin(_, _, _) => Enclosed(s, e)
    else
      Derives(k + 1, s, e)
      || (e.Bin? && BinLevel(e.op) == k && exists i :: Splits(s, i, e))
  }

  ghost predicate Enclosed(s: string, e: Expr)
    decreases |s|, 0
  {
    |s| >= 2 && s[0] == '(' && s[|s| - 1] == ')' && Derives(1, s[1..|s| - 1], e)
  }

  /** The operator of `e` stands at `i`, between texts of its operands. */
  ghost predicate Splits(s: string, i: int, e: Expr)
    requires e.Bin?
    decreases |s|, 0
  {
    && 0 <= i < |s| && s[i] == Symbol(e.op)
    && Derives(LeftLevel(e.op), s[..i], e.left) && Derives(RightLevel(e.op), s[i + 1..], e.right)
  }

  lemma NumeralShape(s: string)
    requires IsNumeral(s)
    ensures s != "" && InNumber(s[|s| - 1]) && WellFormed(Num(s))
  {
  }

  lemma {:induction false} DerivedShape(k: nat, s: string, e: Expr)
    requires Derives(k, s, e)
    ensures s != "" && (InNumber(s[|s| - 1]) || s[|s| - 1] == ')') && WellFormed(e)
    decreases |s|, 4 - k
  {
    hide IsNumeral, InNumber;
    if k < 4 && Derives(k + 1, s, e) {
      DerivedShape(k + 1, s, e);
    } else if k < 4 {
      var i :| Splits(s, i, e);
      DerivedShape(LeftLevel(e.op), s[..i], e.left);
      DerivedShape(RightLevel(e.op), s[i + 1..], e.right);
    } else if Enclosed(s, e) {
      DerivedShape(1, s[1..|s| - 1], e);
    } else if e.Neg? {
      DerivedShape(4, s[1..], e.arg);
    } else {
      NumeralShape(s);
    }
  }

  // ---- The four parsers, by level ----

  function ParseAt<V>(alg: Algebra<V>, k: nat, s: string): Result<Parsed<V>, Error>
    requires 1 <= k <= 4
  {
    if k == 1 then ParseAddSub(alg, s)
    else if k == 2 then ParseMulDiv(alg, s)
    else if k == 3 then ParsePower(alg, s)
    else ParsePrimary(alg, s)
  }

  /** What the parser of level `k` does once its first operand has come out as `r`. */
  function Resume<V>(alg: Algebra<V>, k: nat, r: Result<V, Error>, s: string): Result<Parsed<V>, Error>
    requires 1 <= k <= 4
  {
    match r
    case Err(e) => Err(e)
    case Ok(v) =>
      if k == 1 then MoreSums(alg, v, s)
      else if k == 2 then MoreProducts(alg, v, s)
      else if k == 3 then MorePower(alg, v, s)
      else Ok(Parsed(v, s))
  }

  /** A number at the end of `p` ends there. */
  predicate Ends(p: string, s: string) {
    p == "" || s == "" || !InNumber(p[|p| - 1]) || !InNumber(s[0])
  }

  /** `s` may follow a text of level `k` without being taken for part of its last operand. */
  predicate Follows(k: nat, s: string) {
    s == "" || ((k <= 3 ==> s[0] != '^') && (k <= 1 ==> s[0] !in "*/"))
  }

  /** `s` does not go on with a text `p` of level `k`. */
  predicate Stops(k: nat, p: string, s: string) {
    Ends(p, s) && !StartsWith(s, if k == 1 then "+-*/^" else if k == 2 then "*/^" else if k == 3 then "^" else "")
  }

  function Done<V>(r: Result<V, Error>, s: string): Result<Parsed<V>, Error> {
    match r case Err(e) => Err(e) case Ok(v) => Ok(Parsed(v, s))
  }

  lemma NumberStops(d: string, s: string)
    requires IsNumeral(d) && Ends(d, s)
    ensures NumberLength(d + s) == |d|
  {
    assert forall i :: 0 <= i < |d| ==> InNumber((d + s)[i]);
    assert s != "" ==> !InNumber((d + s)[|d|]);
  }

  function BinLevel(op: Op): nat { Level(Bin(op, Num("0"), Num("0"))) }

  function Applied<V>(alg: Algebra<V>, op: Op, v: V, r: Result<V, Error>): Result<V, Error> {
    match r case Err(e) => Err(e) case Ok(w) => Apply(alg, op, v, w)
  }

  /** An operator and the text of its right operand, met after a left operand. */
  lemma OperatorResumes<V>(alg: Algebra<V>, op: Op, v: V, b: string, r: Result<V, Error>, s: string)
    requires Follows(BinLevel(op), s)
    requires ParseAt(alg, RightLevel(op), b + s) == Resume(alg, RightLevel(op), r, s)
    ensures Resume(alg, BinLevel(op), Ok(v), [Symbol(op)] + b + s) == Resume(alg, BinLevel(op), Applied(alg, op, v, r), s)
  {
    var more := [Symbol(op)] + b + s;
    assert more[1..] == b + s;
  }

  // ---- Every text of a tree is parsed ----

  lemma ParenthesisUnfolds<V>(alg: Algebra<V>, text: string)
    requires text != "" && text[0] == '('
    ensures var r := ParseAddSub(alg, text[1..]);
            && (r.Err? ==> ParsePrimary(alg, text) == Err(r.error))
            && (r.Ok? && StartsWith(r.value.rest, ")") ==>
                  ParsePrimary(alg, text) == Ok(Parsed(r.value.val, r.value.rest[1..])))
  {
    hide ParseAddSub;
  }

  lemma EnclosedParses<V>(alg: Algebra<V>, p: string, e: Expr, s: string)
    requires |p| >= 2 && p[0] == '(' && p[|p| - 1] == ')'
    requires ParseAddSub(alg, p[1..|p| - 1] + (")" + s)) == Resume(alg, 1, Eval(alg, e), ")" + s)
    ensures ParsePrimary(alg, p + s) == Done(Eval(alg, e), s)
  {
    hide Eval, ParseAddSub, ParsePrimary;
    assert (p + s)[1..] == p[1..|p| - 1] + (")" + s) && (p + s)[0] == '(';
    assert (")" + s)[1..] == s;
    ParenthesisUnfolds(alg, p + s);
  }

  lemma MinusUnfolds<V>(alg: Algebra<V>, text: string, a: Expr)
    requires text != "" && text[0] == '-'
    ensures var r := ParsePrimary(alg, text[1..]);
            && (r.Err? ==> ParsePrimary(alg, text) == Err(r.error))
            && (r.Ok? ==> ParsePrimary(alg, text) == Ok(Parsed(alg.neg(r.value.val), r.value.rest)))
    ensures Eval(alg, a).Err? ==> Eval(alg, Neg(a)) == Err(Eval(alg, a).error)
    ensures Eval(alg, a).Ok? ==> Eval(alg, Neg(a)) == Ok(alg.neg(Eval(alg, a).value))
  {
  }

  lemma NegationParses<V>(alg: Algebra<V>, p: string, a: Expr, s: string)
    requires p != "" && p[0] == '-' && ParsePrimary(alg, p[1..] + s) == Done(Eval(alg, a), s)
    ensures ParsePrimary(alg, p + s) == Done(Eval(alg, Neg(a)), s)
  {
    hide ParsePrimary, Eval;
    assert (p + s)[1..] == p[1..] + s && (p + s)[0] == '-';
    MinusUnfolds(alg, p + s, a);
  }

  lemma NumeralParses<V>(alg: Algebra<V>, d: string, s: string)
    requires IsNumeral(d) && Ends(d, s)
    ensures ParsePrimary(alg, d + s) == Done(Eval(alg, Num(d)), s)
  {
    NumberStops(d, s);
    assert (d + s)[..|d|] == d && (d + s)[|d|..] == s;
    assert (d + s)[0] == d[0];
  }

  lemma OperationParses<V>(alg: Algebra<V>, p: string, i: nat, e: Expr, s: string)
    requires e.Bin? && i < |p| && p[i] == Symbol(e.op) && Follows(BinLevel(e.op), s)
    requires ParseAt(alg, LeftLevel(e.op), p[..i] + (p[i..] + s))
          == Resume(alg, LeftLevel(e.op), Eval(alg, e.left), p[i..] + s)
    requires ParseAt(alg, RightLevel(e.op), p[i + 1..] + s) == Resume(alg, RightLevel(e.op), Eval(alg, e.right), s)
    ensures ParseAt(alg, BinLevel(e.op), p + s) == Resume(alg, BinLevel(e.op), Eval(alg, e), s)
  {
    assert p + s == p[..i] + (p[i..] + s);
    assert p[i..] + s == [Symbol(e.op)] + p[i + 1..] + s;
    hide ParseAt, Resume, Eval, Apply, Applied;
    LeftParses(alg, e.op, p + s, Eval(alg, e.left), p[i..] + s);
    EvalIsApplied(alg, e);
    match Eval(alg, e.left)
    case Ok(v) => OperatorResumes(alg, e.op, v, p[i + 1..], Eval(alg, e.right), s);
    case Err(x) => ErrorResumes(alg, BinLevel(e.op), x, p[i..] + s, s);
  }

  /** Behind its left operand the parser of an operator stands where that operand's text ends. */
  lemma LeftParses<V>(alg: Algebra<V>, op: Op, text: string, r: Result<V, Error>, rest: string)
    requires ParseAt(alg, LeftLevel(op), text) == Resume(alg, LeftLevel(op), r, rest)
    ensures ParseAt(alg, BinLevel(op), text) == Resume(alg, BinLevel(op), r, rest)
  {
  }

  lemma EvalIsApplied<V>(alg: Algebra<V>, e: Expr)
    requires e.Bin?
    ensures Eval(alg, e.left).Err? ==> Eval(alg, e) == Eval(alg, e.left)
    ensures Eval(alg, e.left).Ok? ==> Eval(alg, e) == Applied(alg, e.op, Eval(alg, e.left).value, Eval(alg, e.right))
  {
  }

  lemma ErrorResumes<V>(alg: Algebra<V>, k: nat, x: Error, a: string, b: string)
    requires 1 <= k <= 4
    ensures Resume(alg, k, Err(x), a) == Resume(alg, k, Err(x), b)
  {
  }

  /** A parser reads a text one level up as its own operator parser does, when no operator of its level follows inside. */
  lemma HigherParses<V>(alg: Algebra<V>, k: nat, p: string, e: Expr, s: string)
    requires 1 <= k <= 3 && Follows(k, s)
    requires ParseAt(alg, k + 1, p + s) == Resume(alg, k + 1, Eval(alg, e), s)
    ensures ParseAt(alg, k, p + s) == Resume(alg, k, Eval(alg, e), s)
  {
    hide Eval;
  }

  /** The parser of a level reads any text of a tree at that level and goes on behind it with the tree's value or error. */
  lemma {:induction false} DerivedParses<V>(alg: Algebra<V>, k: nat, p: string, e: Expr, s: string)
    requires 1 <= k <= 4 && Derives(k, p, e) && Follows(k, s) && Ends(p, s)
    ensures ParseAt(alg, k, p + s) == Resume(alg, k, Eval(alg, e), s)
    decreases |p|, 4 - k
  {
    hide ParseAt, Resume, Eval;
    if k < 4 && Derives(k + 1, p, e) {
      DerivedParses(alg, k + 1, p, e, s);
      HigherParses(alg, k, p, e, s);
    } else if k < 4 {
      var i :| Splits(p, i, e);
      DerivedShape(RightLevel(e.op), p[i + 1..], e.right);
      DerivedParses(alg, LeftLevel(e.op), p[..i], e.left, p[i..] + s);
      DerivedParses(alg, RightLevel(e.op), p[i + 1..], e.right, s);
      OperationParses(alg, p, i, e, s);
    } else {
      PrimaryIsAt4(alg, p + s, Eval(alg, e), s);
      if Enclosed(p, e) {
        DerivedParses(alg, 1, p[1..|p| - 1], e, ")" + s);
        AddSubIsAt1(alg, p[1..|p| - 1] + (")" + s));
        EnclosedParses(alg, p, e, s);
      } else if e.Neg? {
        DerivedShape(4, p[1..], e.arg);
        DerivedParses(alg, 4, p[1..], e.arg, s);
        PrimaryIsAt4(alg, p[1..] + s, Eval(alg, e.arg), s);
        NegationParses(alg, p, e.arg, s);
      } else {
        NumeralParses(alg, p, s);
      }
    }
  }

  lemma PrimaryIsAt4<V>(alg: Algebra<V>, text: string, r: Result<V, Error>, s: string)
    ensures ParseAt(alg, 4, text) == ParsePrimary(alg, text) && Resume(alg, 4, r, s) == Done(r, s)
  {
  }

  lemma AddSubIsAt1<V>(alg: Algebra<V>, text: string)
    ensures ParseAt(alg, 1, text) == ParseAddSub(alg, text)
  {
  }

  // ---- What is parsed is a text of its tree ----

  /** Reading text as a tree: numbers stay digits and no divisor is rejected. */
  ghost const TREES: Algebra<Expr> := Algebra(
    d => Some(Num(d)),
    e => false,
    (a, b) => Bin(Plus, a, b), (a, b) => Bin(Minus, a, b),
    (a, b) => Bin(Times, a, b), (a, b) => Bin(Over, a, b),
    (a, b) => Bin(Power, a, b), a => Neg(a))

  lemma {:induction false} TreesEvaluateToThemselves(e: Expr)
    ensures Eval(TREES, e) == Ok(e)
  {
    match e
    case Num(d) =>
    case Neg(a) => TreesEvaluateToThemselves(a);
    case Bin(op, l, r) => TreesEvaluateToThemselves(l); TreesEvaluateToThemselves(r);
  }

  /** `text` begins with a text of the tree at level `k`, and what is left does not go on with it. */
  ghost predicate Reads(k: nat, text: string, r: Parsed<Expr>) {
    var n := |text| - |r.rest|;
    0 <= n && text[n..] == r.rest && Derives(k, text[..n], r.val) && Stops(k, text[..n], r.rest)
  }

  lemma ReadsSplit(k: nat, p: string, e: Expr, rest: string)
    requires Derives(k, p, e) && Stops(k, p, rest)
    ensures Reads(k, p + rest, Parsed(e, rest))
  {
    assert (p + rest)[..|p|] == p && (p + rest)[|p|..] == rest;
  }

  lemma ReadsParts(k: nat, text: string, r: Parsed<Expr>) returns (p: string)
    requires Reads(k, text, r)
    ensures text == p + r.rest && Derives(k, p, r.val) && Stops(k, p, r.rest)
  {
    hide Derives, Stops;
    p := text[..|text| - |r.rest|];
  }

  /** An operator and its right operand, read behind a text of the left one. */
  lemma OperatorReads(p: string, e: Expr, op: Op, s: string, t: Parsed<Expr>)
    requires Derives(LeftLevel(op), p, e) && StartsWith(s, [Symbol(op)]) && Reads(RightLevel(op), s[1..], t)
    ensures var n := |s| - |t.rest|;
            && 0 < n && s[n..] == t.rest && |p + s[..n]| > |p|
            && Derives(BinLevel(op), p + s[..n], Bin(op, e, t.val)) && Stops(RightLevel(op), p + s[..n], t.rest)
  {
    hide Derives, Reads, Stops;
    var b := ReadsParts(RightLevel(op), s[1..], t);
    var n := |s| - |t.rest|;
    DerivedShape(RightLevel(op), b, t.val);
    assert s == [Symbol(op)] + b + t.rest;
    assert s[..n] == [Symbol(op)] + b && s[n..] == t.rest;
    SplitDerives(p, e, op, b, t.val);
    assert p + s[..n] == p + [Symbol(op)] + b;
    assert Stops(RightLevel(op), p + [Symbol(op)] + b, t.rest) by { StopsLonger(RightLevel(op), p + [Symbol(op)], b, t.rest); }
  }

  lemma SplitDerives(a: string, l: Expr, op: Op, b: string, r: Expr)
    requires Derives(LeftLevel(op), a, l) && Derives(RightLevel(op), b, r)
    ensures Derives(BinLevel(op), a + [Symbol(op)] + b, Bin(op, l, r))
  {
    var whole := a + [Symbol(op)] + b;
    assert whole[..|a|] == a && whole[|a|] == Symbol(op) && whole[|a| + 1..] == b;
    assert Splits(whole, |a|, Bin(op, l, r));
  }

  lemma StopsLonger(k: nat, a: string, b: string, s: string)
    requires Stops(k, b, s) && b != ""
    ensures Stops(k, a + b, s)
  {
    assert (a + b)[|a + b| - 1] == b[|b| - 1];
  }

  lemma SumsUnfold(e: Expr, op: Op, s: string)
    requires op in {Plus, Minus} && StartsWith(s, [Symbol(op)])
    ensures ParseMulDiv(TREES, s[1..]).Err? ==> MoreSums(TREES, e, s).Err?
    ensures ParseMulDiv(TREES, s[1..]).Ok? ==>
      var t := ParseMulDiv(TREES, s[1..]).value;
      MoreSums(TREES, e, s) == MoreSums(TREES, Bin(op, e, t.val), t.rest)
  {
  }

  lemma {:induction false} SumsRead(p: string, e: Expr, s: string)
    requires Derives(1, p, e) && Stops(2, p, s)
    ensures var r := MoreSums(TREES, e, s);
            r.Ok? ==> Reads(1, p + s, r.value)
    decreases |s|, 4
  {
    hide Derives, Reads, Stops, MoreSums, ParseMulDiv;
    if StartsWith(s, "+-") {
      var op := if s[0] == '+' then Plus else Minus;
      SumsUnfold(e, op, s);
      MulDivReads(s[1..]);
      var t := ParseMulDiv(TREES, s[1..]);
      if t.Ok? {
        var n := |s| - |t.value.rest|;
        OperatorReads(p, e, op, s, t.value);
        assert p + s == (p + s[..n]) + t.value.rest;
        SumsRead(p + s[..n], Bin(op, e, t.value.val), t.value.rest);
      }
    } else {
      SumsEnd(p, e, s);
      ReadsSplit(1, p, e, s);
    }
  }

  lemma SumsEnd(p: string, e: Expr, s: string)
    requires Stops(2, p, s) && !StartsWith(s, "+-")
    ensures Stops(1, p, s) && MoreSums(TREES, e, s) == Ok(Parsed(e, s))
  {
  }

  lemma ProductsUnfold(e: Expr, op: Op, s: string)
    requires op in {Times, Over} && StartsWith(s, [Symbol(op)])
    ensures ParsePower(TREES, s[1..]).Err? ==> MoreProducts(TREES, e, s).Err?
    ensures ParsePower(TREES, s[1..]).Ok? ==>
      var t := ParsePower(TREES, s[1..]).value;
      MoreProducts(TREES, e, s) == MoreProducts(TREES, Bin(op, e, t.val), t.rest)
  {
  }

  lemma {:induction false} ProductsRead(p: string, e: Expr, s: string)
    requires Derives(2, p, e) && Stops(3, p, s)
    ensures var r := MoreProducts(TREES, e, s);
            r.Ok? ==> Reads(2, p + s, r.value)
    decreases |s|, 4
  {
    hide Derives, Reads, Stops, MoreProducts, ParsePower;
    if StartsWith(s, "*/") {
      var op := if s[0] == '*' then Times else Over;
      ProductsUnfold(e, op, s);
      PowerReads(s[1..]);
      var t := ParsePower(TREES, s[1..]);
      if t.Ok? {
        var n := |s| - |t.value.rest|;
        OperatorReads(p, e, op, s, t.value);
        assert p + s == (p + s[..n]) + t.value.rest;
        ProductsRead(p + s[..n], Bin(op, e, t.value.val), t.value.rest);
      }
    } else {
      ProductsEnd(p, e, s);
      ReadsSplit(2, p, e, s);
    }
  }

  lemma ProductsEnd(p: string, e: Expr, s: string)
    requires Stops(3, p, s) && !StartsWith(s, "*/")
    ensures Stops(2, p, s) && MoreProducts(TREES, e, s) == Ok(Parsed(e, s))
  {
  }

  lemma {:induction false} AddSubReads(s: string)
    ensures var r := ParseAddSub(TREES, s);
            r.Ok? ==> Reads(1, s, r.value)
    decreases |s|, 3
  {
    MulDivReads(s);
    var t := ParseMulDiv(TREES, s);
    if t.Ok? {
      var n := |s| - |t.value.rest|;
      assert s == s[..n] + t.value.rest;
      SumsRead(s[..n], t.value.val, t.value.rest);
    }
  }

  lemma {:induction false} MulDivReads(s: string)
    ensures var r := ParseMulDiv(TREES, s);
            r.Ok? ==> Reads(2, s, r.value)
    decreases |s|, 2
  {
    PowerReads(s);
    var t := ParsePower(TREES, s);
    if t.Ok? {
      var n := |s| - |t.value.rest|;
      assert s == s[..n] + t.value.rest;
      ProductsRead(s[..n], t.value.val, t.value.rest);
    }
  }

  lemma PowersEnd(p: string, e: Expr, s: string)
    requires Derives(4, p, e) && Stops(4, p, s) && !StartsWith(s, "^")
    ensures Derives(3, p, e) && Stops(3, p, s) && MorePower(TREES, e, s) == Ok(Parsed(e, s))
  {
  }

  lemma {:induction false} PowersRead(p: string, e: Expr, s: string)
    requires Derives(4, p, e) && Stops(4, p, s)
    ensures var r := MorePower(TREES, e, s);
            r.Ok? ==> Reads(3, p + s, r.value)
    decreases |s|, 4
  {
    hide Derives, Reads, Stops, ParsePower;
    if StartsWith(s, "^") {
      PowerReads(s[1..]);
      var t := ParsePower(TREES, s[1..]);
      if t.Ok? {
        var n := |s| - |t.value.rest|;
        OperatorReads(p, e, Power, s, t.value);
        assert p + s == (p + s[..n]) + t.value.rest;
        ReadsSplit(3, p + s[..n], Bin(Power, e, t.value.val), t.value.rest);
      }
    } else {
      PowersEnd(p, e, s);
      ReadsSplit(3, p, e, s);
    }
  }

  lemma {:induction false} PowerReads(s: string)
    ensures var r := ParsePower(TREES, s);
            r.Ok? ==> Reads(3, s, r.value)
    decreases |s|, 1
  {
    hide Derives;
    PrimaryReads(s);
    var t := ParsePrimary(TREES, s);
    if t.Ok? {
      var n := |s| - |t.value.rest|;
      assert s == s[..n] + t.value.rest;
      PowersRead(s[..n], t.value.val, t.value.rest);
    }
  }

  lemma {:induction false} PrimaryReads(s: string)
    ensures var r := ParsePrimary(TREES, s);
            r.Ok? ==> Reads(4, s, r.value)
    decreases |s|, 0
  {
    var r := ParsePrimary(TREES, s);
    if r.Ok? {
      if s[0] == '(' {
        AddSubReads(s[1..]);
        EnclosedReads(s, ParseAddSub(TREES, s[1..]).value);
      } else if s[0] == '-' {
        PrimaryReads(s[1..]);
        NegationReads(s, ParsePrimary(TREES, s[1..]).value);
      } else {
        var n := NumberLength(s);
        assert IsNumeral(s[..n]) && s == s[..n] + s[n..];
        ReadsSplit(4, s[..n], Num(s[..n]), s[n..]);
      }
    }
  }

  lemma EnclosedDerives(p: string, e: Expr)
    requires Enclosed(p, e)
    ensures Derives(4, p, e)
  {
  }

  lemma EnclosedReads(s: string, t: Parsed<Expr>)
    requires s != "" && s[0] == '(' && Reads(1, s[1..], t) && StartsWith(t.rest, ")")
    ensures Reads(4, s, Parsed(t.val, t.rest[1..]))
  {
    hide Derives, Reads, Stops;
    var inner := ReadsParts(1, s[1..], t);
    var p := "(" + inner + ")";
    assert s == p + t.rest[1..];
    assert p[1..|p| - 1] == inner;
    EnclosedDerives(p, t.val);
    assert Stops(4, p, t.rest[1..]) by { StopsBehind(p, t.rest[1..]); }
    ReadsSplit(4, p, t.val, t.rest[1..]);
  }

  /** A primary that does not end with a number ends where it ends. */
  lemma StopsBehind(p: string, s: string)
    requires p != "" && !InNumber(p[|p| - 1])
    ensures Stops(4, p, s)
  {
  }

  lemma NegationDerives(p: string, a: Expr)
    requires p != "" && p[0] == '-' && Derives(4, p[1..], a)
    ensures Derives(4, p, Neg(a))
  {
  }

  lemma NegationStops(p: string, s: string)
    requires p != "" && Stops(4, p, s)
    ensures Stops(4, "-" + p, s)
  {
    assert ("-" + p)[|p|] == p[|p| - 1];
  }

  lemma NegationReads(s: string, t: Parsed<Expr>)
    requires s != "" && s[0] == '-' && Reads(4, s[1..], t)
    ensures Reads(4, s, Parsed(Neg(t.val), t.rest))
  {
    hide Derives, Reads, Stops;
    var p := ReadsParts(4, s[1..], t);
    assert s == ("-" + p) + t.rest && ("-" + p)[1..] == p;
    DerivedShape(4, p, t.val);
    NegationDerives("-" + p, t.val);
    NegationStops(p, t.rest);
    ReadsSplit(4, "-" + p, Neg(t.val), t.rest);
  }

  // ---- The parser against the grammar ----

  /**
   * Exactly what is read, on every text: a tree comes out with a rest left over if and only if the text
   * begins with a text of that tree and the rest does not go on with it.
   */
  lemma AcceptedIff(s: string, e: Expr, rest: string)
    ensures ParseAddSub(TREES, s) == Ok(Parsed(e, rest)) <==> Reads(1, s, Parsed(e, rest))
  {
    hide Derives;
    AddSubReads(s);
    if Reads(1, s, Parsed(e, rest)) {
      var p := s[..|s| - |rest|];
      assert s == p + rest;
      DerivedParses(TREES, 1, p, e, rest);
      TreesEvaluateToThemselves(e);
    }
  }

  /** A text is read to its end, as a tree, if and only if it is a text of that tree. */
  lemma ReadToTheEndIff(s: string, e: Expr)
    ensures ParseAddSub(TREES, s) == Ok(Parsed(e, "")) <==> Derives(1, s, e)
  {
    hide Derives;
    AcceptedIff(s, e, "");
    assert s[..|s|] == s && s[|s|..] == "";
  }

  /** No text is one of two trees. */
  lemma GrammarIsUnambiguous(s: string, a: Expr, b: Expr)
    requires Derives(1, s, a) && Derives(1, s, b)
    ensures a == b
  {
    hide Derives;
    ReadToTheEndIff(s, a);
    ReadToTheEndIff(s, b);
  }

  // ---- On every text: parsing is building a tree and evaluating it ----

  /** `n` is what `t` is once the tree is evaluated; without a tree there is no number either. */
  ghost predicate Agrees<V>(alg: Algebra<V>, t: Result<Parsed<Expr>, Error>, n: Result<Parsed<V>, Error>) {
    match t
    case Err(_) => n.Err?
    case Ok(p) => n == Done(Eval(alg, p.val), p.rest)
  }

  lemma {:induction false} AddSubFactors<V>(alg: Algebra<V>, s: string)
    ensures Agrees(alg, ParseAddSub(TREES, s), ParseAddSub(alg, s))
    decreases |s|, 3
  {
    MulDivFactors(alg, s);
    var t := ParseMulDiv(TREES, s);
    if t.Ok? {
      SumsFactor(alg, t.value.val, t.value.rest);
    }
  }

  lemma {:induction false} SumsFactor<V>(alg: Algebra<V>, e: Expr, s: string)
    ensures Agrees(alg, MoreSums(TREES, e, s), Resume(alg, 1, Eval(alg, e), s))
    decreases |s|, 4
  {
    if StartsWith(s, "+-") {
      MulDivFactors(alg, s[1..]);
      var t := ParseMulDiv(TREES, s[1..]);
      if t.Ok? {
        SumsFactor(alg, Sum(TREES, s[0], e, t.value.val), t.value.rest);
      }
    }
  }

  lemma {:induction false} MulDivFactors<V>(alg: Algebra<V>, s: string)
    ensures Agrees(alg, ParseMulDiv(TREES, s), ParseMulDiv(alg, s))
    decreases |s|, 2
  {
    PowerFactors(alg, s);
    var t := ParsePower(TREES, s);
    if t.Ok? {
      ProductsFactor(alg, t.value.val, t.value.rest);
    }
  }

  lemma {:induction false} ProductsFactor<V>(alg: Algebra<V>, e: Expr, s: string)
    ensures Agrees(alg, MoreProducts(TREES, e, s), Resume(alg, 2, Eval(alg, e), s))
    decreases |s|, 4
  {
    if StartsWith(s, "*/") {
      PowerFactors(alg, s[1..]);
      var t := ParsePower(TREES, s[1..]);
      if t.Ok? {
        ProductsFactor(alg, Product(TREES, s[0], e, t.value.val).value, t.value.rest);
      }
    }
  }

  lemma {:induction false} PowerFactors<V>(alg: Algebra<V>, s: string)
    ensures Agrees(alg, ParsePower(TREES, s), ParsePower(alg, s))
    decreases |s|, 1
  {
    PrimaryFactors(alg, s);
    var t := ParsePrimary(TREES, s);
    if t.Ok? && StartsWith(t.value.rest, "^") {
      PowerFactors(alg, t.value.rest[1..]);
    }
  }

  lemma {:induction false} PrimaryFactors<V>(alg: Algebra<V>, s: string)
    ensures Agrees(alg, ParsePrimary(TREES, s), ParsePrimary(alg, s))
    decreases |s|, 0
  {
    if s == "" {
    } else if s[0] == '(' {
      AddSubFactors(alg, s[1..]);
    } else if s[0] == '-' {
      PrimaryFactors(alg, s[1..]);
    }
  }

  /**
   * The calculator answers a text with a value if and only if some text of a tree with that value begins it and
   * what follows does not go on with that tree: the rest, whatever it is, is not looked at.
   */
  lemma AnsweredIff<V>(alg: Algebra<V>, text: string, v: V)
    ensures Evaluated(alg, text) == Ok(v)
       <==> exists e, rest :: Reads(1, WithoutSpaces(text), Parsed(e, rest)) && Eval(alg, e) == Ok(v)
  {
    hide Reads, Eval;
    var s := WithoutSpaces(text);
    var t := ParseAddSub(TREES, s);
    AddSubFactors(alg, s);
    if t.Ok? {
      AcceptedIff(s, t.value.val, t.value.rest);
    }
    forall e, rest | Reads(1, s, Parsed(e, rest)) ensures t == Ok(Parsed(e, rest)) && s != "" {
      AcceptedIff(s, e, rest);
    }
  }
}
