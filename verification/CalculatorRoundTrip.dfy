/** Printing with as few parentheses as possible and parsing undo each other. */
module CalculatorRoundTrip {
  import opened Common
  import opened Calculator
  import opened CalculatorGrammar

  function Bare(e: Expr): string
    decreases e, 0
  {
    match e
    case Num(d) => d
    case Neg(a) => "-" + Print(a, 4)
    case Bin(op, l, r) => Print(l, LeftLevel(op)) + [Symbol(op)] + Print(r, RightLevel(op))
  }

  /** The text of `e` where level `k` is expected. */
  function Print(e: Expr, k: nat): string
    decreases e, 1
  {
    if Level(e) < k then "(" + Bare(e) + ")" else Bare(e)
  }

  // ---- Printed trees are texts of the grammar ----

  lemma {:induction false} BareDerives(e: Expr)
    requires WellFormed(e)
    ensures Derives(Level(e), Bare(e), e)
    decreases e, 0
  {
    match e
    case Num(_) =>
    case Neg(a) =>
      PrintDerives(a, 4);
      assert Bare(e)[1..] == Print(a, 4);
    case Bin(op, l, r) =>
      var a, b := Print(l, LeftLevel(op)), Print(r, RightLevel(op));
      PrintDerives(l, LeftLevel(op));
      PrintDerives(r, RightLevel(op));
      assert Bare(e)[..|a|] == a && Bare(e)[|a| + 1..] == b;
      assert Splits(Bare(e), |a|, e);
  }

  lemma {:induction false} LowerDerives(k: nat, m: nat, s: string, e: Expr)
    requires k <= m <= 4 && Derives(m, s, e)
    ensures Derives(k, s, e)
    decreases m - k
  {
    if k < m {
      LowerDerives(k + 1, m, s, e);
    }
  }

  /** The printing of a tree for a level is a text of it at that level. */
  lemma {:induction false} PrintDerives(e: Expr, k: nat)
    requires WellFormed(e) && 1 <= k <= 4
    ensures Derives(k, Print(e, k), e)
    decreases e, 1
  {
    hide Derives, Bare;
    BareDerives(e);
    if Level(e) < k {
      var s := Print(e, k);
      assert s[1..|s| - 1] == Bare(e);
      LowerDerives(1, Level(e), Bare(e), e);
      EnclosedDerives(s, e);
      LowerDerives(k, 4, s, e);
    } else {
      LowerDerives(k, Level(e), Bare(e), e);
    }
  }

  /** A printed tree is parsed at the level it was printed for, whatever may follow it. */
  lemma ParsePrint<V>(alg: Algebra<V>, e: Expr, k: nat, s: string)
    requires WellFormed(e) && 1 <= k <= 4 && Follows(k, s) && Ends(Print(e, k), s)
    ensures ParseAt(alg, k, Print(e, k) + s) == Resume(alg, k, Eval(alg, e), s)
  {
    hide Derives, ParseAt, Resume, Eval;
    PrintDerives(e, k);
    DerivedParses(alg, k, Print(e, k), e, s);
  }

  // ---- Round trips ----

  /** Printed text, however it is spaced, evaluates to the tree's own value or error. */
  lemma PrintedTreesEvaluate<V>(alg: Algebra<V>, e: Expr, text: string)
    requires WellFormed(e) && WithoutSpaces(text) == Print(e, 1)
    ensures Evaluated(alg, text) == Eval(alg, e)
  {
    hide Eval, Derives;
    PrintDerives(e, 1);
    DerivedShape(1, Print(e, 1), e);
    assert Print(e, 1) + "" == Print(e, 1);
    ParsePrint(alg, e, 1, "");
  }

  /** Parsing a printed tree consumes the whole text and gives the same tree back. */
  lemma PrintThenParse(e: Expr)
    requires WellFormed(e)
    ensures ParseAddSub(TREES, Print(e, 1)) == Ok(Parsed(e, ""))
  {
    hide Derives;
    PrintDerives(e, 1);
    ReadToTheEndIff(Print(e, 1), e);
  }

  /** No text is shared by two trees. */
  lemma PrintIsInjective(a: Expr, b: Expr)
    requires WellFormed(a) && WellFormed(b) && Print(a, 1) == Print(b, 1)
    ensures a == b
  {
    PrintThenParse(a);
    PrintThenParse(b);
  }

  /** A minus sign takes its primary before a power does: "-2^2" is (-2)^2. */
  lemma MinusBindsTighterThanPower(a: Expr, b: Expr)
    requires WellFormed(a) && WellFormed(b)
    ensures ParseAddSub(TREES, "-" + Print(a, 4) + "^" + Print(b, 3)) == Ok(Parsed(Bin(Power, Neg(a), b), ""))
  {
    var e := Bin(Power, Neg(a), b);
    assert Print(Neg(a), 4) == "-" + Print(a, 4);
    assert Bare(e) == Print(Neg(a), 4) + [Symbol(Power)] + Print(b, 3);
    PrintThenParse(e);
  }

  /** Whatever follows a printed expression without going on with it is ignored, not rejected. */
  lemma TrailingTextIsIgnored<V>(alg: Algebra<V>, e: Expr, tail: string)
    requires WellFormed(e) && Stops(1, Print(e, 1), tail)
    ensures ParseAddSub(alg, Print(e, 1) + tail) == Done(Eval(alg, e), tail)
  {
    hide Eval;
    ParsePrint(alg, e, 1, tail);
  }

  // ---- Printing is the shortest text of a tree ----

  lemma LowerLevelIsNoLonger(e: Expr, k: nat)
    ensures |Print(e, k)| <= |Print(e, k + 1)|
    ensures |Print(e, 4)| <= |Print(e, 1)| + 2
  {
  }

  /** No text of a tree at a level, redundant parentheses or not, is shorter than its printing. */
  lemma {:induction false} PrintIsShortest(k: nat, s: string, e: Expr)
    requires 1 <= k <= 4 && Derives(k, s, e)
    ensures |Print(e, k)| <= |s|
    decreases |s|, 4 - k
  {
    if k < 4 && Derives(k + 1, s, e) {
      PrintIsShortest(k + 1, s, e);
      LowerLevelIsNoLonger(e, k);
    } else if k < 4 {
      var i :| Splits(s, i, e);
      PrintIsShortest(LeftLevel(e.op), s[..i], e.left);
      PrintIsShortest(RightLevel(e.op), s[i + 1..], e.right);
    } else if Enclosed(s, e) {
      PrintIsShortest(1, s[1..|s| - 1], e);
      LowerLevelIsNoLonger(e, 1);
    } else if e.Neg? {
      PrintIsShortest(4, s[1..], e.arg);
    }
  }

  /** Any accepted text means its tree, whose own printing is no longer and parses to the same tree. */
  lemma EveryTextHasAShortestForm(s: string)
    requires ParseAddSub(TREES, s).Ok?
    ensures var p := ParseAddSub(TREES, s).value;
            && |Print(p.val, 1)| + |p.rest| <= |s|
            && ParseAddSub(TREES, Print(p.val, 1)) == Ok(Parsed(p.val, ""))
  {
    hide Derives;
    var p := ParseAddSub(TREES, s).value;
    AcceptedIff(s, p.val, p.rest);
    var n := |s| - |p.rest|;
    DerivedShape(1, s[..n], p.val);
    PrintIsShortest(1, s[..n], p.val);
    PrintThenParse(p.val);
  }
}
