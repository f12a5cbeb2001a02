/** What the calculator's errors say about the text (internal/api/mcp_handler.go). */
module CalculatorErrors {
  import opened Common
  import opened Calculator
  import opened CalculatorGrammar

  const OPENERS := "+-*/^("

  /** An operand may not begin like this. */
  predicate NoOperand(at: string) {
    at != "" && !InNumber(at[0]) && at[0] != '(' && at[0] != '-'
  }

  /** Behind position `i` stands a text of a tree that nothing goes on with, and no parenthesis closes it. */
  ghost predicate UnclosedAt(s: string, i: int) {
    && 0 <= i < |s| && s[i] == '('
    && exists e, rest :: Reads(1, s[i + 1..], Parsed(e, rest)) && !StartsWith(rest, ")")
  }

  ghost predicate NumberAt<V>(alg: Algebra<V>, s: string, i: int, d: string) {
    && 0 <= i <= |s| && d <= s[i..] && IsNumeral(d) && Ends(d, s[i + |d|..]) && alg.parse(d).None?
  }

  /** A slash stands at `i`, and the text behind it begins with a divisor that is zero. */
  ghost predicate ZeroAt<V>(alg: Algebra<V>, s: string, i: int) {
    && 0 <= i < |s| && s[i] == '/'
    && exists e, rest :: Reads(3, s[i + 1..], Parsed(e, rest)) && Eval(alg, e).Ok? && alg.isZero(Eval(alg, e).value)
  }

  /** The error's reason lies within `s`. */
  ghost predicate BlamesInside<V>(alg: Algebra<V>, s: string, e: Error) {
    match e
    case EmptyExpression => false
    case UnexpectedEnd => s != "" && s[|s| - 1] in OPENERS
    case MissingParenthesis => exists i :: UnclosedAt(s, i)
    case InvalidToken(at) => NoOperand(at) && |at| < |s| && s[|s| - |at|..] == at && s[|s| - |at| - 1] in OPENERS
    case BadNumber(d) => exists i :: NumberAt(alg, s, i, d)
    case DivisionByZero => exists i :: ZeroAt(alg, s, i)
  }

  ghost predicate Blames<V>(alg: Algebra<V>, s: string, e: Error) {
    BlamesInside(alg, s, e) || (s == "" && e == UnexpectedEnd) || (NoOperand(s) && e == InvalidToken(s))
  }

  lemma UnclosedLonger(a: string, s: string, i: int)
    requires UnclosedAt(s, i)
    ensures UnclosedAt(a + s, |a| + i)
  {
    hide Reads;
    assert (a + s)[|a| + i + 1..] == s[i + 1..];
  }

  lemma NumberLonger<V>(alg: Algebra<V>, a: string, s: string, i: int, d: string)
    requires NumberAt(alg, s, i, d)
    ensures NumberAt(alg, a + s, |a| + i, d)
  {
    assert (a + s)[|a| + i..] == s[i..] && (a + s)[|a| + i + |d|..] == s[i + |d|..];
  }

  lemma ZeroLonger<V>(alg: Algebra<V>, a: string, s: string, i: int)
    requires ZeroAt(alg, s, i)
    ensures ZeroAt(alg, a + s, |a| + i)
  {
    hide Reads, Eval;
    assert (a + s)[|a| + i + 1..] == s[i + 1..];
  }

  lemma BlamesLonger<V>(alg: Algebra<V>, a: string, s: string, e: Error)
    requires BlamesInside(alg, s, e)
    ensures BlamesInside(alg, a + s, e)
  {
    hide UnclosedAt, NumberAt, ZeroAt;
    match e
    case EmptyExpression =>
    case UnexpectedEnd =>
    case MissingParenthesis =>
      var i :| UnclosedAt(s, i);
      UnclosedLonger(a, s, i);
    case InvalidToken(at) =>
      assert (a + s)[|a + s| - |at|..] == s[|s| - |at|..];
    case BadNumber(d) =>
      var i :| NumberAt(alg, s, i, d);
      NumberLonger(alg, a, s, i, d);
    case DivisionByZero =>
      var i :| ZeroAt(alg, s, i);
      ZeroLonger(alg, a, s, i);
  }

  lemma BlamesBehind<V>(alg: Algebra<V>, s: string, e: Error)
    requires s != "" && s[0] in OPENERS && Blames(alg, s[1..], e)
    ensures BlamesInside(alg, s, e)
  {
    hide UnclosedAt, NumberAt, ZeroAt;
    assert s == [s[0]] + s[1..];
    if BlamesInside(alg, s[1..], e) {
      BlamesLonger(alg, [s[0]], s[1..], e);
    }
  }

  lemma BlamesRest<V>(alg: Algebra<V>, s: string, rest: string, e: Error)
    requires |rest| <= |s| && s[|s| - |rest|..] == rest && BlamesInside(alg, rest, e)
    ensures Blames(alg, s, e) && BlamesInside(alg, s, e)
  {
    hide BlamesInside;
    var a := s[..|s| - |rest|];
    assert s == a + rest;
    BlamesLonger(alg, a, rest, e);
  }

  /** What is read as a value is read as a tree, up to the same rest, which ends the text. */
  lemma PowerIsTree<V>(alg: Algebra<V>, s: string)
    requires ParsePower(alg, s).Ok?
    ensures var (t, p) := (ParsePower(TREES, s), ParsePower(alg, s).value);
            && t.Ok? && t.value.rest == p.rest && Reads(3, s, t.value) && Eval(alg, t.value.val) == Ok(p.val)
            && |p.rest| <= |s| && s[|s| - |p.rest|..] == p.rest
  {
    hide Derives, ParsePower, Eval;
    PowerFactors(alg, s);
    PowerReads(s);
  }

  lemma MulDivIsTree<V>(alg: Algebra<V>, s: string)
    requires ParseMulDiv(alg, s).Ok?
    ensures var p := ParseMulDiv(alg, s).value; |p.rest| <= |s| && s[|s| - |p.rest|..] == p.rest
  {
    hide Derives, ParseMulDiv, Eval;
    MulDivFactors(alg, s);
    MulDivReads(s);
  }

  lemma PrimaryIsTree<V>(alg: Algebra<V>, s: string)
    requires ParsePrimary(alg, s).Ok?
    ensures var p := ParsePrimary(alg, s).value; |p.rest| <= |s| && s[|s| - |p.rest|..] == p.rest
  {
    hide Derives, ParsePrimary, Eval;
    PrimaryFactors(alg, s);
    PrimaryReads(s);
  }

  lemma AddSubIsTree<V>(alg: Algebra<V>, s: string)
    requires ParseAddSub(alg, s).Ok?
    ensures var (t, p) := (ParseAddSub(TREES, s), ParseAddSub(alg, s).value);
            t.Ok? && t.value.rest == p.rest && Reads(1, s, Parsed(t.value.val, p.rest))
  {
    hide Derives, ParseAddSub, Eval;
    AddSubFactors(alg, s);
    AddSubReads(s);
  }

  lemma {:induction false} AddSubBlames<V>(alg: Algebra<V>, s: string)
    ensures ParseAddSub(alg, s).Err? ==> Blames(alg, s, ParseAddSub(alg, s).error)
    decreases |s|, 3
  {
    hide Blames, BlamesInside;
    MulDivBlames(alg, s);
    var p := ParseMulDiv(alg, s);
    if p.Ok? {
      MulDivIsTree(alg, s);
      MoreSumsBlames(alg, p.value.val, p.value.rest);
      if MoreSums(alg, p.value.val, p.value.rest).Err? {
        BlamesRest(alg, s, p.value.rest, MoreSums(alg, p.value.val, p.value.rest).error);
      }
    }
  }

  lemma {:induction false} MoreSumsBlames<V>(alg: Algebra<V>, val: V, s: string)
    ensures MoreSums(alg, val, s).Err? ==> BlamesInside(alg, s, MoreSums(alg, val, s).error)
    decreases |s|, 4
  {
    hide Blames, BlamesInside;
    if StartsWith(s, "+-") {
      MulDivBlames(alg, s[1..]);
      var p := ParseMulDiv(alg, s[1..]);
      if p.Err? {
        BlamesBehind(alg, s, p.error);
      } else {
        MulDivIsTree(alg, s[1..]);
        var v := Sum(alg, s[0], val, p.value.val);
        MoreSumsBlames(alg, v, p.value.rest);
        if MoreSums(alg, v, p.value.rest).Err? {
          BlamesRest(alg, s, p.value.rest, MoreSums(alg, v, p.value.rest).error);
        }
      }
    }
  }

  lemma {:induction false} MulDivBlames<V>(alg: Algebra<V>, s: string)
    ensures ParseMulDiv(alg, s).Err? ==> Blames(alg, s, ParseMulDiv(alg, s).error)
    decreases |s|, 2
  {
    hide Blames, BlamesInside;
    PowerBlames(alg, s);
    var p := ParsePower(alg, s);
    if p.Ok? {
      PowerIsTree(alg, s);
      MoreProductsBlames(alg, p.value.val, p.value.rest);
      if MoreProducts(alg, p.value.val, p.value.rest).Err? {
        BlamesRest(alg, s, p.value.rest, MoreProducts(alg, p.value.val, p.value.rest).error);
      }
    }
  }

  lemma {:induction false} MoreProductsBlames<V>(alg: Algebra<V>, val: V, s: string)
    ensures MoreProducts(alg, val, s).Err? ==> BlamesInside(alg, s, MoreProducts(alg, val, s).error)
    decreases |s|, 4
  {
    hide Blames, BlamesInside, Reads;
    if StartsWith(s, "*/") {
      PowerBlames(alg, s[1..]);
      var p := ParsePower(alg, s[1..]);
      if p.Err? {
        BlamesBehind(alg, s, p.error);
      } else {
        PowerIsTree(alg, s[1..]);
        var v := Product(alg, s[0], val, p.value.val);
        if v.Err? {
          ZeroIsBlamed(alg, s, v.error);
        } else {
          MoreProductsBlames(alg, v.value, p.value.rest);
          if MoreProducts(alg, v.value, p.value.rest).Err? {
            BlamesRest(alg, s, p.value.rest, MoreProducts(alg, v.value, p.value.rest).error);
          }
        }
      }
    }
  }

  lemma ZeroIsBlamed<V>(alg: Algebra<V>, s: string, e: Error)
    requires StartsWith(s, "/") && e == DivisionByZero && ParsePower(alg, s[1..]).Ok?
    requires alg.isZero(ParsePower(alg, s[1..]).value.val)
    ensures BlamesInside(alg, s, e)
  {
    hide Reads, Eval, ParsePower;
    PowerIsTree(alg, s[1..]);
    assert ZeroAt(alg, s, 0);
  }

  lemma {:induction false} PowerBlames<V>(alg: Algebra<V>, s: string)
    ensures ParsePower(alg, s).Err? ==> Blames(alg, s, ParsePower(alg, s).error)
    decreases |s|, 1
  {
    hide Blames, BlamesInside;
    PrimaryBlames(alg, s);
    var p := ParsePrimary(alg, s);
    if p.Ok? && StartsWith(p.value.rest, "^") {
      PrimaryIsTree(alg, s);
      PowerBlames(alg, p.value.rest[1..]);
      var q := ParsePower(alg, p.value.rest[1..]);
      if q.Err? {
        BlamesBehind(alg, p.value.rest, q.error);
        BlamesRest(alg, s, p.value.rest, q.error);
      }
    }
  }

  lemma {:induction false} PrimaryBlames<V>(alg: Algebra<V>, s: string)
    ensures ParsePrimary(alg, s).Err? ==> Blames(alg, s, ParsePrimary(alg, s).error)
    decreases |s|, 0
  {
    if s == "" {
    } else if s[0] == '(' {
      AddSubBlames(alg, s[1..]);
      ParenthesisBlames(alg, s);
    } else if s[0] == '-' {
      PrimaryBlames(alg, s[1..]);
      if ParsePrimary(alg, s[1..]).Err? {
        BlamesBehind(alg, s, ParsePrimary(alg, s[1..]).error);
      }
    } else if NumberLength(s) > 0 {
      NumberBlames(alg, s);
    }
  }

  lemma ParenthesisBlames<V>(alg: Algebra<V>, s: string)
    requires s != "" && s[0] == '('
    requires ParseAddSub(alg, s[1..]).Err? ==> Blames(alg, s[1..], ParseAddSub(alg, s[1..]).error)
    ensures ParsePrimary(alg, s).Err? ==> Blames(alg, s, ParsePrimary(alg, s).error)
  {
    hide BlamesInside, ParseAddSub, Reads;
    var p := ParseAddSub(alg, s[1..]);
    if p.Err? {
      BlamesBehind(alg, s, p.error);
    } else if !StartsWith(p.value.rest, ")") {
      AddSubIsTree(alg, s[1..]);
      assert UnclosedAt(s, 0);
      assert BlamesInside(alg, s, MissingParenthesis) by { UnclosedIsBlamed(alg, s); }
    }
  }

  lemma UnclosedIsBlamed<V>(alg: Algebra<V>, s: string)
    requires UnclosedAt(s, 0)
    ensures BlamesInside(alg, s, MissingParenthesis)
  {
  }

  lemma NumberBlames<V>(alg: Algebra<V>, s: string)
    requires NumberLength(s) > 0
    ensures alg.parse(s[..NumberLength(s)]).None? ==> BlamesInside(alg, s, BadNumber(s[..NumberLength(s)]))
  {
    if alg.parse(s[..NumberLength(s)]).None? {
      assert NumberAt(alg, s, 0, s[..NumberLength(s)]);
    }
  }

  /**
   * Every error tells the truth about the text without its blanks: it is empty; it ends, or a character that begins
   * no operand stands, where an operand should be; a parenthesis is not closed behind its expression; a run of
   * digits and dots is no number; or a divisor is zero.
   */
  lemma ErrorsAreTrue<V>(alg: Algebra<V>, text: string)
    ensures var (s, r) := (WithoutSpaces(text), Evaluated(alg, text));
            && (r == Err(EmptyExpression) <==> s == "")
            && (r.Err? && s != "" ==> Blames(alg, s, r.error))
  {
    hide Blames;
    var s := WithoutSpaces(text);
    AddSubBlames(alg, s);
    assert Blames(alg, s, EmptyExpression) ==> false by { EmptyIsNoBlame(alg, s); }
  }

  lemma EmptyIsNoBlame<V>(alg: Algebra<V>, s: string)
    ensures !Blames(alg, s, EmptyExpression)
  {
  }

  lemma {:induction false} WithoutSpacesConcat(a: string, b: string)
    ensures WithoutSpaces(a + b) == WithoutSpaces(a) + WithoutSpaces(b)
  {
    if a == "" {
      assert a + b == b;
    } else {
      assert (a + b)[1..] == a[1..] + b && (a + b)[0] == a[0];
      WithoutSpacesConcat(a[1..], b);
    }
  }

  /** A blank more or less anywhere in the text makes no difference. */
  lemma BlanksDoNotMatter<V>(alg: Algebra<V>, a: string, b: string)
    ensures Evaluated(alg, a + " " + b) == Evaluated(alg, a + b)
  {
    hide ParseAddSub, WithoutSpaces;
    WithoutSpacesConcat(a + " ", b);
    WithoutSpacesConcat(a, " ");
    WithoutSpacesConcat(a, b);
    OneBlank();
    assert WithoutSpaces(a + " ") == WithoutSpaces(a);
    assert WithoutSpaces(a + " " + b) == WithoutSpaces(a + b);
  }

  lemma OneBlank()
    ensures WithoutSpaces(" ") == ""
  {
    assert " "[1..] == "" && WithoutSpaces("") == "";
  }
}
