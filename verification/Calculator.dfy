/** The calculator tool's recursive-descent parser (internal/api/mcp_handler.go). */
module Calculator {
  import opened Common

  /** The numbers the parser computes with. Go's float64 operations are foreign, so they are parameters. */
  datatype Algebra<!V> = Algebra(
    parse: string -> Option<V>,
    isZero: V -> bool,
    add: (V, V) -> V, sub: (V, V) -> V,
    mul: (V, V) -> V, div: (V, V) -> V,
    pow: (V, V) -> V, neg: V -> V)

  datatype Error =
    | EmptyExpression
    | UnexpectedEnd
    | MissingParenthesis
    | InvalidToken(at: string)
    | BadNumber(text: string)
    | DivisionByZero

  /** A value and the text not yet consumed. */
  datatype Parsed<V> = Parsed(val: V, rest: string)

  predicate InNumber(c: char) { '0' <= c <= '9' || c == '.' }

  function NumberLength(s: string): (n: nat)
    ensures n <= |s| && forall i :: 0 <= i < n ==> InNumber(s[i])
    ensures n < |s| ==> !InNumber(s[n])
  {
    if s == "" || !InNumber(s[0]) then 0 else 1 + NumberLength(s[1..])
  }

  predicate StartsWith(s: string, ops: string) { s != "" && s[0] in ops }

  function Quotient<V>(alg: Algebra<V>, v: V, w: V): Result<V, Error> {
    if alg.isZero(w) then Err(DivisionByZero) else Ok(alg.div(v, w))
  }

  function Product<V>(alg: Algebra<V>, op: char, v: V, w: V): Result<V, Error> {
    if op == '*' then Ok(alg.mul(v, w)) else Quotient(alg, v, w)
  }

  function Sum<V>(alg: Algebra<V>, op: char, v: V, w: V): V {
    if op == '+' then alg.add(v, w) else alg.sub(v, w)
  }

  function Number<V>(alg: Algebra<V>, digits: string): Result<V, Error> {
    match alg.parse(digits) case Some(v) => Ok(v) case None => Err(BadNumber(digits))
  }

  // ---- What each of the four parsers computes; termination is by (length, level) ----

  function ParseAddSub<V>(alg: Algebra<V>, s: string): (r: Result<Parsed<V>, Error>)
    ensures r.Ok? ==> |r.value.rest| < |s|
    decreases |s|, 3
  {
    match ParseMulDiv(alg, s)
    case Err(e) => Err(e)
    case Ok(p) => MoreSums(alg, p.val, p.rest)
  }

  function MoreSums<V>(alg: Algebra<V>, val: V, s: string): (r: Result<Parsed<V>, Error>)
    ensures r.Ok? ==> |r.value.rest| <= |s|
    decreases |s|, 4
  {
    if !StartsWith(s, "+-") then Ok(Parsed(val, s))
    else
      match ParseMulDiv(alg, s[1..])
      case Err(e) => Err(e)
      case Ok(p) => MoreSums(alg, Sum(alg, s[0], val, p.val), p.rest)
  }

  function ParseMulDiv<V>(alg: Algebra<V>, s: string): (r: Result<Parsed<V>, Error>)
    ensures r.Ok? ==> |r.value.rest| < |s|
    decreases |s|, 2
  {
    match ParsePower(alg, s)
    case Err(e) => Err(e)
    case Ok(p) => MoreProducts(alg, p.val, p.rest)
  }

  function MoreProducts<V>(alg: Algebra<V>, val: V, s: string): (r: Result<Parsed<V>, Error>)
    ensures r.Ok? ==> |r.value.rest| <= |s|
    decreases |s|, 4
  {
    if !StartsWith(s, "*/") then Ok(Parsed(val, s))
    else
      match ParsePower(alg, s[1..])
      case Err(e) => Err(e)
      case Ok(p) =>
        match Product(alg, s[0], val, p.val)
        case Err(e) => Err(e)
        case Ok(v) => MoreProducts(alg, v, p.rest)
  }

  function ParsePower<V>(alg: Algebra<V>, s: string): (r: Result<Parsed<V>, Error>)
    ensures r.Ok? ==> |r.value.rest| < |s|
    decreases |s|, 1
  {
    match ParsePrimary(alg, s)
    case Err(e) => Err(e)
    case Ok(p) => MorePower(alg, p.val, p.rest)
  }

  function MorePower<V>(alg: Algebra<V>, val: V, s: string): (r: Result<Parsed<V>, Error>)
    ensures r.Ok? ==> |r.value.rest| <= |s|
    decreases |s|, 4
  {
    if !StartsWith(s, "^") then Ok(Parsed(val, s))
    else
      match ParsePower(alg, s[1..])
      case Err(e) => Err(e)
      case Ok(p) => Ok(Parsed(alg.pow(val, p.val), p.rest))
  }

  function ParsePrimary<V>(alg: Algebra<V>, s: string): (r: Result<Parsed<V>, Error>)
    ensures r.Ok? ==> |r.value.rest| < |s|
    decreases |s|, 0
  {
    if s == "" then Err(UnexpectedEnd)
    else if s[0] == '(' then
      match ParseAddSub(alg, s[1..])
      case Err(e) => Err(e)
      case Ok(p) =>
        if StartsWith(p.rest, ")") then Ok(Parsed(p.val, p.rest[1..])) else Err(MissingParenthesis)
    else if s[0] == '-' then
      match ParsePrimary(alg, s[1..])
      case Err(e) => Err(e)
      case Ok(p) => Ok(Parsed(alg.neg(p.val), p.rest))
    else
      var n := NumberLength(s);
      if n == 0 then Err(InvalidToken(s))
      else
        match Number(alg, s[..n])
        case Err(e) => Err(e)
        case Ok(v) => Ok(Parsed(v, s[n..]))
  }

  function WithoutSpaces(s: string): (r: string)
    ensures ' ' !in r
    ensures ' ' !in s ==> r == s
  {
    if s == "" then ""
    else if s[0] == ' ' then WithoutSpaces(s[1..])
    else [s[0]] + WithoutSpaces(s[1..])
  }

  function Evaluated<V>(alg: Algebra<V>, expr: string): Result<V, Error> {
    var s := WithoutSpaces(expr);
    if s == "" then Err(EmptyExpression)
    else match ParseAddSub(alg, s) case Err(e) => Err(e) case Ok(p) => Ok(p.val)
  }

  // ---- The parser, which eats its text from the left ----

  class Parser<V> {
    const alg: Algebra<V>
    var s: string

    constructor (alg: Algebra<V>, s: string)
      ensures this.alg == alg && this.s == s
    {
      this.alg := alg;
      this.s := s;
    }

    /** A call that reported `r` did what `spec` says; after an error the text left over is not read. */
    ghost predicate Did(r: Result<V, Error>, spec: Result<Parsed<V>, Error>)
      reads this
    {
      match spec
      case Err(e) => r == Err(e)
      case Ok(p) => r == Ok(p.val) && s == p.rest
    }

    method AddSub() returns (r: Result<V, Error>)
      modifies this
      ensures Did(r, ParseAddSub(alg, old(s)))
      decreases |s|, 3
    {
      ghost var start := s;
      r := MulDiv();
      if r.Err? {
        return;
      }
      var val := r.value;
      while |s| > 0
        invariant |s| < |start|
        invariant MoreSums(alg, val, s) == ParseAddSub(alg, start)
        decreases |s|
      {
        var op := s[0];
        if op != '+' && op != '-' {
          break;
        }
        s := s[1..];
        r := MulDiv();
        if r.Err? {
          return;
        }
        val := if op == '+' then alg.add(val, r.value) else alg.sub(val, r.value);
      }
      r := Ok(val);
    }

    method MulDiv() returns (r: Result<V, Error>)
      modifies this
      ensures Did(r, ParseMulDiv(alg, old(s)))
      decreases |s|, 2
    {
      ghost var start := s;
      r := Power();
      if r.Err? {
        return;
      }
      var val := r.value;
      while |s| > 0
        invariant |s| < |start|
        invariant MoreProducts(alg, val, s) == ParseMulDiv(alg, start)
        decreases |s|
      {
        var op := s[0];
        if op != '*' && op != '/' {
          break;
        }
        s := s[1..];
        r := Power();
        if r.Err? {
          return;
        }
        if op == '*' {
          val := alg.mul(val, r.value);
        } else {
          if alg.isZero(r.value) {
            return Err(DivisionByZero);
          }
          val := alg.div(val, r.value);
        }
      }
      r := Ok(val);
    }

    method Power() returns (r: Result<V, Error>)
      modifies this
      ensures Did(r, ParsePower(alg, old(s)))
      decreases |s|, 1
    {
      r := Primary();
      if r.Err? {
        return;
      }
      var val := r.value;
      if |s| > 0 && s[0] == '^' {
        s := s[1..];
        r := Power();
        if r.Err? {
          return;
        }
        val := alg.pow(val, r.value);
      }
      r := Ok(val);
    }

    method Primary() returns (r: Result<V, Error>)
      modifies this
      ensures Did(r, ParsePrimary(alg, old(s)))
      decreases |s|, 0
    {
      if |s| == 0 {
        return Err(UnexpectedEnd);
      }
      if s[0] == '(' {
        s := s[1..];
        r := AddSub();
        if r.Err? {
          return;
        }
        if |s| == 0 || s[0] != ')' {
          return Err(MissingParenthesis);
        }
        s := s[1..];
        return;
      }
      if s[0] == '-' {
        s := s[1..];
        r := Primary();
        if r.Ok? {
          r := Ok(alg.neg(r.value));
        }
        return;
      }
      var i := 0;
      while i < |s| && InNumber(s[i])
        invariant 0 <= i <= |s| && s == old(s)
        invariant NumberLength(s) == i + NumberLength(s[i..])
        decreases |s| - i
      {
        assert s[i..][1..] == s[i + 1..];
        i := i + 1;
      }
      if i == 0 {
        return Err(InvalidToken(s));
      }
      var numStr := s[..i];
      s := s[i..];
      r := Number(alg, numStr);
    }
  }

  method EvalSimpleMath<V>(alg: Algebra<V>, expr: string) returns (r: Result<V, Error>)
    ensures r == Evaluated(alg, expr)
  {
    var s := WithoutSpaces(expr);
    if s == "" {
      return Err(EmptyExpression);
    }
    var parser := new Parser(alg, s);
    r := parser.AddSub();
  }
}
