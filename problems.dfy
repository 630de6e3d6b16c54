/** Arithmetic problems as the quiz shows them: two positive operands, one of
    the operators `+`, `-`, `×`, rendered as "<a> <op> <b> = ?", together with
    the integer answer. Parse reads such a text back, so that the answer of a
    problem can be checked against its own text. */
module Problems {

  datatype Option<T> = None | Some(value: T)

  datatype Op = Plus | Minus | Times

  /** The two operands and the operator a problem is built from. */
  datatype Expr = Expr(op: Op, left: nat, right: nat)

  /** What generateMathProblem returns: the problem text and its answer. */
  datatype Problem = Problem(text: string, answer: int)

  function Symbol(op: Op): char
  {
    match op
    case Plus => '+'
    case Minus => '-'
    case Times => '×'
  }

  /** The operator a symbol stands for, if any. */
  function SymbolOp(c: char): (r: Option<Op>)
    ensures r.Some? <==> c in {'+', '-', '×'}
    ensures r.Some? ==> Symbol(r.value) == c
  {
    if c == '+' then Some(Plus)
    else if c == '-' then Some(Minus)
    else if c == '×' then Some(Times)
    else None
  }

  lemma SymbolOpSymbol(op: Op)
    ensures SymbolOp(Symbol(op)) == Some(op)
  {
  }

  function Eval(e: Expr): int
  {
    match e.op
    case Plus => e.left + e.right
    case Minus => e.left - e.right
    case Times => e.left * e.right
  }

  predicate IsDigit(c: char)
  {
    '0' <= c <= '9'
  }

  predicate AllDigits(s: string)
  {
    forall i :: 0 <= i < |s| ==> IsDigit(s[i])
  }

  function DigitChar(d: nat): (c: char)
    requires d < 10
    ensures IsDigit(c)
  {
    ('0' as int + d) as char
  }

  function DigitValue(c: char): (d: nat)
    requires IsDigit(c)
    ensures d < 10 && DigitChar(d) == c
  {
    if c == '0' then 0 else if c == '1' then 1 else if c == '2' then 2
    else if c == '3' then 3 else if c == '4' then 4 else if c == '5' then 5
    else if c == '6' then 6 else if c == '7' then 7 else if c == '8' then 8
    else 9
  }

  /** The decimal notation JavaScript's template literal gives a non-negative
      integer: no sign, no leading zero. */
  function Decimal(n: nat): (s: string)
    ensures |s| >= 1 && AllDigits(s)
    ensures |s| > 1 ==> s[0] != '0'
    decreases n
  {
    if n < 10 then [DigitChar(n)] else Decimal(n / 10) + [DigitChar(n % 10)]
  }

  /** The number a string of decimal digits denotes. */
  function DigitsValue(s: string): nat
    requires AllDigits(s)
  {
    if s == [] then 0 else DigitsValue(s[..|s| - 1]) * 10 + DigitValue(s[|s| - 1])
  }

  lemma {:induction false} DigitsValueDecimal(n: nat)
    ensures DigitsValue(Decimal(n)) == n
    decreases n
  {
    if n >= 10 {
      var s := Decimal(n);
      assert s[..|s| - 1] == Decimal(n / 10);
      DigitsValueDecimal(n / 10);
    }
  }

  /** The length of the longest run of digits at the front of s. */
  function DigitPrefix(s: string): (k: nat)
    ensures k <= |s| && AllDigits(s[..k])
    ensures k < |s| ==> !IsDigit(s[k])
  {
    if s == [] || !IsDigit(s[0]) then 0
    else
      var k := 1 + DigitPrefix(s[1..]);
      assert s[..k] == [s[0]] + s[1..][..k - 1];
      k
  }

  lemma {:induction false} DigitPrefixOfDigits(d: string, t: string)
    requires AllDigits(d)
    requires t == [] || !IsDigit(t[0])
    ensures DigitPrefix(d + t) == |d|
  {
    if d != [] {
      assert (d + t)[1..] == d[1..] + t;
      DigitPrefixOfDigits(d[1..], t);
    }
  }

  /** The text of a problem, "<a> <op> <b> = ?". */
  function Render(e: Expr): string
  {
    Decimal(e.left) + " " + [Symbol(e.op)] + " " + Decimal(e.right) + " = ?"
  }

  /** Reads the end of a problem text, "<digits> = ?", giving the second operand. */
  function ParseTail(rest: string): Option<nat>
  {
    var m := DigitPrefix(rest);
    if 0 < m && rest[m..] == " = ?" then Some(DigitsValue(rest[..m])) else None
  }

  /** Reads a text of the shape "<digits> <op> <digits> = ?" back into its
      operands and operator. */
  function Parse(s: string): Option<Expr>
  {
    var k := DigitPrefix(s);
    if 0 < k && k + 3 <= |s| && s[k] == ' ' && s[k + 2] == ' ' && SymbolOp(s[k + 1]).Some? then
      match ParseTail(s[k + 3..])
      case Some(b) => Some(Expr(SymbolOp(s[k + 1]).value, DigitsValue(s[..k]), b))
      case None => None
    else None
  }

  lemma ParseTailDecimal(n: nat)
    ensures ParseTail(Decimal(n) + " = ?") == Some(n)
  {
    var b := Decimal(n);
    var rest := b + " = ?";
    DigitPrefixOfDigits(b, " = ?");
    assert rest[..|b|] == b;
    assert rest[|b|..] == " = ?";
    DigitsValueDecimal(n);
  }

  lemma ParseSplit(a: string, op: Op, t: string)
    requires |a| > 0 && AllDigits(a)
    ensures Parse(a + [' ', Symbol(op), ' '] + t)
         == match ParseTail(t)
            case Some(b) => Some(Expr(op, DigitsValue(a), b))
            case None => None
  {
    var tail := [' ', Symbol(op), ' '] + t;
    var s := a + tail;
    assert a + [' ', Symbol(op), ' '] + t == s;
    DigitPrefixOfDigits(a, tail);
    var k := |a|;
    assert DigitPrefix(s) == k;
    assert s[k] == ' ' && s[k + 1] == Symbol(op) && s[k + 2] == ' ';
    SymbolOpSymbol(op);
    assert SymbolOp(s[k + 1]) == Some(op);
    assert s[..k] == a;
    assert s[k + 3..] == t;
  }

  /** Rendering loses nothing: the text of a problem determines its operands
      and its operator. */
  lemma ParseRender(e: Expr)
    ensures Parse(Render(e)) == Some(e)
  {
    var t := Decimal(e.right) + " = ?";
    assert Render(e) == Decimal(e.left) + [' ', Symbol(e.op), ' '] + t;
    ParseSplit(Decimal(e.left), e.op, t);
    ParseTailDecimal(e.right);
    DigitsValueDecimal(e.left);
  }

  /** The problem an expression stands for: its text and its value. */
  function ProblemOf(e: Expr): Problem
  {
    Problem(Render(e), Eval(e))
  }

  /** The answer of a problem is the value of the expression its text shows. */
  lemma ProblemOfReadsBack(e: Expr)
    ensures Parse(ProblemOf(e).text) == Some(e)
    ensures ProblemOf(e).answer == Eval(Parse(ProblemOf(e).text).value)
  {
    ParseRender(e);
  }
}
