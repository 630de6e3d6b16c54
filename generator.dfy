/** Problem generation (generateMathProblem) and the tier descriptions
    (getDifficultyDescription).

    Each Math.random() result the generator draws is an input here: a real
    `r` with 0 <= r < 1, consumed in the order the source draws them. Tier 1
    draws twice (first operand, second operand); tiers 2 to 5 draw three
    times (operator selector, first operand, second operand). Every operand
    is computed as the source does, Math.floor(r * span) + 1. */
module Generator {
  import opened Problems

  /** A value Math.random() can return. */
  predicate IsRoll(r: real)
  {
    0.0 <= r < 1.0
  }

  /** Missing or out-of-range difficulties are treated as tier 1. */
  function NormalizeDifficulty(difficulty: int): (tier: int)
    ensures 1 <= tier <= 5
    ensures 1 <= difficulty <= 5 ==> tier == difficulty
    ensures !(1 <= difficulty <= 5) ==> tier == 1
  {
    if difficulty < 1 || difficulty > 5 then 1 else difficulty
  }

  /** How many times a problem of tier `tier` calls Math.random(). */
  function RollsNeeded(tier: int): nat
  {
    if tier == 1 then 2 else 3
  }

  /** The draws one call generateMathProblem(difficulty) consumes. */
  predicate RollsFit(difficulty: int, rolls: seq<real>)
  {
    |rolls| == RollsNeeded(NormalizeDifficulty(difficulty)) &&
    forall i :: 0 <= i < |rolls| ==> IsRoll(rolls[i])
  }

  lemma ScaledRange(r: real, span: nat)
    requires IsRoll(r)
    ensures 0.0 <= r * span as real
    ensures span > 0 ==> r * span as real < span as real
  {
    if span > 0 {
      assert (1.0 - r) * span as real > 0.0;
    }
  }

  /** Math.floor(r * span) + 1. A span of 0 (possible in tier 1) always
      gives 1. */
  function Pick(r: real, span: int): (n: int)
    requires IsRoll(r) && span >= 0
    ensures span >= 1 ==> 1 <= n <= span
    ensures span == 0 ==> n == 1
  {
    ScaledRange(r, span);
    (r * span as real).Floor + 1
  }

  lemma QuotientRange(n: int, span: int)
    requires 0 <= n < span
    ensures var r := n as real / span as real;
            0.0 <= r < 1.0 && r * span as real == n as real
  {
    var r := n as real / span as real;
    assert r * span as real == n as real;
    assert (1.0 - r) * span as real == (span - n) as real;
  }

  /** The draw that makes Pick return k. */
  function RollFor(k: int, span: int): (r: real)
    requires 1 <= k <= span
    ensures IsRoll(r) && Pick(r, span) == k
  {
    QuotientRange(k - 1, span);
    var r := (k - 1) as real / span as real;
    assert ((k - 1) as real).Floor == k - 1;
    r
  }

  /** `a + b` with a in [1, span] and b in [1, ceiling - a]. */
  function Addition(r1: real, r2: real, span: int, ceiling: int): Expr
    requires IsRoll(r1) && IsRoll(r2) && 1 <= span <= ceiling
  {
    var a := Pick(r1, span);
    Expr(Plus, a, Pick(r2, ceiling - a))
  }

  /** `a - b` with a in [1, span] and b in [1, a]. */
  function Subtraction(r1: real, r2: real, span: int): Expr
    requires IsRoll(r1) && IsRoll(r2) && 1 <= span
  {
    var a := Pick(r1, span);
    Expr(Minus, a, Pick(r2, a))
  }

  /** `a × b` with a and b in [1, span]. */
  function Multiplication(r1: real, r2: real, span: int): Expr
    requires IsRoll(r1) && IsRoll(r2) && 1 <= span
  {
    Expr(Times, Pick(r1, span), Pick(r2, span))
  }

  /** The problems the grade scheme of each tier allows: the operand ranges
      and the operators of every tier, stated as sets of problems. In tier 1
      a first operand of 10 is only ever paired with 1. */
  ghost predicate IsAddition(e: Expr, span: int, ceiling: int)
  {
    e.op == Plus && 1 <= e.left <= span && 1 <= e.right && e.left + e.right <= ceiling
  }

  ghost predicate IsSubtraction(e: Expr, span: int)
  {
    e.op == Minus && 1 <= e.left <= span && 1 <= e.right <= e.left
  }

  ghost predicate IsMultiplication(e: Expr, span: int)
  {
    e.op == Times && 1 <= e.left <= span && 1 <= e.right <= span
  }

  ghost predicate InTier(tier: int, e: Expr)
  {
    if tier == 1 then
      IsAddition(e, 9, 10) || e == Expr(Plus, 10, 1)
    else if tier == 2 then
      IsAddition(e, 15, 20) || IsSubtraction(e, 10)
    else if tier == 3 then
      IsAddition(e, 30, 50) || IsSubtraction(e, 20) || IsMultiplication(e, 5)
    else if tier == 4 then
      IsAddition(e, 60, 100) || IsSubtraction(e, 50) || IsMultiplication(e, 6)
    else
      tier == 5 && (IsAddition(e, 120, 200) || IsSubtraction(e, 100) || IsMultiplication(e, 10))
  }

  /** The switch of generateMathProblem on a normalized tier. */
  function Draw(tier: int, rolls: seq<real>): (e: Expr)
    requires 1 <= tier <= 5 && RollsFit(tier, rolls)
    ensures InTier(tier, e)
  {
    if tier == 1 then
      Addition(rolls[0], rolls[1], 10, 10)
    else if tier == 2 then
      if rolls[0] < 0.7 then Addition(rolls[1], rolls[2], 15, 20)
      else Subtraction(rolls[1], rolls[2], 10)
    else if tier == 3 then
      if rolls[0] < 0.5 then Addition(rolls[1], rolls[2], 30, 50)
      else if rolls[0] < 0.8 then Subtraction(rolls[1], rolls[2], 20)
      else Multiplication(rolls[1], rolls[2], 5)
    else if tier == 4 then
      if rolls[0] < 0.4 then Addition(rolls[1], rolls[2], 60, 100)
      else if rolls[0] < 0.7 then Subtraction(rolls[1], rolls[2], 50)
      else Multiplication(rolls[1], rolls[2], 6)
    else
      if rolls[0] < 0.3 then Addition(rolls[1], rolls[2], 120, 200)
      else if rolls[0] < 0.6 then Subtraction(rolls[1], rolls[2], 100)
      else Multiplication(rolls[1], rolls[2], 10)
  }

  /** generateMathProblem(difficulty) on the given draws. */
  function GenerateMathProblem(difficulty: int, rolls: seq<real>): Problem
    requires RollsFit(difficulty, rolls)
  {
    ProblemOf(Draw(NormalizeDifficulty(difficulty), rolls))
  }

  /** Every generated problem reads as "<a> <op> <b> = ?" with operands and
      operator the tier allows, and its answer is the value of that text. */
  lemma AnswerMatchesText(difficulty: int, rolls: seq<real>)
    requires RollsFit(difficulty, rolls)
    ensures var p := GenerateMathProblem(difficulty, rolls);
            && Parse(p.text).Some?
            && p.answer == Eval(Parse(p.text).value)
            && InTier(NormalizeDifficulty(difficulty), Parse(p.text).value)
  {
    ProblemOfReadsBack(Draw(NormalizeDifficulty(difficulty), rolls));
  }

  /** Draws that make a tier produce a given operand pair and operator. */
  function RollsProducing(tier: int, e: Expr): seq<real>
    requires 1 <= tier <= 5 && InTier(tier, e)
  {
    if tier == 1 then
      [RollFor(e.left, 10), RollFor(e.right, if e.left == 10 then 1 else 10 - e.left)]
    else
      var selector :=
        if e.op == Plus then 0.0
        else if e.op == Minus then (if tier == 2 then 0.7 else if tier == 3 then 0.5 else if tier == 4 then 0.4 else 0.3)
        else (if tier == 3 then 0.8 else if tier == 4 then 0.7 else 0.6);
      var span :=
        if e.op == Plus then (if tier == 2 then 15 else if tier == 3 then 30 else if tier == 4 then 60 else 120)
        else if e.op == Minus then (if tier == 2 then 10 else if tier == 3 then 20 else if tier == 4 then 50 else 100)
        else (if tier == 3 then 5 else if tier == 4 then 6 else 10);
      var secondSpan :=
        if e.op == Plus then (if tier == 2 then 20 else if tier == 3 then 50 else if tier == 4 then 100 else 200) - e.left
        else if e.op == Minus then e.left
        else span;
      [selector, RollFor(e.left, span), RollFor(e.right, secondSpan)]
  }

  /** Every problem a tier allows is produced by some draws: together with
      the ensures of Draw, the problems of a tier are exactly InTier. */
  lemma EveryTierProblemIsDrawn(tier: int, e: Expr)
    requires 1 <= tier <= 5 && InTier(tier, e)
    ensures RollsFit(tier, RollsProducing(tier, e))
    ensures Draw(tier, RollsProducing(tier, e)) == e
  {
  }

  /** A difficulty outside [1, 5] generates exactly what tier 1 generates. */
  lemma InvalidDifficultyIsTierOne(difficulty: int, rolls: seq<real>)
    requires !(1 <= difficulty <= 5) && RollsFit(difficulty, rolls)
    ensures RollsFit(1, rolls)
    ensures GenerateMathProblem(difficulty, rolls) == GenerateMathProblem(1, rolls)
  {
  }

  /** Subtraction never goes negative: 1 <= b <= a, so the answer lies in [0, a - 1]. */
  lemma SubtractionIsNonNegative(difficulty: int, rolls: seq<real>)
    requires RollsFit(difficulty, rolls)
    ensures var p := GenerateMathProblem(difficulty, rolls);
            Parse(p.text).Some? &&
            var e := Parse(p.text).value;
            e.op == Minus ==> 1 <= e.right <= e.left && 0 <= Eval(e) <= e.left - 1
  {
    AnswerMatchesText(difficulty, rolls);
  }

  /** The addition ceilings 10 (tier 1, first operand at most 9), 20, 50, 100
      and 200; tier 1 with a first operand of 10 always asks 10 + 1. */
  lemma AdditionCeilings(difficulty: int, rolls: seq<real>)
    requires RollsFit(difficulty, rolls)
    ensures var t := NormalizeDifficulty(difficulty);
            var p := GenerateMathProblem(difficulty, rolls);
            Parse(p.text).Some? &&
            var e := Parse(p.text).value;
            e.op == Plus ==>
              && (t == 1 && e.left <= 9 ==> p.answer <= 10)
              && (t == 1 && e.left == 10 ==> e.right == 1 && p.answer == 11)
              && (t == 1 ==> p.answer <= 11)
              && (t == 2 ==> p.answer <= 20)
              && (t == 3 ==> p.answer <= 50)
              && (t == 4 ==> p.answer <= 100)
              && (t == 5 ==> p.answer <= 200)
  {
    AnswerMatchesText(difficulty, rolls);
  }

  /** Tier 1 only adds; multiplication appears only from tier 3 on, with
      operands in [1, 5], [1, 6] and [1, 10] for tiers 3, 4 and 5. */
  lemma OperatorsAndTables(difficulty: int, rolls: seq<real>)
    requires RollsFit(difficulty, rolls)
    ensures var t := NormalizeDifficulty(difficulty);
            var p := GenerateMathProblem(difficulty, rolls);
            Parse(p.text).Some? &&
            var e := Parse(p.text).value;
            && (t == 1 ==> e.op == Plus)
            && (t == 2 ==> e.op != Times)
            && (e.op == Times ==> t >= 3 && 1 <= e.left && 1 <= e.right)
            && (e.op == Times && t == 3 ==> e.left <= 5 && e.right <= 5)
            && (e.op == Times && t == 4 ==> e.left <= 6 && e.right <= 6)
            && (e.op == Times && t == 5 ==> e.left <= 10 && e.right <= 10)
  {
    AnswerMatchesText(difficulty, rolls);
  }

  /** The heading every description starts with, "Grade <tier>:". */
  function GradeHeading(tier: int): string
    requires 1 <= tier <= 5
  {
    "Grade " + [DigitChar(tier)] + ":"
  }

  /** getDifficultyDescription: the fixed text of each grade, tier 1's for
      any other key. */
  function GetDifficultyDescription(difficulty: int): (s: string)
    ensures |s| > 8 && s[..8] == GradeHeading(NormalizeDifficulty(difficulty))
  {
    if difficulty == 2 then "Grade 2:" + " Addition up to 20, subtraction up to 10"
    else if difficulty == 3 then "Grade 3:" + " Addition up to 50, subtraction up to 20, simple multiplication"
    else if difficulty == 4 then "Grade 4:" + " Addition up to 100, subtraction up to 50, multiplication tables 1-6"
    else if difficulty == 5 then "Grade 5:" + " Addition up to 200, subtraction up to 100, multiplication tables 1-10"
    else "Grade 1:" + " Addition up to 10"
  }

  /** Any key outside [1, 5] describes tier 1, and the five tiers have
      five different descriptions. */
  lemma DescriptionDefaultsToTierOne(d: int, d': int)
    ensures !(1 <= d <= 5) ==> GetDifficultyDescription(d) == GetDifficultyDescription(1)
    ensures 1 <= d <= 5 && 1 <= d' <= 5 && d != d' ==>
              GetDifficultyDescription(d) != GetDifficultyDescription(d')
  {
    var s, s' := GetDifficultyDescription(d), GetDifficultyDescription(d');
    assert s[..8][6] == DigitChar(NormalizeDifficulty(d));
    assert s'[..8][6] == DigitChar(NormalizeDifficulty(d'));
  }
}
