/**
 * The arithmetic human check: two operands in [10, 50], the question "a + b" and
 * the expected answer, the decimal text of a + b.  `ParseQuestion` reads a question
 * back into its operands and is the partner of `Question`.
 */
module Captcha {
  import opened Wrappers
  import opened Decimal

  /** A value of `Math.random()`, taken as the exact fraction num / den in [0, 1). */
  datatype RandomDraw = RandomDraw(num: nat, den: nat)

  predicate IsUnitDraw(r: RandomDraw) {
    r.num < r.den
  }

  const MinOperand: nat := 10
  const MaxOperand: nat := 50

  predicate InOperandRange(n: int) {
    MinOperand <= n <= MaxOperand
  }

  /** `Math.floor(r * 41) + 10`: one of the 41 values 10..50. */
  function Operand(r: RandomDraw): (n: nat)
    requires IsUnitDraw(r)
    ensures InOperandRange(n)
  {
    OperandBound(r);
    (r.num * 41) / r.den + 10
  }

  lemma OperandBound(r: RandomDraw)
    requires IsUnitDraw(r)
    ensures (r.num * 41) / r.den < 41
  {
    assert r.num * 41 < r.den * 41;
  }

  /** Every operand value is drawn by some random value: k / 41 gives 10 + k. */
  lemma EveryOperandReachable(n: nat)
    requires InOperandRange(n)
    ensures Operand(RandomDraw(n - 10, 41)) == n
  {
  }

  datatype Challenge = Challenge(question: string, answer: string)

  const Separator: string := " + "

  /** The question text `${a} + ${b}`. */
  function Question(a: nat, b: nat): string {
    NatToString(a) + Separator + NatToString(b)
  }

  /** The challenge built from one pair of operands: its question and the text of their sum. */
  function MakeChallenge(a: nat, b: nat): Challenge {
    Challenge(Question(a, b), NatToString(a + b))
  }

  /** The number of digits at the front of `s`. */
  function LeadingDigits(s: string): (k: nat)
    ensures k <= |s| && AllDigits(s[..k])
    ensures k < |s| ==> !IsDigit(s[k])
    decreases |s|
  {
    if s != [] && IsDigit(s[0]) then
      var k := 1 + LeadingDigits(s[1..]);
      assert s[..k] == [s[0]] + s[1..][..k - 1];
      k
    else 0
  }

  /** The digits in front of a non-digit are counted exactly. */
  lemma {:induction false} LeadingDigitsOfConcat(x: string, y: string)
    requires AllDigits(x)
    requires y != [] && !IsDigit(y[0])
    ensures LeadingDigits(x + y) == |x|
    decreases |x|
  {
    if x == [] {
      assert x + y == y;
    } else {
      var xy := x + y;
      assert xy[0] == x[0] && IsDigit(x[0]);
      assert xy[1..] == x[1..] + y;
      assert AllDigits(x[1..]) by {
        forall i | 0 <= i < |x| - 1 ensures IsDigit(x[1..][i]) { assert x[1..][i] == x[i + 1]; }
      }
      LeadingDigitsOfConcat(x[1..], y);
      assert LeadingDigits(xy) == 1 + LeadingDigits(xy[1..]);
    }
  }

  /** Reads "a + b" with both operands in canonical decimal; anything else is None. */
  function ParseQuestion(q: string): Option<(nat, nat)> {
    var k := LeadingDigits(q);
    if k + |Separator| <= |q| && q[k..k + |Separator|] == Separator
       && IsCanonical(q[..k]) && IsCanonical(q[k + |Separator|..])
    then Some((DigitsValue(q[..k]), DigitsValue(q[k + |Separator|..])))
    else None
  }

  /** The question names its own operands. */
  lemma QuestionRoundTrip(a: nat, b: nat)
    ensures ParseQuestion(Question(a, b)) == Some((a, b))
  {
    var x, y := NatToString(a), NatToString(b);
    var q := Question(a, b);
    assert q == x + (Separator + y);
    LeadingDigitsOfConcat(x, Separator + y);
    var k := |x|;
    assert q[..k] == x;
    assert q[k..k + |Separator|] == Separator;
    assert q[k + |Separator|..] == y;
    ValueOfNatToString(a);
    ValueOfNatToString(b);
  }

  /** A question that parses is the question of the operands it parses to: `Question` is onto what `ParseQuestion` accepts. */
  lemma ParsedQuestionIsQuestion(q: string, a: nat, b: nat)
    requires ParseQuestion(q) == Some((a, b))
    ensures q == Question(a, b)
  {
    var k := LeadingDigits(q);
    var m := k + |Separator|;
    NatToStringOfValue(q[..k]);
    NatToStringOfValue(q[m..]);
    assert q == q[..k] + q[k..m] + q[m..];
  }

  /**
   * The stored answer is the decimal text of the sum of the two operands shown in the
   * question, and both operands lie in [10, 50].
   */
  predicate Matches(c: Challenge) {
    match ParseQuestion(c.question)
    case None => false
    case Some(p) => InOperandRange(p.0) && InOperandRange(p.1) && c.answer == NatToString(p.0 + p.1)
  }

  /**
   * A generated challenge: the operands come from two random draws, the question
   * names them, and the answer is the text of their sum, which lies in [20, 100]
   * and has two or three characters.
   */
  function Generate(r1: RandomDraw, r2: RandomDraw): (c: Challenge)
    requires IsUnitDraw(r1) && IsUnitDraw(r2)
    ensures Matches(c)
    ensures ParseQuestion(c.question) == Some((Operand(r1), Operand(r2)))
    ensures 20 <= DigitsValue(c.answer) <= 100 && 2 <= |c.answer| <= 3
    ensures DigitsValue(c.answer) == Operand(r1) + Operand(r2)
  {
    MakeChallengeMatches(Operand(r1), Operand(r2));
    MakeChallenge(Operand(r1), Operand(r2))
  }

  /** The challenge of two in-range operands matches, and its answer reads back as their sum. */
  lemma MakeChallengeMatches(a: nat, b: nat)
    requires InOperandRange(a) && InOperandRange(b)
    ensures Matches(MakeChallenge(a, b))
    ensures ParseQuestion(MakeChallenge(a, b).question) == Some((a, b))
    ensures DigitsValue(MakeChallenge(a, b).answer) == a + b
    ensures 2 <= |MakeChallenge(a, b).answer| <= 3
  {
    var c := MakeChallenge(a, b);
    QuestionRoundTrip(a, b);
    assert ParseQuestion(c.question) == Some((a, b));
    assert Matches(c);
    ValueOfNatToString(a + b);
    NatToStringLength(a + b);
  }

  /** The answer of a matching challenge is the sum of the operands its question shows. */
  lemma MatchesAnswerIsSum(c: Challenge)
    requires Matches(c)
    ensures exists a: nat, b: nat ::
      InOperandRange(a) && InOperandRange(b) && c == MakeChallenge(a, b) && DigitsValue(c.answer) == a + b
  {
    var p := ParseQuestion(c.question).value;
    ParsedQuestionIsQuestion(c.question, p.0, p.1);
    ValueOfNatToString(p.0 + p.1);
    assert c == MakeChallenge(p.0, p.1);
  }

  /**
   * The only security code a matching challenge accepts is the canonical text of the
   * sum: a code with a leading zero, a sign or spaces is refused even when its
   * numeric value is right.
   */
  lemma AcceptedCodeIsCanonicalSum(c: Challenge, code: string)
    requires Matches(c)
    ensures code == c.answer <==>
      IsCanonical(code) && DigitsValue(code) == ParseQuestion(c.question).value.0 + ParseQuestion(c.question).value.1
  {
    var p := ParseQuestion(c.question).value;
    ValueOfNatToString(p.0 + p.1);
    if IsCanonical(code) && DigitsValue(code) == p.0 + p.1 {
      NatToStringOfValue(code);
    }
  }
}
