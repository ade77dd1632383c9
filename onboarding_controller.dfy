/**
 * The calculation-speed quiz run during onboarding (`OnboardingController`).
 *
 * Five addition problems are generated from random operands. The quiz shows
 * them one at a time, records how long each accepted answer took, and when
 * the last one is answered reports the average time per problem.
 *
 * The random draws and the clock are inputs: a draw is a value in [0, 1) as
 * `Math.random()` returns, and `now` is the clock reading in milliseconds.
 */
module Onboarding {
  import opened Wrappers
  import opened NumberText

  /** The number of problems in the quiz. */
  const TestProblemCount: nat := 5

  datatype Problem = Problem(text: string, answer: int)

  /** The two `Math.random()` values drawn for one problem's operands. */
  datatype Draw = Draw(first: real, second: real)

  /**
   * What one submission did: rejected as blank or not a number, recorded (and
   * whether it was right), or recorded and then stopped by a `TypeError`
   * because no problem is at the current index.
   */
  datatype AnswerOutcome = Rejected | Recorded(correct: bool) | Threw

  predicate ValidDraw(d: Draw) {
    0.0 <= d.first < 1.0 && 0.0 <= d.second < 1.0
  }

  /** `Math.floor(u * 10) + 1`: an operand from 1 to 10. */
  function RandomOperand(u: real): (n: int)
    requires 0.0 <= u < 1.0
    ensures 1 <= n <= 10
  {
    (u * 10.0).Floor + 1
  }

  /** The text shown for the problem `num1 + num2`. */
  function ProblemText(num1: nat, num2: nat): string
  {
    DecimalText(num1) + " + " + DecimalText(num2) + " = ?"
  }

  /** A problem shows two operands from 1 to 10 and expects their sum, so its answer lies in 2..20. */
  function MakeProblem(d: Draw): (p: Problem)
    requires ValidDraw(d)
    ensures exists num1: nat, num2: nat :: 1 <= num1 <= 10 && 1 <= num2 <= 10 &&
              p.text == ProblemText(num1, num2) && p.answer == num1 + num2
    ensures 2 <= p.answer <= 20
  {
    var num1 := RandomOperand(d.first);
    var num2 := RandomOperand(d.second);
    Problem(ProblemText(num1, num2), num1 + num2)
  }

  /** The problem's own answer, typed as decimal text, is accepted and judged correct. */
  lemma CorrectAnswerAccepted(p: Problem, num1: nat, num2: nat)
    requires p.text == ProblemText(num1, num2) && p.answer == num1 + num2
    ensures Accepted(DecimalText(num1 + num2))
    ensures ParseInteger(DecimalText(num1 + num2)) == Some(p.answer)
  {
    DecimalTextParses(num1 + num2);
  }

  /**
   * The submission passes `handleAnswer`'s test: its trim is not empty and
   * `isNaN` is false. So it is accepted exactly when it is not blank and is
   * a number.
   */
  function Accepted(raw: string): (r: bool)
    ensures r <==> !IsBlank(raw) && IsNumeric(raw)
  {
    TrimEmptyIffBlank(raw);
    !(Trim(raw) == "" || !IsNumeric(raw))
  }

  /** Blank text is a number to `isNaN` (it converts to 0), so only the trim test rejects it. */
  lemma BlankRejectedByTrimOnly(raw: string)
    requires IsBlank(raw)
    ensures IsNumeric(raw) && Trim(raw) == ""
    ensures !Accepted(raw)
  {
    TrimEmptyIffBlank(raw);
  }

  /**
   * A decimal fraction (`1.5`) is accepted and recorded, and `parseInt` reads
   * its whole part, so it is judged by that part.
   */
  lemma FractionAnswerAccepted(whole: string, fraction: string)
    requires IsDigits(whole) && IsDigits(fraction)
    ensures Accepted(whole + ("." + fraction))
    ensures ParseInteger(whole + ("." + fraction)) == Some(DigitsValue(whole) as int)
  {
    var u := whole + ("." + fraction);
    FractionIsNumeric(whole, fraction);
    assert u[0] == whole[0] && !IsWhitespace(u[0]);
    ParseIntegerReadsLeadingDigits(whole, "." + fraction);
  }

  /** A signed decimal fraction (`-0.5`) is accepted, and `parseInt` reads its signed whole part. */
  lemma SignedFractionAnswerAccepted(sign: char, whole: string, fraction: string)
    requires IsSign(sign) && IsDigits(whole) && IsDigits(fraction)
    ensures Accepted([sign] + (whole + ("." + fraction)))
    ensures ParseInteger([sign] + (whole + ("." + fraction)))
            == Some(if sign == '-' then 0 - DigitsValue(whole) as int else DigitsValue(whole))
  {
    var u := [sign] + (whole + ("." + fraction));
    SignedFractionIsNumeric(sign, whole, fraction);
    assert u[0] == sign && !IsWhitespace(u[0]);
    ParseIntegerReadsSignedDigits(sign, whole, "." + fraction);
  }

  /** A fraction with no whole part (`.5`) is accepted, but `parseInt` finds no integer: it is recorded as wrong. */
  lemma PointFractionAnswerAccepted(fraction: string)
    requires IsDigits(fraction)
    ensures Accepted("." + fraction)
    ensures ParseInteger("." + fraction) == None
  {
    var u := "." + fraction;
    PointFractionIsNumeric(fraction);
    assert u[0] == '.' && !IsWhitespace(u[0]) && !IsSign(u[0]);
  }

  /** A number with an exponent (`1e1`) is accepted, and `parseInt` reads only the digits before `e`. */
  lemma ExponentAnswerAccepted(mantissa: string, exponent: string)
    requires IsDigits(mantissa) && IsDigits(exponent)
    ensures Accepted(mantissa + ("e" + exponent))
    ensures ParseInteger(mantissa + ("e" + exponent)) == Some(DigitsValue(mantissa) as int)
  {
    var u := mantissa + ("e" + exponent);
    ExponentIsNumeric(mantissa, exponent);
    assert u[0] == mantissa[0] && !IsWhitespace(u[0]);
    ParseIntegerReadsLeadingDigits(mantissa, "e" + exponent);
  }

  /** The left-to-right sum `reduce((a, b) => a + b, 0)`. */
  function Sum(s: seq<real>): real
  {
    if s == [] then 0.0 else Sum(s[..|s| - 1]) + s[|s| - 1]
  }

  /** The mean of the recorded times; `None` stands for the NaN that `0 / 0` gives. */
  function Average(s: seq<real>): (r: Option<real>)
    ensures r.Some? <==> |s| > 0
  {
    if s == [] then None else Some(Sum(s) / |s| as real)
  }

  lemma {:induction false} SumBounds(s: seq<real>, lo: real, hi: real)
    requires forall i :: 0 <= i < |s| ==> lo <= s[i] <= hi
    ensures |s| as real * lo <= Sum(s) <= |s| as real * hi
  {
    if s != [] {
      SumBounds(s[..|s| - 1], lo, hi);
    }
  }

  /** The reported average lies between the fastest and the slowest recorded time. */
  lemma AverageWithinBounds(s: seq<real>, lo: real, hi: real)
    requires |s| > 0
    requires forall i :: 0 <= i < |s| ==> lo <= s[i] <= hi
    ensures lo <= Average(s).value <= hi
  {
    SumBounds(s, lo, hi);
    var n := |s| as real;
    assert Sum(s) / n >= lo by {
      assert Sum(s) >= n * lo;
    }
    assert Sum(s) / n <= hi by {
      assert Sum(s) <= n * hi;
    }
  }

  lemma {:induction false} SumPositive(s: seq<real>)
    requires |s| > 0
    requires forall i :: 0 <= i < |s| ==> s[i] > 0.0
    ensures Sum(s) > 0.0
  {
    if |s| > 1 {
      SumPositive(s[..|s| - 1]);
    }
  }

  /** When every answer took some time, the average is positive, so a later session is personalised from it. */
  lemma AveragePositive(s: seq<real>)
    requires |s| > 0
    requires forall i :: 0 <= i < |s| ==> s[i] > 0.0
    ensures Average(s).value > 0.0
  {
    SumPositive(s);
  }

  class OnboardingController {
    var testProblems: seq<Problem>
    var currentProblemIndex: nat
    /** The time taken for each accepted answer, in seconds. */
    var results: seq<real>
    /** When the current problem was shown, in milliseconds. */
    var startTime: real

    /**
     * The quiz has its five problems, and while a problem is showing one time
     * is recorded per problem passed. Once the last one is answered, a click
     * on its still-wired button records one more time before it throws.
     */
    ghost predicate Valid()
      reads this
    {
      |testProblems| == TestProblemCount
      && currentProblemIndex <= |testProblems|
      && |results| >= currentProblemIndex
      && (currentProblemIndex < |testProblems| ==> |results| == currentProblemIndex)
    }

    constructor (draws: seq<Draw>)
      requires |draws| == TestProblemCount
      requires forall d :: d in draws ==> ValidDraw(d)
      ensures Valid()
      ensures forall i :: 0 <= i < |testProblems| ==> testProblems[i] == MakeProblem(draws[i])
      ensures currentProblemIndex == 0 && results == [] && startTime == 0.0
    {
      var problems := GenerateTestProblems(TestProblemCount, draws);
      testProblems := problems;
      currentProblemIndex := 0;
      results := [];
      startTime := 0.0;
    }

    /** Builds `count` problems, the i-th from the i-th pair of random draws. */
    static method GenerateTestProblems(count: nat, draws: seq<Draw>) returns (problems: seq<Problem>)
      requires |draws| == count
      requires forall d :: d in draws ==> ValidDraw(d)
      ensures |problems| == count
      ensures forall i :: 0 <= i < count ==> problems[i] == MakeProblem(draws[i])
      ensures forall p :: p in problems ==> 2 <= p.answer <= 20
    {
      problems := [];
      var i := 0;
      while i < count
        invariant 0 <= i <= count
        invariant |problems| == i
        invariant forall k :: 0 <= k < i ==> problems[k] == MakeProblem(draws[k])
      {
        assert draws[i] in draws;
        problems := problems + [MakeProblem(draws[i])];
        i := i + 1;
      }
    }

    /** Restarts the quiz from the first problem with no times recorded, and shows that problem. */
    method StartTest(now: real)
      requires Valid()
      modifies this`currentProblemIndex, this`results, this`startTime
      ensures Valid()
      ensures currentProblemIndex == 0 && results == [] && startTime == now
    {
      currentProblemIndex := 0;
      results := [];
      var completed := NextProblem(now);
    }

    /**
     * Shows the current problem and starts its clock, or, once every problem
     * has been passed, ends the quiz and reports the average time.
     */
    method NextProblem(now: real) returns (completed: Option<real>)
      requires Valid()
      modifies this`startTime
      ensures Valid()
      ensures completed.Some? <==> currentProblemIndex >= |testProblems|
      ensures completed.Some? ==> completed == Average(results) && startTime == old(startTime)
      ensures completed.None? ==> startTime == now
    {
      if currentProblemIndex >= |testProblems| {
        completed := EndTest();
        return;
      }
      startTime := now;
      completed := None;
    }

    /**
     * Takes the typed answer for the current problem. A blank or non-numeric
     * answer changes nothing. Any other answer, right or wrong, records the
     * time since the problem was shown; then, while a problem is showing, it
     * is judged (a `parseInt` of NaN is never right) and the quiz moves on.
     * After the last problem the click records the time and throws.
     */
    method HandleAnswer(raw: string, now: real) returns (outcome: AnswerOutcome, completed: Option<real>)
      requires Valid()
      modifies this`currentProblemIndex, this`results, this`startTime
      ensures Valid()
      ensures !Accepted(raw) ==>
                outcome == Rejected && completed == None
                && results == old(results) && currentProblemIndex == old(currentProblemIndex)
                && startTime == old(startTime)
      ensures Accepted(raw) ==> results == old(results) + [(now - old(startTime)) / 1000.0]
      ensures Accepted(raw) && old(currentProblemIndex) >= |testProblems| ==>
                outcome == Threw && completed == None
                && currentProblemIndex == old(currentProblemIndex) && startTime == old(startTime)
      ensures Accepted(raw) && old(currentProblemIndex) < |testProblems| ==>
                outcome == Recorded(ParseInteger(raw) == Some(testProblems[old(currentProblemIndex)].answer))
                && currentProblemIndex == old(currentProblemIndex) + 1
                && (completed.Some? <==> currentProblemIndex == |testProblems|)
                && (completed.Some? ==> completed == Average(results))
                && (completed.None? ==> startTime == now)
    {
      if !Accepted(raw) {
        return Rejected, None;
      }
      var timeTaken := (now - startTime) / 1000.0;
      results := results + [timeTaken];
      var userAnswer := ParseInteger(raw);
      if currentProblemIndex >= |testProblems| {
        // `testProblems[currentProblemIndex]` is undefined, and reading its `answer` throws.
        return Threw, None;
      }
      var correctAnswer := testProblems[currentProblemIndex].answer;
      outcome := Recorded(userAnswer == Some(correctAnswer));
      currentProblemIndex := currentProblemIndex + 1;
      completed := NextProblem(now);
    }

    /** The average of the recorded times (`None`: no time recorded, where `endTest` divides 0 by 0). */
    method EndTest() returns (average: Option<real>)
      ensures average == Average(results)
      ensures average.Some? <==> |results| > 0
    {
      average := Average(results);
    }
  }
}
