/**
 * The test double `MockCalculationService`: a behaviour selector fixed
 * when the object is built, and `addTwoTo` dispatching on it.
 */
module Mocking {
  import opened JavaInt
  import opened Service

  /**
   * The `CamelionTestBehavior` selector. The three named constants are the
   * ones the mock switches on; `Other` stands for any further constant of
   * the enum, which the switch sends to its `default` branch.
   */
  datatype Behaviour = PassingTest | FailingTest | ThrowsExceptions | Other

  /** What `addTwoTo(value)` does under selector `behaviour`. */
  function Behave(behaviour: Behaviour, value: Int32): (o: Outcome)
    ensures o.Failure? <==> behaviour == ThrowsExceptions
  {
    match behaviour
    case PassingTest => Value(Add(value, 2))
    case FailingTest => Value(Mul(-1, Abs(Add(value, 2))))
    case ThrowsExceptions => Failure
    case Other => Value(value)
  }

  class MockCalculationService {
    const behaviour: Behaviour

    /** The private no-argument constructor: selects PASSING_TEST. */
    constructor Default()
      ensures behaviour == PassingTest
    {
      behaviour := PassingTest;
    }

    /** The public constructor: keeps the selector it is given. */
    constructor (behaviour: Behaviour)
      ensures this.behaviour == behaviour
    {
      this.behaviour := behaviour;
    }

    method AddTwoTo(value: Int32) returns (o: Outcome)
      ensures o == Behave(behaviour, value)
    {
      o := Behave(behaviour, value);
    }
  }

  /**
   * The selector is a `const`, so two calls on the same mock with the same
   * input give the same outcome.
   */
  method CallTwice(service: MockCalculationService, value: Int32) returns (first: Outcome, second: Outcome)
    ensures first == second
  {
    first := service.AddTwoTo(value);
    second := service.AddTwoTo(value);
  }

  /**
   * PASSING_TEST returns `value + 2`: the exact sum whenever it fits in an
   * int, and the sum less 2^32 at the two largest inputs, where Java wraps.
   */
  lemma PassingAddsTwo(value: Int32)
    ensures Behave(PassingTest, value).Value?
    ensures value <= MAX - 2 ==> Behave(PassingTest, value).value == value + 2
    ensures value > MAX - 2 ==> Behave(PassingTest, value).value == value + 2 - MODULUS
  {
  }

  /** PASSING_TEST gives a negative result exactly below -2 and where `value + 2` wraps. */
  lemma PassingNegativeIff(value: Int32)
    ensures Behave(PassingTest, value).value < 0 <==> value < -2 || value > MAX - 2
  {
  }

  /**
   * FAILING_TEST returns `-|value + 2|`: the result is never positive, even
   * under wrap-around (where `Math.abs(MIN_VALUE)` and `-1 * MIN_VALUE` are
   * both MIN_VALUE), and it is zero only for input -2.
   */
  lemma FailingNonPositive(value: Int32)
    ensures Behave(FailingTest, value).Value?
    ensures Behave(FailingTest, value).value <= 0
    ensures Behave(FailingTest, value).value == 0 <==> value == -2
    ensures value <= MAX - 2 ==> Behave(FailingTest, value).value == -(if value + 2 < 0 then -(value + 2) else value + 2)
  {
  }

  /** THROWS_EXCEPTIONS fails on every input and never yields an int. */
  lemma ThrowsAlwaysFails(value: Int32)
    ensures Behave(ThrowsExceptions, value) == Failure
  {
  }

  /** The `default` branch returns its input unchanged. */
  lemma DefaultIsIdentity(value: Int32)
    ensures Behave(Other, value) == Value(value)
  {
  }

  /** The three scenarios of MockCalculationServiceTest, with input 3. */
  lemma TestScenarios()
    ensures Behave(PassingTest, 3) == Value(5)
    ensures Behave(FailingTest, 3) == Value(-5)
    ensures Behave(ThrowsExceptions, 3).Failure?
  {
  }
}
