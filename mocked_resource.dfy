/**
 * The handler wired to the test double: what `addTwoTo` answers for every
 * input under each behaviour selector.
 */
module MockedResource {
  import opened JavaInt
  import opened Service
  import opened Mocking
  import opened Resource

  /** The handler with a `MockCalculationService(behaviour)` injected. */
  function Serve(behaviour: Behaviour, value: Int32): (r: Response)
    ensures WellFormed(r)
  {
    AddTwoTo((v: Int32) => Behave(behaviour, v), value)
  }

  /**
   * PASSING_TEST: 200 with body `value + 2` from -2 up to MAX - 2; 401 below
   * -2 (the sum is negative) and at the two inputs where the sum wraps.
   */
  lemma PassingResponses(value: Int32)
    ensures -2 <= value <= MAX - 2 ==> Serve(PassingTest, value) == Response(Ok, Json(value + 2))
    ensures value < -2 || value > MAX - 2 ==> Serve(PassingTest, value) == Response(Unauthorized, Text(DOWN_MESSAGE))
  {
  }

  /** FAILING_TEST: 401 for every input except -2, which gives 200 with body 0. */
  lemma FailingResponses(value: Int32)
    ensures value == -2 ==> Serve(FailingTest, value) == Response(Ok, Json(0))
    ensures value != -2 ==> Serve(FailingTest, value) == Response(Unauthorized, Text(DOWN_MESSAGE))
  {
  }

  /** Among all ints, -2 is the only input FAILING_TEST lets through as a success. */
  lemma FailingSucceedsOnlyAtMinusTwo()
    ensures (set v: int | MIN <= v <= MAX && Serve(FailingTest, v).status == Ok) == {-2}
  {
  }

  /** The ints from `lo` up to but not including `hi`. */
  ghost function Range(lo: int, hi: int): (s: set<int>)
    requires lo <= hi
    ensures forall v :: v in s <==> lo <= v < hi
    ensures |s| == hi - lo
    decreases hi - lo
  {
    if lo == hi then {} else Range(lo, hi - 1) + {hi - 1}
  }

  /**
   * PASSING_TEST answers 200 for exactly half of all ints (the 2^31 inputs
   * from -2 to MAX - 2); the other half is reported as "down".
   */
  lemma PassingSuccessCount()
    ensures |set v: int | MIN <= v <= MAX && Serve(PassingTest, v).status == Ok| == 0x8000_0000
  {
    var s := set v: int | MIN <= v <= MAX && Serve(PassingTest, v).status == Ok;
    forall v | MIN <= v <= MAX ensures v in s <==> -2 <= v < MAX - 1 {
      PassingResponses(v);
    }
    assert s == Range(-2, MAX - 1);
  }

  /** FAILING_TEST answers 401 for all 2^32 ints but one. */
  lemma FailingDownCount()
    ensures |set v: int | MIN <= v <= MAX && Serve(FailingTest, v).status == Unauthorized| == MODULUS - 1
  {
    var s := set v: int | MIN <= v <= MAX && Serve(FailingTest, v).status == Unauthorized;
    var all := Range(MIN, MAX + 1);
    forall v | MIN <= v <= MAX ensures v in s <==> v != -2 {
      FailingResponses(v);
    }
    assert s == all - {-2};
  }

  /** THROWS_EXCEPTIONS: 500 with the fixed text for every input. */
  lemma ThrowingResponses(value: Int32)
    ensures Serve(ThrowsExceptions, value) == Response(InternalServerError, Text(FAILED_MESSAGE))
  {
  }

  /** The `default` branch: the input itself, so 200 exactly when it is not negative. */
  lemma DefaultResponses(value: Int32)
    ensures value >= 0 ==> Serve(Other, value) == Response(Ok, Json(value))
    ensures value < 0 ==> Serve(Other, value) == Response(Unauthorized, Text(DOWN_MESSAGE))
  {
  }
}
