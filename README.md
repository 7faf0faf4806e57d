# Mock-Test-Like-a-Chameleon in Dafny

A model of the `GET /calculate/addTwoTo/{value}` handler of
`CalculationResource` and of its test double `MockCalculationService`.

The handler calls an injected `CalculationService` once and classifies what
happened into exactly one response:

- a result `>= 0` gives 200 with the result as the body;
- a result `< 0` gives 401 with "CalculationService is down, try again later.";
- a thrown exception gives 500 with "CalculationService failed, please let support know.".

The mock holds a behaviour selector fixed at construction. `addTwoTo` then
returns `value + 2` (PASSING_TEST), `-1 * Math.abs(value + 2)`
(FAILING_TEST), throws (THROWS_EXCEPTIONS), or returns `value` (the
`default` branch).

Files and modules:

- `java_int.dfy`, module `JavaInt`: Java's 32-bit `int` as the subset type
  `Int32`, with wrap-around `+`, `*`, unary `-` and `Math.abs`. Under it,
  `Math.abs(MIN_VALUE)` and `-1 * MIN_VALUE` are both `MIN_VALUE`.
- `service.dfy`, module `Service`: the outcome of one service call,
  `Value(int)` or `Failure` (the exception).
- `mocking.dfy`, module `Mocking`: the selector `Behaviour`, the pure
  function `Behave`, and the class `MockCalculationService`. The class has a
  `const` selector, both constructors, and `AddTwoTo`, which is proved equal
  to `Behave`.
- `resource.dfy`, module `Resource`: the response type and the handler.
  `Respond` classifies an outcome. `AddTwoTo` takes the injected service as
  a function parameter.
- `mocked_resource.dfy`, module `MockedResource`: the handler wired to the
  mock, with what it answers for every input under each selector.

The handler and the mock are functions. So the same input and selector
always give the same response. The handler's injected field is only read.

Two edge cases of the code:

- FAILING_TEST yields 0 at input -2, because `-1 * Math.abs(-2 + 2)` is 0.
  The test is a strict `< 0`, so the handler answers 200 with body 0
  (`MockedResource.FailingResponses`).
- PASSING_TEST's sum wraps to a negative int at `MAX_VALUE - 1` and
  `MAX_VALUE`, so the handler answers 401 there
  (`MockedResource.PassingResponses`).

## Model

| member | source | states |
|---|---|---|
| JavaInt.Add | src/test/java/com/camelion/testing/mocking/MockCalculationService.java:24 | `a + b` is the exact sum when it fits in an int, else the sum shifted by 2^32 into the int range |
| JavaInt.Mul | src/test/java/com/camelion/testing/mocking/MockCalculationService.java:26 | `a * b` is congruent to the exact product modulo 2^32, and equals it when it fits |
| JavaInt.Neg | src/test/java/com/camelion/testing/mocking/MockCalculationService.java:26 | negation is `-a` except for MIN_VALUE, which stays MIN_VALUE |
| JavaInt.Abs | src/test/java/com/camelion/testing/mocking/MockCalculationService.java:26 | `Math.abs` is the non-negative one of `a`, `-a` for every int but MIN_VALUE, and MIN_VALUE for MIN_VALUE |
| JavaInt.MulMinusOne | src/test/java/com/camelion/testing/mocking/MockCalculationService.java:26 | `-1 * a` is Java negation |
| JavaInt.WrapUnique | src/test/java/com/camelion/testing/mocking/MockCalculationService.java:24 | the wrapped result is the only int congruent to the exact result modulo 2^32 |
| Mocking.Behave | src/test/java/com/camelion/testing/mocking/MockCalculationService.java:21-32 | the call fails exactly when the selector is THROWS_EXCEPTIONS |
| Mocking.MockCalculationService.Default | src/test/java/com/camelion/testing/mocking/MockCalculationService.java:11-13 | the no-argument constructor selects PASSING_TEST |
| Mocking.MockCalculationService.constructor | src/test/java/com/camelion/testing/mocking/MockCalculationService.java:16-18 | the public constructor keeps the selector it is given |
| Mocking.MockCalculationService.AddTwoTo | src/test/java/com/camelion/testing/mocking/MockCalculationService.java:21-32 | the outcome for the stored selector is the one `Behave` gives (the switch itself) |
| Mocking.CallTwice | src/test/java/com/camelion/testing/mocking/MockCalculationService.java:8-32 | two calls on one mock with the same input give the same outcome |
| Mocking.PassingAddsTwo | src/test/java/com/camelion/testing/mocking/MockCalculationService.java:23-24 | PASSING_TEST returns `value + 2`, less 2^32 at the two inputs where the sum overflows |
| Mocking.PassingNegativeIff | src/test/java/com/camelion/testing/mocking/MockCalculationService.java:23-24 | PASSING_TEST's result is negative exactly for inputs below -2 and above MAX_VALUE - 2 |
| Mocking.FailingNonPositive | src/test/java/com/camelion/testing/mocking/MockCalculationService.java:25-26 | FAILING_TEST always returns an int `<= 0`, even under wrap-around; it is 0 exactly for input -2; it is `-abs(value + 2)` when the sum fits |
| Mocking.ThrowsAlwaysFails | src/test/java/com/camelion/testing/mocking/MockCalculationService.java:27-28 | THROWS_EXCEPTIONS fails for every input and never returns an int |
| Mocking.DefaultIsIdentity | src/test/java/com/camelion/testing/mocking/MockCalculationService.java:29-30 | the `default` branch returns the input unchanged |
| Mocking.TestScenarios | src/test/java/com/camelion/testing/mocking/MockCalculationServiceTest.java:9-28 | on input 3: PASSING_TEST gives 5, FAILING_TEST gives -5 (negative), THROWS_EXCEPTIONS fails |
| Resource.Respond | src/main/java/com/camelion/testing/resource/CalculationResource.java:20-35 | 200 iff the call returned `r >= 0`, with body exactly `r`; 401 with the "down" text iff it returned `r < 0`; 500 with the "failed" text iff it threw an `Exception`; every modelled outcome gives exactly one response |
| Resource.AddTwoTo | src/main/java/com/camelion/testing/resource/CalculationResource.java:19-36 | status code 200, 401 or 500 according to the injected service's outcome on `value`, with the matching body |
| Resource.SuccessIsFaithful | src/main/java/com/camelion/testing/resource/CalculationResource.java:29 | a 200 response determines the service's outcome: the value passes through unchanged |
| Resource.ZeroIsSuccess | src/main/java/com/camelion/testing/resource/CalculationResource.java:23 | a result of 0 is a success, because the test is a strict `< 0` |
| Resource.NegativesIndistinguishable | src/main/java/com/camelion/testing/resource/CalculationResource.java:23-27 | all negative results give one and the same 401 response |
| MockedResource.PassingResponses | src/main/java/com/camelion/testing/resource/CalculationResource.java:21-29 | with PASSING_TEST: 200 with body `value + 2` for -2 to MAX_VALUE - 2, otherwise 401 |
| MockedResource.FailingResponses | src/main/java/com/camelion/testing/resource/CalculationResource.java:21-29 | with FAILING_TEST: 401 for every input except -2, which gets 200 with body 0 |
| MockedResource.FailingSucceedsOnlyAtMinusTwo | src/main/java/com/camelion/testing/resource/CalculationResource.java:23-29 | -2 is the only int that FAILING_TEST lets through as a 200 |
| MockedResource.PassingSuccessCount | src/main/java/com/camelion/testing/resource/CalculationResource.java:23-29 | with PASSING_TEST exactly 2^31 of the 2^32 inputs get 200 |
| MockedResource.FailingDownCount | src/main/java/com/camelion/testing/resource/CalculationResource.java:23-27 | with FAILING_TEST exactly 2^32 - 1 inputs get 401 |
| MockedResource.ThrowingResponses | src/main/java/com/camelion/testing/resource/CalculationResource.java:31-34 | with THROWS_EXCEPTIONS: 500 with the "failed" text for every input |
| MockedResource.DefaultResponses | src/main/java/com/camelion/testing/resource/CalculationResource.java:21-29 | with the `default` branch: 200 with the input as body when it is not negative, otherwise 401 |

## Left out

- JAX-RS routing and annotations (`@Path`, `@GET`, `@PathParam`, `@Produces`, `@Consumes`): the framework parses the path parameter and dispatches the request. The model starts from an `Int32` value.
- `@Inject` dependency injection: the service is a parameter of `Resource.AddTwoTo`, a function from the input to the outcome.
- The `Response` builder and JSON serialization: a response is a status and either an int or a text.
- The exception's message ("Simulated exception for testing"): the handler never reads it, so `Failure` carries nothing.
- The `CalculationService` interface is modelled only as the function type `Int32 -> Outcome`, not as a type of its own. Its production implementation and the `CamelionTestBehavior` enum are not part of this model. Only the three named selector constants are known; `Other` stands for any further constant reaching the `default` branch.
- Resource.Respond: `Failure` stands for a thrown `Exception` only. An `Error` thrown by the service is not caught by `catch (Exception e)` and leaves the handler, which the model does not represent.
- A null selector: `switch` on a null enum throws `NullPointerException`, which the handler would turn into 500. The model's selector is never null.
- The JUnit harness: its three tests appear only as `Mocking.TestScenarios`.
