# SOAP fault and rate-limit simulator

This project models the fault simulator of the lovion-dummy backend. The simulator is meant to be called from the SOAP endpoint once per request, as its Javadoc says, to decide whether to simulate a failure. No endpoint in this code calls it. Each call answers "no fault" (`null` in Java, `None` here) or a `SoapFaultException` value. Each call runs three steps in order:

1. **Master switch.** When `enabled` is false the answer is "no fault" and no state changes.
2. **Fixed-window admission counter.** A new window starts when more whole seconds than `windowSeconds` have passed since `windowStart`. Then the request is counted, and it is rejected with a transient "Rate limit exceeded" fault when the count is above `maxRequests`.
3. **Fault injector.** When the probability draw hits, a three-way draw picks one of three fixed faults.

Modules:

- `Wrappers`: `Option`, which stands for a Java reference that may be null.
- `JavaInt`: Java `int` wrap-around (`Wrap`) and the decimal text Java prints for an `int` (`ToString`). `ToString` is proved injective through a parse round trip.
- `SoapFaults`: the fault value. It is an immutable datatype with the four final fields of `SoapFaultException` and its message.
- `FaultSimulator`: the behaviour as pure functions and the `SoapFaultSimulator` class.
  - `Admit` is the counter and `Simulate` is one call. `Run` is a sequence of calls made one after another.
  - The class keeps the two mutable fields, `requestCount` and `windowStart`. Its methods are proved equal to `Admit` and `Simulate` on the old field values. The lemmas state the listed properties about those functions.

The clock and the random generator are inputs:

- `now` is the time of the call in whole seconds.
- `drawHit` stands for `random.nextDouble() < probability`.
- `faultIdx` is the value of `random.nextInt(3)`.

`requestCount++` is modelled with Java's 32-bit wrap-around. Rejected calls are counted too, so in one window the counter can climb to `Integer.MAX_VALUE`. The next call then wraps it to `Integer.MIN_VALUE`, and that call is admitted again (`CounterWrapReadmits`). This takes over two billion calls in one window. The model keeps the behaviour as written.

Notes on the code:

- The fault codes are the literal strings `SOAP-ENV:Server` and `SOAP-ENV:Client`.
- Nothing checks that `maxRequests` and `windowSeconds` are positive, so the model accepts any `int` for them.
- The class is not synchronised.
- A fault is the four-field value, with no separate kind.

## Model

| member | source | states |
|---|---|---|
| JavaInt.Wrap | src/main/java/nl/blitz/loviondummy/soap/SoapFaultSimulator.java:75 | the result is a Java `int` congruent to the exact sum modulo 2^32, and equal to it when the sum is in range |
| JavaInt.Increment | src/main/java/nl/blitz/loviondummy/soap/SoapFaultSimulator.java:75 | `++` on any `int` gives one more, except that `Integer.MAX_VALUE` becomes `Integer.MIN_VALUE` |
| JavaInt.NatToString | src/main/java/nl/blitz/loviondummy/soap/SoapFaultSimulator.java:52 | a non-empty string of decimal digits with a leading zero exactly for 0 |
| JavaInt.ToString | src/main/java/nl/blitz/loviondummy/soap/SoapFaultSimulator.java:52 | the text of an `int` is non-empty, has no space, and starts with '-' exactly for negative numbers |
| JavaInt.NatToStringRoundTrip | src/main/java/nl/blitz/loviondummy/soap/SoapFaultSimulator.java:52 | parsing the decimal digits of n gives back n |
| JavaInt.ToStringRoundTrip | src/main/java/nl/blitz/loviondummy/soap/SoapFaultSimulator.java:52 | parsing the printed `int` gives back the `int` |
| JavaInt.ToStringInjective | src/main/java/nl/blitz/loviondummy/soap/SoapFaultSimulator.java:52 | distinct `int`s print as distinct strings |
| SoapFaults.ConstructorStoresFields | src/main/java/nl/blitz/loviondummy/soap/SoapFaultException.java:10-35 | each getter returns the argument given at construction, and the message equals the fault string |
| FaultSimulator.RateLimitDetail | src/main/java/nl/blitz/loviondummy/soap/SoapFaultSimulator.java:52 | the rejection detail starts with "Maximum " and ends with " seconds"; RateLimitDetailInjective shows it determines both settings |
| FaultSimulator.RateLimitFault | src/main/java/nl/blitz/loviondummy/soap/SoapFaultSimulator.java:49-54 | the counter's rejection fault has code SOAP-ENV:Server, string "Rate limit exceeded", is transient, and has the same message as random fault 2 |
| FaultSimulator.RandomFault | src/main/java/nl/blitz/loviondummy/soap/SoapFaultSimulator.java:79-110 | a fault exactly for draws 0, 1 and 2 (null otherwise); a fault is permanent iff its code is SOAP-ENV:Client and transient iff it is SOAP-ENV:Server |
| FaultSimulator.Injected | src/main/java/nl/blitz/loviondummy/soap/SoapFaultSimulator.java:58-63 | the injector gives a fault exactly when the draw hits and the three-way draw is 0, 1 or 2, and that fault is one of the three random templates; otherwise no fault |
| FaultSimulator.Admit | src/main/java/nl/blitz/loviondummy/soap/SoapFaultSimulator.java:66-77 | rejected iff the post-increment count exceeds maxRequests; the window start is kept or moved to now; the count stays a Java `int` |
| FaultSimulator.Simulate | src/main/java/nl/blitz/loviondummy/soap/SoapFaultSimulator.java:37-64 | disabled: no fault and the state is unchanged; enabled: the counter state is Admit's; a rejection gives the rate-limit fault; a missed draw gives no fault; a hit gives the indexed fault |
| FaultSimulator.Run | src/main/java/nl/blitz/loviondummy/soap/SoapFaultSimulator.java:37-64 | a sequence of calls yields one answer per call |
| FaultSimulator.RolloverExactlyWhenElapsed | src/main/java/nl/blitz/loviondummy/soap/SoapFaultSimulator.java:69-75 | when the elapsed seconds exceed windowSeconds, the window restarts at now with count 1; otherwise the start is kept and the count is incremented |
| FaultSimulator.CountsEveryCall | src/main/java/nl/blitz/loviondummy/soap/SoapFaultSimulator.java:69-76 | every enabled call, rejected or not, adds exactly one to the count left by any reset |
| FaultSimulator.FreshWindowAdmits | src/main/java/nl/blitz/loviondummy/soap/SoapFaultSimulator.java:69-76 | the first call after the window expires is admitted whatever the earlier count, when maxRequests >= 1 |
| FaultSimulator.RateGateIgnoresDraws | src/main/java/nl/blitz/loviondummy/soap/SoapFaultSimulator.java:48-58 | a rejected call's answer and new state do not depend on either random draw |
| FaultSimulator.RandomFaultTable | src/main/java/nl/blitz/loviondummy/soap/SoapFaultSimulator.java:80-109 | draws 0, 1 and 2 give service unavailable, invalid credentials and too many requests, so the default branch is unreachable |
| FaultSimulator.RateLimitFaultsDiffer | src/main/java/nl/blitz/loviondummy/soap/SoapFaultSimulator.java:49-106 | the two "Rate limit exceeded" faults share code, string and transience but always differ in detail |
| FaultSimulator.FaultTaxonomy | src/main/java/nl/blitz/loviondummy/soap/SoapFaultSimulator.java:48-109 | every returned fault is one of the four templates, and it is non-transient iff its code is SOAP-ENV:Client |
| FaultSimulator.SplitBeforeSpace | src/main/java/nl/blitz/loviondummy/soap/SoapFaultSimulator.java:52 | two space-free words that are followed by space-led texts and concatenate equally are equal, as are the texts |
| FaultSimulator.RateLimitDetailInjective | src/main/java/nl/blitz/loviondummy/soap/SoapFaultSimulator.java:52 | the rejection detail determines the configured maxRequests and windowSeconds |
| FaultSimulator.BurstWithinWindow | src/main/java/nl/blitz/loviondummy/soap/SoapFaultSimulator.java:48-76 | within one window from count c, call i is rejected exactly when c+i+1 > maxRequests, otherwise it gets the injector's answer; the final count is c plus the number of calls |
| FaultSimulator.LimitReachedExactly | src/main/java/nl/blitz/loviondummy/soap/SoapFaultSimulator.java:48-76 | from a fresh window, calls 1..maxRequests pass the counter and call maxRequests+1 is rejected |
| FaultSimulator.DisabledRunIsNoOp | src/main/java/nl/blitz/loviondummy/soap/SoapFaultSimulator.java:38-40 | with the switch off, any number of calls returns no fault and never touches the counter |
| FaultSimulator.CounterWrapReadmits | src/main/java/nl/blitz/loviondummy/soap/SoapFaultSimulator.java:75-76 | a count at Integer.MAX_VALUE wraps to Integer.MIN_VALUE on the next call in the window, which is then admitted |
| FaultSimulator.TwoPerMinuteScenario | src/main/java/nl/blitz/loviondummy/soap/SoapFaultSimulator.java:37-77 | with 2 requests per 60 s and no random faults: none, none, rate-limit fault, then none 61 s later |
| FaultSimulator.SoapFaultSimulator.constructor | src/main/java/nl/blitz/loviondummy/soap/SoapFaultSimulator.java:13-28 | stores the four settings; the counter starts at 0 with the window starting at the construction time |
| FaultSimulator.SoapFaultSimulator.IsRateLimitExceeded | src/main/java/nl/blitz/loviondummy/soap/SoapFaultSimulator.java:66-77 | the in-place update of requestCount and windowStart and the answer are exactly Admit on the old fields |
| FaultSimulator.SoapFaultSimulator.SimulateFault | src/main/java/nl/blitz/loviondummy/soap/SoapFaultSimulator.java:37-64 | the answer and new fields are exactly Simulate on the old fields; disabled calls return no fault and change nothing |

## Left out

- Wall clock: `LocalDateTime.now()` and `Duration.between(...).getSeconds()` are replaced by `now`, the call time in whole seconds. Sub-second parts of the timestamps are not modelled.
- Randomness: `java.util.Random` is replaced by the inputs `drawHit` and `faultIdx`. Nothing states the distribution of the draws.
- Floating point: the `probability` setting and `nextDouble()` are not modelled. Their comparison is the boolean `drawHit`.
- Debug output: the `System.out.println` in `simulateFault` is I/O.
- Concurrency: the Java class is unsynchronised and `requestCount++` is not atomic. Only calls made one after another are modelled.
- Spring wiring: the `@Value` injection becomes constructor parameters. The initial `windowStart` of `LocalDateTime.now()` becomes the `startTime` parameter.
- Exception machinery: `SoapFaultException` extends `Exception`. Only its four fields and its message are modelled. Stack traces and throwing are not.
- SOAP transport, REST, persistence and DTO mapping: these are binding and delegation code with no logic of their own. No endpoint operation calls the simulator, so no integration is modelled.
