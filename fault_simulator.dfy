/**
 * The SOAP fault and rate-limit simulator. Per call it applies, in order, a master
 * switch, a fixed-window admission counter and a probabilistic fault injector.
 * The clock reading and the two random draws are inputs: `now` is the current time
 * in whole seconds, `drawHit` stands for "the uniform draw fell below the fault
 * probability" and `faultIdx` is the value of the three-way draw.
 */
module FaultSimulator {
  import opened Wrappers
  import opened JavaInt
  import opened SoapFaults

  const ServerCode := "SOAP-ENV:Server"
  const ClientCode := "SOAP-ENV:Client"
  const RateLimitString := "Rate limit exceeded"

  /** Random fault 0: the service is overloaded; a retry may succeed. */
  const ServiceUnavailable := SoapFault(ServerCode, "Service temporarily unavailable",
    "The service is currently overloaded. Please retry later.", true)
  /** Random fault 1: authentication failed; retrying will not help. */
  const InvalidCredentials := SoapFault(ClientCode, "Invalid credentials",
    "Authentication failed. Please check your credentials.", false)
  /** Random fault 2: a rate-limit fault with its own detail text. */
  const TooManyRequests := SoapFault(ServerCode, RateLimitString,
    "Too many requests. Retry after 30 seconds.", true)

  /** The configuration the simulator is started with; it never changes afterwards. */
  datatype Config = Config(enabled: bool, maxRequests: int, windowSeconds: int)

  /** The mutable counter state: admissions in the current window and when it started. */
  datatype Window = Window(requestCount: int, windowStart: int)

  /** New counter state and whether the request exceeded the budget. */
  datatype Admission = Admission(window: Window, exceeded: bool)

  /** The environment's inputs to one call: the clock and the two random draws. */
  datatype Call = Call(now: int, drawHit: bool, faultIdx: int)

  /** New counter state and the fault returned, None for "no fault". */
  datatype Step = Step(window: Window, fault: Option<SoapFault>)

  /** Final counter state and the fault returned by each call of a sequence. */
  datatype Trace = Trace(window: Window, faults: seq<Option<SoapFault>>)

  /** Detail text of the budget-exhaustion fault, built by string concatenation. */
  function RateLimitDetail(maxRequests: int, windowSeconds: int): (d: string)
    ensures |d| > 16 && d[..8] == "Maximum " && d[|d| - 8..] == " seconds"
  {
    "Maximum " + (ToString(maxRequests) + (" requests per " + (ToString(windowSeconds) + " seconds")))
  }

  /** The fault returned when the admission counter rejects a request. */
  function RateLimitFault(cfg: Config): (f: SoapFault)
    ensures f.faultCode == ServerCode && f.faultString == RateLimitString && f.isTransient
    ensures f.GetMessage() == TooManyRequests.GetMessage()
  {
    SoapFault(ServerCode, RateLimitString, RateLimitDetail(cfg.maxRequests, cfg.windowSeconds), true)
  }

  /** The switch over the three-way draw; any other value falls to the default branch. */
  function RandomFault(faultType: int): (r: Option<SoapFault>)
    ensures r.Some? <==> 0 <= faultType < 3
    ensures r.Some? ==> (!r.value.isTransient <==> r.value.faultCode == ClientCode)
    ensures r.Some? ==> (r.value.isTransient <==> r.value.faultCode == ServerCode)
  {
    if faultType == 0 then Some(ServiceUnavailable)
    else if faultType == 1 then Some(InvalidCredentials)
    else if faultType == 2 then Some(TooManyRequests)
    else None
  }

  /**
   * The admission counter: lazily start a new window when more whole seconds than
   * the window length have passed, then count this request (with Java `int`
   * wrap-around) and reject it when the count is above the maximum.
   */
  function Admit(cfg: Config, w: Window, now: int): (a: Admission)
    ensures a.exceeded <==> a.window.requestCount > cfg.maxRequests
    ensures a.window.windowStart == w.windowStart || a.window.windowStart == now
    ensures IsInt(a.window.requestCount)
  {
    var base := if now - w.windowStart > cfg.windowSeconds then Window(0, now) else w;
    var count := Wrap(base.requestCount + 1);
    Admission(Window(count, base.windowStart), count > cfg.maxRequests)
  }

  /** What the fault injector returns once the counter has admitted the request. */
  function Injected(c: Call): (r: Option<SoapFault>)
    ensures r.Some? <==> c.drawHit && 0 <= c.faultIdx < 3
    ensures r.Some? ==> r.value in {ServiceUnavailable, InvalidCredentials, TooManyRequests}
  {
    if c.drawHit then RandomFault(c.faultIdx) else None
  }

  /** One call of the simulator: the master switch, then the counter, then the injector. */
  function Simulate(cfg: Config, w: Window, c: Call): (s: Step)
    ensures !cfg.enabled ==> s == Step(w, None)
    ensures cfg.enabled ==> s.window == Admit(cfg, w, c.now).window
    ensures cfg.enabled && Admit(cfg, w, c.now).exceeded ==> s.fault == Some(RateLimitFault(cfg))
    ensures cfg.enabled && !Admit(cfg, w, c.now).exceeded && !c.drawHit ==> s.fault == None
    ensures cfg.enabled && !Admit(cfg, w, c.now).exceeded && c.drawHit ==> s.fault == RandomFault(c.faultIdx)
  {
    if !cfg.enabled then Step(w, None)
    else
      var a := Admit(cfg, w, c.now);
      if a.exceeded then Step(a.window, Some(RateLimitFault(cfg)))
      else Step(a.window, Injected(c))
  }

  /** A sequence of calls made one after another on the same simulator. */
  function Run(cfg: Config, w: Window, calls: seq<Call>): (t: Trace)
    ensures |t.faults| == |calls|
    decreases |calls|
  {
    if calls == [] then Trace(w, [])
    else
      var s := Simulate(cfg, w, calls[0]);
      var rest := Run(cfg, s.window, calls[1..]);
      Trace(rest.window, [s.fault] + rest.faults)
  }

  /** The window rolls over exactly when the elapsed whole seconds exceed the window length. */
  lemma RolloverExactlyWhenElapsed(cfg: Config, w: Window, now: int)
    requires IsInt(w.requestCount)
    ensures now - w.windowStart > cfg.windowSeconds ==> Admit(cfg, w, now).window == Window(1, now)
    ensures now - w.windowStart <= cfg.windowSeconds ==>
      Admit(cfg, w, now).window == Window(Wrap(w.requestCount + 1), w.windowStart)
  {
  }

  /** Every counted call adds exactly one to the count left by any reset, rejected calls included. */
  lemma CountsEveryCall(cfg: Config, w: Window, c: Call)
    requires cfg.enabled && IsInt(w.requestCount) && w.requestCount < MaxInt
    ensures var s := Simulate(cfg, w, c);
      s.window.requestCount == (if c.now - w.windowStart > cfg.windowSeconds then 1 else w.requestCount + 1)
  {
  }

  /** The first call after the window has expired is always admitted when the budget allows one request. */
  lemma FreshWindowAdmits(cfg: Config, w: Window, now: int)
    requires now - w.windowStart > cfg.windowSeconds && cfg.maxRequests >= 1
    ensures !Admit(cfg, w, now).exceeded
  {
  }

  /** A rejection by the counter ignores both random draws. */
  lemma RateGateIgnoresDraws(cfg: Config, w: Window, now: int, hit1: bool, idx1: int, hit2: bool, idx2: int)
    requires cfg.enabled && Admit(cfg, w, now).exceeded
    ensures Simulate(cfg, w, Call(now, hit1, idx1)) == Simulate(cfg, w, Call(now, hit2, idx2))
  {
  }

  /** Each value of the three-way draw yields a fault, so the default branch is never taken. */
  lemma RandomFaultTable(i: int)
    requires 0 <= i < 3
    ensures RandomFault(i) == Some([ServiceUnavailable, InvalidCredentials, TooManyRequests][i])
    ensures RandomFault(i).Some?
  {
  }

  /** The two "Rate limit exceeded" faults share code, string and transience but never their detail text. */
  lemma RateLimitFaultsDiffer(cfg: Config)
    ensures RateLimitFault(cfg).faultCode == TooManyRequests.faultCode
    ensures RateLimitFault(cfg).faultString == TooManyRequests.faultString
    ensures RateLimitFault(cfg).isTransient && TooManyRequests.isTransient
    ensures RateLimitFault(cfg).faultDetail != TooManyRequests.faultDetail
  {
    assert RateLimitFault(cfg).faultDetail[0] == 'M';
  }

  /** Every fault the simulator returns is one of the four templates, and it is permanent exactly when it is a client fault. */
  lemma FaultTaxonomy(cfg: Config, w: Window, c: Call)
    ensures var f := Simulate(cfg, w, c).fault;
      f.Some? ==>
        (f.value in {RateLimitFault(cfg), ServiceUnavailable, InvalidCredentials, TooManyRequests}) &&
        (!f.value.isTransient <==> f.value.faultCode == ClientCode)
  {
  }

  /**
   * Splits a text at the space that follows a printed number: a space-free prefix
   * followed by a text starting with a space is determined by the whole. Used to take
   * the rejection detail apart into its two numbers.
   */
  lemma SplitBeforeSpace(a: string, x: string, b: string, y: string)
    requires NoSpace(a) && NoSpace(b)
    requires |x| > 0 && x[0] == ' ' && |y| > 0 && y[0] == ' '
    requires a + x == b + y
    ensures a == b && x == y
  {
    var k := if |a| < |b| then |a| else |b|;
    assert (a + x)[k] == (b + y)[k];
    assert |a| == |b|;
    assert a == (a + x)[..|a|];
    assert b == (b + y)[..|b|];
    assert x == (a + x)[|a|..];
    assert y == (b + y)[|b|..];
  }

  /** The budget-exhaustion detail reports the configured maximum and window: distinct settings give distinct texts. */
  lemma RateLimitDetailInjective(m1: int, w1: int, m2: int, w2: int)
    requires RateLimitDetail(m1, w1) == RateLimitDetail(m2, w2)
    ensures m1 == m2 && w1 == w2
  {
    var prefix := "Maximum ";
    var mid := " requests per ";
    var tail1 := ToString(w1) + " seconds";
    var tail2 := ToString(w2) + " seconds";
    var rest1 := ToString(m1) + (mid + tail1);
    var rest2 := ToString(m2) + (mid + tail2);
    assert rest1 == RateLimitDetail(m1, w1)[|prefix|..];
    assert rest2 == RateLimitDetail(m2, w2)[|prefix|..];
    SplitBeforeSpace(ToString(m1), mid + tail1, ToString(m2), mid + tail2);
    assert tail1 == (mid + tail1)[|mid|..];
    assert tail2 == (mid + tail2)[|mid|..];
    SplitBeforeSpace(ToString(w1), " seconds", ToString(w2), " seconds");
    ToStringInjective(m1, m2);
    ToStringInjective(w1, w2);
  }

  /**
   * Within one window, starting from count c, call i is rejected exactly when c + i + 1
   * exceeds the maximum; every other call gets only what the injector decides.
   */
  lemma {:induction false} BurstWithinWindow(cfg: Config, w: Window, calls: seq<Call>)
    requires cfg.enabled
    requires IsInt(w.requestCount) && w.requestCount + |calls| <= MaxInt
    requires forall i :: 0 <= i < |calls| ==> calls[i].now - w.windowStart <= cfg.windowSeconds
    ensures Run(cfg, w, calls).window == Window(w.requestCount + |calls|, w.windowStart)
    ensures forall i :: 0 <= i < |calls| ==>
      Run(cfg, w, calls).faults[i] ==
        if w.requestCount + i + 1 > cfg.maxRequests then Some(RateLimitFault(cfg)) else Injected(calls[i])
    decreases |calls|
  {
    if calls != [] {
      var s := Simulate(cfg, w, calls[0]);
      assert s.window == Window(w.requestCount + 1, w.windowStart);
      var tail := calls[1..];
      assert forall i :: 0 <= i < |tail| ==> tail[i] == calls[i + 1];
      BurstWithinWindow(cfg, s.window, tail);
      var t := Run(cfg, w, calls);
      forall i | 0 <= i < |calls|
        ensures t.faults[i] ==
          if w.requestCount + i + 1 > cfg.maxRequests then Some(RateLimitFault(cfg)) else Injected(calls[i])
      {
        if i > 0 {
          assert t.faults[i] == Run(cfg, s.window, tail).faults[i - 1];
        }
      }
    }
  }

  /** From a fresh window, calls 1 to maxRequests pass the counter and call maxRequests + 1 is rejected. */
  lemma LimitReachedExactly(cfg: Config, start: int, calls: seq<Call>)
    requires cfg.enabled && 0 <= cfg.maxRequests < MaxInt && |calls| == cfg.maxRequests + 1
    requires forall i :: 0 <= i < |calls| ==> calls[i].now - start <= cfg.windowSeconds
    ensures var t := Run(cfg, Window(0, start), calls);
      (forall i :: 0 <= i < cfg.maxRequests ==> t.faults[i] == Injected(calls[i])) &&
      t.faults[cfg.maxRequests] == Some(RateLimitFault(cfg)) &&
      t.window == Window(cfg.maxRequests + 1, start)
  {
    BurstWithinWindow(cfg, Window(0, start), calls);
  }

  /** With the master switch off, any number of calls returns no fault and leaves the counter alone. */
  lemma {:induction false} DisabledRunIsNoOp(cfg: Config, w: Window, calls: seq<Call>)
    requires !cfg.enabled
    ensures Run(cfg, w, calls).window == w
    ensures forall i :: 0 <= i < |calls| ==> Run(cfg, w, calls).faults[i] == None
    decreases |calls|
  {
    if calls != [] {
      DisabledRunIsNoOp(cfg, w, calls[1..]);
    }
  }

  /**
   * The counter is a Java `int` that also counts rejected calls: once it has reached the
   * largest `int` the next call in the same window wraps it to the smallest `int`, which
   * is not above any maximum, so that call is admitted again.
   */
  lemma CounterWrapReadmits(cfg: Config, w: Window, now: int)
    requires IsInt(cfg.maxRequests) && w.requestCount == MaxInt
    requires now - w.windowStart <= cfg.windowSeconds
    ensures Admit(cfg, w, now) == Admission(Window(MinInt, w.windowStart), false)
  {
  }

  /**
   * Two requests per 60-second window and no random faults: calls 1 and 2 pass, call 3
   * in the same window is rejected, and a call 61 seconds later passes again.
   */
  lemma TwoPerMinuteScenario(t0: int, idx: int)
    ensures var cfg := Config(true, 2, 60);
      var calls := [Call(t0, false, idx), Call(t0, false, idx), Call(t0, false, idx), Call(t0 + 61, false, idx)];
      Run(cfg, Window(0, t0), calls) == Trace(Window(1, t0 + 61), [None, None, Some(RateLimitFault(cfg)), None])
  {
    var cfg := Config(true, 2, 60);
    var calls := [Call(t0, false, idx), Call(t0, false, idx), Call(t0, false, idx), Call(t0 + 61, false, idx)];
    assert Run(cfg, Window(3, t0), calls[3..]) == Trace(Window(1, t0 + 61), [None]);
    assert Run(cfg, Window(2, t0), calls[2..]) == Trace(Window(1, t0 + 61), [Some(RateLimitFault(cfg)), None]);
    assert Run(cfg, Window(1, t0), calls[1..]) == Trace(Window(1, t0 + 61), [None, Some(RateLimitFault(cfg)), None]);
  }

  /** The simulator object: its configuration and the two counter fields it updates in place. */
  class SoapFaultSimulator {
    const enabled: bool
    const maxRequests: int
    const windowSeconds: int
    var requestCount: int
    var windowStart: int

    /** The fields keep the ranges of their Java `int` types. */
    ghost predicate Valid()
      reads this
    {
      IsInt(maxRequests) && IsInt(windowSeconds) && IsInt(requestCount)
    }

    function Settings(): Config {
      Config(enabled, maxRequests, windowSeconds)
    }

    ghost function State(): Window
      reads this
    {
      Window(requestCount, windowStart)
    }

    /** A simulator with the given settings whose first window starts at `startTime` with no requests counted. */
    constructor (enabled: bool, maxRequests: int, windowSeconds: int, startTime: int)
      requires IsInt(maxRequests) && IsInt(windowSeconds)
      ensures Valid()
      ensures Settings() == Config(enabled, maxRequests, windowSeconds)
      ensures State() == Window(0, startTime)
    {
      this.enabled := enabled;
      this.maxRequests := maxRequests;
      this.windowSeconds := windowSeconds;
      requestCount := 0;
      windowStart := startTime;
    }

    /** Rolls the window over if it has expired, counts the request and reports whether it is over the budget. */
    method IsRateLimitExceeded(now: int) returns (exceeded: bool)
      requires Valid()
      modifies this
      ensures Valid()
      ensures Admission(State(), exceeded) == Admit(Settings(), old(State()), now)
    {
      if now - windowStart > windowSeconds {
        windowStart := now;
        requestCount := 0;
      }
      requestCount := Wrap(requestCount + 1);
      exceeded := requestCount > maxRequests;
    }

    /** One call from the endpoint: None when no fault is to be simulated, otherwise the fault to raise. */
    method SimulateFault(now: int, drawHit: bool, faultIdx: int) returns (fault: Option<SoapFault>)
      requires Valid()
      modifies this
      ensures Valid()
      ensures Step(State(), fault) == Simulate(Settings(), old(State()), Call(now, drawHit, faultIdx))
      ensures !enabled ==> fault == None && State() == old(State())
    {
      if !enabled {
        return None;
      }
      var exceeded := IsRateLimitExceeded(now);
      if exceeded {
        return Some(RateLimitFault(Settings()));
      }
      if drawHit {
        return RandomFault(faultIdx);
      }
      return None;
    }
  }
}
