/** The chat client: the clean-completion check and the per-process cooldown. */
module LlmClient {
  import opened Wrappers
  import opened Errors
  import opened Text

  const MAX_TEMPERATURE := 0.3

  datatype ChatResult = ChatResult(
    text: string, finishReason: Option<string>, needsRevision: bool,
    revisionReason: Option<string>, executed: bool)

  /** What a dry run answers to every chat. */
  const DRY_RUN_ANSWER :=
    ChatResult("[dry-run] LLM not actually executed \U{2014} no tokens spent.", None, false, None, false)

  datatype Choice = Choice(finishReason: Option<string>, content: Option<string>)

  /** How a call of the endpoint ends; Local is an error of the program's own making. */
  datatype Reply = Completed(choices: seq<Choice>) | ProviderFailure | Local(error: Error)

  /** What a reviewer is told of a choice: an ordinary stop says nothing unless it is blank. */
  function ReasonOf(c: Choice): Option<string> {
    match c.finishReason
    case None => Some("truncated:None")
    case Some(why) =>
      if why == "content_filter" then Some("filtered:content_filter")
      else if why != "stop" then Some("truncated:" + why)
      else if c.content.None? || IsBlank(c.content.value) then Some("empty")
      else None
  }

  /** Only "stop" with nonblank content is a clean completion; what is cut short or filtered keeps
      its text, what is blank loses it. */
  function Interpret(choices: seq<Choice>): (r: ChatResult)
    ensures r.executed && r.finishReason == (if choices == [] then None else choices[0].finishReason)
    ensures !r.needsRevision <==>
              choices != [] && choices[0].finishReason == Some("stop")
              && choices[0].content.Some? && !IsBlank(choices[0].content.value)
    ensures r.text != "" ==> choices != [] && Some(r.text) == choices[0].content
    ensures r.text == "" ==> choices == [] || choices[0].content.None? || IsBlank(choices[0].content.value)
    ensures r.revisionReason == if choices == [] then Some("empty") else ReasonOf(choices[0])
  {
    if choices == [] then ChatResult("", None, true, Some("empty"), true)
    else
      var c := choices[0];
      var text := if c.content.Some? then c.content.value else "";
      if c.finishReason != Some("stop") then
        var prefix := if c.finishReason == Some("content_filter") then "filtered:" else "truncated:";
        var shown := if c.finishReason.Some? then c.finishReason.value else "None";
        assert "filtered:" + "content_filter" == "filtered:content_filter" && "truncated:" + "None" == "truncated:None";
        ChatResult(text, c.finishReason, true, Some(prefix + shown), true)
      else if IsBlank(text) then
        assert text == [] ==> IsBlank([]);
        ChatResult("", c.finishReason, true, Some("empty"), true)
      else ChatResult(text, c.finishReason, false, None, true)
  }

  // --- the cooldown as a state machine ---

  datatype Limits = Limits(threshold: int, cooldown: real)

  /** Consecutive failures and the end of the armed window. */
  datatype Breaker = Breaker(failures: nat, until: Option<real>)

  const DEFAULT_LIMITS := Limits(3, 60.0)

  const FRESH := Breaker(0, None)

  /** The state a call goes through with, or None when it is skipped. */
  function Admit(b: Breaker, now: real): Option<Breaker> {
    match b.until
    case None => Some(b)
    case Some(u) => if now < u then None else Some(b.(until := None))
  }

  function Fail(l: Limits, b: Breaker, now: real): Breaker {
    var n := b.failures + 1;
    if n >= l.threshold then Breaker(n, Some(now + l.cooldown)) else b.(failures := n)
  }

  /** One use of the client: when it starts and ends, whether the endpoint client could be
      built, and how the endpoint answers if it is reached. */
  datatype Attempt = Attempt(start: real, end: real, ready: bool, reply: Reply)

  predicate Reaches(b: Breaker, a: Attempt) { Admit(b, a.start).Some? && a.ready }

  function After(l: Limits, b: Breaker, a: Attempt): Breaker {
    match Admit(b, a.start)
    case None => b
    case Some(b') =>
      if !a.ready then b'
      else match a.reply
        case Completed(_) => FRESH
        case ProviderFailure => Fail(l, b', a.end)
        case Local(_) => b'
  }

  /** What a call that reached the endpoint gives, and how it leaves the count and the window: a
      completion of any kind clears both, only a failure of the provider counts. */
  predicate Answers(r: Result<ChatResult, Error>, l: Limits, failures: nat, a: Attempt, b: Breaker) {
    match a.reply
    case Completed(choices) => r == Ok(Interpret(choices)) && b == Breaker(0, None)
    case ProviderFailure =>
      && r == Err(ExternalService) && b.failures == failures + 1
      && b.until == (if failures + 1 < l.threshold then None else Some(a.end + l.cooldown))
    case Local(e) => r == Err(e) && b == Breaker(failures, None)
  }

  class Client {
    const limits: Limits
    const dryRun: bool
    var failures: nat
    var cooldownUntil: Option<real>

    constructor (limits: Limits, dryRun: bool)
      ensures this.limits == limits && this.dryRun == dryRun && Model() == FRESH
    {
      this.limits, this.dryRun, failures, cooldownUntil := limits, dryRun, 0, None;
    }

    function Model(): Breaker
      reads this
    {
      Breaker(failures, cooldownUntil)
    }

    /** One chat. The clock is read at the start and when a failure is recorded. */
    method Chat(temperature: real, a: Attempt) returns (r: Result<ChatResult, Error>, called: bool)
      modifies this
      ensures !(0.0 <= temperature <= 0.3) ==> r == Err(InvalidInput) && !called && Model() == old(Model())
      ensures 0.0 <= temperature <= 0.3 && dryRun ==>
                && !called && Model() == old(Model())
                && r == Ok(ChatResult("[dry-run] LLM not actually executed \U{2014} no tokens spent.", None, false,
                                      None, false))
      ensures 0.0 <= temperature <= 0.3 && !dryRun ==>
                && called == Reaches(old(Model()), a)
                && Model() == After(limits, old(Model()), a)
                && var skipped := old(cooldownUntil).Some? && a.start < old(cooldownUntil).value;
                && (skipped ==> !called && r == Err(ExternalService) && Model() == old(Model()))
                && (!skipped && !a.ready ==>
                      !called && r == Err(MissingDependency) && Model() == Breaker(old(failures), None))
                && (!skipped && a.ready ==> called && Answers(r, limits, old(failures), a, Model()))
    {
      called := false;
      if temperature < 0.0 || temperature > MAX_TEMPERATURE {
        return Err(InvalidInput), false;
      }
      if dryRun {
        return Ok(DRY_RUN_ANSWER), false;
      }
      if cooldownUntil.Some? {
        if a.start < cooldownUntil.value {
          return Err(ExternalService), false;
        }
        cooldownUntil := None;
      }
      if !a.ready {
        return Err(MissingDependency), false;
      }
      called := true;
      match a.reply {
        case Completed(choices) =>
          failures, cooldownUntil := 0, None;
          r := Ok(Interpret(choices));
        case ProviderFailure =>
          failures := failures + 1;
          if failures >= limits.threshold {
            cooldownUntil := Some(a.end + limits.cooldown);
          }
          r := Err(ExternalService);
        case Local(e) =>
          r := Err(e);
      }
    }
  }

  // --- how often the endpoint is called ---

  function EndpointCalls(l: Limits, b: Breaker, attempts: seq<Attempt>): nat
    decreases |attempts|
  {
    if attempts == [] then 0
    else (if Reaches(b, attempts[0]) then 1 else 0) + EndpointCalls(l, After(l, b, attempts[0]), attempts[1..])
  }

  /** Attempts one after another on a nondecreasing clock, inside [from, to]. */
  ghost predicate InOrder(attempts: seq<Attempt>, from: real, to: real) {
    attempts != [] ==>
      && from <= attempts[0].start <= attempts[0].end <= to
      && InOrder(attempts[1..], attempts[0].end, to)
  }

  /** Whenever the endpoint is called it fails; errors of the program's own do not occur. */
  ghost predicate OnlyFailures(attempts: seq<Attempt>) {
    forall i :: 0 <= i < |attempts| ==> attempts[i].reply.ProviderFailure?
  }

  /** An armed window implies the threshold was reached: true of every reachable state. */
  ghost predicate Plausible(l: Limits, b: Breaker) {
    b.until.Some? ==> b.failures >= l.threshold && b.failures >= 1
  }

  lemma PlausibleKept(l: Limits, b: Breaker, a: Attempt)
    requires Plausible(l, b)
    ensures Plausible(l, After(l, b, a)) && Plausible(l, FRESH)
  {
  }

  /** Whole windows that fit into a stretch of time. */
  function Windows(l: Limits, length: real): int
    requires l.cooldown > 0.0
  {
    (length / l.cooldown).Floor
  }

  lemma WindowsFacts(l: Limits, x: real, y: real)
    requires l.cooldown > 0.0
    ensures x <= y ==> Windows(l, x) <= Windows(l, y)
    ensures x >= 0.0 ==> Windows(l, x) >= 0
    ensures Windows(l, x - l.cooldown) == Windows(l, x) - 1
  {
    var c := l.cooldown;
    QuotientIs(x - c, c, x / c - 1.0);
    if x <= y { QuotientGrows(x, y, c); }
    if x >= 0.0 { QuotientGrows(0.0, x, c); }
  }

  lemma QuotientIs(x: real, c: real, q: real)
    requires c > 0.0 && q * c == x
    ensures x / c == q
  {
  }

  lemma QuotientGrows(x: real, y: real, c: real)
    requires c > 0.0 && x <= y
    ensures x / c <= y / c
  {
    var p, q := x / c, y / c;
    assert p * c == x && q * c == y;
    Nonnegative(q - p, c);
  }

  lemma Nonnegative(d: real, c: real)
    requires c > 0.0 && d * c >= 0.0
    ensures d >= 0.0
  {
  }

  /** Calls still possible from state b between now and the end of the stretch. */
  function Budget(l: Limits, b: Breaker, now: real, to: real): int
    requires l.cooldown > 0.0
  {
    match b.until
    case None => (if b.failures + 1 >= l.threshold then 1 else l.threshold - b.failures) + Windows(l, to - now)
    case Some(u) => if u > to then 0 else 1 + Windows(l, to - (if u >= now then u else now))
  }

  lemma OneAttempt(l: Limits, b: Breaker, now: real, a: Attempt, to: real)
    requires l.cooldown > 0.0 && Plausible(l, b)
    requires now <= a.start <= a.end <= to && a.reply.ProviderFailure?
    ensures (if Reaches(b, a) then 1 else 0) + Budget(l, After(l, b, a), a.end, to) <= Budget(l, b, now, to)
  {
    WindowsFacts(l, to - a.end, to - now);
    WindowsFacts(l, to - a.end, to - a.start);
    if b.until.Some? {
      WindowsFacts(l, to - a.end, to - (if b.until.value >= now then b.until.value else now));
      if a.start < b.until.value <= to {
        WindowsFacts(l, to - (if b.until.value >= a.end then b.until.value else a.end),
                        to - (if b.until.value >= now then b.until.value else now));
      }
    }
    assert to - (a.end + l.cooldown) == (to - a.end) - l.cooldown;
  }

  lemma {:induction false} CallsWithinBudget(l: Limits, b: Breaker, attempts: seq<Attempt>, from: real, to: real)
    requires l.cooldown > 0.0 && Plausible(l, b) && from <= to
    requires InOrder(attempts, from, to) && OnlyFailures(attempts)
    ensures EndpointCalls(l, b, attempts) <= Budget(l, b, from, to)
    decreases |attempts|
  {
    if attempts == [] {
      WindowsFacts(l, to - from, to - from);
      if b.until.Some? && b.until.value <= to {
        WindowsFacts(l, to - (if b.until.value >= from then b.until.value else from), to);
      }
    } else {
      var a, b' := attempts[0], After(l, b, attempts[0]);
      OneAttempt(l, b, from, a, to);
      PlausibleKept(l, b, a);
      CallsWithinBudget(l, b', attempts[1..], a.end, to);
    }
  }

  /** A stretch without a success, from any reachable state, makes at most the threshold
      plus one call for each whole window in it. */
  lemma CooldownBound(l: Limits, b: Breaker, attempts: seq<Attempt>, from: real, to: real)
    requires l.cooldown > 0.0 && l.threshold >= 1 && Plausible(l, b) && from <= to
    requires InOrder(attempts, from, to) && OnlyFailures(attempts)
    ensures EndpointCalls(l, b, attempts) <= l.threshold + Windows(l, to - from)
  {
    CallsWithinBudget(l, b, attempts, from, to);
    if b.until.Some? && b.until.value <= to {
      WindowsFacts(l, to - (if b.until.value >= from then b.until.value else from), to - from);
    } else {
      WindowsFacts(l, to - from, to - from);
    }
  }

  /** With the program's own limits: three calls, and one for each whole minute. */
  lemma DefaultBound(attempts: seq<Attempt>, minutes: nat, to: real)
    requires 0.0 <= to < (minutes + 1) as real * 60.0 && InOrder(attempts, 0.0, to) && OnlyFailures(attempts)
    ensures EndpointCalls(DEFAULT_LIMITS, FRESH, attempts) <= 3 + minutes
  {
    CooldownBound(DEFAULT_LIMITS, FRESH, attempts, 0.0, to);
  }

  /** While a window is armed nothing reaches the endpoint and nothing changes. */
  lemma {:induction false} ArmedWindowHolds(l: Limits, b: Breaker, attempts: seq<Attempt>, from: real, to: real)
    requires b.until.Some? && to < b.until.value
    requires InOrder(attempts, from, to)
    ensures EndpointCalls(l, b, attempts) == 0
    decreases |attempts|
  {
    if attempts != [] { ArmedWindowHolds(l, b, attempts[1..], attempts[0].end, to); }
  }

  // --- the bound is reached ---

  /** Instant failures: `burst` at time t, then one each cooldown, `later` times. */
  function Worst(l: Limits, t: real, burst: nat, later: nat): seq<Attempt>
    decreases burst, later
  {
    if burst > 0 then [Attempt(t, t, true, ProviderFailure)] + Worst(l, t, burst - 1, later)
    else if later > 0 then
      [Attempt(t + l.cooldown, t + l.cooldown, true, ProviderFailure)] + Worst(l, t + l.cooldown, 0, later - 1)
    else []
  }

  /** n cooldowns. */
  function Span(l: Limits, n: nat): real {
    if n == 0 then 0.0 else l.cooldown + Span(l, n - 1)
  }

  lemma SpanIs(l: Limits, n: nat)
    ensures Span(l, n) == n as real * l.cooldown
    ensures l.cooldown > 0.0 ==> Span(l, n) >= 0.0
  {
    if n > 0 {
      SpanIs(l, n - 1);
      assert n as real * l.cooldown == (n - 1) as real * l.cooldown + l.cooldown;
    }
  }

  lemma {:induction false} WorstCaseCalls(l: Limits, b: Breaker, t: real, burst: nat, later: nat)
    requires l.cooldown > 0.0 && l.threshold >= 1
    requires if burst > 0 then b.until.None? && b.failures + burst == l.threshold
             else b.failures >= l.threshold && b.until == Some(t + l.cooldown)
    ensures EndpointCalls(l, b, Worst(l, t, burst, later)) == burst + later
    ensures InOrder(Worst(l, t, burst, later), t, t + Span(l, later))
    ensures OnlyFailures(Worst(l, t, burst, later))
    decreases burst + later
  {
    var w := Worst(l, t, burst, later);
    if burst > 0 {
      var a := Attempt(t, t, true, ProviderFailure);
      WorstCaseCalls(l, After(l, b, a), t, burst - 1, later);
      assert w == [a] + Worst(l, t, burst - 1, later) && w[1..] == Worst(l, t, burst - 1, later);
      SpanIs(l, later);
    } else if later > 0 {
      var u := t + l.cooldown;
      var a := Attempt(u, u, true, ProviderFailure);
      WorstCaseCalls(l, After(l, b, a), u, 0, later - 1);
      assert w[1..] == Worst(l, u, 0, later - 1);
      SpanIs(l, later - 1);
    }
  }

  /** The bound is exact: some stretch of n windows makes threshold + n calls. */
  lemma BoundIsReached(l: Limits, n: nat)
    requires l.cooldown > 0.0 && l.threshold >= 1
    ensures exists attempts :: InOrder(attempts, 0.0, n as real * l.cooldown) && OnlyFailures(attempts)
              && EndpointCalls(l, FRESH, attempts) == l.threshold + n
  {
    WorstCaseCalls(l, FRESH, 0.0, l.threshold, n);
    SpanIs(l, n);
    var w := Worst(l, 0.0, l.threshold, n);
    assert InOrder(w, 0.0, n as real * l.cooldown);
  }
}
