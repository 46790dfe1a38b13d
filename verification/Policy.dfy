// Which answers are worth another attempt, and how long to wait for it.
module Policy {
  import opened Delivery
  import opened Text

  datatype Reason =
    | Http5xx | Http408 | Http429 | NetworkError | Timeout
    | NonRetryable4xx | PayloadTooLarge | BlockedIpAtSend

  datatype RetryConfig = RetryConfig(maxAttempts: int, baseDelay: real, factor: real, maxDelay: real, jitter: real)

  function ClassifyStatus(status: int): Option<Reason> {
    if 200 <= status < 300 then None
    else if status >= 500 then Some(Http5xx)
    else if status == 408 then Some(Http408)
    else if status == 429 then Some(Http429)
    else Some(NonRetryable4xx)
  }

  predicate Retryable(reason: Reason) {
    reason.Http5xx? || reason.Http408? || reason.Http429? || reason.NetworkError? || reason.Timeout?
  }

  predicate RetryOn(reason: Reason, attempt: int, cfg: RetryConfig) {
    Retryable(reason) && attempt < cfg.maxAttempts
  }

  function OutcomeStatus(reason: Option<Reason>, willRetry: bool): Status {
    if reason.None? then Sent else if willRetry then FailedRetry else DeadLettered
  }

  // What one attempt's HTTP status means for the delivery.
  function Verdict(status: int, attempt: int, cfg: RetryConfig): Status {
    var reason := ClassifyStatus(status);
    OutcomeStatus(reason, reason.Some? && RetryOn(reason.value, attempt, cfg))
  }

  // The whole classification at once: sent on 2xx, retried on 408, 429 and 5xx while
  // attempts last, dead on everything else, redirects and 1xx included.
  lemma VerdictByStatus(status: int, attempt: int, cfg: RetryConfig)
    ensures Verdict(status, attempt, cfg).Sent? <==> status / 100 == 2
    ensures Verdict(status, attempt, cfg).FailedRetry?
      <==> (status >= 500 || status == 408 || status == 429) && attempt < cfg.maxAttempts
    ensures Verdict(status, attempt, cfg).DeadLettered?
      <==> status / 100 != 2 && ((status < 500 && status != 408 && status != 429) || attempt >= cfg.maxAttempts)
  {
    assert 200 <= status < 300 <==> status / 100 == 2;
  }

  // ---- The retry ladder -----------------------------------------------------------

  function Power(x: real, n: nat): real {
    if n == 0 then 1.0 else x * Power(x, n - 1)
  }

  function MinReal(a: real, b: real): real {
    if a < b then a else b
  }

  function MaxReal(a: real, b: real): real {
    if a < b then b else a
  }

  function Exponent(attempt: int): nat {
    if attempt < 1 then 0 else attempt - 1
  }

  // The backoff before jitter: base * factor ^ max(attempt - 1, 0), capped.
  function Capped(attempt: int, cfg: RetryConfig): real {
    MinReal(cfg.baseDelay * Power(cfg.factor, Exponent(attempt)), cfg.maxDelay)
  }

  function Product(x: real, y: real): real {
    x * y
  }

  function Jittered(capped: real, jitter: real, draw: real): real {
    MaxReal(0.0, capped + Product(Product(capped, jitter), draw))
  }

  // `draw` is the uniform draw from [-jitter, jitter], taken as a fraction in [-1, 1]
  // of the capped delay's jitter.  A wait the receiver named is only capped.
  function NextDelay(attempt: int, cfg: RetryConfig, retryAfter: Option<real>, draw: real): real {
    if retryAfter.Some? then MinReal(retryAfter.value, cfg.maxDelay)
    else Jittered(Capped(attempt, cfg), cfg.jitter, draw)
  }

  ghost predicate Sensible(cfg: RetryConfig) {
    cfg.factor >= 1.0 && cfg.baseDelay >= 0.0 && cfg.maxDelay >= 0.0 && cfg.jitter >= 0.0
  }

  lemma {:induction false} PowerGrows(x: real, n: nat)
    requires x >= 1.0
    ensures 1.0 <= Power(x, n) <= Power(x, n + 1)
  {
    if n > 0 {
      PowerGrows(x, n - 1);
    }
    Scale(Power(x, n), 1.0, x);
  }

  lemma Scale(x: real, a: real, b: real)
    requires x >= 0.0 && a <= b
    ensures x * a <= x * b
  {
  }

  // The unjittered delay never shrinks from one attempt to the next.
  lemma {:induction false} LadderClimbs(first: int, later: int, cfg: RetryConfig)
    requires Sensible(cfg) && first <= later
    ensures 0.0 <= Capped(first, cfg) <= Capped(later, cfg) <= cfg.maxDelay
    decreases later - first
  {
    if first < later {
      LadderClimbs(first, later - 1, cfg);
      RungClimbs(later - 1, cfg);
    } else {
      RungClimbs(first, cfg);
    }
  }

  lemma RungClimbs(attempt: int, cfg: RetryConfig)
    requires Sensible(cfg)
    ensures 0.0 <= Capped(attempt, cfg) <= Capped(attempt + 1, cfg) <= cfg.maxDelay
  {
    var n, m := Exponent(attempt), Exponent(attempt + 1);
    PowerGrows(cfg.factor, n);
    assert m == n || m == n + 1;
    Scale(cfg.baseDelay, 0.0, Power(cfg.factor, n));
    Scale(cfg.baseDelay, Power(cfg.factor, n), Power(cfg.factor, m));
  }

  // ---- The ladder exactly ------------------------------------------------------------

  lemma Associates(x: real, y: real, z: real)
    ensures x * (y * z) == y * (x * z)
  {
  }

  // The first rung is the base, capped; each further rung is the one before times the
  // factor, capped.
  lemma LadderIsGeometric(attempt: int, cfg: RetryConfig)
    requires Sensible(cfg)
    ensures attempt <= 1 ==>
      Capped(attempt, cfg) == if cfg.baseDelay < cfg.maxDelay then cfg.baseDelay else cfg.maxDelay
    ensures attempt >= 1 ==>
      var next := cfg.factor * Capped(attempt, cfg);
      Capped(attempt + 1, cfg) == if next < cfg.maxDelay then next else cfg.maxDelay
  {
    if attempt >= 1 {
      var power := Power(cfg.factor, attempt - 1);
      Associates(cfg.baseDelay, cfg.factor, power);
      PowerGrows(cfg.factor, attempt - 1);
      Scale(cfg.baseDelay, power, Power(cfg.factor, attempt));
      Scale(cfg.maxDelay, 1.0, cfg.factor);
    }
  }

  lemma {:induction false} PowerOutgrows(x: real, n: nat)
    requires x >= 1.0
    ensures Power(x, n) >= 1.0 + Times(n, x - 1.0)
  {
    if n > 0 {
      PowerOutgrows(x, n - 1);
      PowerGrows(x, n - 1);
      OneMoreTime(n - 1, x - 1.0);
      Scale(x - 1.0, 1.0, Power(x, n - 1));
      assert Power(x, n) == Power(x, n - 1) + (x - 1.0) * Power(x, n - 1);
    }
  }

  lemma EnoughTimes(x: real, goal: real) returns (n: nat)
    requires x > 0.0
    ensures Times(n, x) >= goal
  {
    var steps := goal / x;
    n := if steps < 0.0 then 0 else steps.Floor + 1;
    Scale(x, steps, n as real);
  }

  // With a factor above one and a base above zero the cap is reached, and kept.
  lemma CapIsReached(cfg: RetryConfig) returns (n: int)
    requires Sensible(cfg) && cfg.factor > 1.0 && cfg.baseDelay > 0.0
    ensures n >= 1 && forall attempt :: attempt >= n ==> Capped(attempt, cfg) == cfg.maxDelay
  {
    var k := EnoughTimes(cfg.factor - 1.0, cfg.maxDelay / cfg.baseDelay);
    n := k + 1;
    PowerOutgrows(cfg.factor, k);
    Scale(cfg.baseDelay, cfg.maxDelay / cfg.baseDelay, Power(cfg.factor, k));
    assert Capped(n, cfg) == cfg.maxDelay;
    forall attempt | attempt >= n ensures Capped(attempt, cfg) == cfg.maxDelay {
      LadderClimbs(n, attempt, cfg);
    }
  }

  lemma Regroups(x: real, y: real, z: real)
    ensures Product(Product(x, y), z) == Product(x, Product(y, z))
  {
  }

  lemma EndsOfTheBand(rung: real, jitter: real)
    ensures rung + Product(rung, Product(jitter, 1.0)) == rung * (1.0 + jitter)
    ensures rung + Product(rung, Product(jitter, -1.0)) == rung * (1.0 - jitter)
    ensures Product(rung, Product(jitter, 0.0)) == 0.0
  {
    assert Product(jitter, 1.0) == jitter && Product(jitter, -1.0) == -jitter && Product(jitter, 0.0) == 0.0;
  }

  // A rung and a share of its jitter, linear in the draw, but never below zero.
  lemma JitterIsLinear(rung: real, jitter: real, draw: real)
    requires rung >= 0.0
    ensures
      if Product(jitter, draw) >= -1.0 then Jittered(rung, jitter, draw) == rung + Product(rung, Product(jitter, draw))
      else Jittered(rung, jitter, draw) == 0.0
  {
    var share := Product(jitter, draw);
    Regroups(rung, jitter, draw);
    if share >= -1.0 {
      Scale(rung, -1.0, share);
    } else {
      Scale(rung, share, -1.0);
    }
    assert Product(rung, share) == rung * share;
  }

  // A wait the receiver named is kept up to the cap; otherwise the delay is the rung at
  // draw zero, and moves by the jitter with the draw.
  lemma DelayIsExact(attempt: int, cfg: RetryConfig, retryAfter: Option<real>, draw: real)
    requires Sensible(cfg)
    ensures retryAfter.Some? ==>
      var delay := NextDelay(attempt, cfg, retryAfter, draw);
      delay == if retryAfter.value <= cfg.maxDelay then retryAfter.value else cfg.maxDelay
    ensures retryAfter.None? ==>
      var delay, rung, share := NextDelay(attempt, cfg, retryAfter, draw), Capped(attempt, cfg), cfg.jitter * draw;
      && delay == (if share < -1.0 then 0.0 else rung + rung * share)
      && (draw == 0.0 ==> delay == rung)
      && (draw == 1.0 ==> delay == rung * (1.0 + cfg.jitter))
      && (draw == -1.0 && cfg.jitter <= 1.0 ==> delay == rung * (1.0 - cfg.jitter))
  {
    var rung := Capped(attempt, cfg);
    LadderClimbs(attempt, attempt, cfg);
    JitterIsLinear(rung, cfg.jitter, draw);
    EndsOfTheBand(rung, cfg.jitter);
    assert Product(cfg.jitter, draw) == cfg.jitter * draw;
    assert Product(rung, cfg.jitter * draw) == rung * (cfg.jitter * draw);
  }

  lemma Spread(x: real, draw: real)
    requires x >= 0.0 && -1.0 <= draw <= 1.0
    ensures -x <= Product(x, draw) <= x
  {
    Scale(x, -1.0, draw);
    Scale(x, draw, 1.0);
  }

  lemma Distributes(x: real, y: real)
    ensures x * (1.0 - y) == x - Product(x, y)
    ensures x * (1.0 + y) == x + Product(x, y)
  {
  }

  lemma JitterIsBounded(capped: real, jitter: real, draw: real)
    requires capped >= 0.0 && jitter >= 0.0 && -1.0 <= draw <= 1.0
    ensures 0.0 <= Jittered(capped, jitter, draw)
    ensures capped * (1.0 - jitter) <= Jittered(capped, jitter, draw) <= capped * (1.0 + jitter)
  {
    Scale(capped, 0.0, jitter);
    Spread(Product(capped, jitter), draw);
    Distributes(capped, jitter);
  }

  // Jitter is added after the cap, so a delay may exceed it -- by the jitter and no
  // more; a wait the receiver named never does.
  lemma DelayIsBounded(attempt: int, cfg: RetryConfig, retryAfter: Option<real>, draw: real)
    requires Sensible(cfg) && -1.0 <= draw <= 1.0
    requires retryAfter.Some? ==> retryAfter.value >= 0.0
    ensures 0.0 <= NextDelay(attempt, cfg, retryAfter, draw) <= JitteredCap(cfg)
    ensures retryAfter.Some? ==> NextDelay(attempt, cfg, retryAfter, draw) <= MinReal(retryAfter.value, cfg.maxDelay)
    ensures retryAfter.None? ==>
      Capped(attempt, cfg) * (1.0 - cfg.jitter) <= NextDelay(attempt, cfg, retryAfter, draw) <=
        Capped(attempt, cfg) * (1.0 + cfg.jitter)
  {
    if retryAfter.Some? {
      CapGrows(cfg.maxDelay, cfg);
    } else {
      LadderClimbs(attempt, attempt, cfg);
      JitterStaysInBand(Capped(attempt, cfg), cfg, draw);
    }
  }

  lemma JitterStaysInBand(c: real, cfg: RetryConfig, draw: real)
    requires Sensible(cfg) && 0.0 <= c <= cfg.maxDelay && -1.0 <= draw <= 1.0
    ensures 0.0 <= Jittered(c, cfg.jitter, draw) <= JitteredCap(cfg)
    ensures c * (1.0 - cfg.jitter) <= Jittered(c, cfg.jitter, draw) <= c * (1.0 + cfg.jitter)
  {
    JitterIsBounded(c, cfg.jitter, draw);
    CapGrows(c, cfg);
  }

  function JitteredCap(cfg: RetryConfig): real {
    cfg.maxDelay * (1.0 + cfg.jitter)
  }

  lemma CapGrows(c: real, cfg: RetryConfig)
    requires Sensible(cfg) && 0.0 <= c <= cfg.maxDelay
    ensures c <= c * (1.0 + cfg.jitter) <= JitteredCap(cfg)
  {
    Scale(1.0 + cfg.jitter, c, cfg.maxDelay);
    Scale(c, 1.0, 1.0 + cfg.jitter);
  }

  // The delays after attempts 1 .. n, each with its own named wait and draw.
  ghost function Ladder(n: nat, cfg: RetryConfig, waits: int -> Option<real>, draws: int -> real): real {
    if n == 0 then 0.0 else Ladder(n - 1, cfg, waits, draws) + NextDelay(n, cfg, waits(n), draws(n))
  }

  function Times(n: nat, x: real): real {
    n as real * x
  }

  lemma OneMoreTime(n: nat, x: real)
    ensures Times(n + 1, x) == Times(n, x) + x
  {
  }

  // All delays up to the n-th together are at most n full jittered caps, whatever the
  // receiver named and the dice showed.
  lemma {:induction false} RungsAreBounded(n: nat, cfg: RetryConfig, waits: int -> Option<real>, draws: int -> real)
    requires Sensible(cfg)
    requires forall k :: 1 <= k <= n ==> -1.0 <= draws(k) <= 1.0 && (waits(k).Some? ==> waits(k).value >= 0.0)
    ensures 0.0 <= Ladder(n, cfg, waits, draws) <= Times(n, JitteredCap(cfg))
  {
    if n > 0 {
      RungsAreBounded(n - 1, cfg, waits, draws);
      DelayIsBounded(n, cfg, waits(n), draws(n));
      OneMoreTime(n - 1, JitteredCap(cfg));
    }
  }

  lemma TimesGrows(n: nat, m: nat, x: real)
    requires n <= m && x >= 0.0
    ensures Times(n, x) <= Times(m, x)
  {
    Scale(x, n as real, m as real);
  }

  // A delivery whose attempts 1 .. n were each granted a retry has waited at most
  // (maxAttempts - 1) full jittered caps in all.
  lemma LadderIsBounded(n: nat, cfg: RetryConfig, reasons: int -> Reason, waits: int -> Option<real>,
      draws: int -> real)
    requires Sensible(cfg)
    requires forall k :: 1 <= k <= n ==> RetryOn(reasons(k), k, cfg)
    requires forall k :: 1 <= k <= n ==> -1.0 <= draws(k) <= 1.0 && (waits(k).Some? ==> waits(k).value >= 0.0)
    ensures n > 0 ==> n <= cfg.maxAttempts - 1
    ensures 0.0 <= Ladder(n, cfg, waits, draws)
    ensures cfg.maxAttempts >= 1 ==> Ladder(n, cfg, waits, draws) <= Times(cfg.maxAttempts - 1, JitteredCap(cfg))
  {
    RungsAreBounded(n, cfg, waits, draws);
    if n > 0 {
      assert RetryOn(reasons(n), n, cfg);
    }
    if cfg.maxAttempts >= 1 {
      CapGrows(cfg.maxDelay, cfg);
      TimesGrows(n, cfg.maxAttempts - 1, JitteredCap(cfg));
    }
  }

  // ---- Retry-After ------------------------------------------------------------------

  function DigitsValue(s: string): nat {
    if s == [] then 0
    else if IsDigit(s[|s| - 1]) then 10 * DigitsValue(s[..|s| - 1]) + (s[|s| - 1] as int - '0' as int)
    else 0
  }

  // `httpDate` stands for the HTTP-date parser: seconds of a zoned date, or None.
  function ParseRetryAfter(raw: Option<string>, now: real, httpDate: string -> Option<real>): Option<real> {
    if raw.None? || Strip(raw.value) == [] then None
    else
      var text := Strip(raw.value);
      if forall i :: 0 <= i < |text| ==> IsDigit(text[i]) then Some(DigitsValue(text) as real)
      else if httpDate(text).None? then None
      else Some(MaxReal(0.0, httpDate(text).value - now))
  }

  // No header, a blank one, or text that is neither seconds nor a date with a zone.
  predicate NamesNoWait(raw: Option<string>, httpDate: string -> Option<real>) {
    || raw.None?
    || (forall i :: 0 <= i < |raw.value| ==> IsBlank(raw.value[i]))
    || ((exists i :: 0 <= i < |raw.value| && !IsBlank(raw.value[i]) && !IsDigit(raw.value[i])) &&
      httpDate(Strip(raw.value)).None?)
  }

  lemma {:induction false} BlankStripsAway(s: string)
    requires forall i :: 0 <= i < |s| ==> IsBlank(s[i])
    ensures Strip(s) == []
  {
    if s != [] {
      BlankStripsAway(s[1..]);
    }
  }

  lemma {:induction false} StripKeepsText(s: string, i: nat)
    requires i < |s| && !IsBlank(s[i])
    ensures s[i] in Strip(s)
  {
    if IsBlank(s[0]) {
      assert s[1..][i - 1] == s[i];
      StripKeepsText(s[1..], i - 1);
    } else if IsBlank(s[|s| - 1]) {
      assert s[..|s| - 1][i] == s[i];
      StripKeepsText(s[..|s| - 1], i);
    }
  }

  lemma NoWaitIsRead(raw: Option<string>, now: real, httpDate: string -> Option<real>)
    requires NamesNoWait(raw, httpDate)
    ensures ParseRetryAfter(raw, now, httpDate).None?
  {
    if raw.Some? {
      if forall i :: 0 <= i < |raw.value| ==> IsBlank(raw.value[i]) {
        BlankStripsAway(raw.value);
      } else {
        var i: nat :| i < |raw.value| && !IsBlank(raw.value[i]) && !IsDigit(raw.value[i]);
        StripKeepsText(raw.value, i);
      }
    }
  }

  lemma {:induction false} DigitsAreRead(s: string)
    requires forall i :: 0 <= i < |s| ==> IsDigit(s[i])
    ensures DigitsValue(s) == ReadOn(0, s)
  {
    if s != [] {
      var front := s[..|s| - 1];
      DigitsAreRead(front);
      ReadsOneMore(0, front, s[|s| - 1]);
      assert s == front + [s[|s| - 1]];
    }
  }

  // Seconds are read as the number they spell; a date is the time left until it, and none
  // if it has passed.
  ghost predicate IsWait(text: string, now: real, httpDate: string -> Option<real>, wait: Option<real>) {
    if forall i :: 0 <= i < |text| ==> text[i] in DIGITS then wait == Some(ReadOn(0, text) as real)
    else if httpDate(text).None? then wait == None
    else wait == Some(if httpDate(text).value <= now then 0.0 else httpDate(text).value - now)
  }

  lemma StrippedIsRead(raw: string, now: real, httpDate: string -> Option<real>)
    requires Strip(raw) != ""
    ensures IsWait(Strip(raw), now, httpDate, ParseRetryAfter(Some(raw), now, httpDate))
  {
    var text := Strip(raw);
    forall i | 0 <= i < |text| ensures text[i] in DIGITS <==> IsDigit(text[i]) {
      DigitsAreListed(text[i]);
    }
    if forall i :: 0 <= i < |text| ==> IsDigit(text[i]) {
      DigitsAreRead(text);
    }
  }

  lemma WaitIsRead(pre: string, text: string, post: string, now: real, httpDate: string -> Option<real>)
    requires forall i :: 0 <= i < |pre| ==> pre[i] in BLANKS
    requires forall i :: 0 <= i < |post| ==> post[i] in BLANKS
    requires text != "" && text[0] !in BLANKS && text[|text| - 1] !in BLANKS
    ensures IsWait(text, now, httpDate, ParseRetryAfter(Some(pre + text + post), now, httpDate))
  {
    StripKeepsMiddle(pre, text, post);
    StrippedIsRead(pre + text + post, now, httpDate);
  }

  // Composed with the delay: no header value, however malformed or far away, makes the
  // wait negative or longer than the cap.
  lemma NamedWaitsAreSafe(raw: Option<string>, now: real,
      httpDate: string -> Option<real>, attempt: int, cfg: RetryConfig, draw: real)
    requires Sensible(cfg) && -1.0 <= draw <= 1.0
    ensures
      var wait := ParseRetryAfter(raw, now, httpDate);
      && (wait.Some? ==> wait.value >= 0.0)
      && (NamesNoWait(raw, httpDate) ==> wait.None?)
      && 0.0 <= NextDelay(attempt, cfg, wait, draw)
      && NextDelay(attempt, cfg, wait, draw) <=
        if wait.Some? then cfg.maxDelay else Capped(attempt, cfg) * (1.0 + cfg.jitter)
  {
    DelayIsBounded(attempt, cfg, ParseRetryAfter(raw, now, httpDate), draw);
    if NamesNoWait(raw, httpDate) {
      NoWaitIsRead(raw, now, httpDate);
    }
  }
}
