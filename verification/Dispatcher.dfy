// One delivery from claim to mark: the guards before the POST, the classification of
// its answer, and the store transition that follows.
module Dispatcher {
  import opened Delivery
  import Policy
  import opened MemoryStore

  datatype Profile = Profile(retry: Option<Policy.RetryConfig>, honourRetryAfter: bool)

  // `guard` gives the reason to refuse an (ip, host, port), or None; `httpDate` parses dates.
  datatype Config = Config(
    maxBody: nat,
    retry: Policy.RetryConfig,
    profiles: map<string, Profile>,
    guard: (string, string, int) -> Option<string>,
    httpDate: string -> Option<real>)

  datatype Http = Answered(status: int, retryAfter: Option<string>) | RequestError(timeout: bool, text: string) | Broken

  // Everything one send meets that it does not decide: the clock, the parsed target
  // (None when the URL does not parse), what a resolver answered, whether the secret
  // was found, the HTTP exchange, the jitter draw, and whether the mark raised.
  datatype Env = Env(
    now: Time,
    target: Option<(string, int)>,
    resolver: Option<string>,
    secretFound: bool,
    http: Http,
    draw: real,
    markRaises: bool)

  datatype Decision = Deliver | RetryAt(fireAt: Time) | Kill | Raise

  // timedelta(seconds=...): to the nearest microsecond, halves to even.
  function Micros(seconds: real): int {
    var x := seconds * 1_000_000.0;
    var low := x.Floor;
    var rest := x - low as real;
    if rest < 0.5 || (rest == 0.5 && low % 2 == 0) then low else low + 1
  }

  lemma MicrosIsNotNegative(seconds: real)
    requires seconds >= 0.0
    ensures Micros(seconds) >= 0
  {
  }

  function RetryConfigOf(cfg: Config, profile: Profile): Policy.RetryConfig {
    if profile.retry.Some? then profile.retry.value else cfg.retry
  }

  // The pinned address, unless the resolver gave a fresh one.
  function TargetIp(rec: Record, env: Env, host: string): string {
    if host == "" || env.resolver.None? || env.resolver.value == "" then rec.resolvedIp else env.resolver.value
  }

  // Why a delivery is refused before its POST, in the order of the guards.
  function Refusal(cfg: Config, rec: Record, env: Env): Option<string>
    requires env.target.Some?
  {
    var (host, port) := env.target.value;
    var blocked := cfg.guard(TargetIp(rec, env, host), host, port);
    if rec.bodySize > cfg.maxBody then Some("payload_too_large")
    else if blocked.Some? then Some("blocked_ip_at_send:" + blocked.value)
    else if !env.secretFound then Some("secret_unresolved")
    else None
  }

  // The address this attempt POSTs to, if it POSTs at all.
  function PostsTo(cfg: Config, rec: Record, env: Env): Option<string> {
    if rec.profile !in cfg.profiles || env.target.None? || Refusal(cfg, rec, env).Some? then None
    else Some(TargetIp(rec, env, env.target.value.0))
  }

  // The line a send adds to the attempt log: when, under which number, what came back.
  function AttemptOf(cfg: Config, rec: Record, env: Env): Attempt
    requires env.target.Some?
  {
    var refusal := Refusal(cfg, rec, env);
    if refusal.Some? then Attempt(rec.attempts + 1, env.now, None, refusal)
    else
      match env.http
      case Answered(status, _) => Attempt(rec.attempts + 1, env.now, Some(status), None)
      case RequestError(_, text) => Attempt(rec.attempts + 1, env.now, None, Some(text))
      case Broken => Attempt(rec.attempts + 1, env.now, None, None)
  }

  function Wait(cfg: Config, profile: Profile, env: Env): Option<real> {
    if env.http.Answered? && profile.honourRetryAfter
    then Policy.ParseRetryAfter(env.http.retryAfter, env.now as real / 1_000_000.0, cfg.httpDate)
    else None
  }

  function Reason(http: Http): Option<Policy.Reason>
    requires !http.Broken?
  {
    match http
    case Answered(status, _) => Policy.ClassifyStatus(status)
    case RequestError(timeout, _) => Some(if timeout then Policy.Timeout else Policy.NetworkError)
  }

  function RetryTime(cfg: Config, rec: Record, env: Env, profile: Profile): Time {
    env.now + Micros(Policy.NextDelay(rec.attempts + 1, RetryConfigOf(cfg, profile), Wait(cfg, profile, env), env.draw))
  }

  // What a send decides, before the store is asked to record it.
  function Decide(cfg: Config, rec: Record, env: Env): Decision {
    if rec.profile !in cfg.profiles || env.target.None? then Raise
    else
      var profile := cfg.profiles[rec.profile];
      if Refusal(cfg, rec, env).Some? then Kill
      else if env.http.Broken? then Raise
      else
        var reason := Reason(env.http);
        var again := reason.Some? && Policy.RetryOn(reason.value, rec.attempts + 1, RetryConfigOf(cfg, profile));
        DecisionOf(cfg, rec, env, profile, Policy.OutcomeStatus(reason, again))
  }

  function DecisionOf(cfg: Config, rec: Record, env: Env, profile: Profile, status: Status): Decision {
    match status
    case Sent => Deliver
    case FailedRetry => RetryAt(RetryTime(cfg, rec, env, profile))
    case _ => Kill
  }

  ghost predicate Answers2xx(env: Env) {
    env.http.Answered? && env.http.status / 100 == 2
  }

  ghost predicate AsksForRetry(env: Env) {
    || env.http.RequestError?
    || (env.http.Answered? && (env.http.status >= 500 || env.http.status == 408 || env.http.status == 429))
  }

  // ---- What a send decides, from the record, the settings and what it met alone ----------

  // The address a send uses: a resolver's non-empty answer when the URL names a host, the
  // pinned one otherwise.
  ghost predicate IsAddress(rec: Record, env: Env, ip: string)
    requires env.target.Some?
  {
    if env.target.value.0 != "" && env.resolver.Some? && env.resolver.value != "" then ip == env.resolver.value
    else ip == rec.resolvedIp
  }

  // Everything a POST to `ip` needs.
  ghost predicate MayPost(cfg: Config, rec: Record, env: Env, ip: string) {
    && rec.profile in cfg.profiles && env.target.Some? && rec.bodySize <= cfg.maxBody
    && IsAddress(rec, env, ip) && cfg.guard(ip, env.target.value.0, env.target.value.1).None?
    && env.secretFound
  }

  lemma PostsExactlyWhere(cfg: Config, rec: Record, env: Env, ip: string)
    ensures PostsTo(cfg, rec, env) == Some(ip) <==> MayPost(cfg, rec, env, ip)
  {
  }

  // The attempt limit is the profile's own if it has one.
  ghost predicate AttemptsLeft(cfg: Config, rec: Record)
    requires rec.profile in cfg.profiles
  {
    var own := cfg.profiles[rec.profile].retry;
    if own.Some? then rec.attempts + 1 < own.value.maxAttempts else rec.attempts + 1 < cfg.retry.maxAttempts
  }

  // Sent means a POST to an allowed address and a 2xx; retried means a POST, a retryable
  // answer and attempts left; raised means an unknown profile, a URL that does not parse
  // or an unexpected error of the POST.  Everything else is dead at once.
  lemma SendOutcomes(cfg: Config, rec: Record, env: Env)
    ensures
      var d, posts := Decide(cfg, rec, env), exists ip :: MayPost(cfg, rec, env, ip);
      && (d.Deliver? <==> posts && Answers2xx(env))
      && (d.RetryAt? <==> posts && AsksForRetry(env) && AttemptsLeft(cfg, rec))
      && (d.Raise? <==> rec.profile !in cfg.profiles || env.target.None? || (posts && env.http.Broken?))
      && (d.Kill? <==>
        && rec.profile in cfg.profiles && env.target.Some?
        && (!posts || (!env.http.Broken? && !Answers2xx(env) && (AsksForRetry(env) ==> !AttemptsLeft(cfg, rec)))))
  {
    if PostsTo(cfg, rec, env).Some? {
      PostsExactlyWhere(cfg, rec, env, PostsTo(cfg, rec, env).value);
    }
    forall ip | MayPost(cfg, rec, env, ip) ensures PostsTo(cfg, rec, env).Some? {
      PostsExactlyWhere(cfg, rec, env, ip);
    }
  }

  // Why a delivery died before its POST; the first guard that applies is named.
  ghost predicate SaysWhy(cfg: Config, rec: Record, env: Env, ip: string, error: string)
    requires env.target.Some?
  {
    var blocked := cfg.guard(ip, env.target.value.0, env.target.value.1);
    if rec.bodySize > cfg.maxBody then error == "payload_too_large"
    else if blocked.Some? then error == "blocked_ip_at_send:" + blocked.value
    else error == "secret_unresolved"
  }

  // What the log line of a send says: its number and time, and either why there was no
  // POST, or the status of the answer, or the text of the request error.
  lemma LinesSayWhatHappened(cfg: Config, rec: Record, env: Env, ip: string)
    requires rec.profile in cfg.profiles && env.target.Some? && IsAddress(rec, env, ip)
    ensures
      var a := AttemptOf(cfg, rec, env);
      && a.number == rec.attempts + 1 && a.attemptedAt == env.now
      && if !MayPost(cfg, rec, env, ip)
         then a.httpCode.None? && a.error.Some? && SaysWhy(cfg, rec, env, ip, a.error.value)
         else
           match env.http
           case Answered(status, _) => a.httpCode == Some(status) && a.error.None?
           case RequestError(_, text) => a.httpCode.None? && a.error == Some(text)
           case Broken => a.httpCode.None? && a.error.None?
  {
  }

  // The integer next to x; of two as near, the even one.
  ghost predicate IsNearest(n: int, x: real) {
    -0.5 <= x - n as real <= 0.5 && (x - n as real == 0.5 || x - n as real == -0.5 ==> n % 2 == 0)
  }

  lemma MicrosAreNearest(seconds: real)
    ensures IsNearest(Micros(seconds), seconds * 1_000_000.0)
  {
  }

  // The retry is due at the send's clock plus the policy's delay for this attempt, to the
  // nearest microsecond; a wait the receiver named counts only if the profile honours it.
  lemma RetryIsDueThen(cfg: Config, rec: Record, env: Env)
    requires Decide(cfg, rec, env).RetryAt?
    ensures
      var profile := cfg.profiles[rec.profile];
      var retry := if profile.retry.Some? then profile.retry.value else cfg.retry;
      var named := if env.http.Answered? && profile.honourRetryAfter
        then Policy.ParseRetryAfter(env.http.retryAfter, env.now as real / 1_000_000.0, cfg.httpDate) else None;
      var delay := Policy.NextDelay(rec.attempts + 1, retry, named, env.draw);
      IsNearest(Decide(cfg, rec, env).fireAt - env.now, delay * 1_000_000.0)
  {
    var profile := cfg.profiles[rec.profile];
    var wait := Wait(cfg, profile, env);
    MicrosAreNearest(Policy.NextDelay(rec.attempts + 1, RetryConfigOf(cfg, profile), wait, env.draw));
  }

  lemma PostsOnlyWhereAllowed(cfg: Config, rec: Record, env: Env)
    requires PostsTo(cfg, rec, env).Some?
    ensures env.target.Some?
    ensures cfg.guard(PostsTo(cfg, rec, env).value, env.target.value.0, env.target.value.1).None?
    ensures PostsTo(cfg, rec, env).value == rec.resolvedIp || env.resolver == Some(PostsTo(cfg, rec, env).value)
  {
  }

  // A retry is never scheduled for before the send itself.
  lemma RetriesAreNotInThePast(cfg: Config, rec: Record, env: Env)
    requires Decide(cfg, rec, env).RetryAt?
    requires Policy.Sensible(RetryConfigOf(cfg, cfg.profiles[rec.profile])) && -1.0 <= env.draw <= 1.0
    ensures Decide(cfg, rec, env).fireAt >= env.now
  {
    var profile := cfg.profiles[rec.profile];
    var retry := RetryConfigOf(cfg, profile);
    WaitIsNotNegative(cfg, profile, env);
    Policy.DelayIsBounded(rec.attempts + 1, retry, Wait(cfg, profile, env), env.draw);
    MicrosIsNotNegative(Policy.NextDelay(rec.attempts + 1, retry, Wait(cfg, profile, env), env.draw));
  }

  lemma WaitIsNotNegative(cfg: Config, profile: Profile, env: Env)
    ensures Wait(cfg, profile, env).Some? ==> Wait(cfg, profile, env).value >= 0.0
  {
  }

  // ---- The marks ------------------------------------------------------------------

  datatype Verdict = WasSent | WasRetried(fireAt: Time) | WasKilled | Failed

  ghost function Written(s: MemState, rec: Record, d: Decision, a: Attempt): MemState {
    match d
    case Deliver => MarkedSent(s, rec.deliveryId, a)
    case RetryAt(fireAt) => RetryScheduled(s, rec.deliveryId, fireAt, a)
    case Kill => MarkedDead(s, rec.deliveryId, a)
    case Raise => s
  }

  function VerdictOf(d: Decision): Verdict {
    match d
    case Deliver => WasSent
    case RetryAt(fireAt) => WasRetried(fireAt)
    case Kill => WasKilled
    case Raise => Failed
  }

  // Whether the send comes back with an outcome: it decided one and the mark landed.
  ghost predicate Lands(s: MemState, cfg: Config, rec: Record, env: Env) {
    !Decide(cfg, rec, env).Raise? && Records(s, rec, env)
  }

  ghost predicate Records(s: MemState, rec: Record, env: Env) {
    !env.markRaises && rec.deliveryId in s.records
  }

  // A send comes back with an outcome exactly if it decided one and the mark went through;
  // the mark is then the one the outcome names, on a row the store knows.
  lemma SendComesBack(s: MemState, cfg: Config, rec: Record, env: Env)
    requires Valid(s)
    ensures Lands(s, cfg, rec, env) <==>
      !Decide(cfg, rec, env).Raise? && !env.markRaises && rec.deliveryId in s.records
    ensures Lands(s, cfg, rec, env) ==>
      var d, a := Decide(cfg, rec, env), AttemptOf(cfg, rec, env);
      var s' := Written(s, rec, d, a);
      && rec.deliveryId in s'.records && rec.deliveryId !in s'.leases
      && rec.deliveryId in s'.log && s'.log[rec.deliveryId] == s.log[rec.deliveryId] + [a]
      && s'.records[rec.deliveryId].status == (match d
           case Deliver => Sent
           case RetryAt(_) => FailedRetry
           case Kill => DeadLettered
           case Raise => Pending)
      && (match VerdictOf(d)
          case WasSent => d.Deliver?
          case WasRetried(fireAt) => d == RetryAt(fireAt)
          case WasKilled => d.Kill?
          case Failed => false)
  {
  }

  class WebhookDispatcher {
    const store: MemoryWebhookDeliveryStore
    const cfg: Config

    constructor (store: MemoryWebhookDeliveryStore, cfg: Config)
      ensures this.store == store && this.cfg == cfg
    {
      this.store, this.cfg := store, cfg;
    }

    // A mark that raises leaves the store as it was.
    method Send(rec: Record, env: Env) returns (verdict: Verdict)
      requires Valid(store.State())
      modifies store
      ensures verdict == if Lands(old(store.State()), cfg, rec, env) then VerdictOf(Decide(cfg, rec, env)) else Failed
      ensures store.State() ==
        if Lands(old(store.State()), cfg, rec, env)
          then Written(old(store.State()), rec, Decide(cfg, rec, env), AttemptOf(cfg, rec, env))
        else old(store.State())
    {
      var number := rec.attempts + 1;
      verdict := Failed;
      if rec.profile !in cfg.profiles || env.target.None? {
        return;
      }
      var profile := cfg.profiles[rec.profile];
      var (host, port) := env.target.value;
      if rec.bodySize > cfg.maxBody {
        verdict := DeadLetter(rec, env, Attempt(number, env.now, None, Some("payload_too_large")));
        return;
      }
      var ip := TargetIp(rec, env, host);
      var blocked := cfg.guard(ip, host, port);
      if blocked.Some? {
        verdict := DeadLetter(rec, env, Attempt(number, env.now, None, Some("blocked_ip_at_send:" + blocked.value)));
        return;
      }
      if !env.secretFound {
        verdict := DeadLetter(rec, env, Attempt(number, env.now, None, Some("secret_unresolved")));
        return;
      }
      var reason: Option<Policy.Reason> := None;
      var httpCode: Option<int> := None;
      var sendError: Option<string> := None;
      match env.http {
        case Broken => return;
        case RequestError(timeout, text) =>
          reason := Some(if timeout then Policy.Timeout else Policy.NetworkError);
          sendError := Some(text);
        case Answered(status, _) =>
          reason := Policy.ClassifyStatus(status);
          httpCode := Some(status);
      }
      var attempt := Attempt(number, env.now, httpCode, sendError);
      var willRetry := false;
      if reason.Some? {
        willRetry := Policy.RetryOn(reason.value, number, RetryConfigOf(cfg, profile));
      }
      verdict := Conclude(rec, env, profile, attempt, Policy.OutcomeStatus(reason, willRetry));
    }

    // The last part of a send: write the outcome down.
    method Conclude(rec: Record, env: Env, profile: Profile, attempt: Attempt, status: Status)
        returns (verdict: Verdict)
      requires Valid(store.State())
      modifies store
      ensures verdict ==
        if Records(old(store.State()), rec, env) then VerdictOf(DecisionOf(cfg, rec, env, profile, status)) else Failed
      ensures store.State() ==
        if Records(old(store.State()), rec, env)
          then Written(old(store.State()), rec, DecisionOf(cfg, rec, env, profile, status), attempt)
        else old(store.State())
    {
      verdict := Failed;
      if status.Sent? {
        if !env.markRaises {
          var found := store.MarkSent(rec.deliveryId, attempt);
          verdict := if found then WasSent else Failed;
        }
      } else if status.FailedRetry? {
        var waited: Option<real> := None;
        if env.http.Answered? && profile.honourRetryAfter {
          waited := Policy.ParseRetryAfter(env.http.retryAfter, env.now as real / 1_000_000.0, cfg.httpDate);
        }
        var delay := Policy.NextDelay(rec.attempts + 1, RetryConfigOf(cfg, profile), waited, env.draw);
        var fireAt := env.now + Micros(delay);
        if !env.markRaises {
          var found := store.ScheduleRetry(rec.deliveryId, fireAt, attempt);
          verdict := if found then WasRetried(fireAt) else Failed;
        }
      } else {
        verdict := DeadLetter(rec, env, attempt);
      }
    }

    method DeadLetter(rec: Record, env: Env, attempt: Attempt) returns (verdict: Verdict)
      requires Valid(store.State())
      modifies store
      ensures verdict == if Records(old(store.State()), rec, env) then WasKilled else Failed
      ensures store.State() ==
        if Records(old(store.State()), rec, env) then MarkedDead(old(store.State()), rec.deliveryId, attempt)
          else old(store.State())
    {
      verdict := Failed;
      if !env.markRaises {
        var found := store.MarkDead(rec.deliveryId, attempt);
        verdict := if found then WasKilled else Failed;
      }
    }
  }
}
