/**
 The retry decision machine of crates/core/src/retry.rs: which account is asked
 next, how often, and when to give up. Delays are left out; whether the wall-clock
 budget is spent is an argument of each failure. The number of requests is
 bounded by accounts times attempts, whatever fails, and a steady failure attains
 the bound.
 */
module Retry {
  import opened Prelude

  datatype ProviderError =
    | Http
    | Decode
    | Auth
    | Api(status: nat, body: string)

  datatype FailureClass = RateLimited | ServerError | Transport | DecodeFailure | AuthFailure | NonRetryable

  datatype FailureClasses = FailureClasses(
    rateLimited: bool, serverError: bool, transport: bool, decode: bool, auth: bool)

  datatype Config = Config(
    enabled: bool,
    maxAttempts: nat,
    accountSwitching: bool,
    maxAccounts: nat,
    retryOn: FailureClasses,
    switchOn: FailureClasses)

  datatype Reason =
    | Disabled
    | NotRetryable
    | AccountRetriesExhausted
    | AllAccountsFailed
    | TimeBudgetExceeded
    | AccountCapReached

  datatype Decision =
    | Retry(account: nat, attempt: nat, switched: bool)
    | Exhausted(reason: Reason)

  predicate Contains(body: string, part: string) {
    part <= body || (body != "" && Contains(body[1..], part))
  }

  const QUOTA_MARKS: seq<string> :=
    ["\"rate_limited\"", "\"usage_limit_reached\"", "\"spend_limited\"", "\"model_unavailable\""]

  /** A normalized bucket for a provider failure; an account's quota wall counts as an auth failure. */
  function Classify(error: ProviderError): FailureClass {
    match error
    case Http => Transport
    case Decode => DecodeFailure
    case Auth => AuthFailure
    case Api(status, body) =>
      if status == 429 || status == 529 then
        if exists m :: m in QUOTA_MARKS && Contains(body, m) then AuthFailure else RateLimited
      else if status == 401 || status == 403 then AuthFailure
      else if status == 408 || status == 425 then Transport
      else if status >= 500 then ServerError
      else NonRetryable
  }

  predicate AllowedBy(c: FailureClass, classes: FailureClasses) {
    match c
    case RateLimited => classes.rateLimited
    case ServerError => classes.serverError
    case Transport => classes.transport
    case DecodeFailure => classes.decode
    case AuthFailure => classes.auth
    case NonRetryable => false
  }

  /** The controller's counters. */
  datatype Counters = Counters(current: nat, attempts: nat, tried: nat)

  const FIRST := Counters(0, 1, 1)

  /** One failed request, and whether the time budget was spent by then. */
  datatype Failure = Failure(error: ProviderError, overBudget: bool)

  predicate MayRetrySame(config: Config, c: FailureClass) {
    c != AuthFailure && AllowedBy(c, config.retryOn)
  }

  predicate MaySwitch(config: Config, c: FailureClass) {
    config.accountSwitching && AllowedBy(c, config.switchOn)
  }

  predicate UnderAccountCap(config: Config, tried: nat) {
    config.maxAccounts == 0 || tried < config.maxAccounts
  }

  /** The decision on one failure and the counters after it, with `n` candidate accounts. */
  function Decide(config: Config, n: nat, k: Counters, f: Failure): (Counters, Decision) {
    var c := Classify(f.error);
    if !config.enabled then (k, Exhausted(Disabled))
    else if c == NonRetryable then (k, Exhausted(NotRetryable))
    else if f.overBudget then (k, Exhausted(TimeBudgetExceeded))
    else if MayRetrySame(config, c) && k.attempts < config.maxAttempts then
      (k.(attempts := k.attempts + 1), Retry(k.current, k.attempts + 1, false))
    else if MaySwitch(config, c) then
      if k.current + 1 >= n then (k, Exhausted(AllAccountsFailed))
      else if !UnderAccountCap(config, k.tried) then (k, Exhausted(AccountCapReached))
      else (Counters(k.current + 1, 1, k.tried + 1), Retry(k.current + 1, 1, true))
    else if n > 1 && config.accountSwitching then (k, Exhausted(AllAccountsFailed))
    else (k, Exhausted(AccountRetriesExhausted))
  }

  class RetryController {
    const config: Config
    const accounts: seq<string>
    var current: nat
    var attemptsOnCurrent: nat
    var accountsTried: nat

    ghost function Abs(): Counters
      reads this
    {
      Counters(current, attemptsOnCurrent, accountsTried)
    }

    ghost predicate Valid()
      reads this
    {
      current < |accounts|
    }

    constructor (config: Config, accounts: seq<string>)
      requires accounts != []
      ensures Valid() && Abs() == FIRST
      ensures this.config == config && this.accounts == accounts
    {
      this.config, this.accounts := config, accounts;
      current, attemptsOnCurrent, accountsTried := 0, 1, 1;
    }

    method OnFailure(f: Failure) returns (d: Decision)
      requires Valid()
      modifies this
      ensures Valid()
      ensures (Abs(), d) == Decide(config, |accounts|, old(Abs()), f)
      ensures d.Retry? ==> d.account == current
    {
      if !config.enabled {
        return Exhausted(Disabled);
      }
      var c := Classify(f.error);
      if c == NonRetryable {
        return Exhausted(NotRetryable);
      }
      if f.overBudget {
        return Exhausted(TimeBudgetExceeded);
      }
      var mayRetrySame := c != AuthFailure && AllowedBy(c, config.retryOn);
      var maySwitch := config.accountSwitching && AllowedBy(c, config.switchOn);
      if mayRetrySame && attemptsOnCurrent < config.maxAttempts {
        attemptsOnCurrent := attemptsOnCurrent + 1;
        return Retry(current, attemptsOnCurrent, false);
      }
      if maySwitch {
        if current + 1 >= |accounts| {
          return Exhausted(AllAccountsFailed);
        }
        if !(config.maxAccounts == 0 || accountsTried < config.maxAccounts) {
          return Exhausted(AccountCapReached);
        }
        current := current + 1;
        accountsTried := accountsTried + 1;
        attemptsOnCurrent := 1;
        return Retry(current, 1, true);
      }
      d := Exhausted(if |accounts| > 1 && config.accountSwitching then AllAccountsFailed else AccountRetriesExhausted);
    }
  }

  // ---- Runs ----

  /** The counters after a run of failures, and the decisions made on them. */
  function Run(config: Config, n: nat, fs: seq<Failure>): (Counters, seq<Decision>) {
    if fs == [] then (FIRST, [])
    else
      var m := |fs| - 1;
      var (k, ds) := Run(config, n, fs[..m]);
      var (k', d) := Decide(config, n, k, fs[m]);
      (k', ds + [d])
  }

  function Retries(ds: seq<Decision>): nat {
    if ds == [] then 0
    else Retries(ds[..|ds| - 1]) + (if ds[|ds| - 1].Retry? then 1 else 0)
  }

  /** Attempts one account may get. */
  function AttemptsPerAccount(config: Config): nat {
    Max(1, config.maxAttempts)
  }

  /** Accounts that may be tried. */
  function AccountLimit(config: Config, n: nat): nat {
    if config.maxAccounts == 0 then n else Min(n, Max(1, config.maxAccounts))
  }

  ghost predicate Inv(config: Config, n: nat, k: Counters) {
    && k.tried == k.current + 1 <= AccountLimit(config, n)
    && 1 <= k.attempts <= AttemptsPerAccount(config)
  }

  /** How far a controller has come; every retry moves it on. */
  function Position(config: Config, k: Counters): nat {
    k.current * AttemptsPerAccount(config) + k.attempts
  }

  lemma PositionBound(config: Config, n: nat, k: Counters)
    requires Inv(config, n, k)
    ensures Position(config, k) <= AccountLimit(config, n) * AttemptsPerAccount(config)
  {
    var m := AttemptsPerAccount(config);
    var c := AccountLimit(config, n);
    assert k.current * m + m == (k.current + 1) * m;
    assert (k.current + 1) * m <= c * m by {
      MulMonotone(k.current + 1, c, m);
    }
  }

  lemma MulMonotone(a: nat, b: nat, m: nat)
    requires a <= b
    ensures a * m <= b * m
  {
  }

  lemma DecideInv(config: Config, n: nat, k: Counters, f: Failure)
    requires n > 0 && Inv(config, n, k)
    ensures var (k', d) := Decide(config, n, k, f);
            && Inv(config, n, k')
            && (d.Exhausted? ==> k' == k)
            && (d.Retry? ==>
                  && Position(config, k') > Position(config, k)
                  && d.account == k'.current && d.attempt == k'.attempts
                  && k'.current == k.current + (if d.switched then 1 else 0))
  {
    var (k', d) := Decide(config, n, k, f);
    if d.Retry? && d.switched {
      var m := AttemptsPerAccount(config);
      assert (k.current + 1) * m == k.current * m + m;
    }
  }

  lemma {:induction false} RunPosition(config: Config, n: nat, fs: seq<Failure>)
    requires n > 0
    ensures var (k, ds) := Run(config, n, fs);
            Inv(config, n, k) && |ds| == |fs| && Retries(ds) + 1 <= Position(config, k)
  {
    if fs != [] {
      var m := |fs| - 1;
      RunPosition(config, n, fs[..m]);
      var (k, ds) := Run(config, n, fs[..m]);
      var (k', d) := Decide(config, n, k, fs[m]);
      DecideInv(config, n, k, fs[m]);
      assert (ds + [d])[..|ds|] == ds;
    }
  }

  /** The exact budget: however failures fall, at most accounts times attempts requests are made in all. */
  lemma RetryBound(config: Config, n: nat, fs: seq<Failure>)
    requires n > 0
    ensures var (k, ds) := Run(config, n, fs);
            && Retries(ds) + 1 <= AccountLimit(config, n) * AttemptsPerAccount(config)
            && k.tried == k.current + 1 <= AccountLimit(config, n) <= n
  {
    RunPosition(config, n, fs);
    var (k, ds) := Run(config, n, fs);
    PositionBound(config, n, k);
  }

  /** Accounts are visited in order: a later retry is on the same account or a later one, and later exactly after a switch. */
  lemma {:induction false} AccountsInOrder(config: Config, n: nat, fs: seq<Failure>, i: nat, j: nat)
    requires n > 0
    requires i < j < |fs| == |Run(config, n, fs).1|
    requires Run(config, n, fs).1[i].Retry? && Run(config, n, fs).1[j].Retry?
    ensures var ds := Run(config, n, fs).1;
            && ds[i].account <= ds[j].account <= Run(config, n, fs).0.current
            && (ds[i].account == ds[j].account ==> !ds[j].switched && ds[i].attempt < ds[j].attempt)
            && (ds[j].switched ==> ds[j].attempt == 1)
  {
    var m := |fs| - 1;
    var (k, ds) := Run(config, n, fs[..m]);
    var (k', d) := Decide(config, n, k, fs[m]);
    RunPosition(config, n, fs[..m]);
    DecideInv(config, n, k, fs[m]);
    if j < m {
      AccountsInOrder(config, n, fs[..m], i, j);
    } else {
      LastRetry(config, n, fs[..m], i);
    }
  }

  /** A retry decision never lies ahead of the counters. */
  lemma {:induction false} LastRetry(config: Config, n: nat, fs: seq<Failure>, i: nat)
    requires n > 0
    requires i < |fs| == |Run(config, n, fs).1|
    requires Run(config, n, fs).1[i].Retry?
    ensures var (k, ds) := Run(config, n, fs);
            ds[i].account < k.current || (ds[i].account == k.current && ds[i].attempt <= k.attempts)
  {
    var m := |fs| - 1;
    var (k, ds) := Run(config, n, fs[..m]);
    RunPosition(config, n, fs[..m]);
    DecideInv(config, n, k, fs[m]);
    if i < m {
      LastRetry(config, n, fs[..m], i);
    }
  }

  /** A failure that may be retried on the same account and on another one, within the time budget. */
  predicate Steady(config: Config, f: Failure) {
    && config.enabled
    && !f.overBudget
    && MayRetrySame(config, Classify(f.error))
    && MaySwitch(config, Classify(f.error))
  }

  lemma SteadyStep(config: Config, n: nat, k: Counters, f: Failure)
    requires n > 0 && Inv(config, n, k) && Steady(config, f)
    ensures var (k', d) := Decide(config, n, k, f);
            if Position(config, k) == AccountLimit(config, n) * AttemptsPerAccount(config) then d.Exhausted?
            else d.Retry? && Position(config, k') == Position(config, k) + 1
  {
    var m := AttemptsPerAccount(config);
    var c := AccountLimit(config, n);
    assert (k.current + 1) * m == k.current * m + m;
    if k.attempts < m {
      MulMonotone(k.current + 1, c, m);
    } else if k.current + 1 < c {
      MulMonotone(k.current + 2, c, m);
      assert (k.current + 2) * m == k.current * m + m + m;
    }
  }

  lemma {:induction false} SteadyRun(config: Config, n: nat, f: Failure, fs: seq<Failure>)
    requires n > 0 && Steady(config, f)
    requires forall i :: 0 <= i < |fs| ==> fs[i] == f
    requires |fs| < AccountLimit(config, n) * AttemptsPerAccount(config)
    ensures var (k, ds) := Run(config, n, fs);
            Retries(ds) == |fs| && Position(config, k) == |fs| + 1
  {
    if fs != [] {
      var m := |fs| - 1;
      SteadyRun(config, n, f, fs[..m]);
      RunPosition(config, n, fs[..m]);
      var (k, ds) := Run(config, n, fs[..m]);
      SteadyStep(config, n, k, f);
      var (k', d) := Decide(config, n, k, f);
      assert (ds + [d])[..|ds|] == ds;
    }
  }

  /** The budget is attained: a steady failure is retried exactly accounts times attempts minus one times. */
  lemma BoundAttained(config: Config, n: nat, f: Failure)
    requires n > 0 && Steady(config, f)
    ensures var budget := AccountLimit(config, n) * AttemptsPerAccount(config);
            && budget > 0
            && var fs := seq(budget - 1, _ => f);
               var (k, ds) := Run(config, n, fs);
               Retries(ds) == budget - 1 && Decide(config, n, k, f).1.Exhausted?
  {
    var c, m := AccountLimit(config, n), AttemptsPerAccount(config);
    MulMonotone(1, c, m);
    var fs := seq(c * m - 1, _ => f);
    SteadyRun(config, n, f, fs);
    RunPosition(config, n, fs);
    SteadyStep(config, n, Run(config, n, fs).0, f);
  }
}
