/**
 * Model of the scheduling arithmetic in main.py: the per-kind rate limits,
 * the weight sums over the configured users, and the polling interval each
 * enabled (user, kind) pair gets.
 *
 * The interval is `max(5, ceil(60 * widgetSum / (limit * tokenNumber * widget)))`
 * computed in Python floating point; here the quotient and its ceiling are
 * exact rationals on integers, and a zero denominator (Python's
 * ZeroDivisionError) is None.
 */
module Scheduling {
  import opened Wrappers

  /** Requests per minute per token for each kind of monitor. */
  const FollowingLimit: int := 1
  const LikeLimit: int := 5
  const TweetLimit: int := 60

  /** No interval is shorter than this many seconds. */
  const MinIntervalSecond: int := 5

  datatype Kind = Following | Like | Tweet

  function Limit(kind: Kind): (r: int)
    ensures r > 0
  {
    match kind
    case Following => FollowingLimit
    case Like => LikeLimit
    case Tweet => TweetLimit
  }

  /** One entry of `monitoring_user_list`; an absent `monitoring_*` key reads as false. */
  datatype MonitoringUser = MonitoringUser(
    username: string,
    weight: int,
    monitoringFollowing: bool,
    monitoringLike: bool,
    monitoringTweet: bool)

  predicate Enabled(user: MonitoringUser, kind: Kind)
  {
    match kind
    case Following => user.monitoringFollowing
    case Like => user.monitoringLike
    case Tweet => user.monitoringTweet
  }

  /** The sum of the weights of the users that have `kind` enabled. */
  function SumWeights(users: seq<MonitoringUser>, kind: Kind): int
  {
    if users == [] then 0
    else
      var last := users[|users| - 1];
      SumWeights(users[..|users| - 1], kind) + (if Enabled(last, kind) then last.weight else 0)
  }

  /** With non-negative weights, an enabled user's weight is at most its kind's sum. */
  lemma {:induction false} WeightAtMostSum(users: seq<MonitoringUser>, kind: Kind, i: nat)
    requires i < |users| && Enabled(users[i], kind)
    requires forall j :: 0 <= j < |users| ==> users[j].weight >= 0
    ensures 0 <= users[i].weight <= SumWeights(users, kind)
  {
    var n := |users|;
    SumNonNegative(users[..n - 1], kind);
    if i < n - 1 {
      WeightAtMostSum(users[..n - 1], kind, i);
    }
  }

  lemma {:induction false} SumNonNegative(users: seq<MonitoringUser>, kind: Kind)
    requires forall j :: 0 <= j < |users| ==> users[j].weight >= 0
    ensures SumWeights(users, kind) >= 0
  {
    if users != [] {
      SumNonNegative(users[..|users| - 1], kind);
    }
  }

  /** The weight-sum loop of `run`: one pass over the users accumulating the three sums. */
  method WeightSums(users: seq<MonitoringUser>) returns (followingWeightSum: int, likeWeightSum: int, tweetWeightSum: int)
    ensures followingWeightSum == SumWeights(users, Following)
    ensures likeWeightSum == SumWeights(users, Like)
    ensures tweetWeightSum == SumWeights(users, Tweet)
  {
    followingWeightSum, likeWeightSum, tweetWeightSum := 0, 0, 0;
    for i := 0 to |users|
      invariant followingWeightSum == SumWeights(users[..i], Following)
      invariant likeWeightSum == SumWeights(users[..i], Like)
      invariant tweetWeightSum == SumWeights(users[..i], Tweet)
    {
      assert users[..i + 1][..i] == users[..i];
      var user := users[i];
      if user.monitoringFollowing {
        followingWeightSum := followingWeightSum + user.weight;
      }
      if user.monitoringLike {
        likeWeightSum := likeWeightSum + user.weight;
      }
      if user.monitoringTweet {
        tweetWeightSum := tweetWeightSum + user.weight;
      }
    }
    assert users[..|users|] == users;
  }

  /** `math.ceil(a / b)` on exact rationals. */
  function CeilDiv(a: int, b: int): int
    requires b != 0
  {
    if b > 0 then -((-a) / b) else -(a / (-b))
  }

  /** The ceiling is the least integer whose product with a positive divisor reaches the dividend. */
  lemma CeilDivSpec(a: int, b: int)
    requires b > 0
    ensures CeilDiv(a, b) * b >= a
    ensures (CeilDiv(a, b) - 1) * b < a
  {
    var q := (-a) / b;
    assert -a == q * b + (-a) % b;
  }

  /** Any integer whose product with a positive divisor reaches the dividend is at least the ceiling. */
  lemma CeilDivLeast(a: int, b: int, c: int)
    requires b > 0 && c * b >= a
    ensures c >= CeilDiv(a, b)
  {
    CeilDivSpec(a, b);
    var d := CeilDiv(a, b);
    if c < d {
      assert c <= d - 1;
      MulLeft(c, d - 1, b);
    }
  }

  lemma MulLeft(x: int, y: int, b: int)
    requires x <= y && b >= 0
    ensures x * b <= y * b
  {
  }

  /** `_get_interval_second`; None when the denominator is zero. */
  function IntervalSecond(limitPerMinute: int, tokenNumber: int, widget: int, widgetSum: int): (r: Option<int>)
    ensures r.None? <==> limitPerMinute * tokenNumber * widget == 0
    ensures r.Some? ==> r.value >= MinIntervalSecond
  {
    var denominator := limitPerMinute * tokenNumber * widget;
    if denominator == 0 then None
    else
      var c := CeilDiv(60 * widgetSum, denominator);
      Some(if c > MinIntervalSecond then c else MinIntervalSecond)
  }

  /**
   * For a positive denominator the interval is the least integer that is at
   * least 5 and at least `60 * widgetSum / denominator`.
   */
  lemma IntervalIsLeast(limitPerMinute: int, tokenNumber: int, widget: int, widgetSum: int, t: int)
    requires limitPerMinute * tokenNumber * widget > 0
    ensures var r := IntervalSecond(limitPerMinute, tokenNumber, widget, widgetSum).value;
      && r * (limitPerMinute * tokenNumber * widget) >= 60 * widgetSum
      && (t >= MinIntervalSecond && t * (limitPerMinute * tokenNumber * widget) >= 60 * widgetSum ==> t >= r)
  {
    var d := limitPerMinute * tokenNumber * widget;
    var c := CeilDiv(60 * widgetSum, d);
    CeilDivSpec(60 * widgetSum, d);
    if c < MinIntervalSecond {
      MulLeft(c, MinIntervalSecond, d);
    }
    if t >= MinIntervalSecond && t * d >= 60 * widgetSum {
      CeilDivLeast(60 * widgetSum, d, t);
    }
  }

  /** A larger positive denominator (more weight, more tokens or a higher limit) never lengthens the interval. */
  lemma IntervalNonIncreasingInDenominator(widgetSum: int, d1: int, d2: int)
    requires 0 < d1 <= d2 && widgetSum >= 0
    ensures CeilDiv(60 * widgetSum, d2) <= CeilDiv(60 * widgetSum, d1)
  {
    var c1 := CeilDiv(60 * widgetSum, d1);
    CeilDivSpec(60 * widgetSum, d1);
    if c1 < 0 {
      MulLeft(c1, 0, d1);
    }
    MulLeft(d1, d2, c1);
    CeilDivLeast(60 * widgetSum, d2, c1);
  }

  /** A larger weight sum never shortens the interval. */
  lemma IntervalNonDecreasingInSum(s1: int, s2: int, d: int)
    requires s1 <= s2 && d > 0
    ensures CeilDiv(60 * s1, d) <= CeilDiv(60 * s2, d)
  {
    CeilDivSpec(60 * s2, d);
    CeilDivLeast(60 * s1, d, CeilDiv(60 * s2, d));
  }

  /** The interval as a whole is monotone in each argument, for positive arguments. */
  lemma IntervalMonotone(limit: int, tokens: int, widget: int, widgetSum: int, limit': int, tokens': int, widget': int, widgetSum': int)
    requires 0 < limit <= limit' && 0 < tokens <= tokens' && 0 < widget <= widget' && 0 <= widgetSum' <= widgetSum
    ensures IntervalSecond(limit', tokens', widget', widgetSum').value <= IntervalSecond(limit, tokens, widget, widgetSum).value
  {
    var d, d' := limit * tokens * widget, limit' * tokens' * widget';
    MulLeft(limit, limit', tokens);
    MulLeft(tokens, tokens', limit');
    MulLeft(limit * tokens, limit' * tokens', widget);
    MulLeft(widget, widget', limit' * tokens');
    assert 0 < d <= d';
    IntervalNonIncreasingInDenominator(widgetSum', d, d');
    IntervalNonDecreasingInSum(widgetSum', widgetSum, d);
  }

  /** A scheduled polling job: the monitor kind, the user and its interval (None: the division fails). */
  datatype Job = Job(kind: Kind, username: string, intervalSecond: Option<int>)

  /** The three weight sums of `run`. */
  datatype Sums = Sums(following: int, like: int, tweet: int)
  {
    function Of(kind: Kind): int
    {
      match kind
      case Following => following
      case Like => like
      case Tweet => tweet
    }
  }

  /** The sums over the whole user list. */
  function SumsOf(users: seq<MonitoringUser>): Sums
  {
    Sums(SumWeights(users, Following), SumWeights(users, Like), SumWeights(users, Tweet))
  }

  /** The job of one (user, kind) pair: the kind's limit and the kind's sum. */
  function JobFor(user: MonitoringUser, kind: Kind, tokenNumber: int, sums: Sums): Job
  {
    Job(kind, user.username, IntervalSecond(Limit(kind), tokenNumber, user.weight, sums.Of(kind)))
  }

  /** The jobs one user gets, in the order `run` adds them. */
  function UserJobs(user: MonitoringUser, tokenNumber: int, sums: Sums): seq<Job>
  {
    []
    + (if user.monitoringFollowing then [JobFor(user, Following, tokenNumber, sums)] else [])
    + (if user.monitoringLike then [JobFor(user, Like, tokenNumber, sums)] else [])
    + (if user.monitoringTweet then [JobFor(user, Tweet, tokenNumber, sums)] else [])
  }

  /** A user gets exactly one job per enabled kind, each with its own kind's limit and sum. */
  lemma UserJobsSpec(user: MonitoringUser, tokenNumber: int, sums: Sums)
    ensures forall j :: j in UserJobs(user, tokenNumber, sums) ==> j == JobFor(user, j.kind, tokenNumber, sums) && Enabled(user, j.kind)
    ensures forall k: Kind :: Enabled(user, k) <==> JobFor(user, k, tokenNumber, sums) in UserJobs(user, tokenNumber, sums)
    ensures forall i, j :: 0 <= i < j < |UserJobs(user, tokenNumber, sums)| ==>
      UserJobs(user, tokenNumber, sums)[i].kind != UserJobs(user, tokenNumber, sums)[j].kind
  {
    var jf, jl, jt := JobFor(user, Following, tokenNumber, sums), JobFor(user, Like, tokenNumber, sums), JobFor(user, Tweet, tokenNumber, sums);
    ThreePartSpec(user.monitoringFollowing, user.monitoringLike, user.monitoringTweet, jf, jl, jt);
  }

  /** Up to three jobs of the kinds Following, Like and Tweet: each kind at most once, and present exactly when its flag is set. */
  lemma ThreePartSpec(bf: bool, bl: bool, bt: bool, jf: Job, jl: Job, jt: Job)
    requires jf.kind == Following && jl.kind == Like && jt.kind == Tweet
    ensures var js := [] + (if bf then [jf] else []) + (if bl then [jl] else []) + (if bt then [jt] else []);
      && (forall j :: j in js ==> (j.kind == Following ==> j == jf && bf) && (j.kind == Like ==> j == jl && bl) && (j.kind == Tweet ==> j == jt && bt))
      && (bf <==> jf in js) && (bl <==> jl in js) && (bt <==> jt in js)
      && (forall i, j :: 0 <= i < j < |js| ==> js[i].kind != js[j].kind)
  {
  }

  function Jobs(users: seq<MonitoringUser>, tokenNumber: int, sums: Sums): seq<Job>
  {
    if users == [] then []
    else Jobs(users[..|users| - 1], tokenNumber, sums) + UserJobs(users[|users| - 1], tokenNumber, sums)
  }

  /** Some enabled kind of `user` has a zero denominator, so its `_get_interval_second` raises. */
  predicate UserFails(user: MonitoringUser, tokenNumber: int)
  {
    exists kind: Kind :: Enabled(user, kind) && Limit(kind) * tokenNumber * user.weight == 0
  }

  /** Some user of the list makes the scheduling loop raise. */
  predicate PlanFails(users: seq<MonitoringUser>, tokenNumber: int)
  {
    exists i :: 0 <= i < |users| && UserFails(users[i], tokenNumber)
  }

  /**
   * The scheduling loop of `run`: the jobs of each user in turn, with the
   * sums of the whole list. A zero denominator raises out of `run` before
   * `scheduler.start()`, so no job is ever scheduled: the plan is None.
   */
  method PlanJobs(users: seq<MonitoringUser>, tokenNumber: int) returns (plan: Option<seq<Job>>)
    ensures plan.None? <==> PlanFails(users, tokenNumber)
    ensures plan.Some? ==> plan.value == Jobs(users, tokenNumber, SumsOf(users))
  {
    var following, like, tweet := WeightSums(users);
    var sums := Sums(following, like, tweet);
    var jobs := [];
    for i := 0 to |users|
      invariant jobs == Jobs(users[..i], tokenNumber, sums)
      invariant !PlanFails(users[..i], tokenNumber)
    {
      assert users[..i + 1][..i] == users[..i];
      var user := users[i];
      var userJobs := UserJobsOf(user, tokenNumber, sums);
      if userJobs.None? {
        assert users[i] == user && UserFails(users[i], tokenNumber);
        return None;
      }
      jobs := jobs + userJobs.value;
    }
    assert users[..|users|] == users;
    plan := Some(jobs);
  }

  /** The body of the scheduling loop for one user: one job per enabled kind, or None where an interval raises. */
  method UserJobsOf(user: MonitoringUser, tokenNumber: int, sums: Sums) returns (userJobs: Option<seq<Job>>)
    ensures userJobs.None? <==> UserFails(user, tokenNumber)
    ensures userJobs.Some? ==> userJobs.value == UserJobs(user, tokenNumber, sums)
  {
    var jobs := [];
    if user.monitoringFollowing {
      var interval := IntervalSecond(FollowingLimit, tokenNumber, user.weight, sums.following);
      if interval.None? {
        assert Enabled(user, Following);
        return None;
      }
      jobs := jobs + [Job(Following, user.username, interval)];
    }
    if user.monitoringLike {
      var interval := IntervalSecond(LikeLimit, tokenNumber, user.weight, sums.like);
      if interval.None? {
        assert Enabled(user, Like);
        return None;
      }
      jobs := jobs + [Job(Like, user.username, interval)];
    }
    if user.monitoringTweet {
      var interval := IntervalSecond(TweetLimit, tokenNumber, user.weight, sums.tweet);
      if interval.None? {
        assert Enabled(user, Tweet);
        return None;
      }
      jobs := jobs + [Job(Tweet, user.username, interval)];
    }
    userJobs := Some(jobs);
  }

  /** Every job is the job of some user that enabled its kind, with that kind's limit and sum. */
  lemma {:induction false} JobsUseOwnKind(users: seq<MonitoringUser>, tokenNumber: int, sums: Sums)
    ensures forall j :: j in Jobs(users, tokenNumber, sums) ==>
      exists i :: 0 <= i < |users| && j == JobFor(users[i], j.kind, tokenNumber, sums) && Enabled(users[i], j.kind)
  {
    if users != [] {
      var n := |users|;
      JobsUseOwnKind(users[..n - 1], tokenNumber, sums);
      UserJobsSpec(users[n - 1], tokenNumber, sums);
      forall j | j in Jobs(users, tokenNumber, sums)
        ensures exists i :: 0 <= i < n && j == JobFor(users[i], j.kind, tokenNumber, sums) && Enabled(users[i], j.kind)
      {
        if j !in UserJobs(users[n - 1], tokenNumber, sums) {
          var i :| 0 <= i < n - 1 && j == JobFor(users[..n - 1][i], j.kind, tokenNumber, sums) && Enabled(users[..n - 1][i], j.kind);
          assert users[i] == users[..n - 1][i];
        }
      }
    }
  }

  /** When the loop does not raise, every planned job has an interval of at least 5 seconds. */
  lemma PlannedJobsHaveIntervals(users: seq<MonitoringUser>, tokenNumber: int, sums: Sums)
    requires !PlanFails(users, tokenNumber)
    ensures forall j :: j in Jobs(users, tokenNumber, sums) ==>
      j.intervalSecond.Some? && j.intervalSecond.value >= MinIntervalSecond
  {
    JobsUseOwnKind(users, tokenNumber, sums);
    forall j | j in Jobs(users, tokenNumber, sums)
      ensures j.intervalSecond.Some? && j.intervalSecond.value >= MinIntervalSecond
    {
      var i :| 0 <= i < |users| && j == JobFor(users[i], j.kind, tokenNumber, sums) && Enabled(users[i], j.kind);
      assert !UserFails(users[i], tokenNumber);
    }
  }

  /** Every enabled (user, kind) pair gets its job. */
  lemma {:induction false} EveryEnabledPairScheduled(users: seq<MonitoringUser>, tokenNumber: int, sums: Sums, i: nat, kind: Kind)
    requires i < |users| && Enabled(users[i], kind)
    ensures JobFor(users[i], kind, tokenNumber, sums) in Jobs(users, tokenNumber, sums)
  {
    var n := |users|;
    if i == n - 1 {
      UserJobsSpec(users[i], tokenNumber, sums);
    } else {
      EveryEnabledPairScheduled(users[..n - 1], tokenNumber, sums, i, kind);
      assert users[..n - 1][i] == users[i];
    }
  }

  /** One polling job's interval and the weight it was computed from. */
  datatype Share = Share(intervalSecond: int, weight: int)

  /** The share of one enabled user: its interval meets its part of the budget (`limit * tokens * weight / total`). */
  function ShareOf(user: MonitoringUser, kind: Kind, tokenNumber: int, total: int): (s: Share)
    requires user.weight > 0 && tokenNumber > 0
    ensures s.weight == user.weight && s.intervalSecond >= MinIntervalSecond
    ensures s.intervalSecond * (Limit(kind) * tokenNumber * s.weight) >= 60 * total
  {
    MulPositive(Limit(kind), tokenNumber, user.weight);
    var i := IntervalSecond(Limit(kind), tokenNumber, user.weight, total).value;
    IntervalIsLeast(Limit(kind), tokenNumber, user.weight, total, i);
    Share(i, user.weight)
  }

  /** The shares of the users that enabled `kind`, in user order, their intervals computed with `total`. */
  function Shares(users: seq<MonitoringUser>, kind: Kind, tokenNumber: int, total: int): (r: seq<Share>)
    requires forall j :: 0 <= j < |users| ==> users[j].weight > 0
    requires tokenNumber > 0
    ensures WithinShare(r, Limit(kind) * tokenNumber, total)
  {
    if users == [] then []
    else
      var last := users[|users| - 1];
      var rest := Shares(users[..|users| - 1], kind, tokenNumber, total);
      if Enabled(last, kind) then rest + [ShareOf(last, kind, tokenNumber, total)] else rest
  }

  function WeightOf(shares: seq<Share>): int
  {
    if shares == [] then 0 else WeightOf(shares[..|shares| - 1]) + shares[|shares| - 1].weight
  }

  lemma {:induction false} SharesWeigh(users: seq<MonitoringUser>, kind: Kind, tokenNumber: int, total: int)
    requires forall j :: 0 <= j < |users| ==> users[j].weight > 0
    requires tokenNumber > 0
    ensures WeightOf(Shares(users, kind, tokenNumber, total)) == SumWeights(users, kind)
  {
    if users != [] {
      var n := |users|;
      SharesWeigh(users[..n - 1], kind, tokenNumber, total);
      var rest := Shares(users[..n - 1], kind, tokenNumber, total);
      if Enabled(users[n - 1], kind) {
        var sh := ShareOf(users[n - 1], kind, tokenNumber, total);
        assert Shares(users, kind, tokenNumber, total) == rest + [sh];
        WeightOfSnoc(rest, sh);
      } else {
        assert Shares(users, kind, tokenNumber, total) == rest;
      }
    }
  }

  lemma WeightOfSnoc(shares: seq<Share>, share: Share)
    ensures WeightOf(shares + [share]) == WeightOf(shares) + share.weight
  {
    assert (shares + [share])[..|shares + [share]| - 1] == shares;
  }

  /** The requests per minute of jobs polling at the given intervals. */
  function RateOf(shares: seq<Share>): real
    requires forall i :: 0 <= i < |shares| ==> shares[i].intervalSecond > 0
  {
    if shares == [] then 0.0
    else RateOf(shares[..|shares| - 1]) + 60.0 / (shares[|shares| - 1].intervalSecond as real)
  }

  /** Each share polls often enough for at most `budget * weight / total` requests a minute. */
  ghost predicate WithinShare(shares: seq<Share>, budget: int, total: int)
  {
    forall i :: 0 <= i < |shares| ==> ShareFits(shares[i], budget, total)
  }

  /** One share polls at most `budget * weight / total` times a minute. */
  ghost predicate ShareFits(share: Share, budget: int, total: int)
  {
    share.intervalSecond > 0 && share.intervalSecond * (budget * share.weight) >= 60 * total
  }

  lemma JobWithinShare(share: Share, x: real, budget: int, total: int)
    requires ShareFits(share, budget, total) && x == 60.0 / (share.intervalSecond as real)
    ensures x * (total as real) <= (budget * share.weight) as real
  {
    var interval, bw := share.intervalSecond, budget * share.weight;
    assert x * (interval as real) == 60.0;
    assert (interval as real) * (bw as real) >= 60.0 * (total as real) by {
      MulAsReal(interval, bw);
    }
    RealDivide(x * (total as real), bw as real, interval as real);
  }

  lemma MulAsReal(a: int, b: int)
    ensures (a * b) as real == (a as real) * (b as real)
  {
  }

  lemma RealDivide(a: real, b: real, i: real)
    requires i > 0.0 && a * i <= b * i
    ensures a <= b
  {
  }

  /** Shares that each keep within their part of the budget keep, together, within the budget times their weight. */
  lemma {:induction false} RateWithinBudget(shares: seq<Share>, budget: int, total: int)
    requires WithinShare(shares, budget, total)
    ensures RateOf(shares) * (total as real) <= (budget * WeightOf(shares)) as real
  {
    if shares == [] {
      assert budget * WeightOf(shares) == 0;
    } else {
      var n := |shares|;
      var last := shares[n - 1];
      var rest := shares[..n - 1];
      WithinSharePrefix(shares, budget, total);
      RateWithinBudget(rest, budget, total);
      var x := 60.0 / (last.intervalSecond as real);
      JobWithinShare(last, x, budget, total);
      assert RateOf(shares) == RateOf(rest) + x;
      assert WeightOf(shares) == WeightOf(rest) + last.weight;
      Distribute(budget, WeightOf(rest), last.weight);
      StepBound(RateOf(rest), x, total as real, budget * WeightOf(rest), budget * last.weight);
    }
  }

  lemma WithinSharePrefix(shares: seq<Share>, budget: int, total: int)
    requires shares != [] && WithinShare(shares, budget, total)
    ensures WithinShare(shares[..|shares| - 1], budget, total)
    ensures ShareFits(shares[|shares| - 1], budget, total)
  {
    var rest := shares[..|shares| - 1];
    forall i | 0 <= i < |rest|
      ensures ShareFits(rest[i], budget, total)
    {
      assert rest[i] == shares[i];
    }
  }

  lemma Distribute(b: int, x: int, y: int)
    ensures b * (x + y) == b * x + b * y
  {
  }

  lemma StepBound(rest: real, x: real, t: real, a: int, b: int)
    requires rest * t <= a as real && x * t <= b as real
    ensures (rest + x) * t <= (a + b) as real
  {
  }

  lemma RateWithinWholeBudget(shares: seq<Share>, budget: int, total: int)
    requires WithinShare(shares, budget, total) && WeightOf(shares) == total && total > 0
    ensures RateOf(shares) <= budget as real
  {
    RateWithinBudget(shares, budget, total);
    MulAsReal(budget, total);
    RealDivide(RateOf(shares), budget as real, total as real);
  }

  lemma MulPositive(a: int, b: int, c: int)
    requires a > 0 && b > 0 && c > 0
    ensures a * b * c > 0
  {
  }

  /**
   * The polling jobs of one kind, with intervals computed from the full
   * weight sum, make together at most `limit * tokens` requests a minute.
   */
  lemma AllJobsWithinLimit(users: seq<MonitoringUser>, kind: Kind, tokenNumber: int)
    requires forall j :: 0 <= j < |users| ==> users[j].weight > 0
    requires tokenNumber > 0 && SumWeights(users, kind) > 0
    ensures RateOf(Shares(users, kind, tokenNumber, SumWeights(users, kind))) <= (Limit(kind) * tokenNumber) as real
  {
    var s := SumWeights(users, kind);
    SharesWeigh(users, kind, tokenNumber, s);
    RateWithinWholeBudget(Shares(users, kind, tokenNumber, s), Limit(kind) * tokenNumber, s);
  }

  /** The intervals of the jobs of one kind, in plan order. */
  function KindIntervals(jobs: seq<Job>, kind: Kind): seq<Option<int>>
  {
    if jobs == [] then []
    else
      var last := jobs[|jobs| - 1];
      KindIntervals(jobs[..|jobs| - 1], kind) + (if last.kind == kind then [last.intervalSecond] else [])
  }

  /** The intervals of a list of shares, in order. */
  function ShareIntervals(shares: seq<Share>): seq<Option<int>>
  {
    if shares == [] then []
    else ShareIntervals(shares[..|shares| - 1]) + [Some(shares[|shares| - 1].intervalSecond)]
  }

  lemma {:induction false} KindIntervalsAppend(a: seq<Job>, b: seq<Job>, kind: Kind)
    ensures KindIntervals(a + b, kind) == KindIntervals(a, kind) + KindIntervals(b, kind)
  {
    if b == [] {
      assert a + b == a;
    } else {
      assert (a + b)[..|a + b| - 1] == a + b[..|b| - 1];
      KindIntervalsAppend(a, b[..|b| - 1], kind);
    }
  }

  lemma ShareIntervalsSnoc(shares: seq<Share>, share: Share)
    ensures ShareIntervals(shares + [share]) == ShareIntervals(shares) + [Some(share.intervalSecond)]
  {
    assert (shares + [share])[..|shares + [share]| - 1] == shares;
  }

  /** The kind-k intervals of an optional one-job part of a user's jobs. */
  lemma KindIntervalsPart(present: bool, job: Job, kind: Kind)
    ensures KindIntervals(if present then [job] else [], kind) ==
      if present && job.kind == kind then [job.intervalSecond] else []
  {
    assert [job][..0] == [];
  }

  /** The kind-k intervals of up to three jobs of the kinds Following, Like and Tweet, in that order. */
  lemma ThreePartIntervals(bf: bool, bl: bool, bt: bool, jf: Job, jl: Job, jt: Job, kind: Kind)
    requires jf.kind == Following && jl.kind == Like && jt.kind == Tweet
    ensures KindIntervals([] + (if bf then [jf] else []) + (if bl then [jl] else []) + (if bt then [jt] else []), kind) ==
      match kind
      case Following => (if bf then [jf.intervalSecond] else [])
      case Like => (if bl then [jl.intervalSecond] else [])
      case Tweet => (if bt then [jt.intervalSecond] else [])
  {
    var f, l, t := (if bf then [jf] else []), (if bl then [jl] else []), (if bt then [jt] else []);
    assert [] + f + l + t == (f + l) + t;
    KindIntervalsAppend(f + l, t, kind);
    KindIntervalsAppend(f, l, kind);
    KindIntervalsPart(bf, jf, kind);
    KindIntervalsPart(bl, jl, kind);
    KindIntervalsPart(bt, jt, kind);
  }

  /** Among one user's jobs, the kind-k job (if any) is the one computed for k. */
  lemma UserKindIntervals(user: MonitoringUser, tokenNumber: int, sums: Sums, kind: Kind)
    ensures KindIntervals(UserJobs(user, tokenNumber, sums), kind) ==
      if Enabled(user, kind) then [JobFor(user, kind, tokenNumber, sums).intervalSecond] else []
  {
    ThreePartIntervals(user.monitoringFollowing, user.monitoringLike, user.monitoringTweet,
      JobFor(user, Following, tokenNumber, sums), JobFor(user, Like, tokenNumber, sums), JobFor(user, Tweet, tokenNumber, sums), kind);
  }

  /**
   * The jobs of one kind in the plan poll at exactly the intervals of that
   * kind's shares, in the same order: the budget bound proved about `Shares`
   * is a bound on the scheduled jobs.
   */
  lemma {:induction false} PlanIntervalsAreShares(users: seq<MonitoringUser>, tokenNumber: int, sums: Sums, kind: Kind)
    requires forall j :: 0 <= j < |users| ==> users[j].weight > 0
    requires tokenNumber > 0
    ensures KindIntervals(Jobs(users, tokenNumber, sums), kind) == ShareIntervals(Shares(users, kind, tokenNumber, sums.Of(kind)))
  {
    if users != [] {
      var n := |users|;
      var rest, last := users[..n - 1], users[n - 1];
      PlanIntervalsAreShares(rest, tokenNumber, sums, kind);
      KindIntervalsAppend(Jobs(rest, tokenNumber, sums), UserJobs(last, tokenNumber, sums), kind);
      UserKindIntervals(last, tokenNumber, sums, kind);
      SharesSnoc(users, kind, tokenNumber, sums.Of(kind));
      if Enabled(last, kind) {
        ShareIntervalsSnoc(Shares(rest, kind, tokenNumber, sums.Of(kind)), ShareOf(last, kind, tokenNumber, sums.Of(kind)));
        JobIntervalIsShare(last, kind, tokenNumber, sums);
      }
    }
  }

  /** One more user adds its share exactly when it enabled the kind. */
  lemma SharesSnoc(users: seq<MonitoringUser>, kind: Kind, tokenNumber: int, total: int)
    requires users != [] && forall j :: 0 <= j < |users| ==> users[j].weight > 0
    requires tokenNumber > 0
    ensures Shares(users, kind, tokenNumber, total) ==
      Shares(users[..|users| - 1], kind, tokenNumber, total)
      + (if Enabled(users[|users| - 1], kind) then [ShareOf(users[|users| - 1], kind, tokenNumber, total)] else [])
  {
  }

  /** A job and the share of the same (user, kind) have the same interval. */
  lemma JobIntervalIsShare(user: MonitoringUser, kind: Kind, tokenNumber: int, sums: Sums)
    requires user.weight > 0 && tokenNumber > 0
    ensures JobFor(user, kind, tokenNumber, sums).intervalSecond == Some(ShareOf(user, kind, tokenNumber, sums.Of(kind)).intervalSecond)
  {
    MulPositive(Limit(kind), tokenNumber, user.weight);
  }

  /**
   * With positive weights and tokens the scheduling loop does not raise, its
   * jobs of each kind poll at the intervals of that kind's shares, and those
   * together make at most `limit * tokens` requests a minute.
   */
  lemma ScheduledJobsWithinLimit(users: seq<MonitoringUser>, kind: Kind, tokenNumber: int)
    requires forall j :: 0 <= j < |users| ==> users[j].weight > 0
    requires tokenNumber > 0 && SumWeights(users, kind) > 0
    ensures !PlanFails(users, tokenNumber)
    ensures KindIntervals(Jobs(users, tokenNumber, SumsOf(users)), kind) ==
      ShareIntervals(Shares(users, kind, tokenNumber, SumWeights(users, kind)))
    ensures RateOf(Shares(users, kind, tokenNumber, SumWeights(users, kind))) <= (Limit(kind) * tokenNumber) as real
  {
    forall i | 0 <= i < |users|
      ensures !UserFails(users[i], tokenNumber)
    {
      forall k: Kind
        ensures Limit(k) * tokenNumber * users[i].weight != 0
      {
        MulPositive(Limit(k), tokenNumber, users[i].weight);
      }
    }
    assert SumsOf(users).Of(kind) == SumWeights(users, kind);
    PlanIntervalsAreShares(users, tokenNumber, SumsOf(users), kind);
    AllJobsWithinLimit(users, kind, tokenNumber);
  }
}
