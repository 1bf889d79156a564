/**
 * Model of twitter_following_monitor.py, the older follow-list monitor:
 * its own Sleeper with a fixed 60-second floor, a request loop that retries
 * every non-200 answer after one abnormal sleep, token pagination, and a
 * diff that sends at most two messages (the whole Follow set, then the whole
 * Unfollow set) and always stores the new snapshot.
 *
 * `requests.request` is modelled by a script of HTTP answers, one per
 * attempt; the Telegram notifier by the monitor's `outbox`.
 */
module TwitterFollowing {
  import opened Wrappers
  import opened Upstream
  import Sleeping
  import FollowingMonitoring

  const MinSleepSecond: nat := 60

  /** This file's `Sleeper`: sleeper.py's state machine with the floor fixed at 60 seconds. */
  class Sleeper {
    var sleepSecond: nat
    var normalCount: nat
    /** How many doublings the delay is above the floor. */
    ghost var exponent: nat

    ghost predicate Valid()
      reads this
    {
      sleepSecond == MinSleepSecond * Pow2(exponent)
    }

    function State(): Sleeping.SleepState
      reads this
    {
      Sleeping.SleepState(sleepSecond, normalCount)
    }

    constructor()
      ensures Valid()
      ensures State() == Sleeping.SleepState(MinSleepSecond, 0)
    {
      sleepSecond := MinSleepSecond;
      normalCount := 0;
      exponent := 0;
    }

    /** `sleep(normal)`: returns how long it sleeps (the new delay), never below 60 seconds. */
    method Sleep(normal: bool) returns (slept: nat)
      requires Valid()
      modifies this
      ensures Valid()
      ensures State() == Sleeping.Step(MinSleepSecond, old(State()), normal)
      ensures sleepSecond >= MinSleepSecond
      ensures slept == sleepSecond
    {
      if normal {
        normalCount := normalCount + 1;
        if normalCount > Sleeping.NormalRoundsBeforeHalving && sleepSecond > MinSleepSecond {
          assert exponent > 0;
          assert MinSleepSecond * Pow2(exponent) == 2 * (MinSleepSecond * Pow2(exponent - 1));
          sleepSecond := sleepSecond / 2;
          exponent := exponent - 1;
        }
      } else {
        normalCount := 0;
        sleepSecond := sleepSecond * 2;
        exponent := exponent + 1;
      }
      slept := sleepSecond;
    }
  }

  /**
   * `send_get_request` with `self.sleeper` passed explicitly: every non-200
   * answer is followed by exactly one abnormal sleep and a new attempt.
   * Returns the first 200 body and the position after it, or `None` when the
   * script ends first.
   */
  method SendGetRequest(sleeper: Sleeper, script: seq<HttpAnswer>, start: nat)
    returns (body: Option<Page>, next: nat)
    requires sleeper.Valid()
    requires start <= |script|
    modifies sleeper
    ensures sleeper.Valid()
    ensures start <= next <= |script|
    ensures body.None? ==> next == |script| && forall k :: start <= k < |script| ==> script[k].status != 200
    ensures body.None? ==>
      sleeper.State() == Sleeping.Repeat(MinSleepSecond, old(sleeper.State()), false, |script| - start)
    ensures body.Some? ==> start < next && script[next - 1].status == 200 && body == Some(script[next - 1].body)
    ensures body.Some? ==> forall k :: start <= k < next - 1 ==> script[k].status != 200
    ensures body.None? ==> forall k :: start <= k < |script| ==> AcceptedHttp(script)[k].None?
    ensures body.Some? ==> AcceptedHttp(script)[next - 1] == body && forall k :: start <= k < next - 1 ==> AcceptedHttp(script)[k].None?
    ensures body.Some? ==>
      sleeper.State() == Sleeping.Repeat(MinSleepSecond, old(sleeper.State()), false, next - 1 - start)
  {
    if start == |script| {
      return None, start;
    }
    var response := script[start];
    next := start + 1;
    while response.status != 200
      invariant start < next <= |script|
      invariant response == script[next - 1]
      invariant forall k :: start <= k < next - 1 ==> script[k].status != 200
      invariant sleeper.Valid()
      invariant sleeper.State() == Sleeping.Repeat(MinSleepSecond, old(sleeper.State()), false, next - 1 - start)
      decreases |script| - next
    {
      Sleeping.RepeatStep(MinSleepSecond, old(sleeper.State()), false, next - 1 - start);
      var _ := sleeper.Sleep(false);
      if next == |script| {
        return None, next;
      }
      response := script[next];
      next := next + 1;
    }
    body := Some(response.body);
  }

  /** The number of non-200 answers before the first 200 answer of a script. */
  function LeadingRejects(script: seq<HttpAnswer>): nat
  {
    if script == [] || script[0].status == 200 then 0 else 1 + LeadingRejects(script[1..])
  }

  /** The first 200 answer of a script is preceded by exactly `LeadingRejects` rejected answers. */
  lemma {:induction false} LeadingRejectsExact(script: seq<HttpAnswer>, n: nat)
    requires n < |script| && script[n].status == 200
    requires forall k :: 0 <= k < n ==> script[k].status != 200
    ensures LeadingRejects(script) == n
  {
    if n > 0 {
      LeadingRejectsExact(script[1..], n - 1);
    }
  }

  /**
   * `get_all_following_users` with `self.sleeper` passed explicitly: the
   * usernames of every page, requested until `next_token` is empty, or
   * `None` when the script runs out first.
   */
  method GetAllFollowingUsers(sleeper: Sleeper, script: seq<HttpAnswer>) returns (users: Option<set<string>>)
    requires sleeper.Valid()
    modifies sleeper
    ensures sleeper.Valid()
    ensures var g := Gather(TokenNonEmpty, AcceptedHttp(script));
      && users == (if g.Complete? then Some(UsernameSet(g.users)) else None)
      && sleeper.State() == Sleeping.Repeat(MinSleepSecond, old(sleeper.State()), false, g.retries)
  {
    ghost var acc := AcceptedHttp(script);
    ghost var s0 := sleeper.State();
    GatherStart(TokenNonEmpty, acc);
    var page, i, retries := RequestPage(sleeper, script, 0, [], 0, s0);
    if page.None? {
      return None;
    }
    var results := [] + Data(page.value);
    var nextToken := NextToken(page.value);
    while nextToken != ""
      invariant i <= |script|
      invariant sleeper.Valid()
      invariant sleeper.State() == Sleeping.Repeat(MinSleepSecond, s0, false, retries)
      invariant nextToken != "" ==> Gather(TokenNonEmpty, acc) == Join(results, retries, Gather(TokenNonEmpty, acc[i..]))
      invariant nextToken == "" ==> Gather(TokenNonEmpty, acc) == Complete(results, retries)
      decreases |script| - i
    {
      page, i, retries := RequestPage(sleeper, script, i, results, retries, s0);
      if page.None? {
        return None;
      }
      results := results + Data(page.value);
      nextToken := NextToken(page.value);
    }
    users := Some(UsernameSet(results));
  }

  /**
   * One turn of the pagination loop: the request with its retries, and what
   * it does to the outcome (`Gather`) and to the sleeper, given what was
   * collected before position `i`.
   */
  method RequestPage(sleeper: Sleeper, script: seq<HttpAnswer>, i: nat, ghost results: seq<User>, ghost retries: nat, ghost s0: Sleeping.SleepState)
    returns (page: Option<Page>, j: nat, ghost retries': nat)
    requires sleeper.Valid() && i <= |script|
    requires sleeper.State() == Sleeping.Repeat(MinSleepSecond, s0, false, retries)
    requires Gather(TokenNonEmpty, AcceptedHttp(script)) == Join(results, retries, Gather(TokenNonEmpty, AcceptedHttp(script)[i..]))
    modifies sleeper
    ensures sleeper.Valid() && sleeper.State() == Sleeping.Repeat(MinSleepSecond, s0, false, retries')
    ensures page.None? ==> Gather(TokenNonEmpty, AcceptedHttp(script)) == Exhausted(retries')
    ensures page.Some? ==> (i < j <= |script| && retries' == retries + (j - 1 - i)
      && Gather(TokenNonEmpty, AcceptedHttp(script)) ==
        (if NextToken(page.value) != "" then Join(results + Data(page.value), retries', Gather(TokenNonEmpty, AcceptedHttp(script)[j..]))
         else Complete(results + Data(page.value), retries')))
  {
    ghost var acc := AcceptedHttp(script);
    page, j := SendGetRequest(sleeper, script, i);
    if page.None? {
      retries' := retries + (|script| - i);
      Sleeping.RepeatAdd(MinSleepSecond, s0, false, retries, |script| - i);
      GatherExhaustedStep(TokenNonEmpty, acc, results, retries, i);
    } else {
      retries' := retries + (j - 1 - i);
      Sleeping.RepeatAdd(MinSleepSecond, s0, false, retries, j - 1 - i);
      GatherPageStep(TokenNonEmpty, acc, results, retries, i, j, page.value);
    }
  }

  /** One message of this file: a whole set of users in one text. */
  datatype SetNotice = FollowSet(users: set<string>) | UnfollowSet(users: set<string>)

  /**
   * `detect_changes`: with the same size guard as following_monitor.py, at
   * most two messages, the Follow set first and the Unfollow set second,
   * each only when it is non-empty.
   */
  function DetectChanges(before: set<string>, after: set<string>): (r: seq<SetNotice>)
    ensures |r| <= 2
    ensures forall i :: 0 <= i < |r| ==> r[i] == FollowSet(after - before) || r[i] == UnfollowSet(before - after)
    ensures FollowSet(after - before) in r <==> FollowingMonitoring.Reported(before, after) && after - before != {}
    ensures UnfollowSet(before - after) in r <==> FollowingMonitoring.Reported(before, after) && before - after != {}
    ensures forall i, j :: 0 <= i < j < |r| ==> r[i].FollowSet? && r[j].UnfollowSet?
    ensures r == [] <==> !FollowingMonitoring.Reported(before, after)
  {
    if before == after then []
    else if FollowingMonitoring.TooManyChanges(before, after) then []
    else
      var incUsers := after - before;
      var decUsers := before - after;
      (if incUsers != {} then [FollowSet(incUsers)] else [])
      + (if decUsers != {} then [UnfollowSet(decUsers)] else [])
  }

  /** twitter_following_monitor.py's `Monitor`: its sleeper, the stored follow set and the sent messages. */
  class Monitor {
    const sleeper: Sleeper
    var followingUsers: set<string>
    var outbox: seq<SetNotice>

    ghost predicate Valid()
      reads this, sleeper
    {
      sleeper.Valid()
    }

    /**
     * `__init__`: the user-id lookup through `send_get_request` (answered by
     * `idScript`), whose non-200 answers each cost an abnormal sleep, then the
     * first complete pagination, which the source retries until it completes.
     * The source loops forever unless the lookup eventually answers 200.
     */
    constructor(idScript: seq<HttpAnswer>, script: seq<HttpAnswer>)
      requires exists k :: 0 <= k < |idScript| && idScript[k].status == 200
      requires Gather(TokenNonEmpty, AcceptedHttp(script)).Complete?
      ensures Valid() && fresh(sleeper)
      ensures followingUsers == UsernameSet(Gather(TokenNonEmpty, AcceptedHttp(script)).users)
      ensures sleeper.State() ==
        Sleeping.Repeat(MinSleepSecond,
          Sleeping.Repeat(MinSleepSecond, Sleeping.SleepState(MinSleepSecond, 0), false, LeadingRejects(idScript)),
          false, Gather(TokenNonEmpty, AcceptedHttp(script)).retries)
      ensures outbox == []
    {
      var s := new Sleeper();
      var user, next := SendGetRequest(s, idScript, 0);
      LeadingRejectsExact(idScript, next - 1);
      var users := GetAllFollowingUsers(s, script);
      sleeper := s;
      followingUsers := users.value;
      outbox := [];
    }

    /**
     * One turn of `run`'s loop: a normal sleep, a full pagination, the diff,
     * and the stored set replaced by the snapshot unconditionally.
     */
    method RunStep(script: seq<HttpAnswer>) returns (completed: bool)
      requires Valid()
      modifies this, sleeper
      ensures Valid()
      ensures var g := Gather(TokenNonEmpty, AcceptedHttp(script));
        && completed == g.Complete?
        && sleeper.State() == Sleeping.Repeat(MinSleepSecond, Sleeping.Step(MinSleepSecond, old(sleeper.State()), true), false, g.retries)
        && (completed ==> followingUsers == UsernameSet(g.users))
      ensures completed ==> outbox == old(outbox) + DetectChanges(old(followingUsers), followingUsers)
      ensures !completed ==> followingUsers == old(followingUsers) && outbox == old(outbox)
    {
      var _ := sleeper.Sleep(true);
      var users := GetAllFollowingUsers(sleeper, script);
      if users.None? {
        return false;
      }
      outbox := outbox + DetectChanges(followingUsers, users.value);
      followingUsers := users.value;
      completed := true;
    }
  }
}
