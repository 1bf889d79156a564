/**
 * Model of following_monitor.py: a follow-list monitor that paginates the
 * whole list of followed usernames, diffs it against the stored set with a
 * noise guard, announces one Unfollow per removed user then one Follow per
 * added user, and always stores the new snapshot.
 *
 * `utils.send_get_request` is modelled by a script with one decoded answer
 * per attempt (`None` when it returned nothing); the notifier by the
 * `outbox` of the monitor.
 */
module FollowingMonitoring {
  import opened Wrappers
  import opened Upstream
  import Sleeping

  /** One message sent by `detect_changes` (the user details appended to it are not modelled). */
  datatype Notice = Unfollow(user: string) | Follow(user: string)

  /** The sleeper's starting and minimum delay in this monitor. */
  const BaseSleepSecond: nat := 120

  /** The smallest the noise guard's bound can be. */
  const MinMaxChanges: nat := 10

  function Max(a: int, b: int): int { if a >= b then a else b }

  function Abs(x: int): nat { if x < 0 then -x else x }

  /**
   * The noise guard `abs(len(old) - len(new)) > max(len(old) / 2, 10)`, with
   * the float division cleared: it compares the difference in SIZE, not the
   * number of users added and removed.
   */
  predicate TooManyChanges(before: set<string>, after: set<string>)
  {
    2 * Abs(|before| - |after|) > Max(|before|, 2 * MinMaxChanges)
  }

  /** The integer guard is exactly the Python guard evaluated over the reals. */
  lemma TooManyChangesIsRealGuard(before: set<string>, after: set<string>)
    ensures TooManyChanges(before, after) <==>
      var bound := if (|before| as real) / 2.0 >= MinMaxChanges as real then (|before| as real) / 2.0 else MinMaxChanges as real;
      (Abs(|before| - |after|) as real) > bound
  {
  }

  /** Swapping every user for another keeps the sizes and so passes the guard. */
  lemma SameSizeAlwaysPasses(before: set<string>, after: set<string>)
    requires |before| == |after|
    ensures !TooManyChanges(before, after)
  {
  }

  /** A diff is announced when the sets differ and the guard lets it through. */
  predicate Reported(before: set<string>, after: set<string>)
  {
    before != after && !TooManyChanges(before, after)
  }

  function Unfollows(ns: seq<Notice>): set<string>
  {
    set i | 0 <= i < |ns| && ns[i].Unfollow? :: ns[i].user
  }

  function Follows(ns: seq<Notice>): set<string>
  {
    set i | 0 <= i < |ns| && ns[i].Follow? :: ns[i].user
  }

  /** What `detect_changes` promises about the messages it sends. */
  ghost predicate Announces(before: set<string>, after: set<string>, ns: seq<Notice>)
  {
    && Unfollows(ns) == (if Reported(before, after) then before - after else {})
    && Follows(ns) == (if Reported(before, after) then after - before else {})
    && |ns| == |Unfollows(ns)| + |Follows(ns)|
    && (forall i, j :: 0 <= i < j < |ns| && ns[i].Follow? ==> ns[j].Follow?)
  }

  lemma NoticesAppend(ns: seq<Notice>, x: Notice)
    ensures Unfollows(ns + [x]) == Unfollows(ns) + (if x.Unfollow? then {x.user} else {})
    ensures Follows(ns + [x]) == Follows(ns) + (if x.Follow? then {x.user} else {})
  {
    var ms := ns + [x];
    assert forall i :: 0 <= i < |ns| ==> ms[i] == ns[i];
    assert ms[|ns|] == x;
  }

  lemma CardDiff<T>(a: set<T>, b: set<T>)
    requires b <= a
    ensures |a - b| == |a| - |b|
  {
    assert a == (a - b) + b;
    assert (a - b) * b == {};
  }

  /** The message for one user: Follow when `follow`, else Unfollow. */
  function MakeNotice(follow: bool, user: string): Notice
  {
    if follow then Follow(user) else Unfollow(user)
  }

  lemma NoticesConcat(a: seq<Notice>, b: seq<Notice>)
    ensures Unfollows(a + b) == Unfollows(a) + Unfollows(b)
    ensures Follows(a + b) == Follows(a) + Follows(b)
  {
    var c := a + b;
    assert forall i :: 0 <= i < |a| ==> c[i] == a[i];
    assert forall i :: 0 <= i < |b| ==> c[|a| + i] == b[i];
  }

  /** Every user named in `ns`, of either kind. */
  function UsersOf(ns: seq<Notice>): set<string>
  {
    set i | 0 <= i < |ns| :: ns[i].user
  }

  lemma UsersOfAppend(ns: seq<Notice>, x: Notice)
    ensures UsersOf(ns + [x]) == UsersOf(ns) + {x.user}
  {
    var ms := ns + [x];
    assert forall i :: 0 <= i < |ns| ==> ms[i] == ns[i];
    assert ms[|ns|] == x;
  }

  lemma OneKind(ns: seq<Notice>, follow: bool)
    requires forall i :: 0 <= i < |ns| ==> ns[i].Follow? == follow
    ensures (if follow then Follows(ns) else Unfollows(ns)) == UsersOf(ns)
    ensures (if follow then Unfollows(ns) else Follows(ns)) == {}
  {
  }

  /** One `for user in users: send_message(...)` loop: one message of one kind per user. */
  method NoticeEach(users: set<string>, follow: bool) returns (notices: seq<Notice>)
    ensures |notices| == |users|
    ensures forall i :: 0 <= i < |notices| ==> notices[i].Follow? == follow
    ensures (if follow then Follows(notices) else Unfollows(notices)) == users
    ensures (if follow then Unfollows(notices) else Follows(notices)) == {}
  {
    notices := [];
    var remaining := users;
    while remaining != {}
      invariant remaining <= users
      invariant forall i :: 0 <= i < |notices| ==> notices[i].Follow? == follow
      invariant UsersOf(notices) == users - remaining
      invariant |notices| + |remaining| == |users|
      decreases |remaining|
    {
      var u :| u in remaining;
      var x := MakeNotice(follow, u);
      UsersOfAppend(notices, x);
      notices := notices + [x];
      remaining := remaining - {u};
    }
    OneKind(notices, follow);
  }

  /**
   * `detect_changes`: nothing when the sets are equal or the guard trips;
   * otherwise one Unfollow per user in before - after, then one Follow per
   * user in after - before (each group in set-iteration order).
   */
  method DetectChanges(before: set<string>, after: set<string>) returns (notices: seq<Notice>)
    ensures Announces(before, after, notices)
    ensures Reported(before, after) ==> |notices| == |before - after| + |after - before|
    ensures !Reported(before, after) ==> notices == []
  {
    notices := [];
    if before == after {
      return;
    }
    if TooManyChanges(before, after) {
      return;
    }
    var unfollows := NoticeEach(before - after, false);
    var follows := NoticeEach(after - before, true);
    notices := unfollows + follows;
    UnfollowsThenFollows(before, after, unfollows, follows);
  }

  /** The two loops of `detect_changes` together announce the diff, Unfollows first. */
  lemma UnfollowsThenFollows(before: set<string>, after: set<string>, unfollows: seq<Notice>, follows: seq<Notice>)
    requires Reported(before, after)
    requires |unfollows| == |before - after| && |follows| == |after - before|
    requires forall i :: 0 <= i < |unfollows| ==> !unfollows[i].Follow?
    requires forall i :: 0 <= i < |follows| ==> follows[i].Follow?
    requires Unfollows(unfollows) == before - after && Follows(unfollows) == {}
    requires Follows(follows) == after - before && Unfollows(follows) == {}
    ensures Announces(before, after, unfollows + follows)
  {
    var notices := unfollows + follows;
    NoticesConcat(unfollows, follows);
    assert Unfollows(notices) == before - after;
    assert Follows(notices) == after - before;
    forall i, j | 0 <= i < j < |notices| && notices[i].Follow?
      ensures notices[j].Follow?
    {
      assert i >= |unfollows|;
      assert notices[j] == follows[j - |unfollows|];
    }
  }

  /** A decoded answer the source retries: nothing, or an empty object. */
  function Classify(answer: Option<Page>): Option<Page>
  {
    if answer.Some? && Truthy(answer.value) then answer else None
  }

  /** The answers of a script as `while not json_response` sees them: a falsy answer is retried, any other is kept as it is. */
  function Accepted(script: seq<Option<Page>>): (r: seq<Option<Page>>)
    ensures |r| == |script|
    ensures forall k :: 0 <= k < |script| ==>
      (r[k].None? <==> script[k].None? || !Truthy(script[k].value)) && (r[k].Some? ==> r[k] == script[k])
  {
    seq(|script|, k requires 0 <= k < |script| => Classify(script[k]))
  }

  /**
   * One request with its retry loop: from attempt `start` on, every falsy
   * answer costs one abnormal sleep and a new attempt. Returns the first
   * truthy page and the position after it, or `None` when the script ends.
   */
  method RequestWithRetry(sleeper: Sleeping.Sleeper, script: seq<Option<Page>>, start: nat)
    returns (page: Option<Page>, next: nat)
    requires sleeper.Valid()
    requires start <= |script|
    modifies sleeper
    ensures sleeper.Valid()
    ensures start <= next <= |script|
    ensures page.None? ==> next == |script| && forall k :: start <= k < |script| ==> Accepted(script)[k].None?
    ensures page.None? ==>
      sleeper.State() == Sleeping.Repeat(sleeper.originalSleepSecond, old(sleeper.State()), false, |script| - start)
    ensures page.Some? ==> start < next && Accepted(script)[next - 1] == page
    ensures page.Some? ==> forall k :: start <= k < next - 1 ==> Accepted(script)[k].None?
    ensures page.Some? ==>
      sleeper.State() == Sleeping.Repeat(sleeper.originalSleepSecond, old(sleeper.State()), false, next - 1 - start)
  {
    if start == |script| {
      return None, start;
    }
    var response := script[start];
    next := start + 1;
    while Classify(response).None?
      invariant start < next <= |script|
      invariant response == script[next - 1]
      invariant forall k :: start <= k < next - 1 ==> Accepted(script)[k].None?
      invariant sleeper.Valid()
      invariant sleeper.State() == Sleeping.Repeat(sleeper.originalSleepSecond, old(sleeper.State()), false, next - 1 - start)
      decreases |script| - next
    {
      Sleeping.RepeatStep(sleeper.originalSleepSecond, old(sleeper.State()), false, next - 1 - start);
      var _ := sleeper.Sleep(false);
      if next == |script| {
        return None, next;
      }
      response := script[next];
      next := next + 1;
    }
    page := response;
  }

  /**
   * `get_all_following_users` with `self.sleeper` passed explicitly: the
   * usernames of every page, requested until `next_token` is empty, or `None`
   * when the script runs out first.
   */
  method GetAllFollowingUsers(sleeper: Sleeping.Sleeper, script: seq<Option<Page>>) returns (users: Option<set<string>>)
    requires sleeper.Valid()
    modifies sleeper
    ensures sleeper.Valid()
    ensures var g := Gather(TokenNonEmpty, Accepted(script));
      && users == (if g.Complete? then Some(UsernameSet(g.users)) else None)
      && sleeper.State() == Sleeping.Repeat(sleeper.originalSleepSecond, old(sleeper.State()), false, g.retries)
  {
    ghost var acc := Accepted(script);
    ghost var s0 := sleeper.State();
    GatherStart(TokenNonEmpty, acc);
    var page, i, retries := RequestPage(sleeper, script, 0, [], 0, s0);
    if page.None? {
      return None;
    }
    var results := [] + Data(page.value);
    var nextToken := NextToken(page.value);
    while nextToken != ""
      invariant i <= |script|
      invariant sleeper.Valid()
      invariant sleeper.State() == Sleeping.Repeat(sleeper.originalSleepSecond, s0, false, retries)
      invariant nextToken != "" ==> Gather(TokenNonEmpty, acc) == Join(results, retries, Gather(TokenNonEmpty, acc[i..]))
      invariant nextToken == "" ==> Gather(TokenNonEmpty, acc) == Complete(results, retries)
      decreases |script| - i
    {
      page, i, retries := RequestPage(sleeper, script, i, results, retries, s0);
      if page.None? {
        return None;
      }
      results := results + Data(page.value);
      nextToken := NextToken(page.value);
    }
    users := Some(UsernameSet(results));
  }

  /**
   * One turn of the pagination loop: the request with its retries, and what
   * it does to the outcome (`Gather`) and to the sleeper, given what was
   * collected before position `i`.
   */
  method RequestPage(sleeper: Sleeping.Sleeper, script: seq<Option<Page>>, i: nat, ghost results: seq<User>, ghost retries: nat, ghost s0: Sleeping.SleepState)
    returns (page: Option<Page>, j: nat, ghost retries': nat)
    requires sleeper.Valid() && i <= |script|
    requires sleeper.State() == Sleeping.Repeat(sleeper.originalSleepSecond, s0, false, retries)
    requires Gather(TokenNonEmpty, Accepted(script)) == Join(results, retries, Gather(TokenNonEmpty, Accepted(script)[i..]))
    modifies sleeper
    ensures sleeper.Valid() && sleeper.State() == Sleeping.Repeat(sleeper.originalSleepSecond, s0, false, retries')
    ensures page.None? ==> Gather(TokenNonEmpty, Accepted(script)) == Exhausted(retries')
    ensures page.Some? ==> (i < j <= |script| && retries' == retries + (j - 1 - i)
      && Gather(TokenNonEmpty, Accepted(script)) ==
        (if NextToken(page.value) != "" then Join(results + Data(page.value), retries', Gather(TokenNonEmpty, Accepted(script)[j..]))
         else Complete(results + Data(page.value), retries')))
  {
    ghost var acc := Accepted(script);
    page, j := RequestWithRetry(sleeper, script, i);
    if page.None? {
      retries' := retries + (|script| - i);
      Sleeping.RepeatAdd(sleeper.originalSleepSecond, s0, false, retries, |script| - i);
      GatherExhaustedStep(TokenNonEmpty, acc, results, retries, i);
    } else {
      retries' := retries + (j - 1 - i);
      Sleeping.RepeatAdd(sleeper.originalSleepSecond, s0, false, retries, j - 1 - i);
      GatherPageStep(TokenNonEmpty, acc, results, retries, i, j, page.value);
    }
  }

  /** following_monitor.py's `FollowingMonitor`: the stored follow set, its sleeper and the sent messages. */
  class FollowingMonitor {
    const sleeper: Sleeping.Sleeper
    var followingUsers: set<string>
    var outbox: seq<Notice>

    ghost predicate Valid()
      reads this, sleeper
    {
      sleeper.Valid() && sleeper.originalSleepSecond == BaseSleepSecond
    }

    /**
     * `__init__`: a Sleeper(120) and the first complete pagination. The source
     * retries until the pagination completes, so the script must let it.
     */
    constructor(script: seq<Option<Page>>)
      requires Gather(TokenNonEmpty, Accepted(script)).Complete?
      ensures Valid() && fresh(sleeper)
      ensures followingUsers == UsernameSet(Gather(TokenNonEmpty, Accepted(script)).users)
      ensures sleeper.State() ==
        Sleeping.Repeat(BaseSleepSecond, Sleeping.SleepState(BaseSleepSecond, 0), false, Gather(TokenNonEmpty, Accepted(script)).retries)
      ensures outbox == []
    {
      var s := new Sleeping.Sleeper(BaseSleepSecond);
      var users := GetAllFollowingUsers(s, script);
      sleeper := s;
      followingUsers := users.value;
      outbox := [];
    }

    /**
     * One turn of `run`'s loop: a normal sleep, a full pagination, the diff,
     * and then the stored set becomes the new snapshot whether or not the
     * diff was announced. When the script runs out before the pagination
     * completes, only the sleeper has changed.
     */
    method RunStep(script: seq<Option<Page>>) returns (completed: bool)
      requires Valid()
      modifies this, sleeper
      ensures Valid()
      ensures var g := Gather(TokenNonEmpty, Accepted(script));
        && completed == g.Complete?
        && sleeper.State() == Sleeping.Repeat(BaseSleepSecond, Sleeping.Step(BaseSleepSecond, old(sleeper.State()), true), false, g.retries)
        && (completed ==> followingUsers == UsernameSet(g.users))
      ensures completed ==>
        && |old(outbox)| <= |outbox| && outbox[..|old(outbox)|] == old(outbox)
        && Announces(old(followingUsers), followingUsers, outbox[|old(outbox)|..])
      ensures !completed ==> followingUsers == old(followingUsers) && outbox == old(outbox)
    {
      var _ := sleeper.Sleep(true);
      var users := GetAllFollowingUsers(sleeper, script);
      if users.None? {
        return false;
      }
      var notices := DetectChanges(followingUsers, users.value);
      outbox := outbox + notices;
      assert outbox[|old(outbox)|..] == notices;
      followingUsers := users.value;
      completed := true;
    }
  }
}
