/**
 * Model of aqua_monitor.py, the earliest follow-list watcher: a single
 * growing `sleep_second`, a request loop that doubles it after every failed
 * RETRY, pagination that goes on while the `next_token` key is present, and
 * a work step that stores the new snapshot only when it differs by fewer
 * than 20 users in size (and otherwise keeps the old one).
 *
 * HTTP requests are a script of answers, `time.sleep` is recorded as the
 * list of delays slept, and the `logging.error` detections are the
 * monitor's `reports`.
 */
module AquaMonitoring {
  import opened Wrappers
  import opened Upstream
  import Sleeping
  import FollowingMonitoring

  const InitialSleepSecond: nat := 30

  /** A snapshot is stored only when its size changed by fewer than this. */
  const MaxSizeChange: nat := 20

  /** One detection logged by `work`. */
  datatype Report = NewFollowing(users: set<string>) | Unfollowing(users: set<string>)

  /** Outcome of `get_all_following_users`. */
  datatype Fetch =
    | Users(names: set<string>)
    | KeyError    // some element of `data` has no `username` key: `user['username']` raises
    | ScriptEnded // the answers ran out before the pagination finished

  /** `set([user['username'] for user in result])` */
  function Usernames(users: seq<User>): (r: Fetch)
    ensures r.Users? <==> forall i :: 0 <= i < |users| ==> users[i].username.Some?
    ensures r.Users? ==> forall i :: 0 <= i < |users| ==> users[i].username.value in r.names
    ensures r.Users? ==> forall n :: n in r.names ==> exists i :: 0 <= i < |users| && users[i].username == Some(n)
    ensures !r.ScriptEnded?
  {
    if forall i :: 0 <= i < |users| ==> users[i].username.Some?
    then Users(set i | 0 <= i < |users| :: users[i].username.value)
    else KeyError
  }

  /** What the pagination yields for a script of answers. */
  function FetchOf(script: seq<HttpAnswer>): Fetch
  {
    match Gather(TokenKeyPresent, AcceptedHttp(script))
    case Complete(users, _) => Usernames(users)
    case Exhausted(_) => ScriptEnded
  }

  /** The condition of `work` for taking a new snapshot. */
  predicate Accepts(before: set<string>, after: set<string>)
  {
    after != before && FollowingMonitoring.Abs(|after| - |before|) < MaxSizeChange
  }

  /**
   * One `work` decision: the set to store next and the detections logged.
   * A rejected snapshot logs nothing and keeps the stored set.
   */
  function Decide(before: set<string>, after: set<string>): (r: (set<string>, seq<Report>))
    ensures r.0 == (if Accepts(before, after) then after else before)
    ensures |r.1| <= 2
    ensures forall i :: 0 <= i < |r.1| ==> r.1[i] == NewFollowing(after - before) || r.1[i] == Unfollowing(before - after)
    ensures NewFollowing(after - before) in r.1 <==> Accepts(before, after) && after - before != {}
    ensures Unfollowing(before - after) in r.1 <==> Accepts(before, after) && before - after != {}
    ensures forall i, j :: 0 <= i < j < |r.1| ==> r.1[i].NewFollowing? && r.1[j].Unfollowing?
  {
    if Accepts(before, after) then
      var newFollow := after - before;
      var unfollow := before - after;
      (after,
       (if newFollow != {} then [NewFollowing(newFollow)] else [])
       + (if unfollow != {} then [Unfollowing(unfollow)] else []))
    else (before, [])
  }

  /**
   * The two guards disagree: on a list of at least 40 users, a size change
   * between 20 and half the list is announced by following_monitor.py but
   * rejected here (and the old set kept).
   */
  lemma GuardsDisagree(before: set<string>, after: set<string>)
    requires MaxSizeChange <= FollowingMonitoring.Abs(|before| - |after|)
    requires 2 * FollowingMonitoring.Abs(|before| - |after|) <= |before|
    ensures FollowingMonitoring.Reported(before, after)
    ensures !Accepts(before, after)
    ensures Decide(before, after) == (before, [])
  {
    assert |before| != |after|;
  }

  /** Any two sets at a size distance below 20 that differ are taken, however many users were swapped. */
  lemma SmallSizeChangeAccepted(before: set<string>, after: set<string>)
    requires before != after
    requires FollowingMonitoring.Abs(|before| - |after|) < MaxSizeChange
    ensures Decide(before, after).0 == after
    ensures |Decide(before, after).1| >= 1
  {
    if after - before == {} {
      assert before - after != {};
    }
  }

  /** The delays slept after n consecutive failures from a starting delay `s0`. */
  function Delays(s0: nat, n: nat): (r: seq<nat>)
    ensures |r| == n
  {
    if n == 0 then [] else Delays(s0, n - 1) + [s0 * Pow2(n - 1)]
  }

  /** The i-th delay is 2^i times the first one. */
  lemma {:induction false} DelaysDouble(s0: nat, n: nat)
    ensures forall i :: 0 <= i < n ==> Delays(s0, n)[i] == s0 * Pow2(i)
  {
    if n > 0 {
      DelaysDouble(s0, n - 1);
      assert forall i :: 0 <= i < n - 1 ==> Delays(s0, n)[i] == Delays(s0, n - 1)[i];
    }
  }

  /** Answers whose status is not 200 are not accepted. */
  lemma AllRejected(script: seq<HttpAnswer>, a: nat, b: nat)
    requires a <= b <= |script|
    requires forall k :: a <= k < b ==> script[k].status != 200
    ensures forall k :: a <= k < b ==> AcceptedHttp(script)[k].None?
  {
  }

  /** The params of the request after page `p`: its `meta.next_token` as `pagination_token`. */
  predicate PaginatedFrom(params: map<string, string>, p: Page)
  {
    HasNext(TokenKeyPresent, p) && params == map["pagination_token" := p.meta.value.nextToken.value]
  }

  /** Every request after the first carries the `next_token` of the page before it. */
  predicate ParamsFollow(pageParams: seq<map<string, string>>, pages: seq<Page>)
  {
    && |pageParams| <= |pages| + 1
    && forall k :: 0 < k < |pageParams| ==> PaginatedFrom(pageParams[k], pages[k - 1])
  }

  /** A new request whose params follow the last page received. */
  lemma ParamsFollowAppend(pageParams: seq<map<string, string>>, pages: seq<Page>, params: map<string, string>)
    requires ParamsFollow(pageParams, pages) && |pageParams| == |pages|
    requires |pageParams| >= 1 ==> PaginatedFrom(params, pages[|pages| - 1])
    ensures ParamsFollow(pageParams + [params], pages)
  {
    var ps := pageParams + [params];
    forall k | 0 < k < |ps|
      ensures PaginatedFrom(ps[k], pages[k - 1])
    {
      if k < |pageParams| {
        assert ps[k] == pageParams[k];
      }
    }
  }

  /** Params that follow some pages follow any extension of them. */
  lemma ParamsFollowPrefix(pageParams: seq<map<string, string>>, pages: seq<Page>, all: seq<Page>)
    requires |pages| <= |all| && pages == all[..|pages|]
    requires ParamsFollow(pageParams, pages)
    ensures ParamsFollow(pageParams, all)
  {
    forall k | 0 < k < |pageParams|
      ensures PaginatedFrom(pageParams[k], all[k - 1])
    {
      assert pages[k - 1] == all[k - 1];
    }
  }

  /** aqua_monitor.py's `AquaMonitor`. */
  class AquaMonitor {
    var sleepSecond: nat
    var followingUsers: set<string>
    var reports: seq<Report>

    /** The fields before `__init__` has fetched anything. */
    constructor Empty()
      ensures sleepSecond == InitialSleepSecond && followingUsers == {} && reports == []
    {
      sleepSecond := InitialSleepSecond;
      followingUsers := {};
      reports := [];
    }

    /**
     * `__init__`: `sleep_second = 30`, then the first full fetch. `None`
     * when that fetch raises (a `username` key is missing) or the script
     * ends before it completes.
     */
    static method Init(script: seq<HttpAnswer>) returns (m: Option<AquaMonitor>)
      ensures m.Some? <==> FetchOf(script).Users?
      ensures m.Some? ==> fresh(m.value)
      ensures m.Some? ==> m.value.followingUsers == FetchOf(script).names && m.value.reports == []
      ensures m.Some? ==> Sleeping.PowerOfFloor(InitialSleepSecond, m.value.sleepSecond)
    {
      var a := new AquaMonitor.Empty();
      assert InitialSleepSecond == InitialSleepSecond * Pow2(0);
      var fetch, _ := a.GetAllFollowingUsers(script);
      if fetch.Users? {
        a.followingUsers := fetch.names;
        m := Some(a);
      } else {
        m := None;
      }
    }

    /**
     * `connect_to_endpoint`: retries until a 200 answer. The first failure
     * sleeps `sleep_second` without doubling it; every failed retry doubles
     * it; so the i-th sleep is `2^i` times the starting delay. Returns the
     * body, the position after it, and the delays slept; `None` when the
     * script ends first.
     */
    method ConnectToEndpoint(script: seq<HttpAnswer>, start: nat)
      returns (body: Option<Page>, next: nat, slept: seq<nat>)
      requires start <= |script|
      modifies this`sleepSecond
      ensures start <= next <= |script|
      ensures body.None? ==> next == |script| && forall k :: start <= k < |script| ==> AcceptedHttp(script)[k].None?
      ensures body.Some? ==> start < next && AcceptedHttp(script)[next - 1] == body
      ensures body.Some? ==> forall k :: start <= k < next - 1 ==> AcceptedHttp(script)[k].None?
      ensures var failures := if body.Some? then next - 1 - start else |script| - start;
        && slept == Delays(old(sleepSecond), failures)
        && sleepSecond == old(sleepSecond) * Pow2(if failures == 0 then 0 else failures - 1)
    {
      slept := [];
      if start == |script| {
        return None, start, slept;
      }
      var response := script[start];
      next := start + 1;
      ghost var s0 := sleepSecond;
      ghost var e: nat := 0;
      while response.status != 200
        invariant start < next <= |script|
        invariant response == script[next - 1]
        invariant forall k :: start <= k < next - 1 ==> script[k].status != 200
        invariant slept == Delays(s0, next - 1 - start)
        invariant sleepSecond == s0 * Pow2(e)
        invariant response.status != 200 ==> e == |slept|
        invariant response.status == 200 ==> e == (if |slept| == 0 then 0 else |slept| - 1)
        decreases |script| - next
      {
        slept := slept + [sleepSecond];
        if next == |script| {
          assert e == |slept| - 1;
          AllRejected(script, start, next);
          return None, next, slept;
        }
        response := script[next];
        next := next + 1;
        if response.status != 200 {
          Pow2Double(s0, e);
          sleepSecond := sleepSecond * 2;
          e := e + 1;
        }
      }
      AllRejected(script, start, next - 1);
      body := Some(response.body);
    }

    /**
     * `get_all_following_users`: one request per page, the first with empty
     * params and each later one with params holding only `pagination_token`;
     * data of every page concatenated; stops when `meta.next_token` is
     * absent. The delay only ever doubles.
     */
    method GetAllFollowingUsers(script: seq<HttpAnswer>) returns (fetch: Fetch, pageParams: seq<map<string, string>>)
      modifies this`sleepSecond
      ensures fetch == FetchOf(script)
      ensures |pageParams| >= 1 && pageParams[0] == map[]
      ensures forall i :: 0 < i < |pageParams| ==> pageParams[i].Keys == {"pagination_token"}
      ensures ParamsFollow(pageParams, AcceptedPages(AcceptedHttp(script)))
      ensures exists d: nat :: sleepSecond == old(sleepSecond) * Pow2(d)
    {
      ghost var acc := AcceptedHttp(script);
      ghost var d: nat := 0;
      ghost var retries: nat := 0;
      ghost var pages: seq<Page> := [];
      GatherStart(TokenKeyPresent, acc);
      var finished := false;
      var params: map<string, string> := map[];
      var result: seq<User> := [];
      var i := 0;
      pageParams := [];
      while !finished
        invariant i <= |script|
        invariant sleepSecond == old(sleepSecond) * Pow2(d)
        invariant |pageParams| == 0 ==> params == map[] && !finished
        invariant |pageParams| >= 1 ==> pageParams[0] == map[]
        invariant pages == AcceptedPages(acc[..i]) && |pageParams| == |pages|
        invariant ParamsFollow(pageParams, pages)
        invariant |pageParams| >= 1 && !finished ==> PaginatedFrom(params, pages[|pageParams| - 1])
        invariant !finished ==> Gather(TokenKeyPresent, acc) == Join(result, retries, Gather(TokenKeyPresent, acc[i..]))
        invariant finished ==> Gather(TokenKeyPresent, acc) == Complete(result, retries)
        decreases |script| - i, !finished
      {
        ParamsFollowAppend(pageParams, pages, params);
        pageParams := pageParams + [params];
        var body, j;
        body, j, retries, d := RequestPage(script, i, result, retries, old(sleepSecond), d);
        if body.None? {
          AcceptedPagesPrefix(acc, i);
          ParamsFollowPrefix(pageParams, pages, AcceptedPages(acc));
          fetch := ScriptEnded;
          return;
        }
        var page := body.value;
        AcceptedPagesStep(acc, i, j, page);
        ParamsFollowPrefix(pageParams, pages, pages + [page]);
        pages := pages + [page];
        if page.data.Some? {
          result := result + page.data.value;
        } else {
          assert result + Data(page) == result;
        }
        i := j;
        if page.meta.Some? && page.meta.value.nextToken.Some? {
          params := map["pagination_token" := page.meta.value.nextToken.value];
        } else {
          finished := true;
        }
      }
      AcceptedPagesPrefix(acc, i);
      ParamsFollowPrefix(pageParams, pages, AcceptedPages(acc));
      fetch := Usernames(result);
    }

    /**
     * One turn of the pagination loop: the request with its retries, what it
     * does to the outcome (`Gather`) given what was collected before position
     * `i`, and to the delay, which gains `d' - d` doublings.
     */
    method RequestPage(script: seq<HttpAnswer>, i: nat, ghost results: seq<User>, ghost retries: nat, ghost s0: nat, ghost d: nat)
      returns (page: Option<Page>, j: nat, ghost retries': nat, ghost d': nat)
      requires i <= |script| && sleepSecond == s0 * Pow2(d)
      requires Gather(TokenKeyPresent, AcceptedHttp(script)) == Join(results, retries, Gather(TokenKeyPresent, AcceptedHttp(script)[i..]))
      modifies this`sleepSecond
      ensures sleepSecond == s0 * Pow2(d')
      ensures page.None? ==> Gather(TokenKeyPresent, AcceptedHttp(script)) == Exhausted(retries')
      ensures page.Some? ==> (i < j <= |script| && AcceptedHttp(script)[j - 1] == page && retries' == retries + (j - 1 - i)
        && (forall k :: i <= k < j - 1 ==> AcceptedHttp(script)[k].None?)
        && Gather(TokenKeyPresent, AcceptedHttp(script)) ==
          (if HasNext(TokenKeyPresent, page.value) then Join(results + Data(page.value), retries', Gather(TokenKeyPresent, AcceptedHttp(script)[j..]))
           else Complete(results + Data(page.value), retries')))
    {
      ghost var acc := AcceptedHttp(script);
      var slept;
      page, j, slept := ConnectToEndpoint(script, i);
      ghost var f := if page.Some? then j - 1 - i else |script| - i;
      Pow2Scale(s0, d, if f == 0 then 0 else f - 1);
      d' := d + (if f == 0 then 0 else f - 1);
      if page.None? {
        retries' := retries + (|script| - i);
        GatherExhaustedStep(TokenKeyPresent, acc, results, retries, i);
      } else {
        retries' := retries + (j - 1 - i);
        GatherPageStep(TokenKeyPresent, acc, results, retries, i, j, page.value);
      }
    }

    /**
     * One turn of `work`'s loop: a full fetch, the decision, then a sleep of
     * the current delay. A fetch that raises or does not complete ends the
     * turn with nothing else changed.
     */
    method WorkStep(script: seq<HttpAnswer>) returns (fetch: Fetch, slept: nat)
      modifies this
      ensures fetch == FetchOf(script)
      ensures fetch.Users? ==>
        var (stored, logged) := Decide(old(followingUsers), fetch.names);
        followingUsers == stored && reports == old(reports) + logged && slept == sleepSecond
      ensures !fetch.Users? ==> followingUsers == old(followingUsers) && reports == old(reports)
      ensures exists d: nat :: sleepSecond == old(sleepSecond) * Pow2(d)
    {
      var pageParams;
      fetch, pageParams := GetAllFollowingUsers(script);
      slept := 0;
      if !fetch.Users? {
        return;
      }
      var followingUsers' := fetch.names;
      if followingUsers' != followingUsers && FollowingMonitoring.Abs(|followingUsers'| - |followingUsers|) < MaxSizeChange {
        var newFollow := followingUsers' - followingUsers;
        if newFollow != {} {
          reports := reports + [NewFollowing(newFollow)];
        }
        var unfollow := followingUsers - followingUsers';
        if unfollow != {} {
          reports := reports + [Unfollowing(unfollow)];
        }
        followingUsers := followingUsers';
      }
      slept := sleepSecond;
    }
  }
}
