/**
 * The shape of one page of the follow-list endpoint
 * (`{"data": [...], "meta": {"next_token": ...}}`) and the meaning of the
 * token-driven pagination loop shared by following_monitor.py and
 * twitter_following_monitor.py.
 *
 * A polling loop is fed a script: one entry per HTTP attempt, in order.
 * After each file has classified its raw answers, `None` is an attempt the
 * file retries (with one abnormal sleep) and `Some(page)` is an accepted page.
 */
module Upstream {
  import opened Wrappers

  /** One element of `data`: only its `username` key matters. */
  datatype User = User(username: Option<string>)

  /** The `meta` object. */
  datatype Meta = Meta(nextToken: Option<string>)

  /** A decoded JSON page; `otherKeys` counts keys other than `data` and `meta`. */
  datatype Page = Page(data: Option<seq<User>>, meta: Option<Meta>, otherKeys: nat)

  /** Python truthiness of the decoded object: a non-empty dict. */
  predicate Truthy(p: Page)
  {
    p.data.Some? || p.meta.Some? || p.otherKeys > 0
  }

  /** `json_response.get('data', [])` */
  function Data(p: Page): seq<User>
  {
    p.data.GetOr([])
  }

  /** `json_response.get('meta', {}).get('next_token', '')` */
  function NextToken(p: Page): string
  {
    match p.meta
    case None => ""
    case Some(m) => m.nextToken.GetOr("")
  }

  /** When pagination goes on after a page. */
  datatype TokenRule =
    | TokenNonEmpty   // `while next_token:` on `.get('next_token', '')`
    | TokenKeyPresent // `'meta' in json_response and 'next_token' in json_response['meta']`

  predicate HasNext(rule: TokenRule, p: Page)
  {
    match rule
    case TokenNonEmpty => NextToken(p) != ""
    case TokenKeyPresent => p.meta.Some? && p.meta.value.nextToken.Some?
  }

  /** One HTTP answer: its status code and its decoded body. */
  datatype HttpAnswer = HttpAnswer(status: int, body: Page)

  /** `while response.status_code != 200: retry`: only status 200 is accepted, whatever its body. */
  function ClassifyHttp(answer: HttpAnswer): Option<Page>
  {
    if answer.status == 200 then Some(answer.body) else None
  }

  /** The answers of a script as the request loop sees them: a page exactly for the 200 answers, and that answer's body. */
  function AcceptedHttp(script: seq<HttpAnswer>): (r: seq<Option<Page>>)
    ensures |r| == |script|
    ensures forall k :: 0 <= k < |script| ==>
      (r[k].Some? <==> script[k].status == 200) && (r[k].Some? ==> r[k].value == script[k].body)
  {
    seq(|script|, k requires 0 <= k < |script| => ClassifyHttp(script[k]))
  }

  /** `result.get('username', '')` */
  function Username(u: User): string
  {
    u.username.GetOr("")
  }

  /** `set([result.get('username', '') for result in results])` */
  function UsernameSet(users: seq<User>): (r: set<string>)
    ensures forall i :: 0 <= i < |users| ==> Username(users[i]) in r
    ensures forall n :: n in r ==> exists i :: 0 <= i < |users| && Username(users[i]) == n
  {
    set i | 0 <= i < |users| :: Username(users[i])
  }

  /**
   * Outcome of paginating over a script: every page's data in order plus the
   * number of retried attempts, or the script ran out first (with the number
   * of retried attempts it contained).
   */
  datatype Gathered = Complete(users: seq<User>, retries: nat) | Exhausted(retries: nat)

  /** Prefix already-collected users and retries to the outcome of the rest of the script. */
  function Join(users: seq<User>, retries: nat, g: Gathered): Gathered
  {
    match g
    case Complete(u, n) => Complete(users + u, retries + n)
    case Exhausted(n) => Exhausted(retries + n)
  }

  /**
   * The pagination loop: a retried attempt costs one retry; an accepted page
   * contributes its data and ends the loop when its `next_token` is empty.
   */
  function Gather(rule: TokenRule, script: seq<Option<Page>>): Gathered
    decreases |script|
  {
    if script == [] then Exhausted(0)
    else match script[0]
      case None => Join([], 1, Gather(rule, script[1..]))
      case Some(p) =>
        if !HasNext(rule, p) then Complete(Data(p), 0)
        else Join(Data(p), 0, Gather(rule, script[1..]))
  }

  lemma JoinEmpty(g: Gathered)
    ensures Join([], 0, g) == g
  {
    match g
    case Complete(u, n) => assert [] + u == u;
    case Exhausted(n) =>
  }

  lemma JoinJoin(u1: seq<User>, n1: nat, u2: seq<User>, n2: nat, g: Gathered)
    ensures Join(u1, n1, Join(u2, n2, g)) == Join(u1 + u2, n1 + n2, g)
  {
    match g
    case Complete(u, n) => assert u1 + (u2 + u) == (u1 + u2) + u;
    case Exhausted(n) =>
  }

  /** Retried attempts at the head of the script only add retries. */
  lemma {:induction false} GatherSkipsRetries(rule: TokenRule, script: seq<Option<Page>>, n: nat)
    requires n <= |script|
    requires forall k :: 0 <= k < n ==> script[k].None?
    ensures Gather(rule, script) == Join([], n, Gather(rule, script[n..]))
    decreases n
  {
    if n == 0 {
      JoinEmpty(Gather(rule, script));
    } else {
      assert script[1..][n - 1..] == script[n..];
      GatherSkipsRetries(rule, script[1..], n - 1);
      JoinJoin([], 1, [], n - 1, Gather(rule, script[n..]));
    }
  }

  /** Pagination stops at the first accepted page without a next page: answers after it are never read. */
  lemma {:induction false} GatherIgnoresTail(rule: TokenRule, script: seq<Option<Page>>, tail: seq<Option<Page>>)
    requires Gather(rule, script).Complete?
    ensures Gather(rule, script + tail) == Gather(rule, script)
    decreases |script|
  {
    var s := script + tail;
    assert s[0] == script[0];
    if script[0].None? || HasNext(rule, script[0].value) {
      assert s[1..] == script[1..] + tail;
      GatherIgnoresTail(rule, script[1..], tail);
    }
  }

  /**
   * From position `i`, attempts `i .. j-2` were retried and attempt `j-1`
   * accepted page `p`: the rest of the pagination is `p` followed, when `p`
   * has a token, by what the script holds from `j` on.
   */
  lemma GatherAfterRetries(rule: TokenRule, script: seq<Option<Page>>, i: nat, j: nat, p: Page)
    requires i < j <= |script|
    requires forall k :: i <= k < j - 1 ==> script[k].None?
    requires script[j - 1] == Some(p)
    ensures Gather(rule, script[i..]) ==
      Join([], j - 1 - i, if !HasNext(rule, p) then Complete(Data(p), 0) else Join(Data(p), 0, Gather(rule, script[j..])))
  {
    var rest := script[i..];
    assert forall k :: 0 <= k < j - 1 - i ==> rest[k] == script[i + k];
    GatherSkipsRetries(rule, rest, j - 1 - i);
    var tail := rest[j - 1 - i..];
    assert tail == script[j - 1..];
    assert tail[0] == Some(p);
    assert tail[1..] == script[j..];
  }

  /** Only retried attempts remain from `i`: the script runs out after as many retries. */
  lemma GatherAllRetries(rule: TokenRule, script: seq<Option<Page>>, i: nat)
    requires i <= |script|
    requires forall k :: i <= k < |script| ==> script[k].None?
    ensures Gather(rule, script[i..]) == Exhausted(|script| - i)
  {
    var rest := script[i..];
    assert forall k :: 0 <= k < |rest| ==> rest[k] == script[i + k];
    GatherSkipsRetries(rule, rest, |rest|);
    assert rest[|rest|..] == [];
  }

  /** One turn of the pagination loop: the accepted page `p` at `j - 1` extends what is collected. */
  lemma GatherPageStep(rule: TokenRule, script: seq<Option<Page>>, users: seq<User>, retries: nat, i: nat, j: nat, p: Page)
    requires i < j <= |script|
    requires forall k :: i <= k < j - 1 ==> script[k].None?
    requires script[j - 1] == Some(p)
    requires Gather(rule, script) == Join(users, retries, Gather(rule, script[i..]))
    ensures Gather(rule, script) ==
      if HasNext(rule, p) then Join(users + Data(p), retries + (j - 1 - i), Gather(rule, script[j..]))
      else Complete(users + Data(p), retries + (j - 1 - i))
  {
    GatherAfterRetries(rule, script, i, j, p);
    var rest := if !HasNext(rule, p) then Complete(Data(p), 0) else Join(Data(p), 0, Gather(rule, script[j..]));
    assert users + [] == users;
    JoinJoin(users, retries, [], j - 1 - i, rest);
    if HasNext(rule, p) {
      JoinJoin(users, retries + (j - 1 - i), Data(p), 0, Gather(rule, script[j..]));
    }
  }

  /** The loop finds no accepted page from `i` on: the script runs out. */
  lemma GatherExhaustedStep(rule: TokenRule, script: seq<Option<Page>>, users: seq<User>, retries: nat, i: nat)
    requires i <= |script|
    requires forall k :: i <= k < |script| ==> script[k].None?
    requires Gather(rule, script) == Join(users, retries, Gather(rule, script[i..]))
    ensures Gather(rule, script) == Exhausted(retries + (|script| - i))
  {
    GatherAllRetries(rule, script, i);
  }

  /** The accepted pages of a script, in the order they are requested. */
  function AcceptedPages(script: seq<Option<Page>>): seq<Page>
  {
    if script == [] then []
    else AcceptedPages(script[..|script| - 1]) + (if script[|script| - 1].Some? then [script[|script| - 1].value] else [])
  }

  /** Retried attempts add no page. */
  lemma {:induction false} AcceptedPagesSkip(script: seq<Option<Page>>, i: nat, j: nat)
    requires i <= j <= |script|
    requires forall k :: i <= k < j ==> script[k].None?
    ensures AcceptedPages(script[..j]) == AcceptedPages(script[..i])
    decreases j
  {
    if j > i {
      AcceptedPagesSkip(script, i, j - 1);
      assert script[..j][..j - 1] == script[..j - 1];
    }
  }

  /** Attempts `i .. j-2` retried and attempt `j-1` accepted `p`: one more page. */
  lemma AcceptedPagesStep(script: seq<Option<Page>>, i: nat, j: nat, p: Page)
    requires i < j <= |script|
    requires forall k :: i <= k < j - 1 ==> script[k].None?
    requires script[j - 1] == Some(p)
    ensures AcceptedPages(script[..j]) == AcceptedPages(script[..i]) + [p]
  {
    AcceptedPagesSkip(script, i, j - 1);
    assert script[..j][..j - 1] == script[..j - 1];
  }

  /** The pages accepted up to a position are the first pages of the whole script. */
  lemma {:induction false} AcceptedPagesPrefix(script: seq<Option<Page>>, i: nat)
    requires i <= |script|
    ensures var (before, all) := (AcceptedPages(script[..i]), AcceptedPages(script));
      |before| <= |all| && before == all[..|before|]
    decreases |script| - i
  {
    if i == |script| {
      assert script[..i] == script;
    } else {
      AcceptedPagesPrefix(script, i + 1);
      assert script[..i + 1][..i] == script[..i];
    }
  }

  /** Before the first request nothing is collected. */
  lemma GatherStart(rule: TokenRule, script: seq<Option<Page>>)
    ensures Gather(rule, script) == Join([], 0, Gather(rule, script[0..]))
  {
    assert script[0..] == script;
    JoinEmpty(Gather(rule, script));
  }
}
