/**
 * Model of twitter_watcher.py: a pool of bearer tokens used round-robin.
 * A query tries each token at most once, starting after the current one,
 * and returns the body of the first answer with status 200; `check_token`
 * probes every token and reports which ones answer 200.
 *
 * What each token's request would return in one call is an input
 * (`answers[t]` for token index t); `random.randrange` is the `start`
 * argument of the constructor.
 */
module TokenRotation {
  import opened Wrappers

  /** The JSON body of a successful answer (opaque here). */
  datatype Body = Body(json: string)

  /** One request: a connection error, or a response with a status code and a body. */
  datatype Attempt = ConnectionError | Response(status: int, body: Body)

  predicate Succeeds(a: Attempt)
  {
    a.Response? && a.status == 200
  }

  lemma MulBounds(x: int, n: int)
    requires n > 0
    ensures x >= 1 ==> x * n >= n
    ensures x <= -1 ==> x * n <= -n
  {
  }

  /** Euclidean division is unique: a quotient and a remainder in [0, n) are those of `/` and `%`. */
  lemma ModUnique(a: int, q: int, r: int, n: int)
    requires n > 0 && 0 <= r < n && a == q * n + r
    ensures a % n == r
  {
    var q', r' := a / n, a % n;
    assert (q - q') * n == r' - r;
    MulBounds(q - q', n);
  }

  lemma ModDistinct(a: int, b: int, n: int)
    requires n > 0 && a < b < a + n
    ensures a % n != b % n
  {
    var qa, qb := a / n, b / n;
    if a % n == b % n {
      assert b - a == (qb - qa) * n;
      MulBounds(qb - qa, n);
    }
  }

  lemma ModAddOne(a: nat, n: nat)
    requires n > 0
    ensures (a % n + 1) % n == (a + 1) % n
  {
    var q, r := a / n, a % n;
    if r + 1 < n {
      ModUnique(a + 1, q, r + 1, n);
      ModUnique(r + 1, 0, r + 1, n);
    } else {
      ModUnique(a + 1, q + 1, 0, n);
      ModUnique(n, 1, 0, n);
    }
  }

  /** One cursor step, `(c + 1) % n`, written without division. */
  function Next(c: nat, n: nat): (r: nat)
    requires c < n
    ensures r < n && r == (c + 1) % n
  {
    if c + 1 == n then (ModUnique(n, 1, 0, n); 0) else (ModUnique(c + 1, 0, c + 1, n); c + 1)
  }

  /** The cursor after k steps from `start`. */
  function Cursor(start: nat, k: nat, n: nat): (r: nat)
    requires start < n
    ensures r < n
  {
    if k == 0 then start else Next(Cursor(start, k - 1, n), n)
  }

  /** The token index used by attempt k of a query that starts at cursor `start`. */
  function TokenAt(start: nat, k: nat, n: nat): (t: nat)
    requires start < n
    ensures t < n
  {
    Cursor(start, k + 1, n)
  }

  /** The cursor after k steps is `(start + k) % n`, as the source computes it. */
  lemma {:induction false} CursorIsMod(start: nat, k: nat, n: nat)
    requires start < n
    ensures Cursor(start, k, n) == (start + k) % n
  {
    if k == 0 {
      ModUnique(start, 0, start, n);
    } else {
      CursorIsMod(start, k - 1, n);
      ModAddOne(start + k - 1, n);
    }
  }

  /** Within one query the attempts use pairwise distinct tokens. */
  lemma TokensDistinct(start: nat, i: nat, j: nat, n: nat)
    requires start < n && i < j < n
    ensures TokenAt(start, i, n) != TokenAt(start, j, n)
  {
    CursorIsMod(start, i + 1, n);
    CursorIsMod(start, j + 1, n);
    ModDistinct(start + i + 1, start + j + 1, n);
  }

  /**
   * The attempts of one query from attempt k on: the body of the first
   * successful one (None if none succeeds) and the number of attempts made.
   */
  function Scan(answers: seq<Attempt>, start: nat, k: nat): (r: (Option<Body>, nat))
    requires start < |answers| && k <= |answers|
    ensures k <= r.1 <= |answers|
    decreases |answers| - k
  {
    if k == |answers| then (None, k)
    else
      var a := answers[TokenAt(start, k, |answers|)];
      if Succeeds(a) then (Some(a.body), k + 1) else Scan(answers, start, k + 1)
  }

  /**
   * `query` stops at the first success: every attempt before the last one
   * failed, a returned body is that of the last attempt, and None means all
   * attempts were made and all failed.
   */
  lemma {:induction false} ScanSpec(answers: seq<Attempt>, start: nat, k: nat)
    requires start < |answers| && k <= |answers|
    ensures var (result, attempts) := Scan(answers, start, k);
      && (forall i :: k <= i < attempts - 1 ==> !Succeeds(answers[TokenAt(start, i, |answers|)]))
      && (result.Some? ==> attempts > k && Succeeds(answers[TokenAt(start, attempts - 1, |answers|)])
                           && result.value == answers[TokenAt(start, attempts - 1, |answers|)].body)
      && (result.None? <==> attempts == |answers| && forall i :: k <= i < |answers| ==> !Succeeds(answers[TokenAt(start, i, |answers|)]))
    decreases |answers| - k
  {
    if k < |answers| && !Succeeds(answers[TokenAt(start, k, |answers|)]) {
      ScanSpec(answers, start, k + 1);
    }
  }

  /** A full round of N steps brings the cursor back to where it started. */
  lemma FullRoundRestoresCursor(start: nat, n: nat)
    requires start < n
    ensures Cursor(start, n, n) == start
  {
    CursorIsMod(start, n, n);
    ModUnique(start + n, 1, start, n);
  }

  /** A query in which every token fails makes N attempts, returns None and leaves the cursor where it was. */
  lemma AllFailingQueryRestoresCursor(answers: seq<Attempt>, start: nat)
    requires start < |answers|
    requires forall t :: 0 <= t < |answers| ==> !Succeeds(answers[t])
    ensures Scan(answers, start, 0) == (None, |answers|)
    ensures Cursor(start, Scan(answers, start, 0).1, |answers|) == start
  {
    ScanSpec(answers, start, 0);
    FullRoundRestoresCursor(start, |answers|);
  }

  /** With a single failing token, a query always succeeds and makes at most two attempts. */
  lemma OneBadTokenStillAnswers(answers: seq<Attempt>, start: nat, bad: nat)
    requires |answers| >= 2 && bad < |answers| && start < |answers|
    requires forall t :: 0 <= t < |answers| && t != bad ==> Succeeds(answers[t])
    ensures Scan(answers, start, 0).0.Some? && Scan(answers, start, 0).1 <= 2
  {
    var n := |answers|;
    if TokenAt(start, 0, n) == bad {
      TokensDistinct(start, 0, 1, n);
      assert Scan(answers, start, 1) == (Some(answers[TokenAt(start, 1, n)].body), 2);
    }
  }

  /** The token pool and its cursor. */
  class TwitterWatcher {
    const bearerTokenList: seq<string>
    var currentTokenIndex: nat

    ghost predicate Valid()
      reads this
    {
      |bearerTokenList| > 0 && currentTokenIndex < |bearerTokenList|
    }

    /** The list must be non-empty (the source asserts it); the cursor starts at `start`. */
    constructor(bearerTokenList: seq<string>, start: nat)
      requires |bearerTokenList| > 0 && start < |bearerTokenList|
      ensures Valid() && this.bearerTokenList == bearerTokenList && currentTokenIndex == start
    {
      this.bearerTokenList := bearerTokenList;
      currentTokenIndex := start;
    }

    /**
     * `query`: at most one attempt per token, each advancing the cursor by
     * one (mod N) before it is made; the result and the attempt count are
     * those of `Scan`, `tried` lists the tokens sent, in order.
     */
    method Query(answers: seq<Attempt>) returns (result: Option<Body>, tried: seq<string>)
      requires Valid() && |answers| == |bearerTokenList|
      modifies this
      ensures Valid()
      ensures var (r, attempts) := Scan(answers, old(currentTokenIndex), 0);
        && result == r
        && |tried| == attempts
        && (forall k :: 0 <= k < attempts ==> tried[k] == bearerTokenList[TokenAt(old(currentTokenIndex), k, |answers|)])
        && currentTokenIndex == Cursor(old(currentTokenIndex), attempts, |answers|)
        && currentTokenIndex == (old(currentTokenIndex) + attempts) % |answers|
    {
      var n := |bearerTokenList|;
      ghost var start := currentTokenIndex;
      tried := [];
      var k := 0;
      while k < n
        invariant 0 <= k <= n && Valid()
        invariant Scan(answers, start, 0) == Scan(answers, start, k)
        invariant |tried| == k && forall i :: 0 <= i < k ==> tried[i] == bearerTokenList[TokenAt(start, i, n)]
        invariant currentTokenIndex == Cursor(start, k, n)
        decreases n - k
      {
        Advance();
        tried := tried + [bearerTokenList[currentTokenIndex]];
        var response := answers[currentTokenIndex];
        k := k + 1;
        if response.ConnectionError? {
          assert Scan(answers, start, k - 1) == Scan(answers, start, k);
          continue;
        }
        if response.status == 200 {
          assert Scan(answers, start, k - 1) == (Some(response.body), k);
          CursorIsMod(start, k, n);
          return Some(response.body), tried;
        }
        assert Scan(answers, start, k - 1) == Scan(answers, start, k);
      }
      assert Scan(answers, start, n) == (None, n);
      CursorIsMod(start, n, n);
      result := None;
    }

    /** The cursor step of `query`: `(current + 1) % N`. */
    method Advance()
      requires Valid()
      modifies this`currentTokenIndex
      ensures Valid() && currentTokenIndex == Next(old(currentTokenIndex), |bearerTokenList|)
    {
      currentTokenIndex := (currentTokenIndex + 1) % |bearerTokenList|;
    }

    /** `check_token`: probes every token (not using the cursor) and maps it to whether it answered 200. */
    method CheckToken(answers: seq<Attempt>) returns (result: map<string, bool>)
      requires |answers| == |bearerTokenList|
      ensures result == Health(bearerTokenList, answers)
    {
      result := map[];
      for i := 0 to |bearerTokenList|
        invariant result == Health(bearerTokenList[..i], answers[..i])
      {
        assert bearerTokenList[..i + 1][..i] == bearerTokenList[..i];
        assert answers[..i + 1][..i] == answers[..i];
        var token := bearerTokenList[i];
        if answers[i].ConnectionError? {
          result := result[token := false];
          continue;
        }
        result := result[token := answers[i].status == 200];
      }
      assert bearerTokenList[..|bearerTokenList|] == bearerTokenList;
      assert answers[..|answers|] == answers;
    }
  }


  /** The health map after probing the tokens in order: a later probe of the same token overwrites an earlier one. */
  function Health(tokens: seq<string>, answers: seq<Attempt>): map<string, bool>
    requires |answers| == |tokens|
  {
    if tokens == [] then map[]
    else Health(tokens[..|tokens| - 1], answers[..|tokens| - 1])[tokens[|tokens| - 1] := Succeeds(answers[|tokens| - 1])]
  }

  /** Every token gets an entry, and the entry is the health of its last probe. */
  lemma {:induction false} HealthSpec(tokens: seq<string>, answers: seq<Attempt>)
    requires |answers| == |tokens|
    ensures forall t :: t in Health(tokens, answers) <==> t in tokens
    ensures forall i :: 0 <= i < |tokens| && (forall j :: i < j < |tokens| ==> tokens[j] != tokens[i]) ==>
      Health(tokens, answers)[tokens[i]] == Succeeds(answers[i])
  {
    if tokens != [] {
      var n := |tokens|;
      HealthSpec(tokens[..n - 1], answers[..n - 1]);
      assert forall i :: 0 <= i < n - 1 ==> tokens[..n - 1][i] == tokens[i] && answers[..n - 1][i] == answers[i];
      assert tokens == tokens[..n - 1] + [tokens[n - 1]];
    }
  }
}
