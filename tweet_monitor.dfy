/**
 * Model of tweet_monitor.py: a watcher that remembers the id of the newest
 * post it has seen (`lastTweetId`), asks only for newer posts, and sends one
 * notification per fetched post.
 *
 * The query answer is an input (`Option<TweetResponse>`, None when every
 * credential failed); notifications are appended to `outbox`.
 */
module TweetMonitoring {
  import opened Wrappers

  /** One fetched post: its id and its (opaque) text. */
  datatype Tweet = Tweet(id: int, text: string)

  /** A decoded JSON answer: the optional `data` list and how many other keys it has. */
  datatype TweetResponse = TweetResponse(data: Option<seq<Tweet>>, otherKeys: nat)

  /** The query parameters of `get_tweet_list`. */
  datatype Params = Params(maxResults: int, sinceId: Option<int>)

  /** `max_results` of every timeline query. */
  const MaxResults := 100

  /** `get_tweet_list`'s parameters: `since_id` only when the given id is truthy (non-zero). */
  function TweetListParams(sinceId: int): (r: Params)
    ensures r.maxResults == MaxResults
    ensures r.sinceId.Some? <==> sinceId != 0
    ensures r.sinceId.Some? ==> r.sinceId.value == sinceId
  {
    Params(MaxResults, if sinceId != 0 then Some(sinceId) else None)
  }

  /** A dict is truthy when it has a key. */
  predicate Truthy(r: TweetResponse)
  {
    r.data.Some? || r.otherKeys > 0
  }

  /** `get_tweet_list`'s result: None for a failed or empty answer, else `data` (default `[]`). */
  function TweetList(answer: Option<TweetResponse>): (r: Option<seq<Tweet>>)
    ensures r.None? <==> answer.None? || !Truthy(answer.value)
    ensures r.Some? && answer.value.data.Some? ==> r.value == answer.value.data.value
    ensures r.Some? && answer.value.data.None? ==> r.value == []
  {
    if answer.Some? && Truthy(answer.value) then Some(answer.value.data.GetOr([])) else None
  }

  /** The watermark `__init__` computes from the first list. */
  function InitialLastTweetId(tweets: seq<Tweet>): int
  {
    if tweets != [] then tweets[0].id else 0
  }

  /** A TweetMonitor: the watermark and what it has sent. */
  class TweetMonitor {
    var lastTweetId: int
    var outbox: seq<Tweet>
    var lastWatchTime: int

    constructor(tweets: seq<Tweet>)
      ensures lastTweetId == InitialLastTweetId(tweets) && outbox == []
    {
      lastTweetId := InitialLastTweetId(tweets);
      outbox := [];
      lastWatchTime := 0;
    }

    /**
     * `__init__` from the first successful fetch. The set-up log line reads
     * the first post, so an empty first list fails (None); otherwise the
     * watermark is the first post's id.
     */
    static method Init(tweets: seq<Tweet>) returns (m: Option<TweetMonitor>)
      ensures m.None? <==> tweets == []
      ensures m.Some? ==> fresh(m.value) && m.value.lastTweetId == tweets[0].id && m.value.outbox == []
    {
      var monitor := new TweetMonitor(tweets);
      if tweets == [] {
        return None;
      }
      return Some(monitor);
    }

    /**
     * `watch`: asks with the current watermark; a failed answer changes
     * nothing; otherwise one notification per post, in list order, and a
     * non-empty list moves the watermark to its first post.
     */
    method Watch(answer: Option<TweetResponse>, now: int) returns (params: Params)
      modifies this
      ensures params == TweetListParams(old(lastTweetId))
      ensures TweetList(answer).None? ==>
        lastTweetId == old(lastTweetId) && outbox == old(outbox) && lastWatchTime == old(lastWatchTime)
      ensures TweetList(answer).Some? ==>
        var tweets := TweetList(answer).value;
        && outbox == old(outbox) + tweets
        && lastTweetId == (if tweets != [] then tweets[0].id else old(lastTweetId))
        && lastWatchTime == now
    {
      params := TweetListParams(lastTweetId);
      var tweetList := TweetList(answer);
      if tweetList.None? {
        return;
      }
      var tweets := tweetList.value;
      for i := 0 to |tweets|
        invariant outbox == old(outbox) + tweets[..i]
        invariant lastTweetId == old(lastTweetId)
      {
        outbox := outbox + [tweets[i]];
      }
      assert tweets[..|tweets|] == tweets;
      if tweets != [] {
        lastTweetId := tweets[0].id;
      }
      lastWatchTime := now;
    }
  }
}
