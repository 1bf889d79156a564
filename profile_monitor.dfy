/**
 * Model of profile_monitor.py: a profile watcher that keeps each of 13
 * profile fields in a debouncing ElementBuffer, announces a field change
 * only after `threshold` consecutive observations that differ from the
 * stored value, and marks the Following, Like and Tweet sub-monitors stale
 * when the matching counters move, re-running stale sub-monitors after each
 * tick.
 *
 * The parsed profile is an input record (`Profile`); `send_message` appends
 * to the monitor's `outbox`; the monitor registry is an oracle giving, per
 * sub-monitor kind, whether it exists and what its out-of-schedule run returned.
 */
module ProfileMonitoring {
  import opened Wrappers

  // ---------------------------------------------------------------------
  // ElementBuffer, as values

  /** A reported change: the `{'old': ..., 'new': ...}` dict of `push`. */
  datatype Change<T> = Change(oldValue: T, newValue: T)

  /** The three fields of an ElementBuffer. */
  datatype BufferState<T> = BufferState(element: T, threshold: nat, count: nat)

  /** Default `change_threshold` of an ElementBuffer. */
  const DefaultThreshold: nat := 2

  /** `change_threshold` of the `tweet_count` buffer. */
  const TweetCountThreshold: nat := 1

  /**
   * `push`: a value equal to the element resets the counter; any other value
   * counts one more mismatch, and the mismatch that reaches the threshold
   * replaces the element by the pushed value and reports the change.
   */
  function PushStep<T(==)>(b: BufferState<T>, e: T): (BufferState<T>, Option<Change<T>>)
  {
    if e == b.element then (b.(count := 0), None)
    else if b.count + 1 >= b.threshold then (BufferState(e, b.threshold, 0), Some(Change(b.element, e)))
    else (b.(count := b.count + 1), None)
  }

  /** A buffer's counter is always below its threshold, or zero. */
  predicate BufferInvariant<T>(b: BufferState<T>)
  {
    b.count == 0 || b.count < b.threshold
  }

  lemma PushKeepsInvariant<T>(b: BufferState<T>, e: T)
    requires BufferInvariant(b)
    ensures BufferInvariant(PushStep(b, e).0) && PushStep(b, e).0.threshold == b.threshold
  {
  }

  /** A push reports exactly when it changes the element, and then names the old and the new element. */
  lemma PushReportsIffChanged<T>(b: BufferState<T>, e: T)
    ensures PushStep(b, e).1.Some? <==> PushStep(b, e).0.element != b.element
    ensures PushStep(b, e).1.Some? ==> PushStep(b, e).1.value == Change(b.element, e) && PushStep(b, e).0.element == e
    ensures PushStep(b, e).1.Some? || e == b.element ==> PushStep(b, e).0.count == 0
  {
  }

  /** A sequence of pushes: the final buffer and what each push returned. */
  function PushAll<T(==)>(b: BufferState<T>, xs: seq<T>): (BufferState<T>, seq<Option<Change<T>>>)
    decreases |xs|
  {
    if xs == [] then (b, [])
    else
      var (b1, r) := PushStep(b, xs[0]);
      var (bn, rs) := PushAll(b1, xs[1..]);
      (bn, [r] + rs)
  }

  lemma {:induction false} PushAllLength<T>(b: BufferState<T>, xs: seq<T>)
    ensures |PushAll(b, xs).1| == |xs|
    decreases |xs|
  {
    if xs != [] {
      PushAllLength(PushStep(b, xs[0]).0, xs[1..]);
    }
  }

  /** Pushing the current element any number of times never reports, keeps it, and leaves the counter at 0. */
  lemma {:induction false} SamePushesNeverReport<T>(b: BufferState<T>, xs: seq<T>)
    requires |xs| > 0
    requires forall i :: 0 <= i < |xs| ==> xs[i] == b.element
    ensures PushAll(b, xs).0 == b.(count := 0)
    ensures forall i :: 0 <= i < |PushAll(b, xs).1| ==> PushAll(b, xs).1[i].None?
    decreases |xs|
  {
    if |xs| > 1 {
      SamePushesNeverReport(b.(count := 0), xs[1..]);
    }
  }

  /**
   * Debouncing as the code does it: from a counter `c`, pushes that all
   * differ from the element report nothing until the mismatch count reaches
   * the threshold, and the push that reaches it reports the change to THAT
   * pushed value — the mismatching values need not agree with each other.
   */
  lemma {:induction false} MismatchesReachThreshold<T>(b: BufferState<T>, xs: seq<T>)
    requires b.threshold >= 1 && b.count + |xs| <= b.threshold
    requires forall i :: 0 <= i < |xs| ==> xs[i] != b.element
    ensures |PushAll(b, xs).1| == |xs|
    ensures forall i :: 0 <= i < |xs| && b.count + i + 1 < b.threshold ==> PushAll(b, xs).1[i].None?
    ensures b.count + |xs| < b.threshold ==> PushAll(b, xs).0 == b.(count := b.count + |xs|)
    ensures |xs| > 0 && b.count + |xs| == b.threshold ==>
      && PushAll(b, xs).1[|xs| - 1] == Some(Change(b.element, xs[|xs| - 1]))
      && PushAll(b, xs).0 == BufferState(xs[|xs| - 1], b.threshold, 0)
    decreases |xs|
  {
    PushAllLength(b, xs);
    if xs != [] {
      var (b1, r) := PushStep(b, xs[0]);
      if |xs| == 1 {
      } else {
        assert b1 == b.(count := b.count + 1);
        MismatchesReachThreshold(b1, xs[1..]);
        var rs := PushAll(b1, xs[1..]).1;
        assert PushAll(b, xs).1 == [r] + rs;
        assert forall i :: 1 <= i < |xs| ==> PushAll(b, xs).1[i] == rs[i - 1];
      }
    }
  }

  /** Threshold 2, element A: pushing B then C reports A -> C. */
  lemma TwoDifferentMismatchesReport()
    ensures PushAll(BufferState("A", 2, 0), ["B", "C"]).1 == [None, Some(Change("A", "C"))]
    ensures PushAll(BufferState("A", 2, 0), ["B", "C"]).0 == BufferState("C", 2, 0)
  {
    var c0 := BufferState("C", 2, 0);
    assert ["B", "C"][1..] == ["C"] && ["C"][1..] == [];
    assert PushAll(c0, []).1 == [];
    assert PushAll(c0, []).0 == c0;
    assert PushAll(BufferState("A", 2, 1), ["C"]).1 == [Some(Change("A", "C"))];
    assert PushAll(BufferState("A", 2, 1), ["C"]).0 == c0;
  }

  /** Threshold 2, element A, observations A, B, A, B, B: one report, A -> B, at the fifth. */
  lemma FlappingNameReportsOnce()
    ensures PushAll(BufferState("A", 2, 0), ["A", "B", "A", "B", "B"]).1 == [None, None, None, None, Some(Change("A", "B"))]
    ensures PushAll(BufferState("A", 2, 0), ["A", "B", "A", "B", "B"]).0 == BufferState("B", 2, 0)
  {
    var a0, a1, b0 := BufferState("A", 2, 0), BufferState("A", 2, 1), BufferState("B", 2, 0);
    assert ["A", "B", "A", "B", "B"][1..] == ["B", "A", "B", "B"];
    assert ["B", "A", "B", "B"][1..] == ["A", "B", "B"];
    assert ["A", "B", "B"][1..] == ["B", "B"] && ["B", "B"][1..] == ["B"] && ["B"][1..] == [];
    assert PushAll(b0, []).1 == [];
    assert PushAll(b0, []).0 == b0;
    assert PushAll(a1, ["B"]).1 == [Some(Change("A", "B"))];
    assert PushAll(a1, ["B"]).0 == b0;
    assert PushAll(a0, ["B", "B"]).1 == [None, Some(Change("A", "B"))];
    assert PushAll(a0, ["B", "B"]).0 == b0;
    assert PushAll(a1, ["A", "B", "B"]).1 == [None, None, Some(Change("A", "B"))];
    assert PushAll(a1, ["A", "B", "B"]).0 == b0;
    assert PushAll(a0, ["B", "A", "B", "B"]).1 == [None, None, None, Some(Change("A", "B"))];
    assert PushAll(a0, ["B", "A", "B", "B"]).0 == b0;
  }

  /** Threshold 1 (`tweet_count`): a single differing push reports at once. */
  lemma ThresholdOneReportsAtOnce(b: BufferState<int>, e: int)
    requires b.threshold == TweetCountThreshold && e != b.element
    ensures PushStep(b, e) == (BufferState(e, TweetCountThreshold, 0), Some(Change(b.element, e)))
  {
  }

  // ---------------------------------------------------------------------
  // One profile snapshot

  /** The values `ProfileParser` extracts from one `UserByRestId` answer. */
  datatype Profile = Profile(
    name: string,
    username: string,
    location: string,
    bio: string,
    website: string,
    followersCount: int,
    followingCount: int,
    likeCount: int,
    tweetCount: int,
    profileImageUrl: string,
    profileBannerUrl: string,
    pinnedTweet: Option<string>,
    highlightedTweetCount: Option<string>)

  /** The 13 buffers, in the order `detect_change_and_update` pushes them. */
  datatype Buffers = Buffers(
    name: BufferState<string>,
    username: BufferState<string>,
    location: BufferState<string>,
    bio: BufferState<string>,
    website: BufferState<string>,
    followersCount: BufferState<int>,
    followingCount: BufferState<int>,
    likeCount: BufferState<int>,
    tweetCount: BufferState<int>,
    profileImageUrl: BufferState<string>,
    profileBannerUrl: BufferState<string>,
    pinnedTweet: BufferState<Option<string>>,
    highlightedTweetCount: BufferState<Option<string>>)

  /** What each push of one tick reported (`followers_count`'s report is dropped by the source). */
  datatype Changes = Changes(
    name: Option<Change<string>>,
    username: Option<Change<string>>,
    location: Option<Change<string>>,
    bio: Option<Change<string>>,
    website: Option<Change<string>>,
    followingCount: Option<Change<int>>,
    likeCount: Option<Change<int>>,
    tweetCount: Option<Change<int>>,
    profileImageUrl: Option<Change<string>>,
    profileBannerUrl: Option<Change<string>>,
    pinnedTweet: Option<Change<Option<string>>>,
    highlightedTweetCount: Option<Change<Option<string>>>)

  /** The buffers of a fresh monitor: threshold 1 for `tweet_count`, 2 for every other field. */
  function InitialBuffers(p: Profile): (b: Buffers)
  {
    Buffers(
      BufferState(p.name, DefaultThreshold, 0),
      BufferState(p.username, DefaultThreshold, 0),
      BufferState(p.location, DefaultThreshold, 0),
      BufferState(p.bio, DefaultThreshold, 0),
      BufferState(p.website, DefaultThreshold, 0),
      BufferState(p.followersCount, DefaultThreshold, 0),
      BufferState(p.followingCount, DefaultThreshold, 0),
      BufferState(p.likeCount, DefaultThreshold, 0),
      BufferState(p.tweetCount, TweetCountThreshold, 0),
      BufferState(p.profileImageUrl, DefaultThreshold, 0),
      BufferState(p.profileBannerUrl, DefaultThreshold, 0),
      BufferState(p.pinnedTweet, DefaultThreshold, 0),
      BufferState(p.highlightedTweetCount, DefaultThreshold, 0))
  }

  /** Pushes every field of a snapshot into its buffer. */
  function PushProfile(b: Buffers, p: Profile): (Buffers, Changes)
  {
    var (name, cName) := PushStep(b.name, p.name);
    var (username, cUsername) := PushStep(b.username, p.username);
    var (location, cLocation) := PushStep(b.location, p.location);
    var (bio, cBio) := PushStep(b.bio, p.bio);
    var (website, cWebsite) := PushStep(b.website, p.website);
    var (followers, _) := PushStep(b.followersCount, p.followersCount);
    var (following, cFollowing) := PushStep(b.followingCount, p.followingCount);
    var (like, cLike) := PushStep(b.likeCount, p.likeCount);
    var (tweet, cTweet) := PushStep(b.tweetCount, p.tweetCount);
    var (image, cImage) := PushStep(b.profileImageUrl, p.profileImageUrl);
    var (banner, cBanner) := PushStep(b.profileBannerUrl, p.profileBannerUrl);
    var (pinned, cPinned) := PushStep(b.pinnedTweet, p.pinnedTweet);
    var (highlighted, cHighlighted) := PushStep(b.highlightedTweetCount, p.highlightedTweetCount);
    (Buffers(name, username, location, bio, website, followers, following, like, tweet, image, banner, pinned, highlighted),
     Changes(cName, cUsername, cLocation, cBio, cWebsite, cFollowing, cLike, cTweet, cImage, cBanner, cPinned, cHighlighted))
  }

  // The buffers in the three groups `detect_change_and_update` pushes in turn:
  // the text fields, the counters and the media fields.

  type TextBuffers = (BufferState<string>, BufferState<string>, BufferState<string>, BufferState<string>, BufferState<string>)
  type CounterBuffers = (BufferState<int>, BufferState<int>, BufferState<int>, BufferState<int>)
  type MediaBuffers = (BufferState<string>, BufferState<string>, BufferState<Option<string>>, BufferState<Option<string>>)

  type TextReports = (Option<Change<string>>, Option<Change<string>>, Option<Change<string>>, Option<Change<string>>, Option<Change<string>>)
  type CounterReports = (Option<Change<int>>, Option<Change<int>>, Option<Change<int>>)
  type MediaReports = (Option<Change<string>>, Option<Change<string>>, Option<Change<Option<string>>>, Option<Change<Option<string>>>)

  function Assemble(t: TextBuffers, c: CounterBuffers, m: MediaBuffers): Buffers
  {
    Buffers(t.0, t.1, t.2, t.3, t.4, c.0, c.1, c.2, c.3, m.0, m.1, m.2, m.3)
  }

  function AssembleChanges(t: TextReports, c: CounterReports, m: MediaReports): Changes
  {
    Changes(t.0, t.1, t.2, t.3, t.4, c.0, c.1, c.2, m.0, m.1, m.2, m.3)
  }

  function TextOf(b: Buffers): TextBuffers
  {
    (b.name, b.username, b.location, b.bio, b.website)
  }

  function CountersOf(b: Buffers): CounterBuffers
  {
    (b.followersCount, b.followingCount, b.likeCount, b.tweetCount)
  }

  function MediaOf(b: Buffers): MediaBuffers
  {
    (b.profileImageUrl, b.profileBannerUrl, b.pinnedTweet, b.highlightedTweetCount)
  }

  function TextPushed(b: Buffers, p: Profile): TextBuffers
  {
    (PushStep(b.name, p.name).0, PushStep(b.username, p.username).0, PushStep(b.location, p.location).0,
     PushStep(b.bio, p.bio).0, PushStep(b.website, p.website).0)
  }

  function TextReportsOf(b: Buffers, p: Profile): TextReports
  {
    (PushStep(b.name, p.name).1, PushStep(b.username, p.username).1, PushStep(b.location, p.location).1,
     PushStep(b.bio, p.bio).1, PushStep(b.website, p.website).1)
  }

  function CountersPushed(b: Buffers, p: Profile): CounterBuffers
  {
    (PushStep(b.followersCount, p.followersCount).0, PushStep(b.followingCount, p.followingCount).0,
     PushStep(b.likeCount, p.likeCount).0, PushStep(b.tweetCount, p.tweetCount).0)
  }

  /** The followers count's report is not kept. */
  function CounterReportsOf(b: Buffers, p: Profile): CounterReports
  {
    (PushStep(b.followingCount, p.followingCount).1, PushStep(b.likeCount, p.likeCount).1,
     PushStep(b.tweetCount, p.tweetCount).1)
  }

  function MediaPushed(b: Buffers, p: Profile): MediaBuffers
  {
    (PushStep(b.profileImageUrl, p.profileImageUrl).0, PushStep(b.profileBannerUrl, p.profileBannerUrl).0,
     PushStep(b.pinnedTweet, p.pinnedTweet).0, PushStep(b.highlightedTweetCount, p.highlightedTweetCount).0)
  }

  function MediaReportsOf(b: Buffers, p: Profile): MediaReports
  {
    (PushStep(b.profileImageUrl, p.profileImageUrl).1, PushStep(b.profileBannerUrl, p.profileBannerUrl).1,
     PushStep(b.pinnedTweet, p.pinnedTweet).1, PushStep(b.highlightedTweetCount, p.highlightedTweetCount).1)
  }

  lemma PushProfileSplit(b: Buffers, p: Profile)
    ensures PushProfile(b, p).0 == Assemble(TextPushed(b, p), CountersPushed(b, p), MediaPushed(b, p))
    ensures PushProfile(b, p).1 == AssembleChanges(TextReportsOf(b, p), CounterReportsOf(b, p), MediaReportsOf(b, p))
  {
  }

  // ---------------------------------------------------------------------
  // Messages

  /** The fields that can produce a message, in emission order. */
  datatype Field =
    | Name | Username | Location | Bio | Website
    | FollowingCount | LikeCount | TweetCount
    | ProfileImage | ProfileBanner | PinnedTweet | HighlightedTweet

  /** Position of a field in the emission order. */
  function Rank(f: Field): nat
  {
    match f
    case Name => 0
    case Username => 1
    case Location => 2
    case Bio => 3
    case Website => 4
    case FollowingCount => 5
    case LikeCount => 6
    case TweetCount => 7
    case ProfileImage => 8
    case ProfileBanner => 9
    case PinnedTweet => 10
    case HighlightedTweet => 11
  }

  /** The first argument of `MESSAGE_TEMPLATE.format`. */
  function Label(f: Field): string
  {
    match f
    case Name => "Name"
    case Username => "Username"
    case Location => "Location"
    case Bio => "Bio"
    case Website => "Website"
    case FollowingCount => "Following count"
    case LikeCount => "Like count"
    case TweetCount => "Tweet count"
    case ProfileImage => "Profile image"
    case ProfileBanner => "Profile banner"
    case PinnedTweet => "Pinned tweet"
    case HighlightedTweet => "Highlighted tweet"
  }

  /** How a field value is rendered into the message template. */
  datatype Shown = Text(s: string) | Number(n: int) | NoValue

  function ShowOption(v: Option<string>): Shown
  {
    match v
    case Some(s) => Text(s)
    case None => NoValue
  }

  /** One `send_message` call: `'{label} changed\nOld: {old}\nNew: {new}'` plus its photo list. */
  datatype Message = Message(field: Field, oldValue: Shown, newValue: Shown, photos: seq<string>)

  function TextMessage(f: Field, c: Option<Change<string>>): (r: seq<Message>)
    ensures |r| <= 1 && forall i :: 0 <= i < |r| ==> r[i].field == f
  {
    if c.Some? then [Message(f, Text(c.value.oldValue), Text(c.value.newValue), [])] else []
  }

  function CountMessage(f: Field, c: Option<Change<int>>, monitoring: bool): (r: seq<Message>)
    ensures |r| <= 1 && forall i :: 0 <= i < |r| ==> r[i].field == f
  {
    if c.Some? && monitoring then [Message(f, Number(c.value.oldValue), Number(c.value.newValue), [])] else []
  }

  function PhotoMessage(f: Field, c: Option<Change<string>>): (r: seq<Message>)
    ensures |r| <= 1 && forall i :: 0 <= i < |r| ==> r[i].field == f
  {
    if c.Some? then [Message(f, Text(c.value.oldValue), Text(c.value.newValue), [c.value.oldValue, c.value.newValue])] else []
  }

  function OptionMessage(f: Field, c: Option<Change<Option<string>>>): (r: seq<Message>)
    ensures |r| <= 1 && forall i :: 0 <= i < |r| ==> r[i].field == f
  {
    if c.Some? then [Message(f, ShowOption(c.value.oldValue), ShowOption(c.value.newValue), [])] else []
  }

  /** The `monitoring_*_count` options of the user configuration (default False). */
  datatype Flags = Flags(following: bool, tweet: bool, like: bool)

  /** Whether field `f`'s stored element differs between two buffer states. */
  predicate Changed(f: Field, b: Buffers, b': Buffers)
  {
    match f
    case Name => b.name.element != b'.name.element
    case Username => b.username.element != b'.username.element
    case Location => b.location.element != b'.location.element
    case Bio => b.bio.element != b'.bio.element
    case Website => b.website.element != b'.website.element
    case FollowingCount => b.followingCount.element != b'.followingCount.element
    case LikeCount => b.likeCount.element != b'.likeCount.element
    case TweetCount => b.tweetCount.element != b'.tweetCount.element
    case ProfileImage => b.profileImageUrl.element != b'.profileImageUrl.element
    case ProfileBanner => b.profileBannerUrl.element != b'.profileBannerUrl.element
    case PinnedTweet => b.pinnedTweet.element != b'.pinnedTweet.element
    case HighlightedTweet => b.highlightedTweetCount.element != b'.highlightedTweetCount.element
  }

  /** Counter changes are sent only when their `monitoring_*_count` option is on; the other fields always. */
  predicate Monitored(f: Field, flags: Flags)
  {
    match f
    case FollowingCount => flags.following
    case LikeCount => flags.like
    case TweetCount => flags.tweet
    case _ => true
  }

  /** The message about `m.field` says its stored element went from its value in `b` to its value in `b'`; photos only for the two images. */
  ghost predicate Describes(m: Message, b: Buffers, b': Buffers)
  {
    match m.field
    case Name => m == Message(Name, Text(b.name.element), Text(b'.name.element), [])
    case Username => m == Message(Username, Text(b.username.element), Text(b'.username.element), [])
    case Location => m == Message(Location, Text(b.location.element), Text(b'.location.element), [])
    case Bio => m == Message(Bio, Text(b.bio.element), Text(b'.bio.element), [])
    case Website => m == Message(Website, Text(b.website.element), Text(b'.website.element), [])
    case FollowingCount => m == Message(FollowingCount, Number(b.followingCount.element), Number(b'.followingCount.element), [])
    case LikeCount => m == Message(LikeCount, Number(b.likeCount.element), Number(b'.likeCount.element), [])
    case TweetCount => m == Message(TweetCount, Number(b.tweetCount.element), Number(b'.tweetCount.element), [])
    case ProfileImage => m == Message(ProfileImage, Text(b.profileImageUrl.element), Text(b'.profileImageUrl.element),
                                      [b.profileImageUrl.element, b'.profileImageUrl.element])
    case ProfileBanner => m == Message(ProfileBanner, Text(b.profileBannerUrl.element), Text(b'.profileBannerUrl.element),
                                       [b.profileBannerUrl.element, b'.profileBannerUrl.element])
    case PinnedTweet => m == Message(PinnedTweet, ShowOption(b.pinnedTweet.element), ShowOption(b'.pinnedTweet.element), [])
    case HighlightedTweet => m == Message(HighlightedTweet, ShowOption(b.highlightedTweetCount.element),
                                          ShowOption(b'.highlightedTweetCount.element), [])
  }

  /** The report of one push given the element before (`x`) and after (`y`) it. */
  function Reported<T(==)>(x: T, y: T): Option<Change<T>>
  {
    if x != y then Some(Change(x, y)) else None
  }

  /** `c` holds exactly the reports of pushes that took the buffers from `b` to `b'`. */
  predicate Consistent(b: Buffers, b': Buffers, c: Changes)
  {
    && c.name == Reported(b.name.element, b'.name.element)
    && c.username == Reported(b.username.element, b'.username.element)
    && c.location == Reported(b.location.element, b'.location.element)
    && c.bio == Reported(b.bio.element, b'.bio.element)
    && c.website == Reported(b.website.element, b'.website.element)
    && c.followingCount == Reported(b.followingCount.element, b'.followingCount.element)
    && c.likeCount == Reported(b.likeCount.element, b'.likeCount.element)
    && c.tweetCount == Reported(b.tweetCount.element, b'.tweetCount.element)
    && c.profileImageUrl == Reported(b.profileImageUrl.element, b'.profileImageUrl.element)
    && c.profileBannerUrl == Reported(b.profileBannerUrl.element, b'.profileBannerUrl.element)
    && c.pinnedTweet == Reported(b.pinnedTweet.element, b'.pinnedTweet.element)
    && c.highlightedTweetCount == Reported(b.highlightedTweetCount.element, b'.highlightedTweetCount.element)
  }

  lemma PushReported<T>(b: BufferState<T>, e: T)
    ensures PushStep(b, e).1 == Reported(b.element, PushStep(b, e).0.element)
  {
  }

  /** The reports of a tick are exactly the element changes it makes. */
  lemma PushProfileConsistent(b: Buffers, p: Profile)
    ensures Consistent(b, PushProfile(b, p).0, PushProfile(b, p).1)
  {
    PushReported(b.name, p.name);
    PushReported(b.username, p.username);
    PushReported(b.location, p.location);
    PushReported(b.bio, p.bio);
    PushReported(b.website, p.website);
    PushReported(b.followingCount, p.followingCount);
    PushReported(b.likeCount, p.likeCount);
    PushReported(b.tweetCount, p.tweetCount);
    PushReported(b.profileImageUrl, p.profileImageUrl);
    PushReported(b.profileBannerUrl, p.profileBannerUrl);
    PushReported(b.pinnedTweet, p.pinnedTweet);
    PushReported(b.highlightedTweetCount, p.highlightedTweetCount);
  }

  /**
   * The candidate message of each field, indexed by rank: piece k holds the
   * message about the field of rank k when that field is reported, and is
   * empty otherwise.
   */
  function Pieces(c: Changes, flags: Flags): seq<seq<Message>>
  {
    [] + [TextMessage(Name, c.name)] + [TextMessage(Username, c.username)] + [TextMessage(Location, c.location)]
    + [TextMessage(Bio, c.bio)] + [TextMessage(Website, c.website)]
    + [CountMessage(FollowingCount, c.followingCount, flags.following)]
    + [CountMessage(LikeCount, c.likeCount, flags.like)] + [CountMessage(TweetCount, c.tweetCount, flags.tweet)]
    + [PhotoMessage(ProfileImage, c.profileImageUrl)] + [PhotoMessage(ProfileBanner, c.profileBannerUrl)]
    + [OptionMessage(PinnedTweet, c.pinnedTweet)] + [OptionMessage(HighlightedTweet, c.highlightedTweetCount)]
  }

  /** The twelve pieces as one sequence display, one entry per rank. */
  lemma PiecesLiteral(c: Changes, flags: Flags)
    ensures Pieces(c, flags) == [TextMessage(Name, c.name), TextMessage(Username, c.username), TextMessage(Location, c.location),
      TextMessage(Bio, c.bio), TextMessage(Website, c.website),
      CountMessage(FollowingCount, c.followingCount, flags.following),
      CountMessage(LikeCount, c.likeCount, flags.like), CountMessage(TweetCount, c.tweetCount, flags.tweet),
      PhotoMessage(ProfileImage, c.profileImageUrl), PhotoMessage(ProfileBanner, c.profileBannerUrl),
      OptionMessage(PinnedTweet, c.pinnedTweet), OptionMessage(HighlightedTweet, c.highlightedTweetCount)]
  {
    var text := [] + [TextMessage(Name, c.name)] + [TextMessage(Username, c.username)] + [TextMessage(Location, c.location)]
      + [TextMessage(Bio, c.bio)] + [TextMessage(Website, c.website)];
    assert text == [TextMessage(Name, c.name), TextMessage(Username, c.username), TextMessage(Location, c.location),
      TextMessage(Bio, c.bio), TextMessage(Website, c.website)];
    var counts := text + [CountMessage(FollowingCount, c.followingCount, flags.following)]
      + [CountMessage(LikeCount, c.likeCount, flags.like)] + [CountMessage(TweetCount, c.tweetCount, flags.tweet)];
    assert counts == text + [CountMessage(FollowingCount, c.followingCount, flags.following),
      CountMessage(LikeCount, c.likeCount, flags.like), CountMessage(TweetCount, c.tweetCount, flags.tweet)];
    var media := [PhotoMessage(ProfileImage, c.profileImageUrl), PhotoMessage(ProfileBanner, c.profileBannerUrl),
      OptionMessage(PinnedTweet, c.pinnedTweet), OptionMessage(HighlightedTweet, c.highlightedTweetCount)];
    assert Pieces(c, flags) == counts + media;
  }

  /** Concatenation from the left, the order in which `send_message` appends. */
  function Flatten(ps: seq<seq<Message>>): seq<Message>
  {
    if ps == [] then [] else Flatten(ps[..|ps| - 1]) + ps[|ps| - 1]
  }

  /** The messages of one tick, in the order the source sends them. */
  function Messages(c: Changes, flags: Flags): seq<Message>
  {
    Flatten(Pieces(c, flags))
  }

  // ---------------------------------------------------------------------
  // Sub-monitor staleness

  /** The entries of `SUB_MONITOR_LIST`. */
  datatype SubKind = Following | Like | Tweet

  const SubMonitorList: seq<SubKind> := [Following, Like, Tweet]

  /** A `sub_monitor_up_to_date` table with an entry for every kind. */
  predicate Complete(u: map<SubKind, bool>)
  {
    forall k: SubKind :: k in u
  }

  /** The table of a fresh monitor: every sub-monitor up to date. */
  const InitialUpToDate: map<SubKind, bool> := map[Following := true, Like := true, Tweet := true]

  lemma InitialUpToDateComplete()
    ensures Complete(InitialUpToDate) && forall k: SubKind :: InitialUpToDate[k]
  {
    forall k: SubKind
      ensures k in InitialUpToDate && InitialUpToDate[k]
    {
      match k
      case Following =>
      case Like =>
      case Tweet =>
    }
  }

  /** A reported following-count change (either way) marks Following stale; like and tweet counts only when they grow. */
  function MarkStale(u: map<SubKind, bool>, c: Changes): (r: map<SubKind, bool>)
    ensures Complete(u) ==> Complete(r)
  {
    MarkStaleCounts(u, c.followingCount, c.likeCount, c.tweetCount)
  }

  function MarkStaleCounts(u: map<SubKind, bool>, following: Option<Change<int>>, like: Option<Change<int>>,
                           tweet: Option<Change<int>>): map<SubKind, bool>
  {
    MarkIfGrown(MarkIfGrown(MarkIfChanged(u, Following, following), Like, like), Tweet, tweet)
  }

  function MarkIfChanged(u: map<SubKind, bool>, k: SubKind, c: Option<Change<int>>): map<SubKind, bool>
  {
    if c.Some? then u[k := false] else u
  }

  function MarkIfGrown(u: map<SubKind, bool>, k: SubKind, c: Option<Change<int>>): map<SubKind, bool>
  {
    if c.Some? && c.value.newValue > c.value.oldValue then u[k := false] else u
  }

  /** Outcome of `detect_change_and_update`. */
  datatype Detection = Detection(buffers: Buffers, upToDate: map<SubKind, bool>, messages: seq<Message>)

  /** `detect_change_and_update` on values. */
  function Detect(b: Buffers, flags: Flags, u: map<SubKind, bool>, p: Profile): Detection
  {
    var (b', c) := PushProfile(b, p);
    Detection(b', MarkStale(u, c), Messages(c, flags))
  }

  // ---------------------------------------------------------------------
  // Properties of one tick

  /** The field of rank k. */
  function FieldAt(k: nat): (f: Field)
    requires k < 12
    ensures Rank(f) == k
  {
    [Name, Username, Location, Bio, Website, FollowingCount, LikeCount, TweetCount,
     ProfileImage, ProfileBanner, PinnedTweet, HighlightedTweet][k]
  }

  /** The candidate message of field `f`. */
  function Piece(c: Changes, flags: Flags, f: Field): seq<Message>
  {
    match f
    case Name => TextMessage(Name, c.name)
    case Username => TextMessage(Username, c.username)
    case Location => TextMessage(Location, c.location)
    case Bio => TextMessage(Bio, c.bio)
    case Website => TextMessage(Website, c.website)
    case FollowingCount => CountMessage(FollowingCount, c.followingCount, flags.following)
    case LikeCount => CountMessage(LikeCount, c.likeCount, flags.like)
    case TweetCount => CountMessage(TweetCount, c.tweetCount, flags.tweet)
    case ProfileImage => PhotoMessage(ProfileImage, c.profileImageUrl)
    case ProfileBanner => PhotoMessage(ProfileBanner, c.profileBannerUrl)
    case PinnedTweet => OptionMessage(PinnedTweet, c.pinnedTweet)
    case HighlightedTweet => OptionMessage(HighlightedTweet, c.highlightedTweetCount)
  }

  /** The piece of rank `Rank(f)` is the candidate message of `f`: at most one message, about `f`. */
  lemma PieceShape(c: Changes, flags: Flags, f: Field)
    ensures Rank(f) < 12 && Pieces(c, flags)[Rank(f)] == Piece(c, flags, f)
    ensures |Pieces(c, flags)[Rank(f)]| <= 1
    ensures forall i :: 0 <= i < |Pieces(c, flags)[Rank(f)]| ==> Pieces(c, flags)[Rank(f)][i].field == f
  {
    PiecesLiteral(c, flags);
    var ps := Pieces(c, flags);
    match f
    case Name => assert ps[0] == TextMessage(Name, c.name);
    case Username => assert ps[1] == TextMessage(Username, c.username);
    case Location => assert ps[2] == TextMessage(Location, c.location);
    case Bio => assert ps[3] == TextMessage(Bio, c.bio);
    case Website => assert ps[4] == TextMessage(Website, c.website);
    case FollowingCount => assert ps[5] == CountMessage(FollowingCount, c.followingCount, flags.following);
    case LikeCount => assert ps[6] == CountMessage(LikeCount, c.likeCount, flags.like);
    case TweetCount => assert ps[7] == CountMessage(TweetCount, c.tweetCount, flags.tweet);
    case ProfileImage => assert ps[8] == PhotoMessage(ProfileImage, c.profileImageUrl);
    case ProfileBanner => assert ps[9] == PhotoMessage(ProfileBanner, c.profileBannerUrl);
    case PinnedTweet => assert ps[10] == OptionMessage(PinnedTweet, c.pinnedTweet);
    case HighlightedTweet => assert ps[11] == OptionMessage(HighlightedTweet, c.highlightedTweetCount);
  }

  /** With reports consistent with the buffers, the piece of `f` is non-empty exactly when `f` changed and is monitored, and says what changed. */
  lemma PieceContent(b: Buffers, b': Buffers, c: Changes, flags: Flags, f: Field)
    requires Consistent(b, b', c)
    ensures |Pieces(c, flags)[Rank(f)]| > 0 <==> Changed(f, b, b') && Monitored(f, flags)
    ensures forall i :: 0 <= i < |Pieces(c, flags)[Rank(f)]| ==> Describes(Pieces(c, flags)[Rank(f)][i], b, b')
  {
    PieceShape(c, flags, f);
    CandidateContent(b, b', c, flags, f);
  }

  lemma CandidateContent(b: Buffers, b': Buffers, c: Changes, flags: Flags, f: Field)
    requires Consistent(b, b', c)
    ensures |Piece(c, flags, f)| > 0 <==> Changed(f, b, b') && Monitored(f, flags)
    ensures forall i :: 0 <= i < |Piece(c, flags, f)| ==> Describes(Piece(c, flags, f)[i], b, b')
  {
  }

  /** Field ranks strictly increase along the sequence. */
  ghost predicate Ordered(ms: seq<Message>)
  {
    forall i, j :: 0 <= i < j < |ms| ==> Rank(ms[i].field) < Rank(ms[j].field)
  }

  /** Piece k holds at most one message, and only about the field of rank k. */
  ghost predicate RankedPieces(ps: seq<seq<Message>>)
  {
    forall k :: 0 <= k < |ps| ==> |ps[k]| <= 1 && forall i :: 0 <= i < |ps[k]| ==> Rank(ps[k][i].field) == k
  }

  lemma PiecesRanked(c: Changes, flags: Flags)
    ensures RankedPieces(Pieces(c, flags))
  {
    forall k | 0 <= k < 12
      ensures |Pieces(c, flags)[k]| <= 1
      ensures forall i :: 0 <= i < |Pieces(c, flags)[k]| ==> Rank(Pieces(c, flags)[k][i].field) == k
    {
      PieceShape(c, flags, FieldAt(k));
    }
  }

  /** The fields that have a message in `ms`. */
  function FieldsOf(ms: seq<Message>): set<Field>
  {
    set i | 0 <= i < |ms| :: ms[i].field
  }

  lemma NoFieldsNoMessages(ms: seq<Message>)
    ensures FieldsOf(ms) == {} ==> ms == []
  {
    if ms != [] {
      assert ms[0].field in FieldsOf(ms);
    }
  }

  lemma RankedInit(ps: seq<seq<Message>>)
    requires ps != [] && RankedPieces(ps)
    ensures RankedPieces(ps[..|ps| - 1])
  {
    var init := ps[..|ps| - 1];
    assert forall k :: 0 <= k < |init| ==> init[k] == ps[k];
  }

  /** Every message of `Flatten(ps)` comes from the piece of its rank. */
  lemma {:induction false} FlattenMembers(ps: seq<seq<Message>>)
    requires RankedPieces(ps)
    ensures forall i :: 0 <= i < |Flatten(ps)| ==> Rank(Flatten(ps)[i].field) < |ps| && Flatten(ps)[i] in ps[Rank(Flatten(ps)[i].field)]
  {
    if ps != [] {
      var init, last := ps[..|ps| - 1], ps[|ps| - 1];
      RankedInit(ps);
      FlattenMembers(init);
      var s := Flatten(init) + last;
      forall i | 0 <= i < |s|
        ensures Rank(s[i].field) < |ps| && s[i] in ps[Rank(s[i].field)]
      {
        if i < |Flatten(init)| {
          assert s[i] == Flatten(init)[i];
          assert init[Rank(s[i].field)] == ps[Rank(s[i].field)];
        } else {
          assert s[i] == last[i - |Flatten(init)|];
        }
      }
    }
  }

  lemma {:induction false} FlattenOrdered(ps: seq<seq<Message>>)
    requires RankedPieces(ps)
    ensures Ordered(Flatten(ps))
  {
    if ps != [] {
      var init, last := ps[..|ps| - 1], ps[|ps| - 1];
      RankedInit(ps);
      FlattenOrdered(init);
      FlattenMembers(init);
      var s := Flatten(init) + last;
      assert forall i :: 0 <= i < |Flatten(init)| ==> s[i] == Flatten(init)[i];
      assert forall i :: |Flatten(init)| <= i < |s| ==> s[i] == last[i - |Flatten(init)|];
    }
  }

  lemma {:induction false} FlattenFields(ps: seq<seq<Message>>)
    requires RankedPieces(ps)
    ensures forall f: Field :: f in FieldsOf(Flatten(ps)) <==> Rank(f) < |ps| && |ps[Rank(f)]| > 0
  {
    if ps != [] {
      var init, last := ps[..|ps| - 1], ps[|ps| - 1];
      RankedInit(ps);
      FlattenFields(init);
      var s := Flatten(init) + last;
      assert FieldsOf(s) == FieldsOf(Flatten(init)) + FieldsOf(last) by {
        assert forall i :: 0 <= i < |Flatten(init)| ==> s[i] == Flatten(init)[i];
        assert forall i :: 0 <= i < |last| ==> s[|Flatten(init)| + i] == last[i];
      }
      forall f: Field
        ensures f in FieldsOf(s) <==> Rank(f) < |ps| && |ps[Rank(f)]| > 0
      {
        if Rank(f) < |init| {
          assert ps[Rank(f)] == init[Rank(f)];
        }
        if |last| > 0 && Rank(f) == |ps| - 1 {
          assert last[0].field == f by {
            assert Rank(last[0].field) == |ps| - 1;
          }
        }
      }
    }
  }

  /** Messages of one tick come in the fixed field order, so there is at most one per field. */
  lemma MessagesOrdered(c: Changes, flags: Flags)
    ensures Ordered(Messages(c, flags))
  {
    PiecesRanked(c, flags);
    FlattenOrdered(Pieces(c, flags));
  }

  /** With consistent reports, a tick sends a message about exactly the changed, monitored fields, and each says what changed. */
  lemma MessagesComplete(b: Buffers, b': Buffers, c: Changes, flags: Flags)
    requires Consistent(b, b', c)
    ensures forall f: Field :: f in FieldsOf(Messages(c, flags)) <==> Changed(f, b, b') && Monitored(f, flags)
    ensures forall i :: 0 <= i < |Messages(c, flags)| ==> Describes(Messages(c, flags)[i], b, b')
  {
    var ps := Pieces(c, flags);
    PiecesRanked(c, flags);
    FlattenFields(ps);
    FlattenMembers(ps);
    forall f: Field
      ensures f in FieldsOf(Messages(c, flags)) <==> Changed(f, b, b') && Monitored(f, flags)
    {
      PieceShape(c, flags, f);
      PieceContent(b, b', c, flags, f);
    }
    forall i | 0 <= i < |Messages(c, flags)|
      ensures Describes(Messages(c, flags)[i], b, b')
    {
      var m := Messages(c, flags)[i];
      PieceContent(b, b', c, flags, m.field);
    }
  }

  /**
   * One tick of `detect_change_and_update`: messages come in field order, one
   * for exactly each field whose stored element changed (counters only when
   * monitored), each naming the old and the new element.
   */
  lemma DetectAnnouncesChanges(b: Buffers, flags: Flags, u: map<SubKind, bool>, p: Profile)
    ensures Ordered(Detect(b, flags, u, p).messages)
    ensures forall f: Field :: f in FieldsOf(Detect(b, flags, u, p).messages) <==>
      Changed(f, b, Detect(b, flags, u, p).buffers) && Monitored(f, flags)
    ensures forall i :: 0 <= i < |Detect(b, flags, u, p).messages| ==>
      Describes(Detect(b, flags, u, p).messages[i], b, Detect(b, flags, u, p).buffers)
  {
    var (b', c) := PushProfile(b, p);
    PushProfileConsistent(b, p);
    MessagesOrdered(c, flags);
    MessagesComplete(b, b', c, flags);
  }

  /**
   * Staleness: Following goes stale when the following count's element
   * changes either way, Like and Tweet only when theirs grows; the monitoring
   * options do not matter and no flag is ever set back to true here.
   */
  lemma DetectMarksStale(b: Buffers, flags: Flags, u: map<SubKind, bool>, p: Profile)
    requires Complete(u)
    ensures var d := Detect(b, flags, u, p);
      && d.upToDate.Keys == u.Keys
      && d.upToDate[Following] == (u[Following] && d.buffers.followingCount.element == b.followingCount.element)
      && d.upToDate[Like] == (u[Like] && d.buffers.likeCount.element <= b.likeCount.element)
      && d.upToDate[Tweet] == (u[Tweet] && d.buffers.tweetCount.element <= b.tweetCount.element)
  {
    var (b', c) := PushProfile(b, p);
    PushProfileConsistent(b, p);
    assert Detect(b, flags, u, p) == Detection(b', MarkStale(u, c), Messages(c, flags));
    MarkStaleCountsSpec(u, c.followingCount, c.likeCount, c.tweetCount);
  }

  /** What the three counter reports do to a complete table. */
  lemma MarkStaleCountsSpec(u: map<SubKind, bool>, following: Option<Change<int>>, like: Option<Change<int>>,
                            tweet: Option<Change<int>>)
    requires Complete(u)
    ensures var r := MarkStaleCounts(u, following, like, tweet);
      && r.Keys == u.Keys
      && r[Following] == (u[Following] && following.None?)
      && r[Like] == (u[Like] && !(like.Some? && like.value.newValue > like.value.oldValue))
      && r[Tweet] == (u[Tweet] && !(tweet.Some? && tweet.value.newValue > tweet.value.oldValue))
  {
    var u1 := MarkIfChanged(u, Following, following);
    var u2 := MarkIfGrown(u1, Like, like);
    assert u1.Keys == u.Keys && u1[Like] == u[Like] && u1[Tweet] == u[Tweet];
    assert u2.Keys == u.Keys && u2[Following] == u1[Following] && u2[Tweet] == u[Tweet];
  }

  /** The followers count is tracked but never announced and never marks anything stale. */
  lemma DetectIgnoresFollowersCount(b: Buffers, flags: Flags, u: map<SubKind, bool>, p: Profile, n: int)
    ensures Detect(b, flags, u, p.(followersCount := n)).messages == Detect(b, flags, u, p).messages
    ensures Detect(b, flags, u, p.(followersCount := n)).upToDate == Detect(b, flags, u, p).upToDate
    ensures Detect(b, flags, u, p.(followersCount := n)).buffers.followersCount == PushStep(b.followersCount, n).0
    ensures Detect(b, flags, u, p.(followersCount := n)).buffers ==
      Detect(b, flags, u, p).buffers.(followersCount := PushStep(b.followersCount, n).0)
  {
  }

  /** The snapshot a set of buffers currently stores. */
  function Stored(b: Buffers): Profile
  {
    Profile(b.name.element, b.username.element, b.location.element, b.bio.element, b.website.element,
            b.followersCount.element, b.followingCount.element, b.likeCount.element, b.tweetCount.element,
            b.profileImageUrl.element, b.profileBannerUrl.element, b.pinnedTweet.element, b.highlightedTweetCount.element)
  }

  /** Observing the stored profile again sends nothing, marks nothing stale and keeps every element. */
  lemma UnchangedProfileIsQuiet(b: Buffers, flags: Flags, u: map<SubKind, bool>)
    ensures Detect(b, flags, u, Stored(b)).messages == []
    ensures Detect(b, flags, u, Stored(b)).upToDate == u
    ensures Stored(Detect(b, flags, u, Stored(b)).buffers) == Stored(b)
  {
    DetectAnnouncesChanges(b, flags, u, Stored(b));
    NoFieldsNoMessages(Detect(b, flags, u, Stored(b)).messages);
  }

  // ---------------------------------------------------------------------
  // watch_sub_monitor, as values

  /** What `watch_sub_monitor` did to one registered sub-monitor. */
  datatype SubAction = Called(kind: SubKind) | Refreshed(kind: SubKind)

  /**
   * One sub-monitor: absent ones are skipped; a stale one is run out of
   * schedule and its answer becomes the new up-to-date flag; an up-to-date
   * one only has its last watch time refreshed.
   */
  function Visit(u: map<SubKind, bool>, k: SubKind, present: SubKind -> bool, answer: SubKind -> bool): (map<SubKind, bool>, seq<SubAction>)
    requires k in u
  {
    if !present(k) then (u, [])
    else if !u[k] then (u[k := answer(k)], [Called(k)])
    else (u, [Refreshed(k)])
  }

  /** Visits the kinds of `ks` in order. */
  function VisitAll(u: map<SubKind, bool>, ks: seq<SubKind>, present: SubKind -> bool, answer: SubKind -> bool): (map<SubKind, bool>, seq<SubAction>)
    requires Complete(u)
    ensures VisitAll(u, ks, present, answer).0.Keys == u.Keys
  {
    if ks == [] then (u, [])
    else
      var (u1, a1) := VisitAll(u, ks[..|ks| - 1], present, answer);
      var (u2, a2) := Visit(u1, ks[|ks| - 1], present, answer);
      (u2, a1 + a2)
  }

  /** One pass of `watch_sub_monitor` over `SUB_MONITOR_LIST`. */
  function SubMonitorRound(u: map<SubKind, bool>, present: SubKind -> bool, answer: SubKind -> bool): (map<SubKind, bool>, seq<SubAction>)
    requires Complete(u)
  {
    VisitAll(u, SubMonitorList, present, answer)
  }

  /**
   * Every registered sub-monitor is visited once, in list order: exactly
   * the stale ones are run (and take the run's answer as their new flag),
   * exactly the up-to-date ones are refreshed, and absent ones are untouched.
   */
  lemma SubMonitorRoundSpec(u: map<SubKind, bool>, present: SubKind -> bool, answer: SubKind -> bool)
    requires Complete(u)
    ensures var (u', acts) := SubMonitorRound(u, present, answer);
      && u'.Keys == u.Keys
      && (forall k: SubKind :: u'[k] == if present(k) && !u[k] then answer(k) else u[k])
      && (forall k: SubKind :: Called(k) in acts <==> present(k) && !u[k])
      && (forall k: SubKind :: Refreshed(k) in acts <==> present(k) && u[k])
  {
    RoundUnfold(u, present, answer);
    var (u1, a1) := Visit(u, Following, present, answer);
    VisitSpec(u, Following, present, answer);
    var (u2, a2) := Visit(u1, Like, present, answer);
    VisitSpec(u1, Like, present, answer);
    var (u3, a3) := Visit(u2, Tweet, present, answer);
    VisitSpec(u2, Tweet, present, answer);
    assert a1 == Actions(u, Following, present) && a2 == Actions(u, Like, present) && a3 == Actions(u, Tweet, present);
    forall k: SubKind
      ensures u3[k] == if present(k) && !u[k] then answer(k) else u[k]
    {
      if k == Following {
        assert u3[k] == u2[k] == u1[k];
      } else if k == Like {
        assert u3[k] == u2[k] && u1[k] == u[k];
      } else {
        assert u2[k] == u1[k] == u[k];
      }
    }
    forall k: SubKind
      ensures Called(k) in (([] + a1) + a2) + a3 <==> present(k) && !u[k]
      ensures Refreshed(k) in (([] + a1) + a2) + a3 <==> present(k) && u[k]
    {
      ActionsAbout(u, Following, k, present);
      ActionsAbout(u, Like, k, present);
      ActionsAbout(u, Tweet, k, present);
    }
  }

  /** A round over the three-entry list is three visits, Following, Like, then Tweet. */
  lemma RoundUnfold(u: map<SubKind, bool>, present: SubKind -> bool, answer: SubKind -> bool)
    requires Complete(u)
    ensures var (u1, a1) := Visit(u, Following, present, answer);
      var (u2, a2) := Visit(u1, Like, present, answer);
      var (u3, a3) := Visit(u2, Tweet, present, answer);
      SubMonitorRound(u, present, answer) == (u3, (([] + a1) + a2) + a3)
  {
    var l := SubMonitorList;
    assert l[..0] == [] && l[..1][..0] == [] && l[..2][..1] == l[..1] && l[..3][..2] == l[..2] && l[..3] == l;
    var (u1, a1) := Visit(u, Following, present, answer);
    assert VisitAll(u, l[..1], present, answer) == (u1, [] + a1);
    var (u2, a2) := Visit(u1, Like, present, answer);
    assert VisitAll(u, l[..2], present, answer) == (u2, ([] + a1) + a2);
  }

  /** The actions recorded by the visit of kind `k`. */
  function Actions(u: map<SubKind, bool>, k: SubKind, present: SubKind -> bool): seq<SubAction>
    requires k in u
  {
    if !present(k) then [] else if !u[k] then [Called(k)] else [Refreshed(k)]
  }

  lemma ActionsAbout(u: map<SubKind, bool>, j: SubKind, k: SubKind, present: SubKind -> bool)
    requires j in u
    ensures Called(k) in Actions(u, j, present) <==> j == k && present(k) && !u[k]
    ensures Refreshed(k) in Actions(u, j, present) <==> j == k && present(k) && u[k]
  {
  }

  /** One visit touches only the flag of its own kind. */
  lemma VisitSpec(u: map<SubKind, bool>, k: SubKind, present: SubKind -> bool, answer: SubKind -> bool)
    requires k in u
    ensures var (u', a) := Visit(u, k, present, answer);
      && u'.Keys == u.Keys
      && (forall j :: j in u && j != k ==> u'[j] == u[j])
      && u'[k] == (if present(k) && !u[k] then answer(k) else u[k])
      && a == Actions(u, k, present)
  {
  }

  /** A following count that changes in a tick makes the Following monitor, if registered, run in the same tick. */
  lemma FollowingChangeRunsFollowingMonitor(b: Buffers, flags: Flags, u: map<SubKind, bool>, p: Profile,
                                               present: SubKind -> bool, answer: SubKind -> bool)
    requires Complete(u) && present(Following)
    requires Changed(FollowingCount, b, Detect(b, flags, u, p).buffers)
    ensures Complete(Detect(b, flags, u, p).upToDate)
    ensures Called(Following) in SubMonitorRound(Detect(b, flags, u, p).upToDate, present, answer).1
  {
    DetectMarksStale(b, flags, u, p);
    SubMonitorRoundSpec(Detect(b, flags, u, p).upToDate, present, answer);
  }

  // ---------------------------------------------------------------------
  // The stateful objects

  /** An ElementBuffer object. */
  class ElementBuffer<T(==)> {
    var element: T
    const changeThreshold: nat
    var changeCount: nat

    function State(): BufferState<T>
      reads this
    {
      BufferState(element, changeThreshold, changeCount)
    }

    constructor(element: T, changeThreshold: nat)
      ensures this.element == element && this.changeThreshold == changeThreshold && changeCount == 0
    {
      this.element := element;
      this.changeThreshold := changeThreshold;
      this.changeCount := 0;
    }

    /** `push`: the new state and the result are those of `PushStep`. */
    method Push(e: T) returns (result: Option<Change<T>>)
      modifies this
      ensures State() == PushStep(old(State()), e).0 && result == PushStep(old(State()), e).1
    {
      if e == element {
        changeCount := 0;
        return None;
      }
      changeCount := changeCount + 1;
      if changeCount >= changeThreshold {
        result := Some(Change(element, e));
        element := e;
        changeCount := 0;
        return result;
      }
      return None;
    }
  }

  /** A ProfileMonitor: 13 buffers, the monitoring options, the sub-monitor table and what it has sent. */
  class ProfileMonitor {
    const name: ElementBuffer<string>
    const username: ElementBuffer<string>
    const location: ElementBuffer<string>
    const bio: ElementBuffer<string>
    const website: ElementBuffer<string>
    const followersCount: ElementBuffer<int>
    const followingCount: ElementBuffer<int>
    const likeCount: ElementBuffer<int>
    const tweetCount: ElementBuffer<int>
    const profileImageUrl: ElementBuffer<string>
    const profileBannerUrl: ElementBuffer<string>
    const pinnedTweet: ElementBuffer<Option<string>>
    const highlightedTweetCount: ElementBuffer<Option<string>>
    const flags: Flags
    var subMonitorUpToDate: map<SubKind, bool>
    var outbox: seq<Message>
    var lastWatchTime: int

    /** The buffers are 13 distinct objects and every sub-monitor kind has a flag. */
    ghost predicate Valid()
      reads this
    {
      && name != username && name != location && name != bio && name != website
      && name != profileImageUrl && name != profileBannerUrl
      && username != location && username != bio && username != website
      && username != profileImageUrl && username != profileBannerUrl
      && location != bio && location != website && location != profileImageUrl && location != profileBannerUrl
      && bio != website && bio != profileImageUrl && bio != profileBannerUrl
      && website != profileImageUrl && website != profileBannerUrl
      && profileImageUrl != profileBannerUrl
      && followersCount != followingCount && followersCount != likeCount && followersCount != tweetCount
      && followingCount != likeCount && followingCount != tweetCount && likeCount != tweetCount
      && pinnedTweet != highlightedTweetCount
      && Complete(subMonitorUpToDate)
    }

    function States(): Buffers
      reads this, name, username, location, bio, website, followersCount, followingCount, likeCount, tweetCount,
            profileImageUrl, profileBannerUrl, pinnedTweet, highlightedTweetCount
    {
      Buffers(name.State(), username.State(), location.State(), bio.State(), website.State(),
              followersCount.State(), followingCount.State(), likeCount.State(), tweetCount.State(),
              profileImageUrl.State(), profileBannerUrl.State(), pinnedTweet.State(), highlightedTweetCount.State())
    }

    /** The states of the name, username, location, bio and website buffers. */
    function TextStates(): TextBuffers
      reads name, username, location, bio, website
    {
      (name.State(), username.State(), location.State(), bio.State(), website.State())
    }

    /** The states of the four counter buffers. */
    function CounterStates(): CounterBuffers
      reads followersCount, followingCount, likeCount, tweetCount
    {
      (followersCount.State(), followingCount.State(), likeCount.State(), tweetCount.State())
    }

    /** The states of the image, banner, pinned and highlighted tweet buffers. */
    function MediaStates(): MediaBuffers
      reads profileImageUrl, profileBannerUrl, pinnedTweet, highlightedTweetCount
    {
      (profileImageUrl.State(), profileBannerUrl.State(), pinnedTweet.State(), highlightedTweetCount.State())
    }

    /** Built from the first successful snapshot. */
    constructor(p: Profile, flags: Flags)
      ensures Valid()
      ensures fresh(name) && fresh(username) && fresh(location) && fresh(bio) && fresh(website)
      ensures fresh(followersCount) && fresh(followingCount) && fresh(likeCount) && fresh(tweetCount)
      ensures fresh(profileImageUrl) && fresh(profileBannerUrl) && fresh(pinnedTweet) && fresh(highlightedTweetCount)
      ensures States() == InitialBuffers(p) && this.flags == flags
      ensures subMonitorUpToDate == InitialUpToDate && outbox == []
    {
      var n, un, lo, bi, we := NewTextBuffers(p);
      var fo, fi, li, tw := NewCounterBuffers(p);
      var im, ba, pi, hi := NewMediaBuffers(p);
      name, username, location, bio, website := n, un, lo, bi, we;
      followersCount, followingCount, likeCount, tweetCount := fo, fi, li, tw;
      profileImageUrl, profileBannerUrl, pinnedTweet, highlightedTweetCount := im, ba, pi, hi;
      this.flags := flags;
      subMonitorUpToDate := InitialUpToDate;
      InitialUpToDateComplete();
      outbox := [];
      lastWatchTime := 0;
    }

    /** Five new, distinct buffers for the text fields of `p`. */
    static method NewTextBuffers(p: Profile)
      returns (n: ElementBuffer<string>, un: ElementBuffer<string>, lo: ElementBuffer<string>,
               bi: ElementBuffer<string>, we: ElementBuffer<string>)
      ensures fresh(n) && fresh(un) && fresh(lo) && fresh(bi) && fresh(we)
      ensures n != un && n != lo && n != bi && n != we && un != lo && un != bi && un != we && lo != bi && lo != we && bi != we
      ensures (n.State(), un.State(), lo.State(), bi.State(), we.State()) == TextOf(InitialBuffers(p))
    {
      n := new ElementBuffer(p.name, DefaultThreshold);
      un := new ElementBuffer(p.username, DefaultThreshold);
      lo := new ElementBuffer(p.location, DefaultThreshold);
      bi := new ElementBuffer(p.bio, DefaultThreshold);
      we := new ElementBuffer(p.website, DefaultThreshold);
    }

    /** Four new, distinct buffers for the counters of `p`; the tweet count's threshold is 1. */
    static method NewCounterBuffers(p: Profile)
      returns (fo: ElementBuffer<int>, fi: ElementBuffer<int>, li: ElementBuffer<int>, tw: ElementBuffer<int>)
      ensures fresh(fo) && fresh(fi) && fresh(li) && fresh(tw)
      ensures fo != fi && fo != li && fo != tw && fi != li && fi != tw && li != tw
      ensures (fo.State(), fi.State(), li.State(), tw.State()) == CountersOf(InitialBuffers(p))
    {
      fo := new ElementBuffer(p.followersCount, DefaultThreshold);
      fi := new ElementBuffer(p.followingCount, DefaultThreshold);
      li := new ElementBuffer(p.likeCount, DefaultThreshold);
      tw := new ElementBuffer(p.tweetCount, TweetCountThreshold);
    }

    /** Four new, distinct buffers for the media fields of `p`. */
    static method NewMediaBuffers(p: Profile)
      returns (im: ElementBuffer<string>, ba: ElementBuffer<string>, pi: ElementBuffer<Option<string>>,
               hi: ElementBuffer<Option<string>>)
      ensures fresh(im) && fresh(ba) && fresh(pi) && fresh(hi)
      ensures im != ba && pi != hi
      ensures (im.State(), ba.State(), pi.State(), hi.State()) == MediaOf(InitialBuffers(p))
    {
      im := new ElementBuffer(p.profileImageUrl, DefaultThreshold);
      ba := new ElementBuffer(p.profileBannerUrl, DefaultThreshold);
      pi := new ElementBuffer(p.pinnedTweet, DefaultThreshold);
      hi := new ElementBuffer(p.highlightedTweetCount, DefaultThreshold);
    }

    /** `detect_change_and_update`: the buffers, the table and the outbox move as `Detect` says. */
    method DetectChangeAndUpdate(p: Profile)
      requires Valid()
      modifies name, username, location, bio, website, followersCount, followingCount, likeCount, tweetCount
      modifies profileImageUrl, profileBannerUrl, pinnedTweet, highlightedTweetCount, this`subMonitorUpToDate, this`outbox
      ensures Valid()
      ensures var d := Detect(old(States()), flags, old(subMonitorUpToDate), p);
        States() == d.buffers && subMonitorUpToDate == d.upToDate && outbox == old(outbox) + d.messages
    {
      ghost var b := States();
      ghost var base := outbox;
      assert TextStates() == TextOf(b) && CounterStates() == CountersOf(b) && MediaStates() == MediaOf(b);
      var cName, cUsername, cLocation, cBio, cWebsite, sent := DetectTextChanges(p, b, base, []);
      var cFollowing, cLike, cTweet, sent' := DetectCounterChanges(p, b, base, sent);
      var cImage, cBanner, cPinned, cHighlighted, sent'' := DetectMediaChanges(p, b, base, sent');
      ghost var c := Changes(cName, cUsername, cLocation, cBio, cWebsite, cFollowing, cLike, cTweet,
                             cImage, cBanner, cPinned, cHighlighted);
      PushProfileSplit(b, p);
      assert States() == Assemble(TextStates(), CounterStates(), MediaStates());
      assert sent'' == Pieces(c, flags);
    }

    /** `send_message` for the pieces of one field: appends, keeping the outbox equal to `base` plus the pieces sent so far. */
    method Send(piece: seq<Message>, ghost base: seq<Message>, ghost sent: seq<seq<Message>>) returns (ghost sent': seq<seq<Message>>)
      requires outbox == base + Flatten(sent)
      modifies this`outbox
      ensures outbox == base + Flatten(sent') && sent' == sent + [piece]
    {
      outbox := outbox + piece;
      FlattenSnoc(sent, piece);
      sent' := sent + [piece];
    }

    /** The name, username, location, bio and website pushes, each followed by its message. */
    method DetectTextChanges(p: Profile, ghost b: Buffers, ghost base: seq<Message>, ghost sent: seq<seq<Message>>)
      returns (cName: Option<Change<string>>, cUsername: Option<Change<string>>, cLocation: Option<Change<string>>,
               cBio: Option<Change<string>>, cWebsite: Option<Change<string>>, ghost sent': seq<seq<Message>>)
      requires Valid() && outbox == base + Flatten(sent) && TextStates() == TextOf(b)
      modifies name, username, location, bio, website, this`outbox
      ensures TextStates() == TextPushed(b, p)
      ensures (cName, cUsername, cLocation, cBio, cWebsite) == TextReportsOf(b, p)
      ensures outbox == base + Flatten(sent')
      ensures sent' == sent + [TextMessage(Name, cName)] + [TextMessage(Username, cUsername)] + [TextMessage(Location, cLocation)]
                          + [TextMessage(Bio, cBio)] + [TextMessage(Website, cWebsite)]
    {
      cName := name.Push(p.name);
      sent' := Send(TextMessage(Name, cName), base, sent);
      cUsername := username.Push(p.username);
      sent' := Send(TextMessage(Username, cUsername), base, sent');
      cLocation := location.Push(p.location);
      sent' := Send(TextMessage(Location, cLocation), base, sent');
      cBio := bio.Push(p.bio);
      sent' := Send(TextMessage(Bio, cBio), base, sent');
      cWebsite := website.Push(p.website);
      sent' := Send(TextMessage(Website, cWebsite), base, sent');
    }

    /** The four counter pushes: the followers count silently, the others with a message when monitored and a staleness mark. */
    method DetectCounterChanges(p: Profile, ghost b: Buffers, ghost base: seq<Message>, ghost sent: seq<seq<Message>>)
      returns (cFollowing: Option<Change<int>>, cLike: Option<Change<int>>, cTweet: Option<Change<int>>,
               ghost sent': seq<seq<Message>>)
      requires Valid() && outbox == base + Flatten(sent) && CounterStates() == CountersOf(b)
      modifies followersCount, followingCount, likeCount, tweetCount, this`outbox, this`subMonitorUpToDate
      ensures Valid()
      ensures CounterStates() == CountersPushed(b, p)
      ensures (cFollowing, cLike, cTweet) == CounterReportsOf(b, p)
      ensures subMonitorUpToDate == MarkStaleCounts(old(subMonitorUpToDate), cFollowing, cLike, cTweet)
      ensures outbox == base + Flatten(sent')
      ensures sent' == sent + [CountMessage(FollowingCount, cFollowing, flags.following)]
                          + [CountMessage(LikeCount, cLike, flags.like)] + [CountMessage(TweetCount, cTweet, flags.tweet)]
    {
      var _ := followersCount.Push(p.followersCount);
      cFollowing := followingCount.Push(p.followingCount);
      sent' := Send(CountMessage(FollowingCount, cFollowing, flags.following), base, sent);
      MarkStaleIf(Following, cFollowing, false);
      cLike := likeCount.Push(p.likeCount);
      sent' := Send(CountMessage(LikeCount, cLike, flags.like), base, sent');
      MarkStaleIf(Like, cLike, true);
      cTweet := tweetCount.Push(p.tweetCount);
      sent' := Send(CountMessage(TweetCount, cTweet, flags.tweet), base, sent');
      MarkStaleIf(Tweet, cTweet, true);
    }

    /** `watch_sub_monitor`: one pass over `SUB_MONITOR_LIST`, as `SubMonitorRound` says. */
    method WatchSubMonitor(present: SubKind -> bool, answer: SubKind -> bool) returns (actions: seq<SubAction>)
      requires Valid()
      modifies this`subMonitorUpToDate
      ensures Valid()
      ensures subMonitorUpToDate == SubMonitorRound(old(subMonitorUpToDate), present, answer).0
      ensures actions == SubMonitorRound(old(subMonitorUpToDate), present, answer).1
    {
      actions := [];
      for i := 0 to |SubMonitorList|
        invariant Valid()
        invariant subMonitorUpToDate == VisitAll(old(subMonitorUpToDate), SubMonitorList[..i], present, answer).0
        invariant actions == VisitAll(old(subMonitorUpToDate), SubMonitorList[..i], present, answer).1
      {
        var k := SubMonitorList[i];
        assert SubMonitorList[..i + 1][..i] == SubMonitorList[..i];
        if present(k) {
          if !subMonitorUpToDate[k] {
            subMonitorUpToDate := subMonitorUpToDate[k := answer(k)];
            actions := actions + [Called(k)];
          } else {
            actions := actions + [Refreshed(k)];
          }
        }
      }
      assert SubMonitorList[..|SubMonitorList|] == SubMonitorList;
    }

    /**
     * `watch`: a failed lookup changes nothing and returns false; otherwise
     * one `detect_change_and_update`, one `watch_sub_monitor` pass and the
     * watch time set to `now`.
     */
    method Watch(user: Option<Profile>, present: SubKind -> bool, answer: SubKind -> bool, now: int)
      returns (ok: bool, actions: seq<SubAction>)
      requires Valid()
      modifies name, username, location, bio, website, followersCount, followingCount, likeCount, tweetCount
      modifies profileImageUrl, profileBannerUrl, pinnedTweet, highlightedTweetCount
      modifies this`subMonitorUpToDate, this`outbox, this`lastWatchTime
      ensures Valid()
      ensures ok == user.Some?
      ensures user.None? ==>
        && States() == old(States()) && subMonitorUpToDate == old(subMonitorUpToDate)
        && outbox == old(outbox) && lastWatchTime == old(lastWatchTime) && actions == []
      ensures user.Some? ==>
        var d := Detect(old(States()), flags, old(subMonitorUpToDate), user.value);
        && Complete(d.upToDate)
        && States() == d.buffers && outbox == old(outbox) + d.messages
        && subMonitorUpToDate == SubMonitorRound(d.upToDate, present, answer).0
        && actions == SubMonitorRound(d.upToDate, present, answer).1
        && lastWatchTime == now
    {
      if user.None? {
        return false, [];
      }
      DetectChangeAndUpdate(user.value);
      actions := WatchSubMonitor(present, answer);
      lastWatchTime := now;
      ok := true;
    }

    /** Marks sub-monitor `k` stale after a counter change (only a growth when `grownOnly`). */
    method MarkStaleIf(k: SubKind, c: Option<Change<int>>, grownOnly: bool)
      requires Valid()
      modifies this`subMonitorUpToDate
      ensures Valid()
      ensures subMonitorUpToDate == if grownOnly then MarkIfGrown(old(subMonitorUpToDate), k, c)
                                    else MarkIfChanged(old(subMonitorUpToDate), k, c)
    {
      if c.Some? && (!grownOnly || c.value.newValue > c.value.oldValue) {
        subMonitorUpToDate := subMonitorUpToDate[k := false];
      }
    }

    /** The profile image, banner, pinned and highlighted tweet pushes, each followed by its message. */
    method DetectMediaChanges(p: Profile, ghost b: Buffers, ghost base: seq<Message>, ghost sent: seq<seq<Message>>)
      returns (cImage: Option<Change<string>>, cBanner: Option<Change<string>>, cPinned: Option<Change<Option<string>>>,
               cHighlighted: Option<Change<Option<string>>>, ghost sent': seq<seq<Message>>)
      requires Valid() && outbox == base + Flatten(sent) && MediaStates() == MediaOf(b)
      modifies profileImageUrl, profileBannerUrl, pinnedTweet, highlightedTweetCount, this`outbox
      ensures MediaStates() == MediaPushed(b, p)
      ensures (cImage, cBanner, cPinned, cHighlighted) == MediaReportsOf(b, p)
      ensures outbox == base + Flatten(sent')
      ensures sent' == sent + [PhotoMessage(ProfileImage, cImage)] + [PhotoMessage(ProfileBanner, cBanner)]
                          + [OptionMessage(PinnedTweet, cPinned)] + [OptionMessage(HighlightedTweet, cHighlighted)]
    {
      cImage := profileImageUrl.Push(p.profileImageUrl);
      sent' := Send(PhotoMessage(ProfileImage, cImage), base, sent);
      cBanner := profileBannerUrl.Push(p.profileBannerUrl);
      sent' := Send(PhotoMessage(ProfileBanner, cBanner), base, sent');
      cPinned := pinnedTweet.Push(p.pinnedTweet);
      sent' := Send(OptionMessage(PinnedTweet, cPinned), base, sent');
      cHighlighted := highlightedTweetCount.Push(p.highlightedTweetCount);
      sent' := Send(OptionMessage(HighlightedTweet, cHighlighted), base, sent');
    }
  }

  lemma FlattenSnoc(ps: seq<seq<Message>>, p: seq<Message>)
    ensures Flatten(ps + [p]) == Flatten(ps) + p
  {
    assert (ps + [p])[..|ps|] == ps;
  }
}
