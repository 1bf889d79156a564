/**
 * Model of like_monitor.py: a watcher over the latest liked posts that
 * remembers the ids it has seen (capped to the largest 1000), keeps a
 * `minLikeId` watermark, and announces, scanning the fetched list from its
 * end, the likes whose id is new and above the watermark.
 *
 * Fetches are inputs (`Option<seq<Like>>`, None for a failed query); the
 * cache file is the `cached` set given to the constructor; `send_message`
 * appends the announced like to `outbox`.
 */
module LikeMonitoring {
  import opened Wrappers

  /** One fetched like: its id and the opaque parts of the announcement. */
  datatype Like = Like(id: int, author: string, text: string)

  /** `like_id_set_max_size`. */
  const LikeIdSetMaxSize: nat := 1000

  /** More distinct ids than this in one fetch let the watermark move. */
  const WatermarkFetchSize: nat := 150

  /** `_get_like_id_set`. */
  function LikeIdSet(likes: seq<Like>): (r: set<int>)
    ensures forall x :: x in r <==> exists i :: 0 <= i < |likes| && likes[i].id == x
  {
    set i | 0 <= i < |likes| :: likes[i].id
  }

  /** A non-empty set has an element. */
  lemma NonEmptyHasElement(s: set<int>)
    requires s != {}
    ensures exists y :: y in s
  {
    if forall y :: y !in s {
      assert false;
    }
  }

  lemma {:induction false} SetMinExists(s: set<int>)
    requires s != {}
    ensures exists m :: m in s && forall x :: x in s ==> m <= x
    decreases |s|
  {
    NonEmptyHasElement(s);
    var y :| y in s;
    var r := s - {y};
    if r != {} {
      assert |r| < |s|;
      SetMinExists(r);
      var m :| m in r && forall x :: x in r ==> m <= x;
      var least := if y < m then y else m;
      forall x | x in s
        ensures least <= x
      {
        if x != y {
          assert x in r;
        }
      }
      assert least in s;
    } else {
      assert s == {y};
    }
  }

  /** Python's `min` on a non-empty set. */
  function SetMin(s: set<int>): (m: int)
    requires s != {}
    ensures m in s && forall x :: x in s ==> m <= x
  {
    SetMinExists(s);
    var m :| m in s && forall x :: x in s ==> m <= x;
    m
  }

  /**
   * `_get_max_k_set`: sort the ids and keep the slice `[-k:]`, i.e. the k
   * largest; Python's `[-0:]` is the whole list, so k = 0 keeps everything.
   */
  function MaxK(s: set<int>, k: nat): (r: set<int>)
    decreases |s|
  {
    if k == 0 || |s| <= k then s else MaxK(s - {SetMin(s)}, k)
  }

  /** The result is a subset of the size Python's slice gives, and no dropped id exceeds a kept one. */
  lemma {:induction false} MaxKSpec(s: set<int>, k: nat)
    ensures MaxK(s, k) <= s
    ensures |MaxK(s, k)| == if k == 0 || |s| <= k then |s| else k
    ensures forall x, y :: x in MaxK(s, k) && y in s - MaxK(s, k) ==> y <= x
    decreases |s|
  {
    if !(k == 0 || |s| <= k) {
      var m := SetMin(s);
      MaxKSpec(s - {m}, k);
      var r := MaxK(s - {m}, k);
      assert s - r == (s - {m} - r) + {m};
    }
  }

  /** With no more than k ids (or k = 0) nothing is dropped. */
  lemma MaxKIdentity(s: set<int>, k: nat)
    requires k == 0 || |s| <= k
    ensures MaxK(s, k) == s
  {
  }

  /** The truncated set never holds more than the cap. */
  lemma MaxKCapped(s: set<int>)
    ensures |MaxK(s, LikeIdSetMaxSize)| <= LikeIdSetMaxSize
  {
    MaxKSpec(s, LikeIdSetMaxSize);
  }

  /** Whether `watch` announces a like, given the seen set and the watermark before the fetch. */
  predicate IsNew(l: Like, existing: set<int>, minLikeId: int)
  {
    l.id !in existing && l.id > minLikeId
  }

  /** The announcements of one `watch`: the new likes of the list, taken from its end to its start. */
  function Announced(likes: seq<Like>, existing: set<int>, minLikeId: int): seq<Like>
  {
    if likes == [] then []
    else Announced(likes[1..], existing, minLikeId) + (if IsNew(likes[0], existing, minLikeId) then [likes[0]] else [])
  }

  /** Announcing a concatenation announces the second part first. */
  lemma {:induction false} AnnouncedAppend(a: seq<Like>, b: seq<Like>, existing: set<int>, minLikeId: int)
    ensures Announced(a + b, existing, minLikeId) == Announced(b, existing, minLikeId) + Announced(a, existing, minLikeId)
  {
    if a == [] {
      assert a + b == b;
    } else {
      assert (a + b)[1..] == a[1..] + b;
      AnnouncedAppend(a[1..], b, existing, minLikeId);
    }
  }

  /** Exactly the new likes of the fetch are announced. */
  lemma {:induction false} AnnouncedMembers(likes: seq<Like>, existing: set<int>, minLikeId: int)
    ensures forall l :: l in Announced(likes, existing, minLikeId) <==> l in likes && IsNew(l, existing, minLikeId)
  {
    if likes != [] {
      AnnouncedMembers(likes[1..], existing, minLikeId);
      assert likes == [likes[0]] + likes[1..];
    }
  }

  /** The newest-first list [200, 190] with both ids new is announced oldest first: 190, then 200. */
  lemma ReverseOrderExample(a: string, t: string)
    ensures Announced([Like(200, a, t), Like(190, a, t)], {}, 0) == [Like(190, a, t), Like(200, a, t)]
  {
    var likes := [Like(200, a, t), Like(190, a, t)];
    assert likes[1..] == [Like(190, a, t)] && likes[1..][1..] == [];
    assert Announced([], {}, 0) == [];
    assert Announced([Like(190, a, t)], {}, 0) == [Like(190, a, t)];
  }

  /** The watermark after a fetch with these ids. */
  function NextMinLikeId(minLikeId: int, ids: set<int>): int
  {
    if |ids| > WatermarkFetchSize then (if SetMin(ids) > minLikeId then SetMin(ids) else minLikeId) else minLikeId
  }

  /** The watermark never decreases and moves only after a fetch of more than 150 distinct ids, to at most their minimum. */
  lemma NextMinLikeIdMonotone(minLikeId: int, ids: set<int>)
    ensures NextMinLikeId(minLikeId, ids) >= minLikeId
    ensures NextMinLikeId(minLikeId, ids) != minLikeId ==>
      |ids| > WatermarkFetchSize && NextMinLikeId(minLikeId, ids) == SetMin(ids) &&
      forall x :: x in ids ==> NextMinLikeId(minLikeId, ids) <= x
  {
  }

  /** A LikeMonitor: the seen ids, the watermark and what it has announced. */
  class LikeMonitor {
    var existingLikeIdSet: set<int>
    var minLikeId: int
    var outbox: seq<Like>
    var lastWatchTime: int

    ghost predicate Valid()
      reads this
    {
      |existingLikeIdSet| <= LikeIdSetMaxSize
    }

    /**
     * Set-up from the cached id set and the first successful fetch: the
     * watermark is the smallest fetched id (0 for an empty fetch), the seen
     * set is the cache plus the fetched ids, truncated.
     */
    constructor(cached: set<int>, initial: seq<Like>)
      ensures Valid()
      ensures existingLikeIdSet == MaxK(cached + LikeIdSet(initial), LikeIdSetMaxSize)
      ensures minLikeId == if LikeIdSet(initial) == {} then 0 else SetMin(LikeIdSet(initial))
      ensures outbox == []
    {
      var ids := LikeIdSet(initial);
      existingLikeIdSet := cached + ids;
      minLikeId := if ids == {} then 0 else SetMin(ids);
      outbox := [];
      lastWatchTime := 0;
      new;
      DumpExistingLikeId();
    }

    /** The truncation part of `dump_existing_like_id`. */
    method DumpExistingLikeId()
      modifies this`existingLikeIdSet
      ensures Valid()
      ensures existingLikeIdSet == MaxK(old(existingLikeIdSet), LikeIdSetMaxSize)
    {
      MaxKCapped(existingLikeIdSet);
      existingLikeIdSet := MaxK(existingLikeIdSet, LikeIdSetMaxSize);
    }

    /** The loop of `watch` over `reversed(like_list)`: each unseen like above the watermark is sent. */
    method AnnounceNew(likes: seq<Like>)
      modifies this`outbox
      ensures outbox == old(outbox) + Announced(likes, existingLikeIdSet, minLikeId)
    {
      var i := |likes|;
      while i > 0
        invariant 0 <= i <= |likes|
        invariant outbox == old(outbox) + Announced(likes[i..], existingLikeIdSet, minLikeId)
        decreases i
      {
        i := i - 1;
        assert likes[i..][1..] == likes[i + 1..];
        if likes[i].id !in existingLikeIdSet && likes[i].id > minLikeId {
          outbox := outbox + [likes[i]];
        }
      }
    }

    /**
     * `watch`: a failed fetch changes nothing; otherwise the new likes are
     * announced from the end of the list to its start, the watermark may
     * move, and the fetched ids join the seen set before truncation.
     */
    method Watch(likeList: Option<seq<Like>>, now: int)
      requires Valid()
      modifies this
      ensures Valid()
      ensures likeList.None? ==>
        existingLikeIdSet == old(existingLikeIdSet) && minLikeId == old(minLikeId) &&
        outbox == old(outbox) && lastWatchTime == old(lastWatchTime)
      ensures likeList.Some? ==>
        && outbox == old(outbox) + Announced(likeList.value, old(existingLikeIdSet), old(minLikeId))
        && minLikeId == NextMinLikeId(old(minLikeId), LikeIdSet(likeList.value))
        && existingLikeIdSet == MaxK(old(existingLikeIdSet) + LikeIdSet(likeList.value), LikeIdSetMaxSize)
        && lastWatchTime == now
    {
      if likeList.None? {
        return;
      }
      var likes := likeList.value;
      AnnounceNew(likes);
      var ids := LikeIdSet(likes);
      if |ids| > WatermarkFetchSize {
        minLikeId := if minLikeId >= SetMin(ids) then minLikeId else SetMin(ids);
      }
      existingLikeIdSet := existingLikeIdSet + ids;
      DumpExistingLikeId();
      lastWatchTime := now;
    }
  }

  /**
   * After a watch the seen set only holds ids seen before or just fetched,
   * and never more than the cap.
   */
  lemma SeenSetBounded(existing: set<int>, ids: set<int>)
    ensures MaxK(existing + ids, LikeIdSetMaxSize) <= existing + ids
    ensures |MaxK(existing + ids, LikeIdSetMaxSize)| <= LikeIdSetMaxSize
  {
    MaxKSpec(existing + ids, LikeIdSetMaxSize);
  }
}
