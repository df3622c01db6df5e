/** The home-page achievements block: the six most recent achievements. */
module AchivHome {
  import opened Wrappers
  import opened Json
  import opened QueryBoard

  const AchievementsPath := "/moox_events/api/achievements/get-all-achievements"
  const ShownCount := 6
  const UnexpectedFormat := "Unexpected data format received"
  const FetchFailed := "Failed to fetch data"

  /**
   * Sorted by `event_date`, newest first, then the first six. `stamp` is
   * the time `new Date(event_date)` stands for.
   */
  function Newest(events: seq<Obj>, stamp: Obj -> int): (r: seq<Obj>)
    ensures |r| == if |events| < ShownCount then |events| else ShownCount
    ensures NewestFirst(r, stamp)
    ensures multiset(r) <= multiset(events)
  {
    var sorted := SortNewestFirst(events, stamp);
    var k := if |sorted| < ShownCount then |sorted| else ShownCount;
    assert sorted == sorted[..k] + sorted[k..];
    sorted[..k]
  }

  /** Every achievement left out is no more recent than every one shown. */
  lemma {:induction false} NewestAreKept(events: seq<Obj>, stamp: Obj -> int, dropped: Obj, kept: Obj)
    requires dropped in multiset(events) - multiset(Newest(events, stamp))
    requires kept in Newest(events, stamp)
    ensures stamp(dropped) <= stamp(kept)
  {
    var sorted := SortNewestFirst(events, stamp);
    var k := if |sorted| < ShownCount then |sorted| else ShownCount;
    assert Newest(events, stamp) == sorted[..k];
    LeftOutIsInRest(events, sorted, k, dropped);
    PrefixIsNewer(sorted, k, stamp, dropped, kept);
  }

  /** In a newest-first list, what precedes position `k` is at least as recent as what follows. */
  lemma PrefixIsNewer(sorted: seq<Obj>, k: nat, stamp: Obj -> int, dropped: Obj, kept: Obj)
    requires NewestFirst(sorted, stamp) && k <= |sorted|
    requires dropped in sorted[k..] && kept in sorted[..k]
    ensures stamp(dropped) <= stamp(kept)
  {
    var j :| k <= j < |sorted| && sorted[j] == dropped;
    var i :| 0 <= i < k && sorted[i] == kept;
  }

  /** What a permutation of `sorted` holds beyond its first `k` lies after them. */
  lemma LeftOutIsInRest(all: seq<Obj>, sorted: seq<Obj>, k: nat, x: Obj)
    requires multiset(all) == multiset(sorted) && k <= |sorted|
    requires x in multiset(all) - multiset(sorted[..k])
    ensures x in sorted[k..]
  {
    assert sorted == sorted[..k] + sorted[k..];
    assert multiset(sorted) == multiset(sorted[..k]) + multiset(sorted[k..]);
  }

  class Achievements {
    var profiles: seq<Obj>
    var loading: bool
    var error: Option<string>

    constructor ()
      ensures profiles == [] && loading && error.None?
    {
      profiles, loading, error := [], true, None;
    }

    /**
     * `fetchAchievements`. `reply.data` is the reply's `events`, `None`
     * when missing or not an array.
     */
    method FetchAchievements(reply: Reply<Option<seq<Obj>>>, stamp: Obj -> int) returns (sent: Request)
      modifies this
      ensures sent == Post(AchievementsPath, map[])
      ensures reply.Ok? && reply.data.Some? ==> profiles == Newest(reply.data.value, stamp) && error == old(error)
      ensures reply.Ok? && reply.data.None? ==> profiles == old(profiles) && error == Some(UnexpectedFormat)
      ensures reply.Failed? ==> profiles == old(profiles) && error == Some(FetchFailed)
      ensures !loading
    {
      sent := Post(AchievementsPath, map[]);
      match reply {
        case Ok(Some(events)) =>
          profiles := Newest(events, stamp);
        case Ok(None) =>
          error := Some(UnexpectedFormat);
        case Failed(_) =>
          error := Some(FetchFailed);
      }
      loading := false;
    }
  }
}
