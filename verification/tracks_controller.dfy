/**
 * `TracksController`: the track list of the schedule. On load it groups
 * the tracks into one bucket per day, orders the buckets by day and sorts
 * every bucket, the full list and the favourites by name; the favourites
 * observer rebuilds the favourites from the loaded tracks.
 */
module TracksControl {
  import opened Wrappers
  import opened Store
  import Text
  import Events

  /** A track of the conference; `day` is the conference day it runs on. */
  datatype Track = Track(name: string, day: int)

  // ---------------------------------------------------------------------
  // sortByName

  /** No track is followed by one whose name is smaller (`lhs.name < rhs.name`). */
  predicate SortedByName(s: seq<Track>)
  {
    forall i, j :: 0 <= i < j < |s| ==> !Text.Less(s[j].name, s[i].name)
  }

  /** "Not smaller than" on names is transitive. */
  lemma NotLessTransitive(a: string, b: string, c: string)
    requires !Text.Less(b, a) && !Text.Less(c, b)
    ensures !Text.Less(c, a)
  {
    if Text.Less(c, a) {
      Text.LessTotal(a, b);
      if Text.Less(a, b) {
        Text.LessTransitive(c, a, b);
      }
    }
  }

  /** Smaller-than on names is asymmetric. */
  lemma LessAsymmetric(a: string, b: string)
    requires Text.Less(a, b)
    ensures !Text.Less(b, a)
  {
    if Text.Less(b, a) {
      Text.LessTransitive(a, b, a);
      Text.LessIrreflexive(a);
    }
  }

  /** `t` placed in front of the first track whose name is not smaller. */
  function InsertByName(s: seq<Track>, t: Track): seq<Track>
  {
    if s == [] || !Text.Less(s[0].name, t.name) then [t] + s
    else [s[0]] + InsertByName(s[1..], t)
  }

  lemma {:induction false} InsertByNamePermutes(s: seq<Track>, t: Track)
    ensures multiset(InsertByName(s, t)) == multiset(s) + multiset{t}
  {
    if s != [] && Text.Less(s[0].name, t.name) {
      InsertByNamePermutes(s[1..], t);
      assert s == [s[0]] + s[1..];
    }
  }

  /** Inserting into a list sorted by name keeps it sorted by name. */
  lemma {:induction false} InsertByNameSorted(s: seq<Track>, t: Track)
    requires SortedByName(s)
    ensures SortedByName(InsertByName(s, t))
  {
    var r := InsertByName(s, t);
    if s == [] {
    } else if !Text.Less(s[0].name, t.name) {
      forall i, j | 0 <= i < j < |r| ensures !Text.Less(r[j].name, r[i].name) {
        if i == 0 {
          Text.LessTotal(s[0].name, t.name);
          if j > 1 { NotLessTransitive(t.name, s[0].name, s[j - 1].name); }
        } else {
          assert r[i] == s[i - 1] && r[j] == s[j - 1];
        }
      }
    } else {
      var rest := InsertByName(s[1..], t);
      InsertByNameSorted(s[1..], t);
      InsertByNamePermutes(s[1..], t);
      forall i, j | 0 <= i < j < |r| ensures !Text.Less(r[j].name, r[i].name) {
        if i == 0 {
          var x := rest[j - 1];
          assert r[j] == x;
          assert x in multiset(rest);
          if x == t {
            LessAsymmetric(s[0].name, t.name);
          } else {
            assert x in multiset(s[1..]);
            var k :| 0 <= k < |s[1..]| && s[1..][k] == x;
            assert s[k + 1] == x;
          }
        } else {
          assert r[i] == rest[i - 1] && r[j] == rest[j - 1];
        }
      }
    }
  }

  /** `sortByName()`: the same tracks, ordered by name (Swift's sort is not stable, so ties are unordered). */
  method SortByName(s: seq<Track>) returns (r: seq<Track>)
    ensures SortedByName(r)
    ensures multiset(r) == multiset(s)
  {
    r := [];
    var i := 0;
    while i < |s|
      invariant 0 <= i <= |s|
      invariant SortedByName(r)
      invariant multiset(r) == multiset(s[..i])
    {
      assert s[..i + 1] == s[..i] + [s[i]];
      InsertByNameSorted(r, s[i]);
      InsertByNamePermutes(r, s[i]);
      r := InsertByName(r, s[i]);
      i := i + 1;
    }
    assert s[..|s|] == s;
  }

  // ---------------------------------------------------------------------
  // favourites

  /** The tracks of `ts` whose name is a favourite identifier, in the order of `ts`. */
  function FavoritesIn(ts: seq<Track>, identifiers: set<string>): seq<Track>
  {
    if ts == [] then []
    else FavoritesIn(ts[..|ts| - 1], identifiers) + (if ts[|ts| - 1].name in identifiers then [ts[|ts| - 1]] else [])
  }

  lemma FavoritesInSnoc(ts: seq<Track>, t: Track, identifiers: set<string>)
    ensures FavoritesIn(ts + [t], identifiers) == FavoritesIn(ts, identifiers) + (if t.name in identifiers then [t] else [])
  {
    assert (ts + [t])[..|ts|] == ts;
  }

  /** The favourites are a sub-multiset of the tracks, holding exactly the tracks whose name is an identifier. */
  lemma {:induction false} FavoritesInSubset(ts: seq<Track>, identifiers: set<string>)
    ensures multiset(FavoritesIn(ts, identifiers)) <= multiset(ts)
    ensures forall t :: t in FavoritesIn(ts, identifiers) <==> t in ts && t.name in identifiers
  {
    if ts != [] {
      var init := ts[..|ts| - 1];
      assert ts == init + [ts[|ts| - 1]];
      FavoritesInSubset(init, identifiers);
    }
  }

  // ---------------------------------------------------------------------
  // per-day buckets

  /** The tracks of `ts` that run on `day`, in the order of `ts`. */
  function Bucket(ts: seq<Track>, day: int): seq<Track>
  {
    if ts == [] then []
    else Bucket(ts[..|ts| - 1], day) + (if ts[|ts| - 1].day == day then [ts[|ts| - 1]] else [])
  }

  /** A day's bucket holds exactly the tracks of that day. */
  lemma {:induction false} BucketMembers(ts: seq<Track>, day: int)
    ensures forall t :: t in Bucket(ts, day) <==> t in ts && t.day == day
  {
    if ts != [] {
      var init := ts[..|ts| - 1];
      assert ts == init + [ts[|ts| - 1]];
      BucketMembers(init, day);
    }
  }

  function DaysOf(ts: seq<Track>): set<int>
  {
    set t | t in ts :: t.day
  }

  /** The dictionary `[Int: [Track]]` that the load loop fills. */
  function BucketMap(ts: seq<Track>): map<int, seq<Track>>
  {
    map d | d in DaysOf(ts) :: Bucket(ts, d)
  }

  /** One more track appends it to its own day's bucket and creates the bucket on demand. */
  lemma BucketMapSnoc(ts: seq<Track>, t: Track)
    ensures BucketMap(ts + [t]) ==
      BucketMap(ts)[t.day := (if t.day in BucketMap(ts) then BucketMap(ts)[t.day] else []) + [t]]
  {
    var s := ts + [t];
    assert s[..|s| - 1] == ts;
    assert DaysOf(s) == DaysOf(ts) + {t.day};
    var m := BucketMap(ts);
    var m' := m[t.day := (if t.day in m then m[t.day] else []) + [t]];
    forall d | d in DaysOf(s) ensures BucketMap(s)[d] == m'[d] {
      assert Bucket(s, d) == Bucket(ts, d) + (if t.day == d then [t] else []);
      if d == t.day && d !in DaysOf(ts) {
        BucketMembers(ts, d);
        var b := Bucket(ts, d);
        if b != [] { assert b[0] in b; }
      }
    }
  }

  /** Strictly ascending integers. */
  predicate Ascending(ks: seq<int>)
  {
    forall i, j :: 0 <= i < j < |ks| ==> ks[i] < ks[j]
  }

  /** `k` inserted at its place in an ascending sequence. */
  function InsertKey(ks: seq<int>, k: int): (r: seq<int>)
    requires Ascending(ks) && k !in ks
    ensures Ascending(r)
    ensures forall x :: x in r <==> x in ks || x == k
  {
    if ks == [] then [k]
    else if k < ks[0] then [k] + ks
    else
      var rest := InsertKey(ks[1..], k);
      assert forall x :: x in rest ==> ks[0] < x by {
        forall x | x in rest ensures ks[0] < x {
          if x != k {
            var j :| 0 <= j < |ks| - 1 && ks[1..][j] == x;
            assert ks[j + 1] == x;
          } else {
            assert ks[0] in ks;
          }
        }
      }
      var r := [ks[0]] + rest;
      assert Ascending(r) by {
        forall i, j | 0 <= i < j < |r| ensures r[i] < r[j] {
          assert r[j] == rest[j - 1];
          if i == 0 {
            assert rest[j - 1] in rest;
          } else {
            assert r[i] == rest[i - 1];
          }
        }
      }
      r
  }

  lemma HasMember(s: set<int>)
    requires s != {}
    ensures exists x :: x in s
  {
    if forall x :: x !in s {
      assert false;
    }
  }

  /** The dictionary's keys in ascending order (`sorted { $0.key < $1.key }`). */
  method AscendingKeys(keys: set<int>) returns (ks: seq<int>)
    ensures Ascending(ks)
    ensures forall k :: k in ks <==> k in keys
  {
    ks := [];
    var remaining := keys;
    while remaining != {}
      invariant Ascending(ks)
      invariant remaining <= keys
      invariant forall k :: k in ks <==> k in keys && k !in remaining
      decreases remaining
    {
      HasMember(remaining);
      var day :| day in remaining;
      ks := InsertKey(ks, day);
      remaining := remaining - {day};
    }
  }

  /** Sum of the buckets of `ts` for the days `ks`. */
  ghost function BucketSum(ks: seq<int>, ts: seq<Track>): multiset<Track>
  {
    if ks == [] then multiset{} else multiset(Bucket(ts, ks[0])) + BucketSum(ks[1..], ts)
  }

  predicate Distinct(ks: seq<int>)
  {
    forall i, j :: 0 <= i < j < |ks| ==> ks[i] != ks[j]
  }

  lemma {:induction false} BucketSumSnoc(ks: seq<int>, ts: seq<Track>, t: Track)
    requires Distinct(ks)
    ensures BucketSum(ks, ts + [t]) == BucketSum(ks, ts) + (if t.day in ks then multiset{t} else multiset{})
  {
    var s := ts + [t];
    assert s[..|s| - 1] == ts;
    if ks != [] {
      BucketSumSnoc(ks[1..], ts, t);
      assert t.day in ks <==> t.day == ks[0] || t.day in ks[1..] by {
        assert ks == [ks[0]] + ks[1..];
      }
      if t.day == ks[0] {
        forall j | 0 <= j < |ks| - 1 ensures ks[1..][j] != ks[0] {
          assert ks[1..][j] == ks[j + 1];
        }
      }
    }
  }

  /** Buckets for a duplicate-free list of days that covers every day hold each track once. */
  lemma {:induction false} BucketSumIsAll(ks: seq<int>, ts: seq<Track>)
    requires Distinct(ks)
    requires forall t :: t in ts ==> t.day in ks
    ensures BucketSum(ks, ts) == multiset(ts)
  {
    if ts == [] {
      BucketSumEmpty(ks);
    } else {
      var init := ts[..|ts| - 1];
      var last := ts[|ts| - 1];
      assert ts == init + [last];
      assert forall t :: t in init ==> t in ts;
      BucketSumIsAll(ks, init);
      BucketSumSnoc(ks, init, last);
    }
  }

  lemma {:induction false} BucketSumEmpty(ks: seq<int>)
    ensures BucketSum(ks, []) == multiset{}
  {
    if ks != [] {
      BucketSumEmpty(ks[1..]);
    }
  }

  function Flatten(buckets: seq<seq<Track>>): seq<Track>
  {
    if buckets == [] then [] else buckets[0] + Flatten(buckets[1..])
  }

  /**
   * What `loadingDidFinish` promises of `tracksForDay`: one non-empty bucket
   * per day of `loaded`, each holding exactly that day's tracks sorted by
   * name, the buckets in strictly ascending day order.
   */
  ghost predicate DayBuckets(buckets: seq<seq<Track>>, loaded: seq<Track>)
  {
    && (forall i :: 0 <= i < |buckets| ==> buckets[i] != [])
    && (forall i, k :: 0 <= i < |buckets| && 0 <= k < |buckets[i]| ==> buckets[i][k].day == buckets[i][0].day)
    && (forall i :: 0 <= i < |buckets| ==> multiset(buckets[i]) == multiset(Bucket(loaded, buckets[i][0].day)))
    && (forall i :: 0 <= i < |buckets| ==> SortedByName(buckets[i]))
    && (forall i, j :: 0 <= i < j < |buckets| ==> buckets[i][0].day < buckets[j][0].day)
    && (forall t :: t in loaded ==> exists i :: 0 <= i < |buckets| && buckets[i][0].day == t.day)
  }

  function FirstDays(buckets: seq<seq<Track>>): (ks: seq<int>)
    requires forall i :: 0 <= i < |buckets| ==> buckets[i] != []
    ensures |ks| == |buckets| && forall i :: 0 <= i < |buckets| ==> ks[i] == buckets[i][0].day
  {
    seq(|buckets|, i requires 0 <= i < |buckets| => buckets[i][0].day)
  }

  lemma {:induction false} FlattenIsBucketSum(buckets: seq<seq<Track>>, loaded: seq<Track>)
    requires forall i :: 0 <= i < |buckets| ==> buckets[i] != []
    requires forall i :: 0 <= i < |buckets| ==> multiset(buckets[i]) == multiset(Bucket(loaded, buckets[i][0].day))
    ensures multiset(Flatten(buckets)) == BucketSum(FirstDays(buckets), loaded)
  {
    if buckets != [] {
      FlattenIsBucketSum(buckets[1..], loaded);
      assert FirstDays(buckets)[1..] == FirstDays(buckets[1..]);
    }
  }

  /** No track is lost or duplicated: the buckets, concatenated, are a permutation of the loaded tracks. */
  lemma FlattenDayBuckets(buckets: seq<seq<Track>>, loaded: seq<Track>)
    requires DayBuckets(buckets, loaded)
    ensures multiset(Flatten(buckets)) == multiset(loaded)
  {
    var ks := FirstDays(buckets);
    FlattenIsBucketSum(buckets, loaded);
    forall t | t in loaded ensures t.day in ks {
      var i :| 0 <= i < |buckets| && buckets[i][0].day == t.day;
      assert ks[i] == t.day;
    }
    BucketSumIsAll(ks, loaded);
  }

  /** Buckets taken from an ascending list of exactly the loaded days satisfy `DayBuckets`. */
  lemma BucketsAreDayBuckets(buckets: seq<seq<Track>>, days: seq<int>, loaded: seq<Track>)
    requires |buckets| == |days| && Ascending(days)
    requires forall d :: d in days <==> d in DaysOf(loaded)
    requires forall k :: 0 <= k < |days| ==> multiset(buckets[k]) == multiset(Bucket(loaded, days[k]))
    requires forall k :: 0 <= k < |days| ==> SortedByName(buckets[k])
    ensures DayBuckets(buckets, loaded)
  {
    forall k | 0 <= k < |days|
      ensures buckets[k] != [] && buckets[k][0].day == days[k]
      ensures forall x :: x in buckets[k] ==> x.day == days[k]
    {
      assert days[k] in DaysOf(loaded);
      var t :| t in loaded && t.day == days[k];
      BucketMembers(loaded, days[k]);
      assert t in multiset(Bucket(loaded, days[k]));
      assert t in multiset(buckets[k]);
      forall x | x in buckets[k] ensures x.day == days[k] {
        assert x in multiset(buckets[k]);
        assert x in Bucket(loaded, days[k]);
      }
    }
    forall t | t in loaded ensures exists i :: 0 <= i < |buckets| && buckets[i][0].day == t.day {
      assert t.day in DaysOf(loaded);
      var i :| 0 <= i < |days| && days[i] == t.day;
    }
  }

  /** `for i in tracksForDay.indices { tracksForDay[i].sortByName() }`. */
  method SortEachByName(buckets: seq<seq<Track>>) returns (sorted: seq<seq<Track>>)
    ensures |sorted| == |buckets|
    ensures forall k :: 0 <= k < |buckets| ==> multiset(sorted[k]) == multiset(buckets[k]) && SortedByName(sorted[k])
  {
    sorted := buckets;
    var j := 0;
    while j < |sorted|
      invariant 0 <= j <= |sorted| == |buckets|
      invariant forall k :: 0 <= k < j ==> multiset(sorted[k]) == multiset(buckets[k]) && SortedByName(sorted[k])
      invariant forall k :: j <= k < |buckets| ==> sorted[k] == buckets[k]
    {
      var bucket := SortByName(sorted[j]);
      sorted := sorted[j := bucket];
      j := j + 1;
    }
  }

  /**
   * The tail of `loadingDidFinish`: the dictionary's buckets in ascending
   * day order (`sorted { $0.key < $1.key }.map { $1 }`), then each bucket
   * sorted by name in place.
   */
  method OrderBucketsByDay(byDay: map<int, seq<Track>>, ghost loaded: seq<Track>) returns (buckets: seq<seq<Track>>)
    requires byDay == BucketMap(loaded)
    ensures DayBuckets(buckets, loaded)
  {
    var days := AscendingKeys(byDay.Keys);
    forall k | 0 <= k < |days| ensures days[k] in byDay {
      assert days[k] in days;
    }
    buckets := seq(|days|, k requires 0 <= k < |days| => byDay[days[k]]);

    assert byDay.Keys == DaysOf(loaded);
    buckets := SortEachByName(buckets);
    BucketsAreDayBuckets(buckets, days, loaded);
  }

  // ---------------------------------------------------------------------
  // the controller and its collaborator

  /** The favourites service's track part: the identifiers (track names) of the favourite tracks. */
  class FavoritesService {
    var trackIdentifiers: set<string>

    constructor (identifiers: set<string>)
      ensures trackIdentifiers == identifiers
    {
      trackIdentifiers := identifiers;
    }

    predicate Contains(track: Track)
      reads this
    {
      track.name in trackIdentifiers
    }

    method AddTrack(identifier: string)
      modifies this
      ensures trackIdentifiers == old(trackIdentifiers) + {identifier}
    {
      trackIdentifiers := trackIdentifiers + {identifier};
    }

    method RemoveTrack(identifier: string)
      modifies this
      ensures trackIdentifiers == old(trackIdentifiers) - {identifier}
    {
      trackIdentifiers := trackIdentifiers - {identifier};
    }
  }

  class TracksController {
    var favoriteTracks: seq<Track>
    var tracksForDay: seq<seq<Track>>
    var tracks: seq<Track>
    var events: seq<Events.Event>
    /** The navigation stack was replaced by the error screen after a failed load. */
    var showsLoadingError: bool
    /** An error screen was presented over the events list after a failed events read. */
    var presentedEventsError: bool
    /** Identifiers passed to `events(forTrackWithIdentifier:)`, in order. */
    var eventReads: seq<string>
    const favoritesService: FavoritesService

    constructor (favoritesService: FavoritesService)
      ensures this.favoritesService == favoritesService
      ensures favoriteTracks == [] && tracksForDay == [] && tracks == [] && events == []
      ensures !showsLoadingError && !presentedEventsError && eventReads == []
    {
      this.favoritesService := favoritesService;
      favoriteTracks, tracksForDay, tracks, events := [], [], [], [];
      showsLoadingError, presentedEventsError, eventReads := false, false, [];
    }

    /** Completion of the tracks read: a failure only shows the error screen. */
    method TracksReadCompleted(result: ReadResult<seq<Track>>)
      modifies this`tracks, this`favoriteTracks, this`tracksForDay, this`showsLoadingError
      ensures result.Failure? ==>
        (showsLoadingError && tracks == old(tracks) && tracksForDay == old(tracksForDay) && favoriteTracks == old(favoriteTracks))
      ensures result.Success? ==> SortedByName(tracks) && multiset(tracks) == multiset(result.value)
      ensures result.Success? ==> DayBuckets(tracksForDay, result.value)
      ensures result.Success? ==> SortedByName(favoriteTracks)
      ensures result.Success? ==>
        multiset(favoriteTracks) == multiset(old(favoriteTracks)) + multiset(FavoritesIn(result.value, favoritesService.trackIdentifiers))
      ensures result.Success? ==> showsLoadingError == old(showsLoadingError)
    {
      match result
      case Failure(_) => LoadingDidFail();
      case Success(loaded) => LoadingDidFinish(loaded);
    }

    method LoadingDidFail()
      modifies this`showsLoadingError
      ensures showsLoadingError
    {
      showsLoadingError := true;
    }

    /**
     * `loadingDidFinish(with:)`. The favourites found are appended to the
     * existing `favoriteTracks`, which are not cleared first.
     */
    method LoadingDidFinish(loaded: seq<Track>)
      modifies this`tracks, this`favoriteTracks, this`tracksForDay
      ensures SortedByName(tracks) && multiset(tracks) == multiset(loaded)
      ensures SortedByName(favoriteTracks)
      ensures multiset(favoriteTracks) == multiset(old(favoriteTracks)) + multiset(FavoritesIn(loaded, favoritesService.trackIdentifiers))
      ensures DayBuckets(tracksForDay, loaded)
      ensures multiset(Flatten(tracksForDay)) == multiset(loaded)
    {
      var identifiers := favoritesService.trackIdentifiers;
      var byDay: map<int, seq<Track>> := map[];
      var i := 0;
      while i < |loaded|
        invariant 0 <= i <= |loaded|
        invariant byDay == BucketMap(loaded[..i])
        invariant favoriteTracks == old(favoriteTracks) + FavoritesIn(loaded[..i], identifiers)
      {
        var track := loaded[i];
        assert loaded[..i + 1] == loaded[..i] + [track];
        BucketMapSnoc(loaded[..i], track);
        FavoritesInSnoc(loaded[..i], track, identifiers);
        byDay := byDay[track.day := (if track.day in byDay then byDay[track.day] else []) + [track]];
        if favoritesService.Contains(track) {
          favoriteTracks := favoriteTracks + [track];
        }
        i := i + 1;
      }
      assert loaded[..|loaded|] == loaded;

      tracks := SortByName(loaded);
      favoriteTracks := SortByName(favoriteTracks);

      tracksForDay := OrderBucketsByDay(byDay, loaded);
      FlattenDayBuckets(tracksForDay, loaded);
    }

    /**
     * The closure registered with `addObserverForTracks`: rebuilds the
     * favourites from scratch out of `tracks`.
     */
    method FavoritesDidChange()
      modifies this`favoriteTracks
      ensures SortedByName(favoriteTracks)
      ensures multiset(favoriteTracks) == multiset(FavoritesIn(tracks, favoritesService.trackIdentifiers))
    {
      favoriteTracks := [];
      var i := 0;
      while i < |tracks|
        invariant 0 <= i <= |tracks|
        invariant favoriteTracks == FavoritesIn(tracks[..i], favoritesService.trackIdentifiers)
      {
        assert tracks[..i + 1] == tracks[..i] + [tracks[i]];
        FavoritesInSnoc(tracks[..i], tracks[i], favoritesService.trackIdentifiers);
        if favoritesService.Contains(tracks[i]) {
          favoriteTracks := favoriteTracks + [tracks[i]];
        }
        i := i + 1;
      }
      assert tracks[..|tracks|] == tracks;
      favoriteTracks := SortByName(favoriteTracks);
    }

    /** Favouriting records the track's name as its identifier. */
    method DidFavorite(track: Track)
      modifies favoritesService
      ensures favoritesService.trackIdentifiers == old(favoritesService.trackIdentifiers) + {track.name}
      ensures favoritesService.Contains(track)
    {
      favoritesService.AddTrack(track.name);
    }

    method DidUnfavorite(track: Track)
      modifies favoritesService
      ensures favoritesService.trackIdentifiers == old(favoritesService.trackIdentifiers) - {track.name}
      ensures !favoritesService.Contains(track)
    {
      favoritesService.RemoveTrack(track.name);
    }

    /**
     * Selecting a track empties `events` and reads the track's events by
     * its name; `result` is what that read delivers.
     */
    method DidSelect(track: Track, result: ReadResult<seq<Events.Event>>)
      modifies this`events, this`eventReads, this`presentedEventsError
      ensures eventReads == old(eventReads) + [track.name]
      ensures events == if result.Success? then result.value else []
      ensures presentedEventsError == (old(presentedEventsError) || result.Failure?)
    {
      events := [];
      eventReads := eventReads + [track.name];
      match result
      case Failure(_) =>
        presentedEventsError := true;
      case Success(found) =>
        events := found;
    }

    /** `events(in:)`: the events of the selected track. */
    function EventsIn(): seq<Events.Event>
      reads this
    {
      events
    }
  }
}
