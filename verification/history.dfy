/**
 * The watch history kept under one storage key: a list of entries, newest first
 * after each update, capped at 100, with lookup by id, removal by id and a copy
 * sorted by the time each video was last watched.
 */
module History {
  import opened Wrappers
  import opened Seqs
  import opened Text

  /** The number of entries `updateProgress` keeps. */
  const MaxEntries := 100

  /** One stored history entry. */
  datatype Entry = Entry(
    id: string,
    videoId: string,
    source: string,
    vodName: string,
    vodPic: string,
    episodeIndex: int,
    currentTime: int,
    duration: int,
    lastWatchedTimestamp: int)

  /** The fields `updateProgress` is given. */
  datatype VideoData = VideoData(
    videoId: string,
    source: string,
    vodName: string,
    vodPic: string,
    episodeIndex: int,
    currentTime: int,
    duration: int)

  /** The id of a video: `${source}_${videoId}`. */
  function HistoryId(source: string, videoId: string): string {
    UnderscoreJoin(source, videoId)
  }

  /** `history.findIndex(item => item.id === id)`: the first index holding the id, or -1. */
  function FindIndex(history: seq<Entry>, id: string): (i: int)
    ensures -1 <= i < |history|
    ensures i == -1 <==> forall j :: 0 <= j < |history| ==> history[j].id != id
    ensures 0 <= i ==> history[i].id == id && forall j :: 0 <= j < i ==> history[j].id != id
  {
    if history == [] then -1
    else if history[0].id == id then 0
    else
      var k := FindIndex(history[1..], id);
      if k == -1 then -1 else k + 1
  }

  /** `history.find(item => item.id === id) || null`. */
  function FindById(history: seq<Entry>, id: string): (r: Option<Entry>)
    ensures r.None? <==> forall j :: 0 <= j < |history| ==> history[j].id != id
    ensures r.Some? ==> r.value in history && r.value.id == id
    ensures r.Some? ==> r.value == history[FindIndex(history, id)]
  {
    var i := FindIndex(history, id);
    if i == -1 then None else Some(history[i])
  }

  /** The entry `updateProgress` stores: the given fields, the id and the supplied time. */
  function MakeEntry(v: VideoData, now: int): (e: Entry)
    ensures e.id == HistoryId(v.source, v.videoId)
    ensures e.videoId == v.videoId && e.source == v.source
    ensures e.vodName == v.vodName && e.vodPic == v.vodPic
    ensures e.episodeIndex == v.episodeIndex && e.currentTime == v.currentTime && e.duration == v.duration
    ensures e.lastWatchedTimestamp == now
  {
    Entry(HistoryId(v.source, v.videoId), v.videoId, v.source, v.vodName, v.vodPic,
          v.episodeIndex, v.currentTime, v.duration, now)
  }

  /** The list `updateProgress` writes back: replace or prepend, then keep the first 100. */
  function Upserted(history: seq<Entry>, e: Entry): (r: seq<Entry>)
    ensures |r| <= MaxEntries
  {
    var i := FindIndex(history, e.id);
    var h := if i > -1 then history[i := e] else [e] + history;
    if |h| > MaxEntries then h[..MaxEntries] else h
  }

  function Min(a: int, b: int): int {
    if a <= b then a else b
  }

  /** Updating an id already present replaces that entry in place and touches nothing else. */
  lemma UpsertExisting(history: seq<Entry>, e: Entry)
    requires FindIndex(history, e.id) >= 0
    ensures |Upserted(history, e)| == Min(|history|, MaxEntries)
    ensures forall j :: 0 <= j < |Upserted(history, e)| ==>
      Upserted(history, e)[j] == if j == FindIndex(history, e.id) then e else history[j]
  {
  }

  /** Updating a new id puts the entry first and shifts the others down by one. */
  lemma UpsertNew(history: seq<Entry>, e: Entry)
    requires FindIndex(history, e.id) == -1
    ensures |Upserted(history, e)| == Min(|history| + 1, MaxEntries)
    ensures Upserted(history, e)[0] == e
    ensures forall j :: 1 <= j < |Upserted(history, e)| ==> Upserted(history, e)[j] == history[j - 1]
  {
  }

  /**
   * Looking the id up right after the update finds the new entry exactly when the
   * id was new or first held within the first 100 places.
   */
  lemma UpsertThenFind(history: seq<Entry>, e: Entry)
    ensures FindById(Upserted(history, e), e.id) == Some(e) <==> FindIndex(history, e.id) < MaxEntries
  {
    var r := Upserted(history, e);
    var i := FindIndex(history, e.id);
    if i == -1 {
      UpsertNew(history, e);
      assert FindIndex(r, e.id) == 0;
    } else if i < MaxEntries {
      UpsertExisting(history, e);
      assert FindIndex(r, e.id) == i;
    } else {
      UpsertExisting(history, e);
      assert forall j :: 0 <= j < |r| ==> r[j].id != e.id;
    }
  }

  /** So on a list within the cap, as `updateProgress` leaves it, the update is always found again. */
  lemma UpsertWithinCapFound(history: seq<Entry>, e: Entry)
    requires |history| <= MaxEntries
    ensures FindById(Upserted(history, e), e.id) == Some(e)
  {
    UpsertThenFind(history, e);
  }

  // ---- removeEntry ----

  function IdIsNot(id: string): Entry -> bool {
    (e: Entry) => e.id != id
  }

  /** After the removal no entry has the id, and the rest keep their order and number. */
  lemma RemoveSpec(history: seq<Entry>, id: string)
    ensures forall e :: e in Filter(history, IdIsNot(id)) ==> e.id != id
    ensures IsSubseq(Filter(history, IdIsNot(id)), history)
    ensures forall e: Entry :: e.id != id ==> multiset(Filter(history, IdIsNot(id)))[e] == multiset(history)[e]
    ensures FindById(Filter(history, IdIsNot(id)), id).None?
  {
    FilterSpec(history, IdIsNot(id));
    var r := Filter(history, IdIsNot(id));
    assert forall j :: 0 <= j < |r| ==> r[j] in r;
  }

  // ---- getSortedHistory: a stable sort, newest first ----

  predicate NewestFirst(s: seq<Entry>) {
    forall i, j :: 0 <= i < j < |s| ==> s[i].lastWatchedTimestamp >= s[j].lastWatchedTimestamp
  }

  /** Places `x` after every entry at least as recent: the last step of a stable insertion sort. */
  function Insert(s: seq<Entry>, x: Entry): (r: seq<Entry>)
    ensures |r| == |s| + 1
    ensures multiset(r) == multiset(s) + multiset{x}
  {
    if s == [] || s[|s| - 1].lastWatchedTimestamp >= x.lastWatchedTimestamp then s + [x]
    else
      assert s == s[..|s| - 1] + [s[|s| - 1]];
      Insert(s[..|s| - 1], x) + [s[|s| - 1]]
  }

  /** `history.sort((a, b) => b.lastWatchedTimestamp - a.lastWatchedTimestamp)`; the sort is stable. */
  function SortByRecency(s: seq<Entry>): (r: seq<Entry>)
    ensures multiset(r) == multiset(s)
  {
    if s == [] then []
    else
      assert s == s[..|s| - 1] + [s[|s| - 1]];
      Insert(SortByRecency(s[..|s| - 1]), s[|s| - 1])
  }

  /** Inserting adds `x` and nothing else. */
  lemma InsertMembers(s: seq<Entry>, x: Entry)
    ensures forall e :: e in Insert(s, x) ==> e == x || e in s
  {
    var r := Insert(s, x);
    forall e | e in r
      ensures e == x || e in s
    {
      assert e in multiset(r);
    }
  }

  lemma {:induction false} InsertKeepsOrder(s: seq<Entry>, x: Entry)
    requires NewestFirst(s)
    ensures NewestFirst(Insert(s, x))
  {
    if s != [] && s[|s| - 1].lastWatchedTimestamp < x.lastWatchedTimestamp {
      var init := s[..|s| - 1];
      var last := s[|s| - 1];
      InsertKeepsOrder(init, x);
      var r := Insert(init, x);
      InsertMembers(init, x);
      forall e | e in init
        ensures e.lastWatchedTimestamp >= last.lastWatchedTimestamp
      {
        var m :| 0 <= m < |init| && init[m] == e;
        assert init[m] == s[m];
      }
      var g := r + [last];
      forall i, j | 0 <= i < j < |g|
        ensures g[i].lastWatchedTimestamp >= g[j].lastWatchedTimestamp
      {
        assert g[i] == r[i];
        if j == |r| {
          assert r[i] in r;
        } else {
          assert g[j] == r[j];
        }
      }
    }
  }

  /** The sorted copy is newest first. */
  lemma {:induction false} SortedIsNewestFirst(s: seq<Entry>)
    ensures NewestFirst(SortByRecency(s))
  {
    if s != [] {
      SortedIsNewestFirst(s[..|s| - 1]);
      InsertKeepsOrder(SortByRecency(s[..|s| - 1]), s[|s| - 1]);
    }
  }

  function WatchedAt(t: int): Entry -> bool {
    (e: Entry) => e.lastWatchedTimestamp == t
  }

  lemma {:induction false} InsertStable(s: seq<Entry>, x: Entry, t: int)
    ensures Filter(Insert(s, x), WatchedAt(t)) == Filter(s, WatchedAt(t)) + (if x.lastWatchedTimestamp == t then [x] else [])
  {
    if s != [] && s[|s| - 1].lastWatchedTimestamp < x.lastWatchedTimestamp {
      var init := s[..|s| - 1];
      var last := s[|s| - 1];
      InsertStable(init, x, t);
      var r := Insert(init, x);
      assert Insert(s, x) == r + [last];
      assert (r + [last])[..|r|] == r;
      var tail := if last.lastWatchedTimestamp == t then [last] else [];
      assert Filter(r + [last], WatchedAt(t)) == Filter(r, WatchedAt(t)) + tail;
      assert Filter(s, WatchedAt(t)) == Filter(init, WatchedAt(t)) + tail;
      if last.lastWatchedTimestamp == t {
        assert x.lastWatchedTimestamp != t;
      }
    } else {
      assert (s + [x])[..|s|] == s;
    }
  }

  /** The sort is stable: entries watched at the same time keep their relative order. */
  lemma {:induction false} SortIsStable(s: seq<Entry>, t: int)
    ensures Filter(SortByRecency(s), WatchedAt(t)) == Filter(s, WatchedAt(t))
  {
    if s != [] {
      var init := s[..|s| - 1];
      SortIsStable(init, t);
      InsertStable(SortByRecency(init), s[|s| - 1], t);
    }
  }

  // ---- the manager over storage ----

  /** `historyManager` together with the storage slot it reads and writes. */
  class HistoryManager {
    /** The parsed list under the history key; `None` when it is missing or does not parse. */
    var stored: Option<seq<Entry>>

    constructor(stored: Option<seq<Entry>>)
      ensures this.stored == stored
    {
      this.stored := stored;
    }

    /** `getHistoryArray()`: a missing or unreadable list reads as empty. */
    function Load(): (h: seq<Entry>)
      reads this
      ensures stored.None? ==> h == []
      ensures stored.Some? ==> h == stored.value
    {
      stored.GetOr([])
    }

    /** `getSortedHistory()`: the stored entries, newest first (see `SortedIsNewestFirst`, `SortIsStable`). */
    function GetSortedHistory(): (r: seq<Entry>)
      reads this
      ensures multiset(r) == multiset(Load())
    {
      SortByRecency(Load())
    }

    /** `getProgress(videoId, source)`: the first entry with id `${source}_${videoId}`, or none. */
    function GetProgress(videoId: string, source: string): (r: Option<Entry>)
      reads this
      ensures r.None? <==> forall e :: e in Load() ==> e.id != HistoryId(source, videoId)
      ensures r.Some? ==> r.value in Load() && r.value.id == HistoryId(source, videoId)
    {
      FindById(Load(), HistoryId(source, videoId))
    }

    /** `updateProgress(videoData)` at time `now`. */
    method UpdateProgress(videoData: VideoData, now: int)
      modifies this
      ensures stored == Some(Upserted(old(Load()), MakeEntry(videoData, now)))
      ensures |Load()| <= MaxEntries
      ensures |old(Load())| <= MaxEntries ==> GetProgress(videoData.videoId, videoData.source) == Some(MakeEntry(videoData, now))
    {
      var history := Load();
      var id := HistoryId(videoData.source, videoData.videoId);
      var existingIndex := FindIndex(history, id);
      var entry := MakeEntry(videoData, now);
      if existingIndex > -1 {
        history := history[existingIndex := entry];
      } else {
        history := [entry] + history;
      }
      if |history| > MaxEntries {
        history := history[..MaxEntries];
      }
      stored := Some(history);
      if |old(Load())| <= MaxEntries {
        UpsertWithinCapFound(old(Load()), entry);
      }
    }

    /** `removeEntry(id)`. */
    method RemoveEntry(id: string)
      modifies this
      ensures stored == Some(Filter(old(Load()), IdIsNot(id)))
      ensures forall e :: e in Load() ==> e.id != id
    {
      var history := Load();
      history := Filter(history, IdIsNot(id));
      stored := Some(history);
      RemoveSpec(old(Load()), id);
    }

    /** `clearAll()`. */
    method ClearAll()
      modifies this
      ensures stored == Some([])
      ensures Load() == []
    {
      stored := Some([]);
    }
  }
}
