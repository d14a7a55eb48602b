/**
 * The watch-progress store: a map from `videoId_source` to the episode, position and
 * duration last saved for it, persisted under `videoWatchProgress` after each change.
 */
module WatchProgress {
  import opened Wrappers
  import opened Text

  /** `{ episodeIndex, time, duration }`. */
  datatype Progress = Progress(episodeIndex: int, time: int, duration: int)

  /** The map key `${videoId}_${source}`: the reverse order of the history ids. */
  function ProgressKey(videoId: string, source: string): string {
    UnderscoreJoin(videoId, source)
  }

  class WatchProgressStore {
    var progress: map<string, Progress>
    /** The copy in storage under `videoWatchProgress`; None while nothing was ever written. */
    var stored: Option<map<string, Progress>>

    /** The state starts from the stored map, or from `{}` when there is none. */
    constructor(stored: Option<map<string, Progress>>)
      ensures progress == stored.GetOr(map[])
      ensures this.stored == stored
    {
      progress := stored.GetOr(map[]);
      this.stored := stored;
    }

    /** `getProgress(videoId, source)`: the saved record, or null. */
    function GetProgress(videoId: string, source: string): (p: Option<Progress>)
      reads this
      ensures p.Some? <==> ProgressKey(videoId, source) in progress
      ensures p.Some? ==> p.value == progress[ProgressKey(videoId, source)]
    {
      var key := ProgressKey(videoId, source);
      if key in progress then Some(progress[key]) else None
    }

    /** `saveProgress`: the key's record is replaced as a whole, other keys keep theirs, and the map is written. */
    method SaveProgress(videoId: string, source: string, episodeIndex: int, time: int, duration: int)
      modifies this
      ensures progress == old(progress)[ProgressKey(videoId, source) := Progress(episodeIndex, time, duration)]
      ensures stored == Some(progress)
      ensures GetProgress(videoId, source) == Some(Progress(episodeIndex, time, duration))
      ensures forall v, s :: ProgressKey(v, s) != ProgressKey(videoId, source) ==> GetProgress(v, s) == old(GetProgress(v, s))
    {
      var key := ProgressKey(videoId, source);
      progress := progress[key := Progress(episodeIndex, time, duration)];
      stored := Some(progress);
    }

    /** `clearProgress`: a present key is deleted and the map written; an absent key changes and writes nothing. */
    method ClearProgress(videoId: string, source: string)
      modifies this
      ensures ProgressKey(videoId, source) in old(progress) ==> progress == old(progress) - {ProgressKey(videoId, source)} && stored == Some(progress)
      ensures ProgressKey(videoId, source) !in old(progress) ==> progress == old(progress) && stored == old(stored)
      ensures GetProgress(videoId, source).None?
      ensures forall v, s :: ProgressKey(v, s) != ProgressKey(videoId, source) ==> GetProgress(v, s) == old(GetProgress(v, s))
    {
      var key := ProgressKey(videoId, source);
      if key in progress {
        progress := progress - {key};
        stored := Some(progress);
      }
    }
  }
}
