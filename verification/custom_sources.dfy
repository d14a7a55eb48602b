/**
 * The store of user-added API sources: a list of `{id, name, url}` records kept under
 * `userCustomApiSources`. `addSource` validates and de-duplicates before appending,
 * `removeSource` filters by id, and `loadSources` reads the stored list back.
 */
module CustomSources {
  import opened Text
  import opened Seqs

  datatype Source = Source(id: string, name: string, url: string)

  /** What `localStorage.getItem` and `JSON.parse` give: nothing (or ""), text that does not parse, or a list. */
  datatype Stored = Missing | Unparseable | Parsed(list: seq<Source>)

  /** `!name || !url || !url.startsWith('http')` is false: both are non-empty and the raw URL starts with "http". */
  predicate ValidInput(name: string, url: string) {
    name != [] && url != [] && StartsWith(url, "http")
  }

  /** `sources.some(s => s.url === url)`. */
  predicate UrlTaken(sources: seq<Source>, url: string) {
    exists i :: 0 <= i < |sources| && sources[i].url == url
  }

  /** No two sources in the list share a URL: what the duplicate check is there to keep. */
  predicate UniqueUrls(sources: seq<Source>) {
    forall i, j :: 0 <= i < j < |sources| ==> sources[i].url != sources[j].url
  }

  /** The answer of `addSource` and the list after it. */
  datatype Added = Added(ok: bool, sources: seq<Source>)

  /**
   * `addSource(name, url)` as written, with `id` the text of `Date.now()`: invalid input
   * and a URL already present (compared untrimmed) leave the list as it is; otherwise one
   * source with the trimmed name and URL goes on the end.
   */
  function AddOutcome(sources: seq<Source>, name: string, url: string, id: string): (r: Added)
    ensures !ValidInput(name, url) ==> r == Added(false, sources)
    ensures ValidInput(name, url) && UrlTaken(sources, url) ==> r == Added(false, sources)
    ensures r.ok <==> ValidInput(name, url) && !UrlTaken(sources, url)
    ensures r.ok ==> r.sources == sources + [Source(id, Trim(name), Trim(url))]
  {
    if !ValidInput(name, url) then Added(false, sources)
    else if UrlTaken(sources, url) then Added(false, sources)
    else Added(true, sources + [Source(id, Trim(name), Trim(url))])
  }

  /** Removing a trailing blank leaves a URL that has no surrounding blanks to begin with. */
  lemma TrailingBlankTrimmed(u: string)
    requires u != [] && !IsJsWhitespace(u[0]) && !IsJsWhitespace(u[|u| - 1])
    ensures Trim(u + " ") == u
  {
    assert TrimStart(u + " ") == u + " ";
    assert (u + " ")[..|u|] == u;
    assert TrimEnd(u) == u;
  }

  /**
   * The duplicate check compares the raw URL with the stored, trimmed ones, so the same
   * URL with a trailing blank gets in a second time.
   */
  lemma UntrimmedUrlDuplicates(first: Source, name: string)
    requires StartsWith(first.url, "http") && !IsJsWhitespace(first.url[|first.url| - 1])
    requires name != []
    ensures AddOutcome([first], name, first.url + " ", "1").ok
    ensures !UniqueUrls(AddOutcome([first], name, first.url + " ", "1").sources)
  {
    var u := first.url;
    TrailingBlankTrimmed(u);
    assert StartsWith(u + " ", "http") by {
      assert (u + " ")[..4] == u[..4];
    }
    assert !UrlTaken([first], u + " ") by {
      assert |u + " "| != |u|;
    }
    var r := AddOutcome([first], name, u + " ", "1");
    assert r.sources[0].url == r.sources[1].url;
  }

  /** `addSource` with the duplicate check made against the URL that would be stored. */
  function CheckedAddOutcome(sources: seq<Source>, name: string, url: string, id: string): (r: Added)
    ensures !r.ok ==> r.sources == sources
    ensures r.ok <==> ValidInput(name, url) && !UrlTaken(sources, Trim(url))
    ensures r.ok ==> r.sources == sources + [Source(id, Trim(name), Trim(url))]
  {
    if !ValidInput(name, url) then Added(false, sources)
    else if UrlTaken(sources, Trim(url)) then Added(false, sources)
    else Added(true, sources + [Source(id, Trim(name), Trim(url))])
  }

  /** The corrected check keeps the URLs of the list unique. */
  lemma CheckedAddKeepsUrlsUnique(sources: seq<Source>, name: string, url: string, id: string)
    requires UniqueUrls(sources)
    ensures UniqueUrls(CheckedAddOutcome(sources, name, url, id).sources)
  {
    var r := CheckedAddOutcome(sources, name, url, id);
    if r.ok {
      forall i, j | 0 <= i < j < |r.sources|
        ensures r.sources[i].url != r.sources[j].url
      {
        if j == |sources| {
          assert r.sources[i] == sources[i];
        }
      }
    }
  }

  /** `s => s.id !== sourceId`. */
  function IdIsNot(sourceId: string): Source -> bool {
    (s: Source) => s.id != sourceId
  }

  /** `removeSource(id)`: every source with that id goes, the rest stay in order. */
  lemma RemoveSpec(sources: seq<Source>, sourceId: string)
    ensures forall s :: s in Filter(sources, IdIsNot(sourceId)) ==> s.id != sourceId
    ensures forall s :: s in sources && s.id != sourceId ==> s in Filter(sources, IdIsNot(sourceId))
    ensures IsSubseq(Filter(sources, IdIsNot(sourceId)), sources)
    ensures forall s :: multiset(Filter(sources, IdIsNot(sourceId)))[s] == if s.id != sourceId then multiset(sources)[s] else 0
  {
    FilterSpec(sources, IdIsNot(sourceId));
  }

  /** Removing sources never makes two URLs equal. */
  lemma {:induction false} RemoveKeepsUrlsUnique(sources: seq<Source>, sourceId: string)
    requires UniqueUrls(sources)
    ensures UniqueUrls(Filter(sources, IdIsNot(sourceId)))
  {
    if sources != [] {
      var init := sources[..|sources| - 1];
      var last := sources[|sources| - 1];
      assert UniqueUrls(init);
      RemoveKeepsUrlsUnique(init, sourceId);
      var f := Filter(init, IdIsNot(sourceId));
      if last.id != sourceId {
        forall i | 0 <= i < |f|
          ensures f[i].url != last.url
        {
          assert f[i] in f;
          var k :| 0 <= k < |init| && init[k] == f[i];
          assert sources[k] == init[k];
        }
        var g := f + [last];
        forall i, j | 0 <= i < j < |g|
          ensures g[i].url != g[j].url
        {
          if j == |f| {
            assert g[i] == f[i];
          }
        }
      }
    }
  }

  /** The store: the reactive `sources` list. */
  class CustomSourcesStore {
    var sources: seq<Source>

    /** The store starts empty and loads once. */
    constructor(stored: Stored)
      ensures stored.Parsed? ==> sources == stored.list
      ensures !stored.Parsed? ==> sources == []
    {
      sources := [];
      new;
      LoadSources(stored);
    }

    /** `loadSources`: nothing stored keeps the list, unparseable text resets it, a parsed list replaces it. */
    method LoadSources(stored: Stored)
      modifies this
      ensures stored.Missing? ==> sources == old(sources)
      ensures stored.Unparseable? ==> sources == []
      ensures stored.Parsed? ==> sources == stored.list
    {
      match stored {
        case Missing =>
        case Unparseable => sources := [];
        case Parsed(list) => sources := list;
      }
    }

    /** `addSource(name, url)` at time `now`. */
    method AddSource(name: string, url: string, now: nat) returns (added: bool)
      modifies this
      ensures added == AddOutcome(old(sources), name, url, DecimalString(now)).ok
      ensures sources == AddOutcome(old(sources), name, url, DecimalString(now)).sources
    {
      if name == [] || url == [] || !StartsWith(url, "http") {
        return false;
      }
      if exists i :: 0 <= i < |sources| && sources[i].url == url {
        return false;
      }
      sources := sources + [Source(DecimalString(now), Trim(name), Trim(url))];
      return true;
    }

    /** `removeSource(sourceId)`. */
    method RemoveSource(sourceId: string)
      modifies this
      ensures sources == Filter(old(sources), IdIsNot(sourceId))
    {
      sources := Filter(sources, IdIsNot(sourceId));
    }
  }
}
