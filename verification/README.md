# Ad-aware HLS player core and local stores, in Dafny

This project models the client-side logic of a video-on-demand web player:

- **The ad-aware HLS loader** (`src/player.js`). It has two option flags, `adFilteringEnabled` and `debugMode`, read from `p2pConfig`.
  - The manifest stripper `_stripManifest` runs one pass over the playlist lines. It tracks whether it is inside an ad break and counts down a low-latency `EXT-X-SKIP` directive. It drops ad-break lines and blacklisted segment URIs together with their `#EXTINF:` lines, and puts one `#EXT-X-DISCONTINUITY` marker where each break started.
  - `load` makes a three-way decision for each request: strip a manifest or level playlist, block an ad fragment, or load it untouched.
  - `getHlsConfig` supplies the option defaults.
- **The watch history** (`src/utils/history.js`): a list of at most 100 entries keyed `source_videoId`, updated in place or prepended, and sorted by recency.
- **The rate limiter** (`src/utils/rate-limiter.js`): a sliding window of timestamps per key, stored under `rate_limiter_<key>`.
- **The custom-source store** (`src/store/customSourcesStore.js`): a validated list of user-added API sources, de-duplicated by URL.
- **The watch-progress store** (`src/store/watchProgress.js`): a map from `videoId_source` to the last saved episode and position.

## Modules

- `Wrappers`: an `Option` type.
- `Text`: the JavaScript string operations used, over `seq<char>`, and the `a_b` key template of the history and the progress store:
  - `trim`;
  - ASCII `toLowerCase`;
  - `startsWith` and `includes`;
  - `split(/\r?\n/)` and `join("\n")`;
  - decimal `toString` and `parseInt`.
- `Seqs`: subsequences and `filter`.
- `AdRules`: each regular expression of the player is written as the string predicate its `test` decides.
- `ManifestStrip`: the loop of `_stripManifest` as a left fold `Run` of one `Step` per line. It takes the trim and the four tests as a `Rules` value, so every lemma holds for any rules. `PlayerRules` is the player's own.
- `Player`: the `AdAwareLoader` class, `DetectAdUrl` and `getHlsConfig`. `AdAwareLoader.StripManifest` is the imperative loop, proved to compute `ManifestStrip.Strip`.
- `History`, `RateLimiter`, `CustomSources` and `WatchProgress`: one class each over the state the source mutates.
  - Storage is a field of the class.
  - The clock is a method parameter.
  - In the history, the rate limiter and the custom-source store, missing or unparseable stored data is a constructor of a small datatype, or `None`.
  - The progress store starts from the stored map, or from `None` when nothing is stored. It has no case for unparseable or `null` stored text, because the source throws on both (see "Left out").
- `AdRuleCases`: concrete lines run through the ad-recognition rules. It also holds corrected start and end tests, `IntendedRules`, for the two findings below.

## Model

| member | source | states |
|---|---|---|
| Text.TrimOfClean | src/player.js:59 | a line with no whitespace at either end trims to itself |
| Text.SplitLines | src/player.js:54 | `split(/\r?\n/)` gives at least one piece and no piece holds a line feed; a carriage return just before a line feed belongs to the separator |
| Text.Join | src/player.js:130 | `join("\n")`: the lines with one line feed between neighbours |
| Text.ToLowerAscii | src/player.js:100 | the lower-cased line has the same length, and each character is lower-cased on its own |
| Text.DecimalString | src/store/customSourcesStore.js:35 | `Date.now().toString()`: a non-empty run of digits with no leading zero |
| Text.Trim | src/player.js:59 | the trimmed line is no longer than the line and neither starts nor ends with whitespace |
| Text.TrimIsEmptyIffBlank | src/player.js:61 | a line trims to the empty string exactly when every character is whitespace, so exactly the blank lines are skipped |
| Text.SplitJoin | src/player.js:54 | splitting the newline-joined lines gives the lines back, provided no line but the last ends in a carriage return |
| Text.UnderscoreJoin | src/utils/history.js:49 | the key is the first part, an underscore, then the second part: `source_videoId` for history ids and `videoId_source` for progress keys (src/store/watchProgress.js:13) |
| Text.UnderscoreJoinInjective | src/store/watchProgress.js:13 | two pairs share a key only when they are equal, provided no first part contains `_` |
| Text.UnderscoreJoinCollides | src/store/watchProgress.js:13 | when the first part contains `_`, two different pairs share a key, so saving one overwrites the other |
| Text.DecimalRoundTrip | src/store/customSourcesStore.js:35 | reading back the decimal text of a number gives the number |
| AdRules.MatchesRule | src/player.js:10-14 | `rule.test(line)`: a host rule needs an `http://` or `https://` scheme, then a host label ending in the word and a dot, more host and a `/`; a path rule needs the part anywhere, ignoring case |
| AdRules.IsAdUrl | src/player.js:99-116 | a URI line is an ad when its lower-cased text contains a keyword or one of the three regex rules matches |
| AdRules.IsAdTrigger | src/player.js:15 | AD_TRIGGER_RE: a tag head, then on the same line a start marker, ignoring case |
| AdRules.IsAdEnd | src/player.js:16 | AD_END_RE: a tag head, then on the same line an end marker, ignoring case |
| AdRules.IsAdFragmentUrl | src/player.js:17 | AD_FRAGMENT_URL_RE: a `/`, an ad name, then `.ts` within the same path segment, followed by `?`, `#` or the end |
| AdRules.SkippedSegments | src/player.js:19 | a SKIP count is found only in a line longer than the directive's tag |
| AdRules.DigitsThenStop | src/player.js:19 | `\d+` consumes exactly a run of digits that is followed by a non-digit or the end |
| AdRules.SkipSearchPassesHashless | src/player.js:19 | the search for the directive passes over any prefix without a `#` |
| AdRules.DirectiveAtStart | src/player.js:19 | a line that opens with the directive and a run of digits yields the value of those digits |
| AdRules.SkipDirectiveValue | src/player.js:81-83 | the count taken from a line is the number written after the directive: with no `#` before it, the directive followed by the numeral of n and a non-digit (or the end) gives n |
| AdRules.AdvertisementsRuleImpliesKeyword | src/player.js:13 | a line the third regex rule matches contains the keyword "advertis" once lower-cased |
| AdRules.AdUrlWithoutThirdRule | src/player.js:99-116 | the blacklist verdict is the same with or without the third regex rule |
| AdRules.TagPatternNeedsHash | src/player.js:15-16 | neither ad-break pattern matches a line without a `#` |
| AdRules.NoHeadNoTagPattern | src/player.js:15-16 | a line that no tag head opens, and with no later `#`, matches neither ad-break pattern |
| ManifestStrip.Step | src/player.js:61-128 | one loop iteration on the raw line, its branches in the source's order (used by the lemmas below) |
| ManifestStrip.Run | src/player.js:57-129 | the loop state after the given lines, starting outside a break with a zero counter and no output |
| ManifestStrip.Strip | src/player.js:46-131 | split, run the loop, join the emitted lines |
| ManifestStrip.PopExtinf | src/player.js:92-94 | the emitted lines lose at most their last line, and only when that line starts with `#EXTINF:` |
| ManifestStrip.RunSnoc | src/player.js:57-129 | processing one more line is one more loop step |
| ManifestStrip.Candidate | src/player.js:61-68 | each line contributes at most one output line |
| ManifestStrip.Candidates | src/player.js:57-129 | there is one possible contribution per non-blank line, and each is the marker or an input line |
| ManifestStrip.StepEmitsAtMostOne | src/player.js:61-128 | one loop step leaves the output alone, appends the line's contribution, or withdraws one `#EXTINF:` line |
| ManifestStrip.CandidateStep | src/player.js:61-128 | one step keeps the output a subsequence of the contributions so far |
| ManifestStrip.OutputIsSubseqOfCandidates | src/player.js:57-130 | the emitted lines are a subsequence of the contributions: kept lines are untrimmed and in input order |
| ManifestStrip.OutputBound | src/player.js:57-130 | there are no more emitted lines than non-blank input lines, and each is the marker or an input line |
| ManifestStrip.BreakStart | src/player.js:63-67 | an ad-break start line becomes exactly one marker and opens a break, whether or not a break was open |
| ManifestStrip.BreakDropsAll | src/player.js:76-79 | inside a break, lines that neither start nor end a break are all dropped and change nothing |
| ManifestStrip.BreakClosure | src/player.js:63-79 | a start line, break contents and an end line leave one marker and close the break |
| ManifestStrip.EndOutsideBreakKept | src/player.js:70-74 | an end-pattern line outside a break is kept verbatim |
| ManifestStrip.SkipSetsCounter | src/player.js:81-86 | a SKIP directive outside a break is dropped and overwrites the counter with its number |
| ManifestStrip.SkipStep | src/player.js:89-97 | while the counter is positive, a URI line is dropped, the counter drops by one and at most one `#EXTINF:` line is withdrawn |
| ManifestStrip.SkipDropsUris | src/player.js:89-97 | a run of URI lines no longer than the counter is dropped entirely, the counter falls by its length, and at most that many `#EXTINF:` lines are withdrawn |
| ManifestStrip.TagLineKept | src/player.js:61-89 | a tag line that trims to itself and is neither a break start nor a SKIP directive is kept |
| ManifestStrip.OutputIsKept | src/player.js:57-128 | every emitted line is kept by a second pass: never blank, never a break start or SKIP directive, never a blacklisted URI |
| ManifestStrip.RunOnKept | src/player.js:57-128 | lines that are all kept pass through the loop unchanged, with no break open and a zero counter |
| ManifestStrip.StripLinesIdempotent | src/player.js:57-128 | running the loop over its own output gives the same output |
| ManifestStrip.MismatchAt | src/player.js:15 | a case-insensitive prefix test fails where one character differs |
| ManifestStrip.TrimDiscontinuity | src/player.js:66 | the marker has no surrounding whitespace |
| ManifestStrip.NoHashInDiscontinuityTail | src/player.js:66 | the marker has `#` only as its first character |
| ManifestStrip.NoHeadOpensExtXDi | src/player.js:15 | none of the six tag heads opens a line starting `#EXT-X-DI` |
| ManifestStrip.NoHeadOpensDiscontinuity | src/player.js:15 | none of the six tag heads opens the marker |
| ManifestStrip.DiscontinuityIsNoTrigger | src/player.js:15 | the marker does not match the ad-break start pattern |
| ManifestStrip.DiscontinuityIsNoSkip | src/player.js:19 | the marker is not a SKIP directive |
| ManifestStrip.PlayerMarkerIsInert | src/player.js:66 | the player's marker survives a second pass |
| ManifestStrip.PlayerRulesRestrippable | src/player.js:59-66 | the player's rules meet what `RestripIsIdentity` needs |
| ManifestStrip.RestripIsIdentity | src/player.js:46-131 | stripping an already stripped playlist returns it unchanged, given no line ends in a carriage return |
| AdRuleCases.DateRangeAdStartsBreak | src/player.js:15 | `#EXT-X-DATERANGE:CLASS="ad"` matches the start pattern |
| AdRuleCases.DateRangeCueInEndsBreak | src/player.js:16 | `#EXT-X-DATERANGE:CUE-IN` matches the end pattern |
| AdRuleCases.AdsPathIsAdUrl | src/player.js:99-107 | `/ads/1.ts` is blacklisted by the keyword `/ads/` |
| AdRuleCases.AdServerHostIsAdUrl | src/player.js:11 | every `http://adserver.<host>/<path>` URI is blacklisted by the first regex rule |
| AdRuleCases.AdFragmentIsBlocked | src/player.js:17 | `/ad1.ts` matches the ad-fragment pattern |
| AdRuleCases.MarkersOpenWithInitials | src/player.js:15-16 | every start and end marker opens with `C`, `S` or `P` |
| AdRuleCases.NoMarkerAhead | src/player.js:15-16 | text in which no character is one of those initials, in either case, has no marker ahead |
| AdRuleCases.OnlyCueHeadOpens | src/player.js:15 | of the six tag heads, only `#EXT-X-CUE` opens a line that starts with it |
| AdRuleCases.CueLineNoPattern | src/player.js:15-16 | a line that opens with `#EXT-X-CUE` and goes on with no `#` and no marker initial matches neither pattern: the head consumes the `CUE` the markers need |
| AdRuleCases.CueOutIsNoTrigger | src/player.js:15-16 | `#EXT-X-CUE-OUT:<seconds>` matches neither the start nor the end pattern |
| AdRuleCases.CueInIsNoEnd | src/player.js:15-16 | `#EXT-X-CUE-IN` matches neither the end nor the start pattern |
| AdRuleCases.CueOutLineTrimmed | src/player.js:59 | the cue-out line trims to itself |
| AdRuleCases.CueOutLineShape | src/player.js:19 | the cue-out line is a tag with no later `#`, so it is no SKIP directive |
| AdRuleCases.TagKeptOutsideBreak | src/player.js:61-127 | outside a break, a tag line that trims to itself, starts no break and is no SKIP directive is appended as it is |
| AdRuleCases.CueOutKeptAsTag | src/player.js:61-127 | as written, `#EXT-X-CUE-OUT:<seconds>` outside a break is kept as an ordinary tag and opens no break |
| AdRuleCases.CueInTrimmed | src/player.js:59 | `#EXT-X-CUE-IN` trims to itself |
| AdRuleCases.CueInLeavesBreakOpen | src/player.js:70-79 | as written, `#EXT-X-CUE-IN` inside a break is dropped and the break stays open |
| AdRuleCases.PlacementEndMatchesBoth | src/player.js:15-16 | `#EXT-X-DATERANGE:PLACEMENT-OPPORTUNITY-END` matches both the start and the end pattern |
| AdRuleCases.PlacementEndTrimmed | src/player.js:59 | that end line trims to itself |
| AdRuleCases.PlacementEndReopens | src/player.js:63-68 | as written, that end line always leaves the loop in a break and emits one more marker, because the start test runs first |
| AdRuleCases.HashlessNoMatch | src/player.js:15-16 | a search for a part that starts with `#` fails in text without a `#` |
| AdRuleCases.CueOutTagNotCueIn | src/player.js:15-16 | a line opening with `#EXT-X-CUE-OUT` and no other `#` contains no `#EXT-X-CUE-IN` |
| AdRuleCases.CueOutLineNotCueIn | src/player.js:15-16 | the cue-out line opens with the cue-out tag and contains no cue-in tag |
| AdRuleCases.IntendedCueOut | src/player.js:15-16 | under the corrected tests the cue-out line is a start line and not an end line |
| AdRuleCases.IntendedCueIn | src/player.js:15-16 | under the corrected tests every line opening with `#EXT-X-CUE-IN` is an end line and not a start line |
| AdRuleCases.IntendedBreakCloses | src/player.js:63-79 | under the corrected tests a start line, break contents and an end line leave one marker and close the break |
| AdRuleCases.IntendedCueOutOpens | src/player.js:63-68 | under the corrected tests the cue-out line opens a break and is replaced by the marker |
| AdRuleCases.IntendedCueInCloses | src/player.js:70-74 | under the corrected tests a cue-in line closes an open break and is dropped |
| AdRuleCases.IntendedEndCloses | src/player.js:70-74 | under the corrected tests every line the end pattern matches closes an open break and is dropped, even when the start pattern matches it too |
| AdRuleCases.IntendedPlacementEndCloses | src/player.js:70-74 | under the corrected tests PLACEMENT-OPPORTUNITY-END closes an open break and is dropped |
| AdRuleCases.DiscontinuityNotCueOut | src/player.js:66 | the marker contains no cue-out tag |
| AdRuleCases.IntendedRulesRestrippable | src/player.js:59-66 | the corrected tests keep the marker inert, so `RestripIsIdentity` holds for them too |
| Player.CustomConfig | src/player.js:29 | a missing `p2pConfig` reads as an object with nothing set |
| Player.AdAwareLoader.constructor | src/player.js:27-31 | filtering is on unless `adFilteringEnabled` is exactly `false`; debugging is on only when `debugMode` is exactly `true` |
| Player.AdAwareLoader.StripManifest | src/player.js:46-131 | filtering off returns the text unchanged; filtering on computes exactly `Strip(PlayerRules, text)` |
| Player.AdAwareLoader.Route | src/player.js:133-157 | strip exactly for manifest or level requests with filtering on; block exactly for ad-fragment URLs with filtering on; with filtering off, always the default load |
| Player.AdAwareLoader.OnManifestSuccess | src/player.js:139-144 | only a text body is stripped; any other body passes through unchanged |
| Player.DetectAdUrl | src/player.js:99-116 | the two early-exit loops decide exactly `IsAdUrl` of the trimmed line |
| Player.HlsP2pConfig | src/player.js:168-171 | both flags come out as booleans: filtering true unless given as `false`, debugging true only when given as `true` |
| Player.GetHlsConfig | src/player.js:165-171 | the generated `p2pConfig` always has two boolean flags |
| Player.DefaultsWithoutOptions | src/player.js:165-171 | with no options, filtering is on and debugging is off |
| Player.ConfigFlagsReachLoader | src/player.js:29-31 | a loader built from `getHlsConfig(options)` has the flags the options ask for |
| Player.HlsConfigIdempotent | src/player.js:168-171 | feeding a generated `p2pConfig` back into `getHlsConfig` changes nothing |
| History.HistoryId | src/utils/history.js:49 | the entry id `${source}_${videoId}` |
| History.FindIndex | src/utils/history.js:62 | the first index holding the id, or -1 exactly when no entry has it |
| History.FindById | src/utils/history.js:51 | none exactly when no entry has the id; otherwise the entry at `FindIndex` |
| History.MakeEntry | src/utils/history.js:64-74 | the entry carries every given field, the id, and the time |
| History.Upserted | src/utils/history.js:76-87 | the written list never holds more than 100 entries |
| History.UpsertExisting | src/utils/history.js:76-78 | an id already present is replaced in place and nothing else changes, up to the cap |
| History.UpsertNew | src/utils/history.js:79-82 | a new id goes first and the others shift down by one, up to the cap |
| History.UpsertThenFind | src/utils/history.js:58-87 | the entry is found again exactly when the id was new or first held within the first 100 places |
| History.UpsertWithinCapFound | src/utils/history.js:58-87 | on a list within the cap, the update is always found again |
| History.RemoveSpec | src/utils/history.js:98 | no entry keeps the id, and the rest keep their order and their number |
| History.Insert | src/utils/history.js:39 | one insertion step of the sort adds the entry and keeps the rest |
| History.SortByRecency | src/utils/history.js:39 | the sorted list is a permutation of the stored one |
| History.InsertMembers | src/utils/history.js:39 | an insertion adds only the inserted entry |
| History.InsertKeepsOrder | src/utils/history.js:39 | inserting into a newest-first list keeps it newest first |
| History.SortedIsNewestFirst | src/utils/history.js:39 | the sorted list is newest first |
| History.InsertStable | src/utils/history.js:39 | an insertion keeps entries watched at the same time in their order |
| History.SortIsStable | src/utils/history.js:39 | the sort keeps entries watched at the same time in their original order |
| History.HistoryManager.Load | src/utils/history.js:8-14 | a missing or unreadable list reads as empty |
| History.HistoryManager.GetSortedHistory | src/utils/history.js:36-40 | the sorted history holds exactly the stored entries |
| History.HistoryManager.GetProgress | src/utils/history.js:48-52 | the entry with id `source_videoId`, or none exactly when no entry has that id |
| History.HistoryManager.UpdateProgress | src/utils/history.js:58-90 | the stored list is the replace-or-prepend of the new entry cut to 100, and the entry is found again |
| History.HistoryManager.RemoveEntry | src/utils/history.js:96-100 | the stored list is the old one without the id |
| History.HistoryManager.ClearAll | src/utils/history.js:105-107 | the stored list is empty |
| RateLimiter.StorageKey | src/utils/rate-limiter.js:15 | the storage key is the prefix `rate_limiter_` followed by the key |
| RateLimiter.StorageKeyInjective | src/utils/rate-limiter.js:15 | different keys never share a storage slot |
| RateLimiter.WindowMs | src/utils/rate-limiter.js:17 | the window in milliseconds: minutes times 60 times 1000 |
| RateLimiter.Recent | src/utils/rate-limiter.js:31 | the pruned list holds exactly the timestamps with `now - ts < windowMs`, and is no longer |
| RateLimiter.RecentSpec | src/utils/rate-limiter.js:31 | pruning keeps order and keeps each in-window timestamp as often as it occurs |
| RateLimiter.RecentIdempotent | src/utils/rate-limiter.js:31 | pruning an already pruned list at the same time changes nothing |
| RateLimiter.RecentLater | src/utils/rate-limiter.js:31-34 | pruning now and again later equals pruning only later: the stored prune loses nothing a later check counts |
| RateLimiter.RecentCountFalls | src/utils/rate-limiter.js:31 | with no new records, the count in the window never grows as time passes |
| RateLimiter.CheckThenRecordWithinLimit | src/utils/rate-limiter.js:37-42 | a record made after an allowed check at the same time leaves at most `limit` timestamps in the window |
| RateLimiter.RateLimiter.Stamps | src/utils/rate-limiter.js:20-28 | missing or unparseable stored data reads as the empty list |
| RateLimiter.RateLimiter.Check | src/utils/rate-limiter.js:14-43 | the key's slot is rewritten with the pruned list and nothing else changes; the answer is true exactly when the pruned count is below the limit; the count never grows |
| RateLimiter.RateLimiter.Record | src/utils/rate-limiter.js:49-65 | the time is appended to the key's list, which grows by exactly one, and nothing else changes |
| CustomSources.ValidInput | src/store/customSourcesStore.js:25 | the input passes validation when name and URL are non-empty and the raw URL starts with `http` |
| CustomSources.UrlTaken | src/store/customSourcesStore.js:30 | some stored source has exactly this URL |
| CustomSources.AddOutcome | src/store/customSourcesStore.js:24-40 | invalid input or a URL already present (compared untrimmed) answers false and leaves the list; otherwise one source with the id and the trimmed name and URL is appended |
| CustomSources.TrailingBlankTrimmed | src/store/customSourcesStore.js:37 | trimming a URL with one trailing blank gives the URL |
| CustomSources.UntrimmedUrlDuplicates | src/store/customSourcesStore.js:30-38 | adding a stored URL again with a trailing blank succeeds and leaves two sources with the same URL |
| CustomSources.CheckedAddOutcome | src/store/customSourcesStore.js:24-40 | as `AddOutcome`, but the duplicate check compares the trimmed URL |
| CustomSources.CheckedAddKeepsUrlsUnique | src/store/customSourcesStore.js:30-38 | with the corrected check, adding never gives two sources the same URL |
| CustomSources.RemoveSpec | src/store/customSourcesStore.js:44 | every source with the id goes; the rest stay, in order, as often as they were |
| CustomSources.RemoveKeepsUrlsUnique | src/store/customSourcesStore.js:44 | removing sources never makes two URLs equal |
| CustomSources.CustomSourcesStore.constructor | src/store/customSourcesStore.js:8-53 | the store starts from the stored list, or empty when there is none |
| CustomSources.CustomSourcesStore.LoadSources | src/store/customSourcesStore.js:11-21 | nothing stored keeps the list, unparseable text resets it, and a parsed list replaces it |
| CustomSources.CustomSourcesStore.AddSource | src/store/customSourcesStore.js:24-40 | the answer and the new list are those of `AddOutcome`, with the id the decimal text of the time |
| CustomSources.CustomSourcesStore.RemoveSource | src/store/customSourcesStore.js:43-45 | the list is the old one without the sources carrying the id |
| WatchProgress.ProgressKey | src/store/watchProgress.js:13 | the map key `${videoId}_${source}` |
| WatchProgress.WatchProgressStore.constructor | src/store/watchProgress.js:7-10 | the state starts from the stored map, or from an empty one |
| WatchProgress.WatchProgressStore.GetProgress | src/store/watchProgress.js:20-23 | the saved record for the key, or none exactly when the key is absent |
| WatchProgress.WatchProgressStore.SaveProgress | src/store/watchProgress.js:12-19 | the key's record is replaced as a whole, other keys keep theirs, the map is written, and a get returns the new record |
| WatchProgress.WatchProgressStore.ClearProgress | src/store/watchProgress.js:24-30 | a present key is deleted and the map written; an absent key changes and writes nothing; afterwards a get returns none |

## Left out

- The hls.js integration is not modelled: subclassing the default loader, `super.load`, and rewiring `onSuccess`/`onError`. `Route` gives the decision, and `OnManifestSuccess` gives what the wrapped success callback does to the body.
- Logging is not modelled: every `console` call and the `debugMode` log lines. They have no effect on the results. `debugMode` is kept as a flag.
- The hls.js tuning numbers in `getHlsConfig` (src/player.js:175-178) and the `loader` field are not modelled. They are library configuration. `HlsConfig` holds only `p2pConfig`.
- `Player.GetHlsConfig`: `getHlsConfig(null)` is not modelled. In the source it throws, because only `undefined` takes the default. `Option` models a missing argument and an options object only.
- `Player.JsValue`: truthiness is not modelled beyond `false`, `true`, `undefined`, `null` and "anything else". That is all the `!== false`, `=== true` and `|| {}` tests distinguish.
- `AdRules`: the `i` flag is modelled as ASCII case folding. JavaScript's `toLowerCase` also folds non-ASCII letters, and `AdRules` does not model that.
- `AdRules.SkippedSegments`: the value is an unbounded natural number. `parseInt` loses precision above 2^53, and `AdRules.SkippedSegments` does not model that.
- LL_HLS_PART_RE (src/player.js:18) is used only in a log line, so it is not modelled.
- `ManifestStrip.Rules`: the loop's trim and four tests are a record of functions, and `PlayerRules` is the player's own. The loop therefore does not call the regex predicates directly. `DetectAdUrl` is proved equal to `IsAdUrl` separately.
- `ManifestStrip.RestripIsIdentity`: idempotence is proved only for playlists with no line ending in a carriage return. Without that condition it does not hold: a kept line "x\r" is joined as "x\r\n", which the next split reads as the line "x". No lemma exhibits this concrete input.
- `localStorage` is not modelled as a shared store. Each class holds its own slot or slots. A failing `setItem` (a full quota) is not modelled, and neither is the `try`/`catch` around saving in src/utils/history.js:20-26.
- JSON is not modelled. Parsed data is typed directly. Stored text that parses to something other than the expected shape is not modelled: a rate-limiter slot holding a number would make `filter` throw. That text counts as parsed or as unparseable, never as that case.
- `WatchProgress.WatchProgressStore.constructor`: unparseable stored text is not modelled. `JSON.parse` at src/store/watchProgress.js:8 has no `try`, so such text makes the store's initialisation throw.
- `WatchProgress.WatchProgressStore.constructor`: stored text `null` is not modelled. It parses to `null`, and every later action throws when it indexes `progress`.
- `WatchProgress.WatchProgressStore.GetProgress`: keys that name members of `Object.prototype` are not modelled. `progress` is a plain object, and every key holds a `_`, so `__proto__` (video id `_`, source `proto__`) or `__defineGetter__` can be formed. For such a key `getProgress` returns the inherited value, where the model returns none.
- `WatchProgress.WatchProgressStore.SaveProgress`: saving under `__proto__` is not modelled. In the source it replaces the object's prototype instead of adding a key, and `JSON.stringify` leaves it out of the written map. The model stores it as an ordinary key.
- Timestamps, positions and durations are integers, not floating-point numbers. Window arithmetic and the sort's `b - a` comparison are exact.
- `Date.now()` is not modelled. The time is a parameter of the methods that read it.
- Vue/Pinia reactivity is not modelled: `ref`, `defineStore`, and the `watch` that persists the custom sources (src/store/customSourcesStore.js:48-50).
- `CustomSources.CustomSourcesStore.AddSource` and `CustomSources.CustomSourcesStore.RemoveSource` do not model the write to storage, because that write comes from reactivity and not from the methods.
- The rest of the application is not part of this model: the HTTP client (src/services/api.js), the scraping helper (src/utils/spiderHelper.js), the router (src/router/index.js) and the bootstrap (src/main.js).

## Findings

| source | as written | input that shows it | evidently intended | confidence | as-written member | corrected member |
|---|---|---|---|---|---|---|
| src/player.js:15-16 | the tag head `#EXT-X-CUE` consumes the `CUE` that the `CUE-OUT` and `CUE-IN` markers need, so neither pattern matches the plain cue tags | `#EXT-X-CUE-OUT:30`, ad segment lines, `#EXT-X-CUE-IN`: the cue-out line and the segments are kept and no break is opened; inside a break opened otherwise, the cue-in line does not close it | the plain cue-out tag opens a break and the plain cue-in tag closes it | medium, not executed | AdRuleCases.CueOutKeptAsTag | AdRuleCases.IntendedCueOutOpens |
| src/player.js:63-74 | `PLACEMENT-OPPORTUNITY-END` also matches the start pattern through its `PLACEMENT-OPPORTUNITY` alternative, and the start test runs first | inside a break, `#EXT-X-DATERANGE:PLACEMENT-OPPORTUNITY-END` emits a second marker and leaves the break open | an end line closes the break and is dropped | medium, not executed | AdRuleCases.PlacementEndReopens | AdRuleCases.IntendedPlacementEndCloses |
| src/store/customSourcesStore.js:30-38 | the duplicate check compares the raw URL with stored URLs, but the URL is stored trimmed | a list holding "http://x", then `addSource("n", "http://x ")`: accepted, and the list holds "http://x" twice | no two custom sources with the same URL, so the check should compare the trimmed URL | medium, not executed | CustomSources.UntrimmedUrlDuplicates | CustomSources.CheckedAddKeepsUrlsUnique |

The player model keeps the code as written: `PlayerRules` and `AddSource` behave as the source does. The corrected definitions, and the properties proved about them, sit beside the as-written ones: `IntendedRules` (with `IntendedCueInCloses`, `IntendedBreakCloses` and `IntendedRulesRestrippable`) and `CheckedAddOutcome`.
