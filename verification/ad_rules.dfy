/**
 * The ad-recognition rules of the player: the keyword list, the three URL regexes,
 * the ad-break start and end tag regexes, the fragment-URL regex and the
 * low-latency SKIP directive. Each regex is written out as the string predicate
 * that its `test` (or `match`) decides.
 *
 * All of these regexes but the SKIP one carry the `i` flag and no `u` flag, so a
 * pattern letter matches exactly the ASCII letter in either case; `UpperAscii`
 * gives that comparison.
 */
module AdRules {
  import opened Wrappers
  import opened Text

  /** AD_KEYWORDS: a URL line is an ad when its lower-cased text contains one of these. */
  const AdKeywords: seq<string> := [
    "/ads/", "advertis", "//ad.", ".com/ad/", ".com/ads/", "tracking",
    "doubleclick.net", "googleads.g.doubleclick.net", "googlesyndication.com",
    "imasdk.googleapis.com", "videoad", "preroll", "midroll", "postroll", "imasdk"
  ]

  /** The two shapes of AD_REGEX_RULES. */
  datatype RegexRule =
    | HostLabel(word: string)   // /^https?:\/\/[^\/]*?WORD\.[^\/]+\//i
    | PathPart(part: string)    // /PART/i, anywhere in the line

  /** AD_REGEX_RULES, in order. */
  const AdRegexRules: seq<RegexRule> := [HostLabel("adserver"), HostLabel("sponsor"), PathPart("/advertisements/")]

  /** The text after a leading `https?://` (any case), if the line starts with one. */
  function AfterScheme(s: string): Option<string> {
    if StartsWithIgnoringCase(s, "https://") then Some(s[8..])
    else if StartsWithIgnoringCase(s, "http://") then Some(s[7..])
    else None
  }

  /** `[^\/]+\/` matches at the start of `t`. */
  predicate SlashAfterNonSlash(t: string) {
    |t| >= 2 && t[0] != '/' && '/' in t[1..]
  }

  /** `[^\/]*?WORD\.[^\/]+\/` matches at the start of `r` (the host part after the scheme). */
  predicate HostLabelAt(r: string, word: string)
    decreases |r|
  {
    || (StartsWithIgnoringCase(r, word + ".") && SlashAfterNonSlash(r[|word| + 1..]))
    || (r != [] && r[0] != '/' && HostLabelAt(r[1..], word))
  }

  /** `rule.test(s)`. */
  predicate MatchesRule(rule: RegexRule, s: string) {
    match rule
    case HostLabel(word) => AfterScheme(s).Some? && HostLabelAt(AfterScheme(s).value, word)
    case PathPart(part) => ContainsIgnoringCase(s, part)
  }

  predicate HasAdKeyword(lower: string) {
    exists k :: k in AdKeywords && Contains(lower, k)
  }

  predicate MatchesAdRegex(s: string) {
    exists rule :: rule in AdRegexRules && MatchesRule(rule, s)
  }

  /** The blacklist verdict on a trimmed URL line: one keyword or one regex hit is enough. */
  predicate IsAdUrl(trimmed: string) {
    HasAdKeyword(ToLowerAscii(trimmed)) || MatchesAdRegex(trimmed)
  }

  // ---- AD_TRIGGER_RE and AD_END_RE ----

  /** `#EXT(?:-X)?-(?:CUE|SCTE35|DATERANGE)`, spelled out alternative by alternative. */
  const TagHeads: seq<string> := [
    "#EXT-X-CUE", "#EXT-CUE", "#EXT-X-SCTE35", "#EXT-SCTE35", "#EXT-X-DATERANGE", "#EXT-DATERANGE"
  ]

  /** The alternatives that end AD_TRIGGER_RE (`CLASS="?ad"?` written out). */
  const StartMarkers: seq<string> := [
    "CLASS=\"ad\"", "CLASS=\"ad", "CLASS=ad\"", "CLASS=ad",
    "CUE-OUT", "SCTE35-OUT", "PLACEMENT-OPPORTUNITY", "SCTE35-OUT-CONT"
  ]

  /** The alternatives that end AD_END_RE. */
  const EndMarkers: seq<string> := ["CUE-IN", "SCTE35-IN", "PLACEMENT-OPPORTUNITY-END"]

  /** The characters a regex `.` does not match. */
  predicate IsLineTerminator(c: char) {
    c == '\n' || c == '\r' || c == '\U{2028}' || c == '\U{2029}'
  }

  /** `.*?(?:MARKERS)` matches at the start of `t`. */
  predicate MarkerAhead(t: string, markers: seq<string>)
    decreases |t|
  {
    || (exists m :: m in markers && StartsWithIgnoringCase(t, m))
    || (t != [] && !IsLineTerminator(t[0]) && MarkerAhead(t[1..], markers))
  }

  /** `/HEAD.*?(?:MARKERS)/i.test(s)`: the tag head occurs somewhere, followed on the same line by a marker. */
  predicate TagPattern(s: string, markers: seq<string>)
    decreases |s|
  {
    && s != []
    && (|| (exists h :: h in TagHeads && StartsWithIgnoringCase(s, h) && MarkerAhead(s[|h|..], markers))
        || TagPattern(s[1..], markers))
  }

  /** AD_TRIGGER_RE.test(s). */
  predicate IsAdTrigger(s: string) {
    TagPattern(s, StartMarkers)
  }

  /** AD_END_RE.test(s). */
  predicate IsAdEnd(s: string) {
    TagPattern(s, EndMarkers)
  }

  // ---- LL_HLS_SKIP_RE ----

  const SkipTag := "#EXT-X-SKIP:SKIPPED-SEGMENTS="

  /**
   * `parseInt(s.match(LL_HLS_SKIP_RE)[1], 10)`, or None when there is no match: the
   * leftmost (case-sensitive) SkipTag followed by at least one digit, and all the
   * digits after it.
   */
  function SkippedSegments(s: string): (n: Option<nat>)
    ensures n.Some? ==> |s| > |SkipTag|
    decreases |s|
  {
    if s == [] then None
    else if StartsWith(s, SkipTag) && |s| > |SkipTag| && IsDigit(s[|SkipTag|]) then
      Some(DigitsValue(LeadingDigits(s[|SkipTag|..])))
    else SkippedSegments(s[1..])
  }

  /** A run of digits followed by a non-digit (or nothing) is exactly what `\d+` consumes. */
  lemma {:induction false} DigitsThenStop(ds: string, tail: string)
    requires forall c :: c in ds ==> IsDigit(c)
    requires tail == [] || !IsDigit(tail[0])
    ensures LeadingDigits(ds + tail) == ds
  {
    if ds != [] {
      assert ds[0] in ds;
      assert (ds + tail)[1..] == ds[1..] + tail;
      DigitsThenStop(ds[1..], tail);
    }
  }

  /** The search for the directive passes over a prefix that holds no `#`. */
  lemma {:induction false} SkipSearchPassesHashless(p: string, rest: string)
    requires '#' !in p
    ensures SkippedSegments(p + rest) == SkippedSegments(rest)
  {
    if p != [] {
      assert p[0] in p;
      assert (p + rest)[0] == p[0];
      assert !StartsWith(p + rest, SkipTag) by {
        assert SkipTag[0] == '#';
      }
      assert (p + rest)[1..] == p[1..] + rest;
      assert SkippedSegments(p + rest) == SkippedSegments(p[1..] + rest);
      SkipSearchPassesHashless(p[1..], rest);
    } else {
      assert p + rest == rest;
    }
  }

  /** A line that opens with the directive and a run of digits yields the value of those digits. */
  lemma DirectiveAtStart(ds: string, tail: string)
    requires ds != [] && forall c :: c in ds ==> IsDigit(c)
    requires tail == [] || !IsDigit(tail[0])
    ensures SkippedSegments(SkipTag + ds + tail) == Some(DigitsValue(ds))
  {
    var s := SkipTag + ds + tail;
    assert s[..|SkipTag|] == SkipTag;
    assert s[|SkipTag|..] == ds + tail;
    assert ds[0] in ds;
    DigitsThenStop(ds, tail);
  }

  /**
   * The count is the number written after the leftmost directive: with no `#` before
   * it, the directive followed by the numeral of `n` (and then a non-digit, or the end
   * of the line) gives `n`.
   */
  lemma SkipDirectiveValue(p: string, n: nat, tail: string)
    requires '#' !in p
    requires tail == [] || !IsDigit(tail[0])
    ensures SkippedSegments(p + SkipTag + DecimalString(n) + tail) == Some(n)
  {
    var ds := DecimalString(n);
    var rest := SkipTag + ds + tail;
    assert p + SkipTag + ds + tail == p + rest;
    SkipSearchPassesHashless(p, rest);
    DirectiveAtStart(ds, tail);
    DecimalRoundTrip(n);
  }

  // ---- AD_FRAGMENT_URL_RE ----

  /** The names `(?:ad|ads|adv|preroll|gg)` that open an ad fragment's file name. */
  const AdFragmentNames: seq<string> := ["ad", "ads", "adv", "preroll", "gg"]

  /** `[^\/]*\.ts([?#]|$)` matches at the start of `t`. */
  predicate TsTail(t: string)
    decreases |t|
  {
    || (StartsWithIgnoringCase(t, ".ts") && (|t| == 3 || t[3] == '?' || t[3] == '#'))
    || (t != [] && t[0] != '/' && TsTail(t[1..]))
  }

  /** AD_FRAGMENT_URL_RE.test(url). */
  predicate IsAdFragmentUrl(url: string)
    decreases |url|
  {
    && url != []
    && (|| (url[0] == '/' && exists n :: n in AdFragmentNames && StartsWithIgnoringCase(url[1..], n) && TsTail(url[1 + |n|..]))
        || IsAdFragmentUrl(url[1..]))
  }

  // ---- facts about the rules ----

  /** Characters that the `/i` comparison identifies lower-case to the same character. */
  lemma FoldAgrees(c: char, d: char)
    requires UpperAscii(c) == UpperAscii(d)
    ensures LowerAscii(c) == LowerAscii(d)
  {
  }

  lemma {:induction false} LowerOfSuffix(s: string, k: nat)
    requires k <= |s|
    ensures ToLowerAscii(s)[k..] == ToLowerAscii(s[k..])
  {
  }

  /**
   * The third regex rule never decides a verdict on its own: any line it matches
   * already contains the keyword "advertis" once lower-cased.
   */
  lemma {:induction false} AdvertisementsRuleImpliesKeyword(s: string)
    requires MatchesRule(PathPart("/advertisements/"), s)
    ensures Contains(ToLowerAscii(s), "advertis")
  {
    var p := "/advertisements/";
    var lower := ToLowerAscii(s);
    if StartsWithIgnoringCase(s, p) {
      forall i | 1 <= i < 9
        ensures lower[i] == p[i]
      {
        FoldAgrees(s[i], p[i]);
      }
      assert lower[1..][..8] == "advertis";
      LowerOfSuffix(s, 1);
      assert Contains(lower[1..], "advertis");
    } else {
      AdvertisementsRuleImpliesKeyword(s[1..]);
      LowerOfSuffix(s, 1);
    }
  }

  /** So the blacklist verdict is the same without the third regex rule. */
  lemma AdUrlWithoutThirdRule(s: string)
    ensures IsAdUrl(s) <==> (HasAdKeyword(ToLowerAscii(s)) || MatchesRule(AdRegexRules[0], s) || MatchesRule(AdRegexRules[1], s))
  {
    if MatchesRule(AdRegexRules[2], s) {
      AdvertisementsRuleImpliesKeyword(s);
      assert "advertis" in AdKeywords;
    }
  }

  /** No tag pattern matches a line without a `#`. */
  lemma {:induction false} TagPatternNeedsHash(s: string, markers: seq<string>)
    requires '#' !in s
    ensures !TagPattern(s, markers)
  {
    if s != [] {
      forall h | h in TagHeads
        ensures !StartsWithIgnoringCase(s, h)
      {
        assert h[0] == '#';
        assert s[0] in s;
      }
      TagPatternNeedsHash(s[1..], markers);
    }
  }

  /** A line that no tag head opens and with no `#` after its first character matches no tag pattern. */
  lemma NoHeadNoTagPattern(s: string, markers: seq<string>)
    requires s != [] && '#' !in s[1..]
    requires forall h :: h in TagHeads ==> !StartsWithIgnoringCase(s, h)
    ensures !TagPattern(s, markers)
  {
    TagPatternNeedsHash(s[1..], markers);
  }
}
