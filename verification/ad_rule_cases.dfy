/**
 * Concrete lines run through the ad-recognition rules: lines each rule does
 * recognise, and common ad-break tags that AD_TRIGGER_RE and AD_END_RE miss or
 * confuse, with their effect on the stripping loop.
 *
 * As written, the tag head `#EXT-X-CUE` consumes the `CUE` that the `CUE-OUT` and
 * `CUE-IN` markers need, so the plain cue-out/cue-in pair is never recognised; and
 * `PLACEMENT-OPPORTUNITY-END` also matches the start pattern, which the loop tries first.
 * `IntendedRules` replaces the two tag tests with ones that recognise the plain pair
 * and never let an end tag open a break.
 */
module AdRuleCases {
  import opened Wrappers
  import opened Text
  import opened AdRules
  import opened ManifestStrip

  // ---- lines the rules recognise ----

  const DateRangeHead := ExtX + "DATERANGE"
  const DateRangeAd := DateRangeHead + ":CLASS=\"ad\""
  const DateRangeCueIn := DateRangeHead + ":CUE-IN"

  /** An exact prefix is a case-insensitive one. */
  lemma PrefixIgnoringCase(s: string, prefix: string)
    requires |prefix| <= |s| && s[..|prefix|] == prefix
    ensures StartsWithIgnoringCase(s, prefix)
  {
    assert forall i :: 0 <= i < |prefix| ==> s[i] == s[..|prefix|][i];
  }

  /** A DATERANGE tag with the ad class opens a break. */
  lemma DateRangeAdStartsBreak()
    ensures IsAdTrigger(DateRangeAd)
  {
    var h := TagHeads[4];
    assert DateRangeAd[..|h|] == h;
    assert StartsWithIgnoringCase(DateRangeAd, h);
    var t := DateRangeAd[|h|..];
    assert t[1..] == StartMarkers[0];
    assert StartsWithIgnoringCase(t[1..], StartMarkers[0]);
    assert MarkerAhead(t, StartMarkers);
  }

  /** A DATERANGE tag carrying CUE-IN ends a break. */
  lemma DateRangeCueInEndsBreak()
    ensures IsAdEnd(DateRangeCueIn)
  {
    var h := TagHeads[4];
    assert DateRangeCueIn[..|h|] == h;
    assert StartsWithIgnoringCase(DateRangeCueIn, h);
    var t := DateRangeCueIn[|h|..];
    assert t[1..] == EndMarkers[0];
    assert StartsWithIgnoringCase(t[1..], EndMarkers[0]);
    assert MarkerAhead(t, EndMarkers);
  }

  /** A URI with an `/ads/` path segment is blacklisted by keyword. */
  lemma AdsPathIsAdUrl()
    ensures IsAdUrl("/ads/1.ts")
  {
    var u := "/ads/1.ts";
    assert ToLowerAscii(u) == u;
    assert StartsWith(u, AdKeywords[0]);
    assert Contains(u, AdKeywords[0]);
  }

  /** A URI on an `adserver.` host is blacklisted by the first regex rule. */
  lemma AdServerHostIsAdUrl(host: string, path: string)
    requires host != [] && host[0] != '/'
    ensures IsAdUrl("http://" + "adserver." + host + "/" + path)
  {
    var r := "adserver." + host + "/" + path;
    var u := "http://" + r;
    assert u == "http://" + "adserver." + host + "/" + path;
    assert !StartsWithIgnoringCase(u, "https://") by {
      assert u[4] == ':';
      assert UpperAscii(u[4]) != UpperAscii("https://"[4]);
    }
    assert StartsWithIgnoringCase(u, "http://") by {
      forall i | 0 <= i < 7
        ensures u[i] == "http://"[i]
      {
      }
    }
    assert u[7..] == r;
    assert StartsWithIgnoringCase(r, "adserver" + ".") by {
      forall i | 0 <= i < 9
        ensures r[i] == "adserver."[i]
      {
      }
    }
    var t := r[9..];
    assert t == host + "/" + path;
    assert t[1..][|host| - 1] == '/';
    assert SlashAfterNonSlash(t);
    assert HostLabelAt(r, "adserver");
    assert MatchesRule(AdRegexRules[0], u);
  }

  /** A fragment whose file name starts with `ad` and ends in `.ts` is blocked. */
  lemma AdFragmentIsBlocked()
    ensures IsAdFragmentUrl("/ad1.ts")
  {
    var u := "/ad1.ts";
    assert StartsWithIgnoringCase(u[1..], AdFragmentNames[0]);
    assert u[3..] == "1.ts";
    assert TsTail(u[3..][1..]);
    assert TsTail(u[3..]);
  }

  // ---- the plain CUE-OUT / CUE-IN pair, as written ----

  /** The `#EXT-X-CUE` head, the first alternative of the tag-head group. */
  const CueHead := ExtX + "CUE"

  /** `#EXT-X-CUE-IN`: the usual end of a cue-out break. */
  const CueIn := CueHead + "-IN"

  /** `#EXT-X-CUE-OUT:<seconds>`: the usual start of an ad break. */
  function CueOutLine(duration: nat): string {
    CueHead + "-OUT:" + DecimalString(duration)
  }

  /** The initials of every start and end marker. */
  const MarkerInitials := "CSP"

  /** Every marker in the list is non-empty and opens with one of `MarkerInitials`. */
  predicate OpensWithInitial(markers: seq<string>) {
    forall m :: m in markers ==> m != [] && m[0] in MarkerInitials
  }

  /** Every start and every end marker opens with one of those initials. */
  lemma MarkersOpenWithInitials()
    ensures OpensWithInitial(StartMarkers) && OpensWithInitial(EndMarkers)
  {
  }

  /** Text in which no character is a marker initial (in either case) has no marker ahead. */
  lemma {:induction false} NoMarkerAhead(t: string, markers: seq<string>)
    requires OpensWithInitial(markers)
    requires forall c :: c in t ==> UpperAscii(c) !in MarkerInitials
    ensures !MarkerAhead(t, markers)
  {
    if t != [] {
      assert t[0] in t;
      forall m | m in markers
        ensures !StartsWithIgnoringCase(t, m)
      {
        assert m[0] in MarkerInitials;
      }
      assert forall c :: c in t[1..] ==> c in t;
      NoMarkerAhead(t[1..], markers);
    }
  }

  /** Of the six tag heads only `#EXT-X-CUE` itself opens a line that starts with it. */
  lemma OnlyCueHeadOpens(s: string)
    requires |s| >= |CueHead| && s[..|CueHead|] == CueHead
    ensures forall h :: h in TagHeads && StartsWithIgnoringCase(s, h) ==> h == CueHead
  {
    assert s[5] == 'X' && s[7] == 'C';
    MismatchAt(s, TagHeads[1], 5);
    MismatchAt(s, TagHeads[2], 7);
    MismatchAt(s, TagHeads[3], 5);
    MismatchAt(s, TagHeads[4], 7);
    MismatchAt(s, TagHeads[5], 5);
  }

  /**
   * A line that opens with `#EXT-X-CUE` and goes on without another `#` and without a
   * marker initial matches neither pattern: the head consumes the `CUE` that the
   * `CUE-OUT` and `CUE-IN` markers would need.
   */
  lemma CueLineNoPattern(rest: string, markers: seq<string>)
    requires OpensWithInitial(markers)
    requires '#' !in rest && forall c :: c in rest ==> UpperAscii(c) !in MarkerInitials
    ensures !TagPattern(CueHead + rest, markers)
  {
    var s := CueHead + rest;
    assert s[..|CueHead|] == CueHead;
    OnlyCueHeadOpens(s);
    assert s[|CueHead|..] == rest;
    NoMarkerAhead(rest, markers);
    assert '#' !in s[1..] by {
      assert s[1..] == CueHead[1..] + rest;
    }
    TagPatternNeedsHash(s[1..], markers);
  }

  /** `#EXT-X-CUE-OUT:<seconds>` is neither an ad-break start nor an end. */
  lemma CueOutIsNoTrigger(duration: nat)
    ensures !IsAdTrigger(CueOutLine(duration)) && !IsAdEnd(CueOutLine(duration))
  {
    var rest := "-OUT:" + DecimalString(duration);
    assert CueOutLine(duration) == CueHead + rest;
    forall c | c in rest
      ensures c != '#' && UpperAscii(c) !in MarkerInitials
    {
      if c !in "-OUT:" {
        assert c in DecimalString(duration);
      }
    }
    MarkersOpenWithInitials();
    CueLineNoPattern(rest, StartMarkers);
    CueLineNoPattern(rest, EndMarkers);
  }

  /** `#EXT-X-CUE-IN` is neither an ad-break end nor a start. */
  lemma CueInIsNoEnd()
    ensures !IsAdEnd(CueIn) && !IsAdTrigger(CueIn)
  {
    MarkersOpenWithInitials();
    CueLineNoPattern("-IN", EndMarkers);
    CueLineNoPattern("-IN", StartMarkers);
  }

  /** The cue-out line trims to itself. */
  lemma CueOutLineTrimmed(duration: nat)
    ensures Trim(CueOutLine(duration)) == CueOutLine(duration)
  {
    var l := CueOutLine(duration);
    var ds := DecimalString(duration);
    assert l[|l| - 1] == ds[|ds| - 1] && ds[|ds| - 1] in ds;
    TrimOfClean(l);
  }

  /** The cue-out line is a tag with no `#` after its first character, so it is no SKIP directive. */
  lemma CueOutLineShape(duration: nat)
    ensures StartsWith(CueOutLine(duration), "#") && '#' !in CueOutLine(duration)[1..]
    ensures SkippedSegments(CueOutLine(duration)).None?
  {
    var l := CueOutLine(duration);
    var ds := DecimalString(duration);
    assert l[1..] == CueHead[1..] + "-OUT:" + ds;
    forall c | c in l[1..]
      ensures c != '#'
    {
      if c in ds {
      }
    }
    assert !StartsWith(l, SkipTag) by {
      assert l[7] != SkipTag[7];
    }
    SkipSearchPassesHashless(l[1..], []);
    assert l[1..] + [] == l[1..];
  }

  /** Outside a break a tag line that trims to itself, opens no break and is no SKIP directive is kept. */
  lemma TagKeptOutsideBreak(rules: Rules, st: Scan, l: string)
    requires !st.inAdBreak && rules.trim(l) == l && StartsWith(l, "#")
    requires !rules.isAdTrigger(l) && rules.skippedSegments(l).None?
    ensures Step(rules, st, l) == st.(out := st.out + [l])
  {
  }

  /**
   * Outside a break `#EXT-X-CUE-OUT:<seconds>` is an ordinary tag: it is kept as it is
   * and the break it announces is not entered, so the ad segments after it stay.
   */
  lemma CueOutKeptAsTag(st: Scan, duration: nat)
    requires !st.inAdBreak
    ensures Step(PlayerRules, st, CueOutLine(duration)) == st.(out := st.out + [CueOutLine(duration)])
  {
    CueOutLineTrimmed(duration);
    CueOutLineShape(duration);
    CueOutIsNoTrigger(duration);
    TagKeptOutsideBreak(PlayerRules, st, CueOutLine(duration));
  }

  /** `#EXT-X-CUE-IN` has no surrounding whitespace. */
  lemma CueInTrimmed()
    ensures Trim(CueIn) == CueIn
  {
    TrimOfClean(CueIn);
  }

  /** Inside a break `#EXT-X-CUE-IN` is dropped like any other line, and the break stays open. */
  lemma CueInLeavesBreakOpen(st: Scan)
    requires st.inAdBreak
    ensures Step(PlayerRules, st, CueIn) == st
  {
    CueInTrimmed();
    CueInIsNoEnd();
    assert PlayerRules.trim(CueIn) == CueIn && !PlayerRules.isAdTrigger(CueIn) && !PlayerRules.isAdEnd(CueIn);
  }

  // ---- PLACEMENT-OPPORTUNITY-END, as written ----

  /** A DATERANGE tag closing a placement opportunity. */
  const PlacementEnd := DateRangeHead + ":" + "PLACEMENT-OPPORTUNITY" + "-END"

  /** The end tag matches both patterns: PLACEMENT-OPPORTUNITY is a prefix of PLACEMENT-OPPORTUNITY-END. */
  lemma PlacementEndMatchesBoth()
    ensures IsAdTrigger(PlacementEnd) && IsAdEnd(PlacementEnd)
  {
    var h := DateRangeHead;
    assert h == TagHeads[4];
    PrefixIgnoringCase(PlacementEnd, h);
    var t := PlacementEnd[|h|..];
    assert t[1..] == "PLACEMENT-OPPORTUNITY" + "-END";
    assert EndMarkers[2] == t[1..];
    PrefixIgnoringCase(t[1..], EndMarkers[2]);
    assert MarkerAhead(t, EndMarkers);
    assert StartMarkers[6] == "PLACEMENT-OPPORTUNITY";
    PrefixIgnoringCase(t[1..], StartMarkers[6]);
    assert MarkerAhead(t, StartMarkers);
  }

  /**
   * Since the start test comes first, the end tag opens a break instead of closing one:
   * after it the loop is in a break whatever came before, with one more marker emitted.
   */
  lemma PlacementEndReopens(st: Scan)
    ensures Step(PlayerRules, st, PlacementEnd) == Scan(true, st.skipCounter, st.out + [Discontinuity])
  {
    PlacementEndTrimmed();
    PlacementEndMatchesBoth();
    assert PlayerRules.trim(PlacementEnd) == PlacementEnd && PlayerRules.isAdTrigger(PlacementEnd);
  }

  // ---- the tests as evidently intended ----

  /** The end test, extended to the plain `#EXT-X-CUE-IN` tag. */
  predicate IntendedEnd(s: string) {
    IsAdEnd(s) || ContainsIgnoringCase(s, CueIn)
  }

  /** The start test, extended to the plain `#EXT-X-CUE-OUT` tag, and never true of an end line. */
  predicate IntendedTrigger(s: string) {
    (IsAdTrigger(s) || ContainsIgnoringCase(s, CueHead + "-OUT")) && !IntendedEnd(s)
  }

  const IntendedRules := Rules(Trim, IntendedTrigger, IntendedEnd, SkippedSegments, IsAdUrl)

  /** A search for a `#`-initial part never succeeds in text without a `#`. */
  lemma {:induction false} HashlessNoMatch(s: string, part: string)
    requires part != [] && part[0] == '#' && '#' !in s
    ensures !ContainsIgnoringCase(s, part)
  {
    if s != [] {
      assert s[0] in s;
      assert forall c :: c in s[1..] ==> c in s;
      HashlessNoMatch(s[1..], part);
    }
  }

  /** A line opening with `#EXT-X-CUE-OUT`, with no other `#`, is no cue-in line, even ignoring case. */
  lemma CueOutTagNotCueIn(rest: string)
    requires '#' !in rest
    ensures StartsWithIgnoringCase(CueHead + "-OUT" + rest, CueHead + "-OUT")
    ensures !ContainsIgnoringCase(CueHead + "-OUT" + rest, CueIn)
  {
    var a := CueHead + "-OUT";
    var l := a + rest;
    assert l[..|a|] == a;
    PrefixIgnoringCase(l, a);
    assert l[11] == a[11] == 'O';
    MismatchAt(l, CueIn, 11);
    assert l[1..] == a[1..] + rest;
    assert '#' !in a[1..];
    HashlessNoMatch(l[1..], CueIn);
  }

  /** So `#EXT-X-CUE-OUT:<seconds>` opens with the cue-out tag and holds no cue-in tag. */
  lemma CueOutLineNotCueIn(duration: nat)
    ensures StartsWithIgnoringCase(CueOutLine(duration), CueHead + "-OUT")
    ensures !ContainsIgnoringCase(CueOutLine(duration), CueIn)
  {
    var ds := DecimalString(duration);
    assert CueOutLine(duration) == CueHead + "-OUT" + (":" + ds);
    assert '#' !in ":" + ds by {
      forall c | c in ":" + ds
        ensures c != '#'
      {
        if c in ds {
        }
      }
    }
    CueOutTagNotCueIn(":" + ds);
  }

  /** Under the corrected tests the cue-out line opens a break. */
  lemma IntendedCueOut(duration: nat)
    ensures IntendedTrigger(CueOutLine(duration)) && !IntendedEnd(CueOutLine(duration))
  {
    CueOutIsNoTrigger(duration);
    CueOutLineNotCueIn(duration);
  }

  /** Under the corrected tests every line opening with `#EXT-X-CUE-IN` closes a break. */
  lemma IntendedCueIn(e: string)
    requires StartsWithIgnoringCase(e, CueIn)
    ensures IntendedEnd(e) && !IntendedTrigger(e)
  {
  }

  /** Under the corrected tests every end line closes the break that a start line opened. */
  lemma IntendedBreakCloses(p: seq<string>, s: string, q: seq<string>, e: string)
    requires Trim(s) == s && s != [] && IntendedTrigger(s)
    requires forall l :: l in q ==> !IntendedTrigger(Trim(l)) && !IntendedEnd(Trim(l))
    requires Trim(e) == e && e != [] && IntendedEnd(e)
    ensures Run(IntendedRules, p + [s] + q + [e])
         == Scan(false, Run(IntendedRules, p).skipCounter, Run(IntendedRules, p).out + [Discontinuity])
  {
    assert IntendedRules.trim(s) == s && IntendedRules.isAdTrigger(s);
    assert IntendedRules.trim(e) == e && !IntendedRules.isAdTrigger(e) && IntendedRules.isAdEnd(e);
    BreakClosure(IntendedRules, p, s, q, e);
  }

  /** With the corrected tests `#EXT-X-CUE-OUT:<seconds>` opens a break and is replaced by the marker. */
  lemma IntendedCueOutOpens(st: Scan, duration: nat)
    ensures Step(IntendedRules, st, CueOutLine(duration)) == Scan(true, st.skipCounter, st.out + [Discontinuity])
  {
    var l := CueOutLine(duration);
    CueOutLineTrimmed(duration);
    IntendedCueOut(duration);
    assert IntendedRules.trim(l) == l && IntendedRules.isAdTrigger(l);
  }

  /** With the corrected tests a line opening with `#EXT-X-CUE-IN` closes an open break and is dropped. */
  lemma IntendedCueInCloses(st: Scan, e: string)
    requires st.inAdBreak
    requires Trim(e) == e && StartsWithIgnoringCase(e, CueIn)
    ensures Step(IntendedRules, st, e) == st.(inAdBreak := false)
  {
    IntendedCueIn(e);
    assert IntendedRules.trim(e) == e && !IntendedRules.isAdTrigger(e) && IntendedRules.isAdEnd(e);
  }

  /** With the corrected tests every line the end pattern matches closes an open break and is dropped. */
  lemma IntendedEndCloses(st: Scan, e: string)
    requires st.inAdBreak
    requires Trim(e) == e && e != [] && IsAdEnd(e)
    ensures Step(IntendedRules, st, e) == st.(inAdBreak := false)
  {
    assert IntendedEnd(e) && !IntendedTrigger(e);
    assert IntendedRules.trim(e) == e && !IntendedRules.isAdTrigger(e) && IntendedRules.isAdEnd(e);
  }

  /** `#EXT-X-DATERANGE:PLACEMENT-OPPORTUNITY-END` has no surrounding whitespace. */
  lemma PlacementEndTrimmed()
    ensures Trim(PlacementEnd) == PlacementEnd
  {
    TrimOfClean(PlacementEnd);
  }

  /** With the corrected tests PLACEMENT-OPPORTUNITY-END closes an open break. */
  lemma IntendedPlacementEndCloses(st: Scan)
    requires st.inAdBreak
    ensures Step(IntendedRules, st, PlacementEnd) == st.(inAdBreak := false)
  {
    PlacementEndTrimmed();
    PlacementEndMatchesBoth();
    IntendedEndCloses(st, PlacementEnd);
  }

  /** The marker is no cue-out line, even ignoring case. */
  lemma DiscontinuityNotCueOut()
    ensures !ContainsIgnoringCase(Discontinuity, CueHead + "-OUT")
  {
    NoHashInDiscontinuityTail();
    assert Discontinuity[7] == 'D';
    MismatchAt(Discontinuity, CueHead + "-OUT", 7);
    HashlessNoMatch(Discontinuity[1..], CueHead + "-OUT");
  }

  /** The corrected tests keep the marker inert, so a stripped playlist still strips to itself. */
  lemma IntendedRulesRestrippable()
    ensures Restrippable(IntendedRules)
  {
    TrimDiscontinuity();
    DiscontinuityIsNoTrigger();
    DiscontinuityIsNoSkip();
    DiscontinuityNotCueOut();
    TrimIsEmptyIffBlank("");
  }
}
