/**
 * The manifest ad-stripper of `AdAwareLoader._stripManifest` as a specification:
 * one `Step` per playlist line over the loop state (`inAdBreak`, `skipCounter`,
 * the emitted lines), `Run` as the left fold of `Step` over the lines, and the
 * properties of the stripped playlist as lemmas about `Run`.
 *
 * The playlist is an HLS media playlist (RFC 8216); the tags that matter are
 * EXTINF (section 4.3.2.1), EXT-X-DISCONTINUITY (section 4.3.2.3), the ad-break
 * tags that AD_TRIGGER_RE and AD_END_RE recognise, and the low-latency
 * EXT-X-SKIP tag of the RFC 8216bis draft.
 */
module ManifestStrip {
  import opened Wrappers
  import opened Text
  import opened Seqs
  import opened AdRules

  /** The prefix of the EXT-X tags. */
  const ExtX := "#EXT-X-"

  /** The marker pushed in place of every ad-break start line. */
  const Discontinuity := ExtX + "DISCONTINUITY"

  const ExtinfPrefix := "#EXTINF:"

  /**
   * The trim the loop applies to each line and the four tests it makes on the
   * trimmed text. The lemmas below hold for any such rules; `PlayerRules` holds the
   * ones the player uses.
   */
  datatype Rules = Rules(
    trim: string -> string,
    isAdTrigger: string -> bool,
    isAdEnd: string -> bool,
    skippedSegments: string -> Option<nat>,
    isAdUrl: string -> bool)

  /** `trim`, AD_TRIGGER_RE, AD_END_RE, LL_HLS_SKIP_RE and the keyword/regex blacklist. */
  const PlayerRules := Rules(Trim, IsAdTrigger, IsAdEnd, SkippedSegments, IsAdUrl)

  /** The loop state: `inAdBreak`, `skipCounter` and `filteredLines`. */
  datatype Scan = Scan(inAdBreak: bool, skipCounter: nat, out: seq<string>)

  const Start := Scan(false, 0, [])

  /** `if (last emitted line starts with "#EXTINF:") filteredLines.pop()`. */
  function PopExtinf(out: seq<string>): (r: seq<string>)
    ensures || r == out
            || (out != [] && r == out[..|out| - 1] && StartsWith(out[|out| - 1], ExtinfPrefix))
  {
    if |out| > 0 && StartsWith(out[|out| - 1], ExtinfPrefix) then out[..|out| - 1] else out
  }

  /** One iteration of the loop body, on the raw (untrimmed) line. */
  function Step(rules: Rules, st: Scan, line: string): Scan {
    var t := rules.trim(line);
    if t == [] then st
    else if rules.isAdTrigger(t) then Scan(true, st.skipCounter, st.out + [Discontinuity])
    else if st.inAdBreak && rules.isAdEnd(t) then st.(inAdBreak := false)
    else if st.inAdBreak then st
    else if rules.skippedSegments(t).Some? then st.(skipCounter := rules.skippedSegments(t).value)
    else if !StartsWith(t, "#") && st.skipCounter > 0 then
      st.(skipCounter := st.skipCounter - 1, out := PopExtinf(st.out))
    else if !StartsWith(t, "#") && rules.isAdUrl(t) then st.(out := PopExtinf(st.out))
    else st.(out := st.out + [line])
  }

  /** The loop state after the given lines, starting from `Start`. */
  function Run(rules: Rules, lines: seq<string>): Scan {
    if lines == [] then Start else Step(rules, Run(rules, lines[..|lines| - 1]), lines[|lines| - 1])
  }

  /** `_stripManifest(text)` with filtering on: split into lines, run the loop, join the emitted lines. */
  function Strip(rules: Rules, text: string): string {
    Join(Run(rules, SplitLines(text)).out)
  }

  lemma RunSnoc(rules: Rules, p: seq<string>, l: string)
    ensures Run(rules, p + [l]) == Step(rules, Run(rules, p), l)
  {
    assert (p + [l])[..|p|] == p;
  }

  // ---- what can be emitted at all ----

  function NonBlank(rules: Rules): string -> bool {
    l => rules.trim(l) != []
  }

  /** A line's one possible contribution: nothing for a blank line, the marker for an ad-break start, else the line itself. */
  function Candidate(rules: Rules, l: string): (c: seq<string>)
    ensures |c| <= 1
  {
    if !NonBlank(rules)(l) then [] else if rules.isAdTrigger(rules.trim(l)) then [Discontinuity] else [l]
  }

  /** The contributions of all the lines, in order. */
  function Candidates(rules: Rules, lines: seq<string>): (c: seq<string>)
    ensures |c| == |Filter(lines, NonBlank(rules))|
    ensures forall x :: x in c ==> x == Discontinuity || x in lines
  {
    if lines == [] then []
    else
      var init := lines[..|lines| - 1];
      var l := lines[|lines| - 1];
      assert forall x :: x in init ==> x in lines;
      Candidates(rules, init) + Candidate(rules, l)
  }

  /** One step emits at most its line's contribution, or withdraws at most one `#EXTINF:` line. */
  lemma StepEmitsAtMostOne(rules: Rules, st: Scan, line: string)
    ensures var o := Step(rules, st, line).out;
      || o == st.out
      || o == st.out + Candidate(rules, line)
      || (st.out != [] && o == st.out[..|st.out| - 1] && StartsWith(st.out[|st.out| - 1], ExtinfPrefix))
  {
  }

  /** One step keeps the emitted lines a subsequence of the contributions so far. */
  lemma CandidateStep(rules: Rules, st: Scan, c: seq<string>, l: string)
    requires IsSubseq(st.out, c)
    ensures IsSubseq(Step(rules, st, l).out, c + Candidate(rules, l))
  {
    var o := Step(rules, st, l).out;
    var x := Candidate(rules, l);
    StepEmitsAtMostOne(rules, st, l);
    if x == [] {
      assert c + x == c;
      if o != st.out {
        SubseqDropLast(st.out, c);
      }
    } else if o == st.out + x {
      SubseqAppendBoth(st.out, c, x[0]);
    } else if o == st.out {
      SubseqExtend(st.out, c, x[0]);
    } else {
      SubseqDropLast(st.out, c);
      SubseqExtend(o, c, x[0]);
    }
  }

  /** The emitted lines are a subsequence of the candidates: kept lines stay untrimmed and in input order. */
  lemma {:induction false} OutputIsSubseqOfCandidates(rules: Rules, lines: seq<string>)
    ensures IsSubseq(Run(rules, lines).out, Candidates(rules, lines))
  {
    if lines != [] {
      var init := lines[..|lines| - 1];
      OutputIsSubseqOfCandidates(rules, init);
      CandidateStep(rules, Run(rules, init), Candidates(rules, init), lines[|lines| - 1]);
    }
  }

  /**
   * Blank lines are never emitted; each emitted line is the marker or an input line;
   * and there are no more emitted lines than non-blank input lines.
   */
  lemma OutputBound(rules: Rules, lines: seq<string>)
    ensures |Run(rules, lines).out| <= |Filter(lines, NonBlank(rules))|
    ensures forall x :: x in Run(rules, lines).out ==> x == Discontinuity || x in lines
  {
    OutputIsSubseqOfCandidates(rules, lines);
    SubseqBounds(Run(rules, lines).out, Candidates(rules, lines));
  }

  // ---- ad breaks ----

  /** A line whose trimmed text matches the start pattern is replaced by exactly one marker, inside a break or not. */
  lemma BreakStart(rules: Rules, p: seq<string>, s: string)
    requires NonBlank(rules)(s) && rules.isAdTrigger(rules.trim(s))
    ensures Run(rules, p + [s]) == Scan(true, Run(rules, p).skipCounter, Run(rules, p).out + [Discontinuity])
  {
    RunSnoc(rules, p, s);
  }

  /** Inside a break every line is dropped until an end (or another start) line: an unterminated break drops everything to the end. */
  lemma {:induction false} BreakDropsAll(rules: Rules, p: seq<string>, q: seq<string>)
    requires Run(rules, p).inAdBreak
    requires forall l :: l in q ==> !rules.isAdTrigger(rules.trim(l)) && !rules.isAdEnd(rules.trim(l))
    ensures Run(rules, p + q) == Run(rules, p)
  {
    if q != [] {
      var q' := q[..|q| - 1];
      var l := q[|q| - 1];
      assert forall x :: x in q' ==> x in q;
      BreakDropsAll(rules, p, q');
      assert p + q == (p + q') + [l];
      RunSnoc(rules, p + q', l);
      assert l in q;
    } else {
      assert p + q == p;
    }
  }

  /** A break from a start line to an end line leaves one marker and nothing else; the end line is dropped too. */
  lemma BreakClosure(rules: Rules, p: seq<string>, s: string, q: seq<string>, e: string)
    requires NonBlank(rules)(s) && rules.isAdTrigger(rules.trim(s))
    requires forall l :: l in q ==> !rules.isAdTrigger(rules.trim(l)) && !rules.isAdEnd(rules.trim(l))
    requires NonBlank(rules)(e) && rules.isAdEnd(rules.trim(e)) && !rules.isAdTrigger(rules.trim(e))
    ensures Run(rules, p + [s] + q + [e]) == Scan(false, Run(rules, p).skipCounter, Run(rules, p).out + [Discontinuity])
  {
    BreakStart(rules, p, s);
    BreakDropsAll(rules, p + [s], q);
    RunSnoc(rules, p + [s] + q, e);
  }

  /** An end line seen outside a break is an ordinary tag line and is kept verbatim. */
  lemma EndOutsideBreakKept(rules: Rules, p: seq<string>, e: string)
    requires !Run(rules, p).inAdBreak
    requires NonBlank(rules)(e) && rules.isAdEnd(rules.trim(e)) && !rules.isAdTrigger(rules.trim(e))
    requires rules.skippedSegments(rules.trim(e)).None? && StartsWith(rules.trim(e), "#")
    ensures Run(rules, p + [e]) == Run(rules, p).(out := Run(rules, p).out + [e])
  {
    RunSnoc(rules, p, e);
  }

  // ---- the SKIP directive ----

  /** A SKIP directive outside a break is dropped and overwrites the counter with its number. */
  lemma SkipSetsCounter(rules: Rules, p: seq<string>, l: string, n: nat)
    requires !Run(rules, p).inAdBreak
    requires NonBlank(rules)(l) && !rules.isAdTrigger(rules.trim(l)) && rules.skippedSegments(rules.trim(l)) == Some(n)
    ensures Run(rules, p + [l]) == Run(rules, p).(skipCounter := n)
  {
    RunSnoc(rules, p, l);
  }

  /** A non-blank line that is not a tag, not an ad-break start and not a SKIP directive. */
  predicate PlainUri(rules: Rules, l: string) {
    var t := rules.trim(l);
    t != [] && !StartsWith(t, "#") && !rules.isAdTrigger(t) && rules.skippedSegments(t).None?
  }

  /** One URI line while the counter is positive outside a break. */
  lemma SkipStep(rules: Rules, st: Scan, l: string)
    requires !st.inAdBreak && st.skipCounter > 0 && PlainUri(rules, l)
    ensures Step(rules, st, l) == Scan(false, st.skipCounter - 1, PopExtinf(st.out))
  {
  }

  /** `b` is `a` with at most `n` trailing `#EXTINF:` lines withdrawn. */
  predicate ExtinfsWithdrawn(a: seq<string>, b: seq<string>, n: nat) {
    && |a| - n <= |b| <= |a|
    && b == a[..|b|]
    && forall k :: |b| <= k < |a| ==> StartsWith(a[k], ExtinfPrefix)
  }

  /**
   * While the counter is positive outside a break, each URI line is dropped whatever
   * its URL, the counter goes down by one, and at most one `#EXTINF:` line before
   * it is withdrawn.
   */
  lemma {:induction false} SkipDropsUris(rules: Rules, p: seq<string>, q: seq<string>)
    requires !Run(rules, p).inAdBreak
    requires |q| <= Run(rules, p).skipCounter
    requires forall l :: l in q ==> PlainUri(rules, l)
    ensures !Run(rules, p + q).inAdBreak
    ensures Run(rules, p + q).skipCounter == Run(rules, p).skipCounter - |q|
    ensures ExtinfsWithdrawn(Run(rules, p).out, Run(rules, p + q).out, |q|)
  {
    if q == [] {
      assert p + q == p;
    } else {
      var q' := q[..|q| - 1];
      var l := q[|q| - 1];
      assert p + q == (p + q') + [l];
      assert l in q;
      assert forall x :: x in q' ==> x in q;
      SkipDropsUris(rules, p, q');
      var a, b := Run(rules, p), Run(rules, p + q');
      RunSnoc(rules, p + q', l);
      SkipStep(rules, b, l);
    }
  }

  // ---- what the emitted lines look like ----

  /** An emitted line: never blank, never an ad-break start or SKIP directive, and never a blacklisted URI. */
  predicate Kept(rules: Rules, l: string) {
    var t := rules.trim(l);
    && t != []
    && !rules.isAdTrigger(t)
    && rules.skippedSegments(t).None?
    && (!StartsWith(t, "#") ==> !rules.isAdUrl(t))
  }

  /** A tag line that trims to itself and is neither an ad-break start nor a SKIP directive is `Kept`. */
  lemma TagLineKept(rules: Rules, l: string)
    requires rules.trim(l) == l && l != [] && l[0] == '#'
    requires !rules.isAdTrigger(l) && rules.skippedSegments(l).None?
    ensures Kept(rules, l)
  {
  }

  /** The marker trims to itself, opens no break and is no SKIP directive, so a second pass keeps it. */
  predicate MarkerIsInert(rules: Rules) {
    && rules.trim(Discontinuity) == Discontinuity
    && !rules.isAdTrigger(Discontinuity)
    && rules.skippedSegments(Discontinuity).None?
  }

  /** Every emitted line is `Kept`: in particular every kept URI line has no ad keyword and matches no ad regex. */
  lemma {:induction false} OutputIsKept(rules: Rules, lines: seq<string>)
    requires MarkerIsInert(rules)
    ensures forall x :: x in Run(rules, lines).out ==> Kept(rules, x)
  {
    TagLineKept(rules, Discontinuity);
    if lines != [] {
      OutputIsKept(rules, lines[..|lines| - 1]);
    }
  }

  /** Lines that are all `Kept` pass through a fresh run unchanged. */
  lemma {:induction false} RunOnKept(rules: Rules, xs: seq<string>)
    requires forall x :: x in xs ==> Kept(rules, x)
    ensures Run(rules, xs) == Scan(false, 0, xs)
  {
    if xs != [] {
      var init := xs[..|xs| - 1];
      assert forall x :: x in init ==> x in xs;
      RunOnKept(rules, init);
      assert xs == init + [xs[|xs| - 1]];
      assert xs[|xs| - 1] in xs;
      RunSnoc(rules, init, xs[|xs| - 1]);
    }
  }

  /** Stripping the emitted lines a second time changes nothing. */
  lemma StripLinesIdempotent(rules: Rules, lines: seq<string>)
    requires MarkerIsInert(rules)
    ensures Run(rules, Run(rules, lines).out).out == Run(rules, lines).out
  {
    OutputIsKept(rules, lines);
    RunOnKept(rules, Run(rules, lines).out);
  }

  // ---- the player's own rules ----

  /** A case-insensitive prefix test fails as soon as one character differs. */
  lemma MismatchAt(s: string, h: string, k: nat)
    requires k < |h| && k < |s| && UpperAscii(s[k]) != UpperAscii(h[k])
    ensures !StartsWithIgnoringCase(s, h)
  {
  }

  /** The marker has no surrounding whitespace. */
  lemma TrimDiscontinuity()
    ensures Trim(Discontinuity) == Discontinuity
  {
    assert !IsJsWhitespace(Discontinuity[0]);
    assert TrimStart(Discontinuity) == Discontinuity;
    assert !IsJsWhitespace(Discontinuity[|Discontinuity| - 1]);
  }

  lemma NoHashInDiscontinuityTail()
    ensures '#' !in Discontinuity[1..]
  {
  }

  /** None of the six tag heads opens a line that starts `#EXT-X-DI`. */
  lemma NoHeadOpensExtXDi(s: string)
    requires StartsWith(s, ExtX + "DI")
    ensures forall h :: h in TagHeads ==> !StartsWithIgnoringCase(s, h)
  {
    assert s[5] == 'X' && s[7] == 'D' && s[8] == 'I';
    MismatchAt(s, TagHeads[0], 7);
    MismatchAt(s, TagHeads[1], 5);
    MismatchAt(s, TagHeads[2], 7);
    MismatchAt(s, TagHeads[3], 5);
    MismatchAt(s, TagHeads[4], 8);
    MismatchAt(s, TagHeads[5], 5);
  }

  /** None of the six tag heads opens the marker. */
  lemma NoHeadOpensDiscontinuity()
    ensures forall h :: h in TagHeads ==> !StartsWithIgnoringCase(Discontinuity, h)
  {
    assert Discontinuity[..9] == ExtX + "DI";
    NoHeadOpensExtXDi(Discontinuity);
  }

  /** The marker is not itself an ad-break start. */
  lemma DiscontinuityIsNoTrigger()
    ensures !IsAdTrigger(Discontinuity)
  {
    NoHashInDiscontinuityTail();
    NoHeadOpensDiscontinuity();
    NoHeadNoTagPattern(Discontinuity, StartMarkers);
  }

  /** The marker is too short to be a SKIP directive. */
  lemma DiscontinuityIsNoSkip()
    ensures SkippedSegments(Discontinuity).None?
  {
  }

  /** The marker the player pushes survives a second pass. */
  lemma PlayerMarkerIsInert()
    ensures MarkerIsInert(PlayerRules)
  {
    TrimDiscontinuity();
    DiscontinuityIsNoTrigger();
    DiscontinuityIsNoSkip();
  }

  /** The player's rules meet what `RestripIsIdentity` asks of them. */
  lemma PlayerRulesRestrippable()
    ensures Restrippable(PlayerRules)
  {
    PlayerMarkerIsInert();
    TrimIsEmptyIffBlank("");
  }

  /** Rules under which a stripped text strips to itself: the marker is inert and the empty line is blank. */
  predicate Restrippable(rules: Rules) {
    MarkerIsInert(rules) && rules.trim("") == []
  }

  /**
   * Stripping an already stripped playlist gives it back unchanged, provided no line
   * of the original ends in a carriage return: a kept line "x\r" is joined as "x\r\n",
   * which the next split reads as the line "x".
   */
  lemma RestripIsIdentity(rules: Rules, text: string)
    requires Restrippable(rules)
    requires forall l :: l in SplitLines(text) ==> !EndsWithCr(l)
    ensures Strip(rules, Strip(rules, text)) == Strip(rules, text)
  {
    var lines := SplitLines(text);
    var out := Run(rules, lines).out;
    OutputBound(rules, lines);
    if out == [] {
      assert SplitLines("") == [""];
      RunSnoc(rules, [], "");
      assert [] + [""] == [""];
    } else {
      assert '\n' !in Discontinuity && !EndsWithCr(Discontinuity);
      assert forall k :: 0 <= k < |out| ==> out[k] in out;
      SplitJoin(out);
      StripLinesIdempotent(rules, lines);
    }
  }
}
