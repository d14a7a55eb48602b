/**
 * The `AdAwareLoader` of the player: its two option flags, the manifest stripper
 * `_stripManifest` as a loop proved against `ManifestStrip.Strip`, the three-way
 * decision `load` makes for each request, and the option defaults of `getHlsConfig`.
 */
module Player {
  import opened Wrappers
  import opened Text
  import opened AdRules
  import opened ManifestStrip

  /** An option value as the `!== false` and `=== true` tests see it. */
  datatype JsValue = Undefined | Null | Bool(b: bool) | Other

  /** The `p2pConfig` object; a property that is not set is `Undefined`. */
  datatype Options = Options(adFilteringEnabled: JsValue, debugMode: JsValue)

  /** `customConfig.adFilteringEnabled !== false`: filtering is on unless switched off explicitly. */
  predicate FilteringOn(v: JsValue) {
    v != Bool(false)
  }

  /** `customConfig.debugMode === true`: debugging is on only when switched on explicitly. */
  predicate DebugOn(v: JsValue) {
    v == Bool(true)
  }

  /** `config.p2pConfig || {}`: a missing (or falsy) `p2pConfig` reads as an object with nothing set. */
  function CustomConfig(p2pConfig: Option<Options>): (o: Options)
    ensures p2pConfig.None? ==> o == Options(Undefined, Undefined)
    ensures p2pConfig.Some? ==> o == p2pConfig.value
  {
    p2pConfig.GetOr(Options(Undefined, Undefined))
  }

  /** What the loader does with one request. */
  datatype Decision =
    | StripAndLoad  // load, and strip the response text before hls.js sees it
    | Block         // answer with a network error; the request is never sent
    | Load          // the default load, untouched

  /** The body of a successful response: text, or anything else (an ArrayBuffer). */
  datatype ResponseData = TextData(text: string) | OtherData

  class AdAwareLoader {
    const adFilteringEnabled: bool
    const debugMode: bool
    /** The module-level patterns the loader applies: always `PlayerRules`. */
    const rules: Rules

    /** The constructor reads the two flags out of `config.p2pConfig`. */
    constructor(p2pConfig: Option<Options>)
      ensures adFilteringEnabled == FilteringOn(CustomConfig(p2pConfig).adFilteringEnabled)
      ensures debugMode == DebugOn(CustomConfig(p2pConfig).debugMode)
      ensures rules == PlayerRules
    {
      var customConfig := CustomConfig(p2pConfig);
      adFilteringEnabled := customConfig.adFilteringEnabled != Bool(false);
      debugMode := customConfig.debugMode == Bool(true);
      rules := PlayerRules;
    }

    /**
     * `_stripManifest`: with filtering off the text comes back as it is; with filtering
     * on, one pass over the lines computes exactly `Strip(rules, manifestText)`. The
     * tests go through `rules`; `DetectAdUrl` is the loop behind `rules.isAdUrl`.
     */
    method StripManifest(manifestText: string) returns (r: string)
      ensures !adFilteringEnabled ==> r == manifestText
      ensures adFilteringEnabled ==> r == Strip(rules, manifestText)
    {
      if !adFilteringEnabled {
        return manifestText;
      }
      var inAdBreak := false;
      var skipCounter: nat := 0;
      var lines := SplitLines(manifestText);
      var filteredLines: seq<string> := [];
      for i := 0 to |lines|
        invariant Scan(inAdBreak, skipCounter, filteredLines) == Run(rules, lines[..i])
      {
        var line := lines[i];
        var trimmedLine := rules.trim(line);
        assert lines[..i + 1] == lines[..i] + [line];
        RunSnoc(rules, lines[..i], line);
        if trimmedLine == [] {
          continue;
        }
        if rules.isAdTrigger(trimmedLine) {
          inAdBreak := true;
          filteredLines := filteredLines + [Discontinuity];
          continue;
        }
        if inAdBreak && rules.isAdEnd(trimmedLine) {
          inAdBreak := false;
          continue;
        }
        if inAdBreak {
          continue;
        }
        var skipMatch := rules.skippedSegments(trimmedLine);
        if skipMatch.Some? {
          skipCounter := skipMatch.value;
          continue;
        }
        if !StartsWith(trimmedLine, "#") {
          if skipCounter > 0 {
            if |filteredLines| > 0 && StartsWith(filteredLines[|filteredLines| - 1], ExtinfPrefix) {
              filteredLines := filteredLines[..|filteredLines| - 1];
            }
            skipCounter := skipCounter - 1;
            continue;
          }
          var isAdUrl := rules.isAdUrl(trimmedLine);
          if isAdUrl {
            if |filteredLines| > 0 && StartsWith(filteredLines[|filteredLines| - 1], ExtinfPrefix) {
              filteredLines := filteredLines[..|filteredLines| - 1];
            }
            continue;
          }
        }
        filteredLines := filteredLines + [line];
      }
      assert lines[..|lines|] == lines;
      r := Join(filteredLines);
    }

    /** The decision inside `load` for a request of the given type and URL. */
    function Route(requestType: string, url: string): (d: Decision)
      ensures d == StripAndLoad <==> adFilteringEnabled && (requestType == "manifest" || requestType == "level")
      ensures d == Block <==> adFilteringEnabled && requestType == "fragment" && IsAdFragmentUrl(url)
      ensures !adFilteringEnabled ==> d == Load
    {
      if adFilteringEnabled && (requestType == "manifest" || requestType == "level") then StripAndLoad
      else if adFilteringEnabled && requestType == "fragment" && IsAdFragmentUrl(url) then Block
      else Load
    }

    /** The wrapped `onSuccess`: a text body is stripped, any other body is passed on as it is. */
    method OnManifestSuccess(data: ResponseData) returns (r: ResponseData)
      ensures data.OtherData? ==> r == data
      ensures data.TextData? ==> r.TextData?
      ensures data.TextData? && !adFilteringEnabled ==> r == data
      ensures data.TextData? && adFilteringEnabled ==> r.text == Strip(rules, data.text)
    {
      if data.TextData? {
        var stripped := StripManifest(data.text);
        return TextData(stripped);
      }
      return data;
    }
  }

  /**
   * The two loops of `_stripManifest` that decide whether a URI line is an ad: first
   * the keywords on the lower-cased line, then the regex rules, each stopping at the
   * first hit.
   */
  method DetectAdUrl(trimmedLine: string) returns (isAdUrl: bool)
    ensures isAdUrl == IsAdUrl(trimmedLine)
  {
    isAdUrl := false;
    var lowerTrimmedLine := ToLowerAscii(trimmedLine);
    for k := 0 to |AdKeywords|
      invariant !isAdUrl
      invariant forall j :: 0 <= j < k ==> !Contains(lowerTrimmedLine, AdKeywords[j])
    {
      if Contains(lowerTrimmedLine, AdKeywords[k]) {
        isAdUrl := true;
        break;
      }
    }
    if isAdUrl {
      return;
    }
    assert !HasAdKeyword(lowerTrimmedLine);
    for k := 0 to |AdRegexRules|
      invariant !isAdUrl
      invariant forall j :: 0 <= j < k ==> !MatchesRule(AdRegexRules[j], trimmedLine)
    {
      if MatchesRule(AdRegexRules[k], trimmedLine) {
        isAdUrl := true;
        break;
      }
    }
  }

  /** The `p2pConfig` part of `getHlsConfig(options)`: both flags written out as booleans. */
  function HlsP2pConfig(options: Options): (c: Options)
    ensures c.adFilteringEnabled.Bool? && c.debugMode.Bool?
    ensures c.adFilteringEnabled.b <==> options.adFilteringEnabled != Bool(false)
    ensures c.debugMode.b <==> options.debugMode == Bool(true)
  {
    Options(Bool(FilteringOn(options.adFilteringEnabled)), Bool(DebugOn(options.debugMode)))
  }

  /** The configuration object `getHlsConfig` returns, without the hls.js tuning numbers. */
  datatype HlsConfig = HlsConfig(p2pConfig: Options)

  /** `getHlsConfig(options = {})`: a missing argument reads as an object with nothing set. */
  function GetHlsConfig(options: Option<Options>): (c: HlsConfig)
    ensures c.p2pConfig.adFilteringEnabled.Bool? && c.p2pConfig.debugMode.Bool?
  {
    HlsConfig(HlsP2pConfig(options.GetOr(Options(Undefined, Undefined))))
  }

  /** With no options filtering is on and debugging off. */
  lemma DefaultsWithoutOptions()
    ensures GetHlsConfig(None).p2pConfig == Options(Bool(true), Bool(false))
  {
  }

  /** A loader built from `getHlsConfig(options)` has the flags the options ask for. */
  lemma ConfigFlagsReachLoader(options: Options)
    ensures FilteringOn(CustomConfig(Some(GetHlsConfig(Some(options)).p2pConfig)).adFilteringEnabled)
            == FilteringOn(options.adFilteringEnabled)
    ensures DebugOn(CustomConfig(Some(GetHlsConfig(Some(options)).p2pConfig)).debugMode)
            == DebugOn(options.debugMode)
  {
  }

  /** Feeding a generated `p2pConfig` back into `getHlsConfig` changes nothing. */
  lemma HlsConfigIdempotent(options: Option<Options>)
    ensures GetHlsConfig(Some(GetHlsConfig(options).p2pConfig)) == GetHlsConfig(options)
  {
  }
}
