/**
 * The performance-hints tab helper: after each main-frame navigation it asks
 * the optimization guide for the page's performance hints and keeps them as
 * an ordered list of (URL pattern, hint) pairs; links are then looked up by
 * first match.
 *
 * The wildcard matcher and the optimization-guide decider are foreign
 * services; the model takes them as a function value (the matcher) and an
 * optional function value fixed at construction (the decider).
 */
module PerformanceHints {
  import opened Wrappers

  datatype GURL = GURL(spec: string, isValid: bool)

  datatype PerformanceClass =
    | PerformanceUnknown
    | PerformanceSlow
    | PerformanceFast
    | PerformanceNormal

  datatype PerformanceHint = PerformanceHint(wildcardPattern: string, performanceClass: PerformanceClass)

  /** URLPatternWithWildcards, built from a hint's wildcard_pattern. */
  datatype URLPatternWithWildcards = URLPatternWithWildcards(pattern: string)

  /** The abstract URLPatternWithWildcards::Matches. */
  type Matcher = (URLPatternWithWildcards, string) -> bool

  datatype PatternHint = PatternHint(pattern: URLPatternWithWildcards, hint: PerformanceHint)

  datatype NavigationHandle = NavigationHandle(
    isInMainFrame: bool,
    isSameDocument: bool,
    hasCommitted: bool,
    isErrorPage: bool)

  datatype OptimizationGuideDecision = DecisionUnknown | DecisionTrue | DecisionFalse

  datatype OptimizationMetadata = OptimizationMetadata(performanceHints: seq<PerformanceHint>)

  /** The abstract CanApplyOptimization(PERFORMANCE_HINTS) oracle. */
  type Decider = NavigationHandle -> (OptimizationGuideDecision, OptimizationMetadata)

  /** Index of the first pair whose pattern matches `spec`, or |hints| if none does. */
  function FirstMatchIndex(hints: seq<PatternHint>, spec: string, matches: Matcher): (k: nat)
    ensures k <= |hints|
    ensures k < |hints| ==> matches(hints[k].pattern, spec)
    ensures forall j :: 0 <= j < k ==> !matches(hints[j].pattern, spec)
  {
    if |hints| == 0 then 0
    else if matches(hints[0].pattern, spec) then 0
    else 1 + FirstMatchIndex(hints[1..], spec, matches)
  }

  /** The first-match search of HintForURL over a given list of pairs. */
  function HintIn(hints: seq<PatternHint>, url: GURL, matches: Matcher): (r: Option<PerformanceHint>)
    ensures !url.isValid ==> r == None
    ensures r.None? && url.isValid ==>
      forall j :: 0 <= j < |hints| ==> !matches(hints[j].pattern, url.spec)
    ensures r.Some? ==>
      url.isValid &&
      exists k :: 0 <= k < |hints| && hints[k].hint == r.value &&
        matches(hints[k].pattern, url.spec) &&
        forall j :: 0 <= j < k ==> !matches(hints[j].pattern, url.spec)
  {
    if !url.isValid then None
    else
      var k := FirstMatchIndex(hints, url.spec, matches);
      if k < |hints| then Some(hints[k].hint) else None
  }

  /** The pairs a successful navigation installs: one per metadata hint, in order. */
  function PatternHintsOf(metadataHints: seq<PerformanceHint>): (r: seq<PatternHint>)
    ensures |r| == |metadataHints|
    ensures forall i :: 0 <= i < |r| ==>
      r[i].hint == metadataHints[i] &&
      r[i].pattern == URLPatternWithWildcards(metadataHints[i].wildcardPattern)
  {
    seq(|metadataHints|, i requires 0 <= i < |metadataHints| =>
      PatternHint(URLPatternWithWildcards(metadataHints[i].wildcardPattern), metadataHints[i]))
  }

  /** Reference search straight over the metadata: the first hint whose own pattern matches. */
  function FirstMatchingHint(metadataHints: seq<PerformanceHint>, spec: string, matches: Matcher): Option<PerformanceHint>
  {
    if |metadataHints| == 0 then None
    else if matches(URLPatternWithWildcards(metadataHints[0].wildcardPattern), spec) then Some(metadataHints[0])
    else FirstMatchingHint(metadataHints[1..], spec, matches)
  }

  /**
   * After a successful navigation, looking a valid URL up finds exactly the
   * first metadata hint whose wildcard pattern matches it.
   */
  lemma {:induction false} HintAfterNavigationIsFirstMatchingHint(
    metadataHints: seq<PerformanceHint>, url: GURL, matches: Matcher)
    requires url.isValid
    ensures HintIn(PatternHintsOf(metadataHints), url, matches) ==
      FirstMatchingHint(metadataHints, url.spec, matches)
  {
    if |metadataHints| > 0 {
      var rest := metadataHints[1..];
      HintAfterNavigationIsFirstMatchingHint(rest, url, matches);
      assert PatternHintsOf(metadataHints)[1..] == PatternHintsOf(rest);
    }
  }

  /** Navigations that keep the current hints: subframe, same-document or not committed. */
  predicate KeepsHints(navigation: NavigationHandle)
  {
    !navigation.isInMainFrame || navigation.isSameDocument || !navigation.hasCommitted
  }

  class PerformanceHintsObserver {
    /** Null when optimization hints are disabled for the profile. */
    const decider: Option<Decider>
    /** URLs that match a pair's pattern use that pair's hint. */
    var hints: seq<PatternHint>

    constructor (decider: Option<Decider>)
      ensures this.decider == decider && hints == []
    {
      this.decider := decider;
      hints := [];
    }

    /** The hint for a link to `url`, if one exists; reads the state and changes nothing. */
    function HintForURL(url: GURL, matches: Matcher): (r: Option<PerformanceHint>)
      reads this
      ensures !url.isValid ==> r == None
      ensures r.None? && url.isValid ==>
        forall j :: 0 <= j < |hints| ==> !matches(hints[j].pattern, url.spec)
      ensures r.Some? ==>
        exists k :: 0 <= k < |hints| && hints[k].hint == r.value &&
          matches(hints[k].pattern, url.spec) &&
          forall j :: 0 <= j < k ==> !matches(hints[j].pattern, url.spec)
    {
      HintIn(hints, url, matches)
    }

    method DidFinishNavigation(navigation: NavigationHandle)
      modifies this`hints
      ensures KeepsHints(navigation) ==> hints == old(hints)
      ensures !KeepsHints(navigation) && (decider.None? || navigation.isErrorPage) ==> hints == []
      ensures !KeepsHints(navigation) && decider.Some? && !navigation.isErrorPage ==>
        var (decision, metadata) := decider.value(navigation);
        hints == if decision == DecisionTrue then PatternHintsOf(metadata.performanceHints) else []
    {
      if KeepsHints(navigation) {
        // The main frame has not changed: keep the same hints.
        return;
      }
      hints := [];
      if decider.None? {
        return;
      }
      if navigation.isErrorPage {
        return;
      }
      var (decision, metadata) := decider.value(navigation);
      if decision != DecisionTrue {
        return;
      }
      if |metadata.performanceHints| <= 0 {
        return;
      }
      var i := 0;
      while i < |metadata.performanceHints|
        invariant 0 <= i <= |metadata.performanceHints|
        invariant hints == PatternHintsOf(metadata.performanceHints[..i])
      {
        var hint := metadata.performanceHints[i];
        hints := hints + [PatternHint(URLPatternWithWildcards(hint.wildcardPattern), hint)];
        i := i + 1;
      }
      assert metadata.performanceHints[..i] == metadata.performanceHints;
    }
  }
}
