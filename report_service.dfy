/**
 * The enrichment pipeline and the service entry point (src/report.service.ts).
 *
 * Handlers are functions from signal bundle to signal bundle; the pipeline
 * applies them left to right. The two registered handlers record that content
 * analysis is refused and enrich the bundle from the domain's global rank.
 * The rank lookup itself (src/report.helpers.ts) is an input here: the
 * handler receives the rank it would have read.
 */
module ReportService {
  import opened Optional
  import opened ReportTypes
  import opened ReportModel

  // ---------------------------------------------------------------------------
  // `runPipeline`
  // ---------------------------------------------------------------------------

  /** `funcs.reduce((acc, f) => f(acc), x)`: applies `fs` to `x` from first to last. */
  function RunPipeline<T>(x: T, fs: seq<T -> T>): (r: T)
    ensures |fs| > 0 ==> r == fs[|fs| - 1](RunPipeline(x, fs[..|fs| - 1]))
    decreases |fs|
  {
    if fs == [] then x
    else
      assert |fs| > 1 ==> fs[..|fs| - 1][1..] == fs[1..][..|fs| - 2];
      RunPipeline(fs[0](x), fs[1..])
  }

  /** The empty pipeline is the identity. */
  lemma RunPipelineEmpty<T>(x: T)
    ensures RunPipeline(x, []) == x
  {
  }

  /** A handler appended to a pipeline runs on the pipeline's result. */
  lemma {:induction false} RunPipelineSnoc<T>(x: T, fs: seq<T -> T>, g: T -> T)
    ensures RunPipeline(x, fs + [g]) == g(RunPipeline(x, fs))
    decreases |fs|
  {
    if fs == [] {
      assert [g][1..] == [];
    } else {
      assert (fs + [g])[0] == fs[0];
      assert (fs + [g])[1..] == fs[1..] + [g];
      RunPipelineSnoc(fs[0](x), fs[1..], g);
    }
  }

  /** Running two pipelines one after the other is running their concatenation. */
  lemma {:induction false} RunPipelineAppend<T>(x: T, fs: seq<T -> T>, gs: seq<T -> T>)
    ensures RunPipeline(x, fs + gs) == RunPipeline(RunPipeline(x, fs), gs)
    decreases |fs|
  {
    if fs == [] {
      assert fs + gs == gs;
    } else {
      assert (fs + gs)[0] == fs[0];
      assert (fs + gs)[1..] == fs[1..] + gs;
      RunPipelineAppend(fs[0](x), fs[1..], gs);
    }
  }

  // ---------------------------------------------------------------------------
  // The handlers.
  // ---------------------------------------------------------------------------

  /**
   * `doesAllowAnalyzeContent`: when content analysis is not allowed, adds the
   * matching label to the pre-defined negative highlights; nothing else changes.
   */
  function DoesAllowAnalyzeContent(d: DomainInfo): (r: DomainInfo)
    ensures forall l :: l in r.preDefinedHighlights.negative <==>
      l in d.preDefinedHighlights.negative || (l == DoesNotAllowAnalyseContent && !d.doesAllowAnalyzeContent)
    ensures r == d.(preDefinedHighlights := Highlights(d.preDefinedHighlights.positive, r.preDefinedHighlights.negative))
  {
    if !d.doesAllowAnalyzeContent then
      d.(preDefinedHighlights := d.preDefinedHighlights.(negative := d.preDefinedHighlights.negative + {DoesNotAllowAnalyseContent}))
    else d
  }

  /** The six positive labels every rank within 500,000 receives, besides its badge. */
  const TopRankLabels: set<Positive> := {
    ImplementsRefererPolicy, SafeByGoogleSafeBrowsing, SafeDnsFilter,
    RegistrarGoodReputation, SupportsHsts, ProtectedAgainstInjection
  }

  /**
   * Reference definition of the positive labels the rank handler grants: the
   * not-blacklisted label for any non-zero rank, the six top-rank labels within
   * 500,000, and one badge there ("top 1OOK" within 200,000, "top 5OOK" beyond).
   */
  function AddedByRank(rank: int): set<Positive>
  {
    (if rank != 0 then {NotDnsBlacklisted} else {})
      + (if RankedWithin(rank, 500_000) then TopRankLabels else {})
      + (if RankedWithin(rank, 500_000) && !RankedWithin(rank, 200_000) then {RankedAmongTop5OOK} else {})
      + (if RankedWithin(rank, 200_000) then {RankedAmongTop1OOK} else {})
  }

  /** The fields the rank handler never writes are unchanged between `d` and `r`. */
  predicate RankFrame(d: DomainInfo, r: DomainInfo)
  {
    r.domainName == d.domainName && r.doesAllowAnalyzeContent == d.doesAllowAnalyzeContent
    && r.redirectsTo == d.redirectsTo && r.isDnsBlackListed == d.isDnsBlackListed
    && r.supportsHsts == d.supportsHsts && r.hasFavIcon == d.hasFavIcon
    && r.domainAge == d.domainAge && r.domainAgeReadable == d.domainAgeReadable
    && r.sslState == d.sslState && r.whoisHidden == d.whoisHidden
    && r.loadsExternalObjects == d.loadsExternalObjects && r.urlTooLong == d.urlTooLong
    && r.isUrlShortened == d.isUrlShortened && r.highlights == d.highlights
  }

  /**
   * The `globalRank` handler, given the rank the lookup returned: it stores the
   * rank and then applies its guards in the source's order.
   */
  function GlobalRank(d: DomainInfo, rank: int): (r: DomainInfo)
    ensures r.globalRank == rank
    ensures r.isAbnormalUrl == (d.isAbnormalUrl && rank == 0)
    ensures RankedWithin(rank, 500_000) ==>
      !r.isParkedDomain && r.doesSupportHSTS && r.isProtectedAgaintsClickJacking && r.supportsCSP
      && r.isProtectedAgainstXSS && r.implementsReferrerPolicy && r.isKnownRegistrar
      && r.preComputedScore == Some(100.0)
    ensures !RankedWithin(rank, 500_000) ==>
      r.isParkedDomain == d.isParkedDomain && r.doesSupportHSTS == d.doesSupportHSTS
      && r.isProtectedAgaintsClickJacking == d.isProtectedAgaintsClickJacking && r.supportsCSP == d.supportsCSP
      && r.isProtectedAgainstXSS == d.isProtectedAgainstXSS && r.implementsReferrerPolicy == d.implementsReferrerPolicy
      && r.isKnownRegistrar == d.isKnownRegistrar && r.preComputedScore == d.preComputedScore
    ensures r.doesLoadExternalObjects == (d.doesLoadExternalObjects && !RankedWithin(rank, 200_000))
    ensures forall l :: l in r.preDefinedHighlights.positive <==>
      (l in d.preDefinedHighlights.positive && !(l == RankedAmongTop5OOK && RankedWithin(rank, 200_000)))
      || l in AddedByRank(rank)
    ensures r.preDefinedHighlights.negative == d.preDefinedHighlights.negative
    ensures RankFrame(d, r)
  {
    var withinTop100k := rank > 0 && rank <= 200_000;
    var withinTop200k := rank > 0 && rank <= 200_000;
    var withinTop500k := rank > 0 && rank <= 500_000;
    var withinTop1m := rank != 0;
    // the label set, guard by guard
    var p0 := d.preDefinedHighlights.positive;
    var p1 := if withinTop1m then p0 + {NotDnsBlacklisted} else p0;
    var p2 := if withinTop500k then p1 + TopRankLabels + {RankedAmongTop5OOK} else p1;
    var p3 := if withinTop100k then p2 - {RankedAmongTop5OOK} + {RankedAmongTop1OOK} else p2;
    // the signals, each written by the last guard that sets it
    d.(globalRank := rank,
       isAbnormalUrl := if withinTop1m then false else d.isAbnormalUrl,
       isParkedDomain := if withinTop500k then false else d.isParkedDomain,
       doesSupportHSTS := if withinTop500k then true else d.doesSupportHSTS,
       isProtectedAgaintsClickJacking := if withinTop500k then true else d.isProtectedAgaintsClickJacking,
       supportsCSP := if withinTop500k then true else d.supportsCSP,
       isProtectedAgainstXSS := if withinTop500k then true else d.isProtectedAgainstXSS,
       implementsReferrerPolicy := if withinTop500k then true else d.implementsReferrerPolicy,
       isKnownRegistrar := if withinTop500k then true else d.isKnownRegistrar,
       preDefinedHighlights := d.preDefinedHighlights.(positive := p3),
       preComputedScore := if withinTop500k then Some(100.0) else d.preComputedScore,
       doesLoadExternalObjects := if withinTop200k then false else d.doesLoadExternalObjects)
  }

  /**
   * The score overwrites what the rank handler stored: a rank beyond the score's
   * short-circuit but within 500,000 leaves 100 in the score slot, yet the score
   * of the enriched bundle can be far lower, and that is what the score writes.
   */
  lemma RankScoreCanBeLowered()
    ensures var d := GlobalRank(DomainInfo("a", 0, true, true, "", false, false, false, false, 0, true,
                                           SslState(false, None), false, false, false, false, false, false,
                                           false, false, false, false, false, NoHighlights, NoHighlights, None),
                                100_000);
      d.preComputedScore == Some(100.0)
      && !RankedWithin(d.globalRank, SCORE_SHORT_CIRCUIT_RANK)
      && FinalScore(d, Weights(50.0, 0.2, 0.3, 0.5)) < 100.0
  {
  }

  /** Enriching twice with the same rank is enriching once. */
  lemma GlobalRankIdempotent(d: DomainInfo, rank: int)
    ensures GlobalRank(GlobalRank(d, rank), rank) == GlobalRank(d, rank)
  {
  }

  /**
   * Starting without the "top 1OOK" badge, the rank handler never leaves both
   * badges in the pre-defined highlights.
   */
  lemma RankBadgesExclusive(d: DomainInfo, rank: int)
    requires RankedAmongTop1OOK !in d.preDefinedHighlights.positive
    ensures !(RankedAmongTop1OOK in GlobalRank(d, rank).preDefinedHighlights.positive
              && RankedAmongTop5OOK in GlobalRank(d, rank).preDefinedHighlights.positive)
  {
  }

  /** The band the source names "top 100k" is coded as 200,000: rank 150,000 gets the "top 1OOK" badge. */
  lemma Top100kBandIs200k(d: DomainInfo)
    ensures RankedAmongTop1OOK in GlobalRank(d, 150_000).preDefinedHighlights.positive
    ensures RankedAmongTop5OOK !in GlobalRank(d, 150_000).preDefinedHighlights.positive
  {
  }

  // ---------------------------------------------------------------------------
  // The entry point.
  // ---------------------------------------------------------------------------

  /** The registered handlers, in order, for a lookup that returned `rank`. */
  function Handlers(rank: int): (hs: seq<DomainInfo -> DomainInfo>)
    ensures |hs| == 2
  {
    [DoesAllowAnalyzeContent, (d: DomainInfo) => GlobalRank(d, rank)]
  }

  /** The pipeline of the entry point is the two handlers, one after the other. */
  lemma HandlersPipeline(d: DomainInfo, rank: int)
    ensures RunPipeline(d, Handlers(rank)) == GlobalRank(DoesAllowAnalyzeContent(d), rank)
  {
    var hs := Handlers(rank);
    var a := DoesAllowAnalyzeContent(d);
    assert RunPipeline(d, hs) == RunPipeline(a, hs[1..]);
    assert hs[1..][0](a) == GlobalRank(a, rank);
    assert hs[1..][1..] == [];
    assert RunPipeline(a, hs[1..]) == RunPipeline(GlobalRank(a, rank), []);
  }

  /** The bundle reset as the entry point does before enrichment. */
  function Reset(d: DomainInfo): (r: DomainInfo)
    ensures r.preDefinedHighlights == NoHighlights && r.preComputedScore.None?
    ensures r.(preDefinedHighlights := d.preDefinedHighlights, preComputedScore := d.preComputedScore) == d
  {
    d.(preDefinedHighlights := NoHighlights, preComputedScore := None)
  }

  /**
   * The default export: resets the pre-defined highlights and the score slot,
   * runs the handlers, and builds the report from the enriched bundle.
   */
  method Report(d: DomainInfo, rank: int) returns (report: HighlightReport, enriched: DomainInfo)
    ensures enriched == GlobalRank(DoesAllowAnalyzeContent(Reset(d)), rank)
    ensures report == Aggregate(Contributions(enriched))
    ensures forall l :: l in report.highlights.positive <==> DerivesPositive(enriched, l)
    ensures forall l :: l in report.highlights.negative <==> DerivesNegative(enriched, l)
    ensures report.htmlDetails == ExpectedDetails(enriched)
  {
    var info := Reset(d);
    info := RunPipeline(info, Handlers(rank));
    HandlersPipeline(Reset(d), rank);
    report := GenerateHighlights(info);
    enriched := info;
  }

  /** What the handlers leave in the pre-defined highlights after the reset. */
  lemma EnrichedPredefined(d: DomainInfo, rank: int)
    ensures var e := GlobalRank(DoesAllowAnalyzeContent(Reset(d)), rank);
      e.preDefinedHighlights.positive == AddedByRank(rank)
      && e.preDefinedHighlights.negative == (if d.doesAllowAnalyzeContent then {} else {DoesNotAllowAnalyseContent})
  {
  }

  /**
   * The report never carries the pre-defined highlights: in particular the
   * label for refused content analysis, which the pipeline records, is never
   * reported.
   */
  lemma AnalyseContentLabelNeverReported(d: DomainInfo, rank: int)
    ensures DoesNotAllowAnalyseContent !in Aggregate(Contributions(GlobalRank(DoesAllowAnalyzeContent(Reset(d)), rank))).highlights.negative
  {
    DerivedNegative(GlobalRank(DoesAllowAnalyzeContent(Reset(d)), rank), DoesNotAllowAnalyseContent);
  }

  /**
   * For a rank within 200,000 the enriched bundle can only be reported for its
   * age, its certificate and a hidden WHOIS record.
   */
  lemma TopRankNegatives(d: DomainInfo, rank: int, l: Negative)
    requires RankedWithin(rank, 200_000)
    requires l in Aggregate(Contributions(GlobalRank(DoesAllowAnalyzeContent(Reset(d)), rank))).highlights.negative
    ensures l == DomainAgeVeryYoung || l.SslInvalidWithError? || l == NoSslCertFound || l == DoesHideWhois
  {
    var e := GlobalRank(DoesAllowAnalyzeContent(Reset(d)), rank);
    DerivedNegative(e, l);
  }
}
