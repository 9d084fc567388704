/**
 * The deriver engine and the trust score (src/report.model.ts).
 *
 * Thirteen independent rules ("derivers") each inspect the signal bundle and
 * contribute at most one positive label, at most one negative label and at
 * most one paragraph for one of three buckets. `GenerateHighlights` runs them
 * in their fixed order and folds their contributions into two label sets and
 * three ordered paragraph lists. `ComputeScore` is the tiered score formula.
 */
module ReportModel {
  import opened Optional
  import opened ReportTypes

  // Durations in milliseconds, as the rules compare `domainAge` against them.
  const ONE_YEAR: int := 1000 * 60 * 60 * 24 * 365
  const TWO_YEARS: int := ONE_YEAR * 2
  const FIVE_YEARS: int := ONE_YEAR * 5
  const SEVEN_YEARS: int := ONE_YEAR * 7

  /** Rank in (0, `bound`]: the "well ranked" bands the rules test. */
  predicate RankedWithin(rank: int, bound: int)
  {
    0 < rank <= bound
  }

  /** JavaScript truthiness of a string: only the empty string is falsy. */
  predicate Truthy(s: string)
  {
    s != ""
  }

  // ---------------------------------------------------------------------------
  // The thirteen derivers, in the order the engine runs them.
  // ---------------------------------------------------------------------------

  /**
   * Rank badge. An unranked domain gets no badge; the badge names are the
   * source's own and are inverted against their thresholds: every rank below
   * 500,000 gets the "top 1OOK" badge, every rank from 500,000 on the
   * "top 5OOK" one.
   */
  function RankHighlights(d: DomainInfo): (c: Contribution)
    ensures c.negative.None? && c.details.None?
    ensures c.positive.Some? <==> d.globalRank != 0
    ensures c.positive == Some(RankedAmongTop1OOK) <==> d.globalRank != 0 && d.globalRank < 500_000
    ensures c.positive == Some(RankedAmongTop5OOK) <==> d.globalRank >= 500_000
  {
    if d.globalRank == 0 then Nothing
    else if d.globalRank < 500_000 then Contribution(Some(RankedAmongTop1OOK), None, None)
    // the source tests `globalRank >= 500_000` here, which always holds at this point
    else Contribution(Some(RankedAmongTop5OOK), None, None)
  }

  /**
   * Domain age. Always exactly one label and one detailed-analysis paragraph;
   * each year boundary belongs to the older bracket.
   */
  function AgeHighlights(d: DomainInfo): (c: Contribution)
    ensures c.positive.Some? != c.negative.Some?
    ensures c.negative.Some? <==> d.domainAge < TWO_YEARS
    ensures c.negative.Some? ==> c.negative.value == DomainAgeVeryYoung
    ensures c.positive == Some(DomainAgeSomeYears) <==> TWO_YEARS <= d.domainAge < SEVEN_YEARS
    ensures c.positive == Some(DomainAgeOld) <==> SEVEN_YEARS <= d.domainAge
    ensures c.details.Some? && c.details.value.bucket == DetailedAnalysis
    ensures c.details.value.p == AgeUnderOneYear <==> d.domainAge < ONE_YEAR
    ensures c.details.value.p == AgeOneToTwoYears <==> ONE_YEAR <= d.domainAge < TWO_YEARS
    ensures c.details.value.p == AgeTwoToFiveYears <==> TWO_YEARS <= d.domainAge < FIVE_YEARS
    ensures c.details.value.p == AgeFiveToSevenYears <==> FIVE_YEARS <= d.domainAge < SEVEN_YEARS
    ensures c.details.value.p == AgeSevenYearsOrMore <==> SEVEN_YEARS <= d.domainAge
  {
    var age := d.domainAge;
    if age < ONE_YEAR then
      Contribution(None, Some(DomainAgeVeryYoung), Some(Detail(DetailedAnalysis, AgeUnderOneYear)))
    else if age < TWO_YEARS then
      Contribution(None, Some(DomainAgeVeryYoung), Some(Detail(DetailedAnalysis, AgeOneToTwoYears)))
    else if age < FIVE_YEARS then
      Contribution(Some(DomainAgeSomeYears), None, Some(Detail(DetailedAnalysis, AgeTwoToFiveYears)))
    else if age < SEVEN_YEARS then
      Contribution(Some(DomainAgeSomeYears), None, Some(Detail(DetailedAnalysis, AgeFiveToSevenYears)))
    // the source tests `domainAge >= SEVEN_YEARS` here, which always holds at this point
    else
      Contribution(Some(DomainAgeOld), None, Some(Detail(DetailedAnalysis, AgeSevenYearsOrMore)))
  }

  /** Registrar: exactly one label, positive iff the registrar is known or the domain ranked. */
  function RegistrarHighlights(d: DomainInfo): (c: Contribution)
    ensures c.positive.Some? != c.negative.Some?
    ensures c.positive.Some? <==> d.isKnownRegistrar || d.globalRank != 0
    ensures c.positive.Some? ==>
      c.positive.value == RegistrarGoodReputation && c.details == Some(Detail(TechnicalAnalysis, RegistrarReputable))
    ensures c.negative.Some? ==> c.negative.value == RegistrarUnknown && c.details.None?
  {
    if d.isKnownRegistrar || d.globalRank != 0 then
      Contribution(Some(RegistrarGoodReputation), None, Some(Detail(TechnicalAnalysis, RegistrarReputable)))
    else
      Contribution(None, Some(RegistrarUnknown), None)
  }

  /**
   * SSL: exactly one label and always one technical-analysis paragraph. A valid
   * certificate wins even when an error text is present; an invalid one names
   * its error when the error text is non-empty.
   */
  function SslHighlights(d: DomainInfo): (c: Contribution)
    ensures c.positive.Some? != c.negative.Some?
    ensures c.positive.Some? <==> d.sslState.valid
    ensures c.positive.Some? ==> c.positive.value == SslValid
    ensures c.negative.Some? && c.negative.value.SslInvalidWithError? <==>
      !d.sslState.valid && d.sslState.error.Some? && Truthy(d.sslState.error.value)
    ensures c.negative.Some? && c.negative.value.SslInvalidWithError? ==>
      c.negative.value.error == d.sslState.error.value
    ensures c.negative.Some? ==> c.negative.value == NoSslCertFound || c.negative.value.SslInvalidWithError?
    ensures c.details.Some? && c.details.value.bucket == TechnicalAnalysis
    ensures c.details.value.p == (if d.sslState.valid then SslPresent else SslMissing)
  {
    var ssl := d.sslState;
    if ssl.valid then
      Contribution(Some(SslValid), None, Some(Detail(TechnicalAnalysis, SslPresent)))
    else if ssl.error.Some? && Truthy(ssl.error.value) then
      Contribution(None, Some(SslInvalidWithError(ssl.error.value)), Some(Detail(TechnicalAnalysis, SslMissing)))
    else
      Contribution(None, Some(NoSslCertFound), Some(Detail(TechnicalAnalysis, SslMissing)))
  }

  /** HSTS: the positive label iff HSTS is supported or the domain ranked, else nothing. */
  function HstsHighlights(d: DomainInfo): (c: Contribution)
    ensures c.negative.None? && c.details.None?
    ensures c.positive.Some? <==> d.doesSupportHSTS || d.globalRank != 0
    ensures c.positive.Some? ==> c.positive.value == SupportsHsts
  {
    if d.doesSupportHSTS || d.globalRank != 0 then Contribution(Some(SupportsHsts), None, None)
    else Nothing
  }

  /**
   * Redirects: skipped for every rank in [0, 500000], so an unranked domain is
   * skipped too; otherwise a negative label iff `redirectsTo` is non-empty.
   */
  function RedirectsHighlights(d: DomainInfo): (c: Contribution)
    ensures 0 <= d.globalRank <= 500_000 ==> c == Nothing
    ensures c.positive.None? && c.details.None?
    ensures c.negative.Some? <==> !(0 <= d.globalRank <= 500_000) && Truthy(d.redirectsTo)
    ensures c.negative.Some? ==> c.negative.value == UrlRedirects
  {
    if 0 <= d.globalRank <= 500_000 then Nothing
    else if Truthy(d.redirectsTo) then Contribution(None, Some(UrlRedirects), None)
    else Nothing
  }

  /** URL length: a negative label only for an unranked domain whose URL is too long. */
  function UrlTooLongHighlights(d: DomainInfo): (c: Contribution)
    ensures c.positive.None? && c.details.None?
    ensures c.negative.Some? <==> d.globalRank == 0 && d.urlTooLong
    ensures c.negative.Some? ==> c.negative.value == UrlTooLong
  {
    if d.globalRank != 0 then Nothing
    else if d.urlTooLong then Contribution(None, Some(UrlTooLong), None)
    else Nothing
  }

  /** External objects: negative iff loading them, ranked, and not within the 200,000 band. */
  function ExternalObjectsHighlights(d: DomainInfo): (c: Contribution)
    ensures RankedWithin(d.globalRank, 200_000) ==> c == Nothing
    ensures c.positive.None? && c.details.None?
    ensures c.negative.Some? <==>
      d.doesLoadExternalObjects && d.globalRank != 0 && !RankedWithin(d.globalRank, 200_000)
    ensures c.negative.Some? ==> c.negative.value == LoadsExternalObjects
  {
    if RankedWithin(d.globalRank, 200_000) then Nothing
    else if d.doesLoadExternalObjects && d.globalRank != 0 then Contribution(None, Some(LoadsExternalObjects), None)
    else Nothing
  }

  /** Referrer policy: exactly one label, positive iff implemented or the domain ranked. */
  function ReferrerPolicyHighlights(d: DomainInfo): (c: Contribution)
    ensures c.positive.Some? != c.negative.Some? && c.details.None?
    ensures c.positive.Some? <==> d.implementsReferrerPolicy || d.globalRank != 0
    ensures c.positive.Some? ==> c.positive.value == ImplementsRefererPolicy
    ensures c.negative.Some? ==> c.negative.value == DoesNotImplementRefererPolicy
  {
    if d.implementsReferrerPolicy || d.globalRank != 0 then Contribution(Some(ImplementsRefererPolicy), None, None)
    else Contribution(None, Some(DoesNotImplementRefererPolicy), None)
  }

  /** CSP: nothing within the 200,000 band, otherwise exactly one label, positive iff CSP is supported. */
  function CspHighlights(d: DomainInfo): (c: Contribution)
    ensures RankedWithin(d.globalRank, 200_000) ==> c == Nothing
    ensures !RankedWithin(d.globalRank, 200_000) ==> c.positive.Some? != c.negative.Some?
    ensures c.details.None?
    ensures c.positive.Some? <==> !RankedWithin(d.globalRank, 200_000) && d.supportsCSP
    ensures c.positive.Some? ==> c.positive.value == ProtectedAgainstInjection
    ensures c.negative.Some? ==> c.negative.value == NotProtectedAgainstInjection
  {
    if RankedWithin(d.globalRank, 200_000) then Nothing
    else if d.supportsCSP then Contribution(Some(ProtectedAgainstInjection), None, None)
    else Contribution(None, Some(NotProtectedAgainstInjection), None)
  }

  /** Parked domain: a negative label and a company-evaluation paragraph iff parked. */
  function ParkedHighlights(d: DomainInfo): (c: Contribution)
    ensures c.positive.None?
    ensures c.negative.Some? <==> d.isParkedDomain
    ensures c.details.Some? <==> d.isParkedDomain
    ensures d.isParkedDomain ==>
      c.negative.value == DomainParked && c.details.value == Detail(CompanyEvaluation, ParkedState)
  {
    if d.isParkedDomain then Contribution(None, Some(DomainParked), Some(Detail(CompanyEvaluation, ParkedState)))
    else Nothing
  }

  /** Hidden WHOIS: a negative label and a company-evaluation paragraph iff the owner is hidden. */
  function WhoisHiddenHighlights(d: DomainInfo): (c: Contribution)
    ensures c.positive.None?
    ensures c.negative.Some? <==> d.whoisHidden
    ensures c.details.Some? <==> d.whoisHidden
    ensures d.whoisHidden ==>
      c.negative.value == DoesHideWhois && c.details.value == Detail(CompanyEvaluation, WhoisHiddenOwner)
  {
    if d.whoisHidden then Contribution(None, Some(DoesHideWhois), Some(Detail(CompanyEvaluation, WhoisHiddenOwner)))
    else Nothing
  }

  /**
   * DNS blacklist: the negative label and a technical paragraph iff blacklisted
   * and unranked; in every other case the positive label.
   */
  function DnsBlHighlights(d: DomainInfo): (c: Contribution)
    ensures c.positive.Some? != c.negative.Some?
    ensures c.negative.Some? <==> d.isDnsBlackListed && d.globalRank == 0
    ensures c.details.Some? <==> c.negative.Some?
    ensures c.negative.Some? ==>
      c.negative.value == DnsBlackListed && c.details.value == Detail(TechnicalAnalysis, DnsBlacklistListing)
    ensures c.positive.Some? ==> c.positive.value == NotDnsBlacklisted
  {
    if d.isDnsBlackListed && d.globalRank == 0 then
      Contribution(None, Some(DnsBlackListed), Some(Detail(TechnicalAnalysis, DnsBlacklistListing)))
    else
      Contribution(Some(NotDnsBlacklisted), None, None)
  }

  /** The active rules in the order the engine runs them. */
  const Derivers: seq<DomainInfo -> Contribution> := [
    RankHighlights,
    AgeHighlights,
    RegistrarHighlights,
    SslHighlights,
    HstsHighlights,
    RedirectsHighlights,
    UrlTooLongHighlights,
    ExternalObjectsHighlights,
    ReferrerPolicyHighlights,
    CspHighlights,
    ParkedHighlights,
    WhoisHiddenHighlights,
    DnsBlHighlights
  ]

  /** The number of active rules. */
  const RULE_COUNT: nat := 13

  /** The contributions of all rules for `d`, in rule order. */
  function Contributions(d: DomainInfo): (cs: seq<Contribution>)
    ensures |cs| == |Derivers| == RULE_COUNT
    ensures forall i :: 0 <= i < |Derivers| ==> cs[i] == Derivers[i](d)
  {
    seq(|Derivers|, i requires 0 <= i < |Derivers| => Derivers[i](d))
  }

  /** The engine consults the thirteen active rules in the order of the rule list. */
  lemma RuleOrder(d: DomainInfo)
    ensures Contributions(d) == [
      RankHighlights(d), AgeHighlights(d), RegistrarHighlights(d), SslHighlights(d),
      HstsHighlights(d), RedirectsHighlights(d), UrlTooLongHighlights(d),
      ExternalObjectsHighlights(d), ReferrerPolicyHighlights(d), CspHighlights(d),
      ParkedHighlights(d), WhoisHiddenHighlights(d), DnsBlHighlights(d)]
  {
  }

  // ---------------------------------------------------------------------------
  // Aggregation: `generateHighlights`.
  // ---------------------------------------------------------------------------

  /** The two label sets and the three paragraph lists the engine returns. */
  datatype HighlightReport = HighlightReport(highlights: Highlights, htmlDetails: HtmlDetails)

  const EmptyReport: HighlightReport := HighlightReport(NoHighlights, NoDetails)

  /** One step of the engine: add the labels of `c` to the sets and append its paragraph. */
  function Absorb(acc: HighlightReport, c: Contribution): (r: HighlightReport)
    ensures r.highlights.positive == acc.highlights.positive + ToSet(c.positive)
    ensures r.highlights.negative == acc.highlights.negative + ToSet(c.negative)
    ensures forall b :: r.htmlDetails.Get(b) == acc.htmlDetails.Get(b) + ParagraphOf(c, b)
  {
    HighlightReport(
      Highlights(acc.highlights.positive + ToSet(c.positive), acc.highlights.negative + ToSet(c.negative)),
      if c.details.Some? then acc.htmlDetails.Push(c.details.value.bucket, c.details.value.p)
      else acc.htmlDetails)
  }

  /** The engine's result after the contributions `cs`, absorbed left to right. */
  function Aggregate(cs: seq<Contribution>): HighlightReport
  {
    if cs == [] then EmptyReport
    else Absorb(Aggregate(cs[..|cs| - 1]), cs[|cs| - 1])
  }

  /** The paragraph `c` puts under bucket `b`, as a sequence of length at most one. */
  function ParagraphOf(c: Contribution, b: Bucket): (ps: seq<Paragraph>)
    ensures |ps| <= 1
    ensures |ps| == 1 <==> c.details.Some? && c.details.value.bucket == b
    ensures |ps| == 1 ==> ps[0] == c.details.value.p
  {
    if c.details.Some? && c.details.value.bucket == b then [c.details.value.p] else []
  }

  /** Reference definition of a bucket: the paragraphs of `cs` tagged `b`, in order. */
  function Paragraphs(cs: seq<Contribution>, b: Bucket): seq<Paragraph>
  {
    if cs == [] then [] else ParagraphOf(cs[0], b) + Paragraphs(cs[1..], b)
  }

  lemma {:induction false} ParagraphsSnoc(cs: seq<Contribution>, c: Contribution, b: Bucket)
    ensures Paragraphs(cs + [c], b) == Paragraphs(cs, b) + ParagraphOf(c, b)
  {
    if cs == [] {
      assert [c][1..] == [];
    } else {
      assert (cs + [c])[1..] == cs[1..] + [c];
      ParagraphsSnoc(cs[1..], c, b);
    }
  }

  /** A label is in the aggregated positive set iff some contribution offered it. */
  lemma {:induction false} AggregatePositive(cs: seq<Contribution>, l: Positive)
    ensures l in Aggregate(cs).highlights.positive <==> exists i :: 0 <= i < |cs| && cs[i].positive == Some(l)
  {
    if cs != [] {
      var front := cs[..|cs| - 1];
      AggregatePositive(front, l);
      assert forall i :: 0 <= i < |front| ==> front[i] == cs[i];
    }
  }

  /** A label is in the aggregated negative set iff some contribution offered it. */
  lemma {:induction false} AggregateNegative(cs: seq<Contribution>, l: Negative)
    ensures l in Aggregate(cs).highlights.negative <==> exists i :: 0 <= i < |cs| && cs[i].negative == Some(l)
  {
    if cs != [] {
      var front := cs[..|cs| - 1];
      AggregateNegative(front, l);
      assert forall i :: 0 <= i < |front| ==> front[i] == cs[i];
    }
  }

  /** Each aggregated bucket is exactly the paragraphs tagged with it, in contribution order. */
  lemma {:induction false} AggregateBuckets(cs: seq<Contribution>, b: Bucket)
    ensures Aggregate(cs).htmlDetails.Get(b) == Paragraphs(cs, b)
  {
    if cs != [] {
      var front := cs[..|cs| - 1];
      AggregateBuckets(front, b);
      assert cs == front + [cs[|cs| - 1]];
      ParagraphsSnoc(front, cs[|cs| - 1], b);
    }
  }

  /** The paragraphs of `cs` tagged `b`, from position `k` on. */
  function ParagraphsAt(cs: seq<Contribution>, k: nat, b: Bucket): seq<Paragraph>
    decreases |cs| - k
  {
    if k >= |cs| then [] else ParagraphOf(cs[k], b) + ParagraphsAt(cs, k + 1, b)
  }

  /** One unfolding of `ParagraphsAt` at position `k`. */
  lemma ParagraphsAtStep(cs: seq<Contribution>, k: nat, b: Bucket)
    requires k < |cs|
    ensures ParagraphsAt(cs, k, b) == ParagraphOf(cs[k], b) + ParagraphsAt(cs, k + 1, b)
  {
  }

  /** `ParagraphsAt` from position `k` is `Paragraphs` of the suffix at `k`. */
  lemma {:induction false} ParagraphsSuffix(cs: seq<Contribution>, k: nat, b: Bucket)
    requires k <= |cs|
    ensures Paragraphs(cs[k..], b) == ParagraphsAt(cs, k, b)
    decreases |cs| - k
  {
    if k < |cs| {
      assert cs[k..][0] == cs[k];
      assert cs[k..][1..] == cs[k + 1..];
      ParagraphsSuffix(cs, k + 1, b);
    }
  }

  // ---------------------------------------------------------------------------
  // The rule table as an independent reference, and the engine's result.
  // ---------------------------------------------------------------------------

  /** When the rule table derives positive label `l` for `d`. */
  predicate DerivesPositive(d: DomainInfo, l: Positive)
  {
    var rank := d.globalRank;
    match l
    case RankedAmongTop1OOK => rank != 0 && rank < 500_000
    case RankedAmongTop5OOK => rank >= 500_000
    case DomainAgeSomeYears => TWO_YEARS <= d.domainAge < SEVEN_YEARS
    case DomainAgeOld => SEVEN_YEARS <= d.domainAge
    case SslValid => d.sslState.valid
    case RegistrarGoodReputation => d.isKnownRegistrar || rank != 0
    case SupportsHsts => d.doesSupportHSTS || rank != 0
    case ImplementsRefererPolicy => d.implementsReferrerPolicy || rank != 0
    case ProtectedAgainstInjection => !RankedWithin(rank, 200_000) && d.supportsCSP
    case NotDnsBlacklisted => !(d.isDnsBlackListed && rank == 0)
    case SafeByGoogleSafeBrowsing => false
    case SafeDnsFilter => false
  }

  /** When the rule table derives negative label `l` for `d`. */
  predicate DerivesNegative(d: DomainInfo, l: Negative)
  {
    var rank := d.globalRank;
    var ssl := d.sslState;
    match l
    case DomainAgeVeryYoung => d.domainAge < TWO_YEARS
    case SslInvalidWithError(e) => !ssl.valid && ssl.error == Some(e) && Truthy(e)
    case NoSslCertFound => !ssl.valid && !(ssl.error.Some? && Truthy(ssl.error.value))
    case RegistrarUnknown => !d.isKnownRegistrar && rank == 0
    case UrlRedirects => !(0 <= rank <= 500_000) && Truthy(d.redirectsTo)
    case UrlTooLong => rank == 0 && d.urlTooLong
    case LoadsExternalObjects => d.doesLoadExternalObjects && rank != 0 && !RankedWithin(rank, 200_000)
    case DoesNotImplementRefererPolicy => !d.implementsReferrerPolicy && rank == 0
    case NotProtectedAgainstInjection => !RankedWithin(rank, 200_000) && !d.supportsCSP
    case DomainParked => d.isParkedDomain
    case DoesHideWhois => d.whoisHidden
    case DnsBlackListed => d.isDnsBlackListed && rank == 0
    case DoesNotAllowAnalyseContent => false
  }

  /** The three buckets the rule table fills for `d`, in rule order. */
  function ExpectedDetails(d: DomainInfo): HtmlDetails
  {
    HtmlDetails(
      (if d.isParkedDomain then [ParkedState] else [])
        + (if d.whoisHidden then [WhoisHiddenOwner] else []),
      (if d.isKnownRegistrar || d.globalRank != 0 then [RegistrarReputable] else [])
        + [if d.sslState.valid then SslPresent else SslMissing]
        + (if d.isDnsBlackListed && d.globalRank == 0 then [DnsBlacklistListing] else []),
      [if d.domainAge < ONE_YEAR then AgeUnderOneYear
       else if d.domainAge < TWO_YEARS then AgeOneToTwoYears
       else if d.domainAge < FIVE_YEARS then AgeTwoToFiveYears
       else if d.domainAge < SEVEN_YEARS then AgeFiveToSevenYears
       else AgeSevenYearsOrMore])
  }

  /** One unfolding of `Aggregate` at prefix length `k + 1`. */
  lemma AggregateStep(cs: seq<Contribution>, k: nat)
    requires k < |cs|
    ensures Aggregate(cs[..k + 1]) == Absorb(Aggregate(cs[..k]), cs[k])
  {
    assert cs[..k + 1][..k] == cs[..k];
  }

  /**
   * The position of the only rule that can offer positive label `l`
   * (`|Derivers|` for the labels only enrichment adds).
   */
  function PositiveOwner(l: Positive): nat
  {
    match l
    case RankedAmongTop1OOK => 0
    case RankedAmongTop5OOK => 0
    case DomainAgeSomeYears => 1
    case DomainAgeOld => 1
    case RegistrarGoodReputation => 2
    case SslValid => 3
    case SupportsHsts => 4
    case ImplementsRefererPolicy => 8
    case ProtectedAgainstInjection => 9
    case NotDnsBlacklisted => 12
    case SafeByGoogleSafeBrowsing => 13
    case SafeDnsFilter => 13
  }

  /**
   * The position of the only rule that can offer negative label `l`
   * (`|Derivers|` for the label only enrichment adds).
   */
  function NegativeOwner(l: Negative): nat
  {
    match l
    case DomainAgeVeryYoung => 1
    case RegistrarUnknown => 2
    case SslInvalidWithError(_) => 3
    case NoSslCertFound => 3
    case UrlRedirects => 5
    case UrlTooLong => 6
    case LoadsExternalObjects => 7
    case DoesNotImplementRefererPolicy => 8
    case NotProtectedAgainstInjection => 9
    case DomainParked => 10
    case DoesHideWhois => 11
    case DnsBlackListed => 12
    case DoesNotAllowAnalyseContent => 13
  }

  /** Every label has a single owner: rule `i` offers only labels it owns. */
  lemma LabelOwnership(d: DomainInfo, i: nat)
    requires i < |Derivers|
    ensures Derivers[i](d).positive.Some? ==> PositiveOwner(Derivers[i](d).positive.value) == i
    ensures Derivers[i](d).negative.Some? ==> NegativeOwner(Derivers[i](d).negative.value) == i
  {
  }

  /** The index of the rule that offers positive label `l`, when the rule table derives it. */
  lemma PositiveSource(d: DomainInfo, l: Positive) returns (i: nat)
    requires DerivesPositive(d, l)
    ensures i < |Derivers| && Contributions(d)[i].positive == Some(l)
  {
    match l
    case RankedAmongTop1OOK => i := 0;
    case RankedAmongTop5OOK => i := 0;
    case DomainAgeSomeYears => i := 1;
    case DomainAgeOld => i := 1;
    case RegistrarGoodReputation => i := 2;
    case SslValid => i := 3;
    case SupportsHsts => i := 4;
    case ImplementsRefererPolicy => i := 8;
    case ProtectedAgainstInjection => i := 9;
    case NotDnsBlacklisted => i := 12;
  }

  /** The index of the rule that offers negative label `l`, when the rule table derives it. */
  lemma NegativeSource(d: DomainInfo, l: Negative) returns (i: nat)
    requires DerivesNegative(d, l)
    ensures i < |Derivers| && Contributions(d)[i].negative == Some(l)
  {
    match l
    case DomainAgeVeryYoung => i := 1;
    case RegistrarUnknown => i := 2;
    case SslInvalidWithError(_) => i := 3;
    case NoSslCertFound => i := 3;
    case UrlRedirects => i := 5;
    case UrlTooLong => i := 6;
    case LoadsExternalObjects => i := 7;
    case DoesNotImplementRefererPolicy => i := 8;
    case NotProtectedAgainstInjection => i := 9;
    case DomainParked => i := 10;
    case DoesHideWhois => i := 11;
    case DnsBlackListed => i := 12;
  }

  /** A negative label offered by its owner is one the rule table derives. */
  lemma NegativeSound(d: DomainInfo, l: Negative)
    requires NegativeOwner(l) < |Derivers| && Derivers[NegativeOwner(l)](d).negative == Some(l)
    ensures DerivesNegative(d, l)
  {
    match l
    case DomainAgeVeryYoung =>
    case RegistrarUnknown =>
    case SslInvalidWithError(_) =>
    case NoSslCertFound =>
    case UrlRedirects =>
    case UrlTooLong =>
    case LoadsExternalObjects =>
    case DoesNotImplementRefererPolicy =>
    case NotProtectedAgainstInjection =>
    case DomainParked =>
    case DoesHideWhois =>
    case DnsBlackListed =>
  }

  /** The engine derives exactly the positive labels of the rule table. */
  lemma DerivedPositive(d: DomainInfo, l: Positive)
    ensures l in Aggregate(Contributions(d)).highlights.positive <==> DerivesPositive(d, l)
  {
    var cs := Contributions(d);
    AggregatePositive(cs, l);
    if DerivesPositive(d, l) {
      var i := PositiveSource(d, l);
    }
    if l in Aggregate(cs).highlights.positive {
      var i :| 0 <= i < |cs| && cs[i].positive == Some(l);
      LabelOwnership(d, i);
    }
  }

  /** The engine derives exactly the negative labels of the rule table. */
  lemma DerivedNegative(d: DomainInfo, l: Negative)
    ensures l in Aggregate(Contributions(d)).highlights.negative <==> DerivesNegative(d, l)
  {
    var cs := Contributions(d);
    AggregateNegative(cs, l);
    if DerivesNegative(d, l) {
      var i := NegativeSource(d, l);
    }
    if l in Aggregate(cs).highlights.negative {
      var i :| 0 <= i < |cs| && cs[i].negative == Some(l);
      LabelOwnership(d, i);
      NegativeSound(d, l);
    }
  }

  /** Contributions that put nothing under `b` leave the bucket as it is. */
  lemma {:induction false} ParagraphsSkip(cs: seq<Contribution>, lo: nat, hi: nat, b: Bucket)
    requires lo <= hi <= |cs|
    requires forall k :: lo <= k < hi ==> ParagraphOf(cs[k], b) == []
    ensures ParagraphsAt(cs, lo, b) == ParagraphsAt(cs, hi, b)
    decreases hi - lo
  {
    if lo < hi {
      assert ParagraphsAt(cs, lo, b) == ParagraphOf(cs[lo], b) + ParagraphsAt(cs, lo + 1, b);
      ParagraphsSkip(cs, lo + 1, hi, b);
    }
  }

  /** The bucket each rule writes to, if it writes at all (`None` for rules without paragraphs). */
  function BucketOwner(i: nat): Option<Bucket>
  {
    if i == 1 then Some(DetailedAnalysis)
    else if i == 2 || i == 3 || i == 12 then Some(TechnicalAnalysis)
    else if i == 10 || i == 11 then Some(CompanyEvaluation)
    else None
  }

  /** Rule `i` writes only to the bucket it owns. */
  lemma DetailOwnership(d: DomainInfo, i: nat)
    requires i < |Derivers|
    ensures Derivers[i](d).details.Some? ==> BucketOwner(i) == Some(Derivers[i](d).details.value.bucket)
  {
  }

  /** Rules that do not own bucket `b` put nothing under it. */
  lemma SilentRules(d: DomainInfo, b: Bucket)
    ensures forall k :: 0 <= k < |Derivers| && BucketOwner(k) != Some(b) ==> ParagraphOf(Contributions(d)[k], b) == []
  {
    forall k | 0 <= k < |Derivers| && BucketOwner(k) != Some(b)
      ensures ParagraphOf(Contributions(d)[k], b) == []
    {
      DetailOwnership(d, k);
    }
  }

  /** When only the owners of company evaluation write to it, it holds their paragraphs in order. */
  lemma CompanyEvaluationByOwner(cs: seq<Contribution>, b: Bucket)
    requires b == CompanyEvaluation
    requires |cs| == RULE_COUNT
    requires forall k :: 0 <= k < |cs| && BucketOwner(k) != Some(b) ==> ParagraphOf(cs[k], b) == []
    ensures Paragraphs(cs, b) == ParagraphOf(cs[10], b) + ParagraphOf(cs[11], b)
  {
    var p10, p11 := ParagraphOf(cs[10], b), ParagraphOf(cs[11], b);
    ParagraphsAtStep(cs, 12, b);
    assert ParagraphOf(cs[12], b) == [];
    assert ParagraphsAt(cs, 12, b) == [];
    ParagraphsAtStep(cs, 11, b);
    assert ParagraphsAt(cs, 11, b) == p11;
    ParagraphsAtStep(cs, 10, b);
    assert ParagraphsAt(cs, 10, b) == p10 + p11;
    assert forall k :: 0 <= k < 10 ==> BucketOwner(k) != Some(b);
    ParagraphsSkip(cs, 0, 10, b);
    ParagraphsSuffix(cs, 0, b);
    assert cs[0..] == cs;
  }

  /** When only the owners of technical analysis write to it, it holds their paragraphs in order. */
  lemma TechnicalAnalysisByOwner(cs: seq<Contribution>, b: Bucket)
    requires b == TechnicalAnalysis
    requires |cs| == RULE_COUNT
    requires forall k :: 0 <= k < |cs| && BucketOwner(k) != Some(b) ==> ParagraphOf(cs[k], b) == []
    ensures Paragraphs(cs, b) == ParagraphOf(cs[2], b) + ParagraphOf(cs[3], b) + ParagraphOf(cs[12], b)
  {
    var p2, p3, p12 := ParagraphOf(cs[2], b), ParagraphOf(cs[3], b), ParagraphOf(cs[12], b);
    ParagraphsAtStep(cs, 12, b);
    assert ParagraphsAt(cs, 12, b) == p12;
    assert forall k :: 4 <= k < 12 ==> BucketOwner(k) != Some(b);
    ParagraphsSkip(cs, 4, 12, b);
    ParagraphsAtStep(cs, 3, b);
    assert ParagraphsAt(cs, 3, b) == p3 + p12;
    ParagraphsAtStep(cs, 2, b);
    assert ParagraphsAt(cs, 2, b) == p2 + (p3 + p12);
    assert p2 + (p3 + p12) == p2 + p3 + p12;
    assert forall k :: 0 <= k < 2 ==> BucketOwner(k) != Some(b);
    ParagraphsSkip(cs, 0, 2, b);
    ParagraphsSuffix(cs, 0, b);
    assert cs[0..] == cs;
  }

  /** When only the owner of detailed analysis writes to it, it holds that paragraph alone. */
  lemma DetailedAnalysisByOwner(cs: seq<Contribution>, b: Bucket)
    requires b == DetailedAnalysis
    requires |cs| == RULE_COUNT
    requires forall k :: 0 <= k < |cs| && BucketOwner(k) != Some(b) ==> ParagraphOf(cs[k], b) == []
    ensures Paragraphs(cs, b) == ParagraphOf(cs[1], b)
  {
    var p1 := ParagraphOf(cs[1], b);
    assert forall k :: 2 <= k < 13 ==> BucketOwner(k) != Some(b);
    ParagraphsSkip(cs, 2, 13, b);
    assert ParagraphsAt(cs, 2, b) == [];
    ParagraphsAtStep(cs, 1, b);
    assert ParagraphsAt(cs, 1, b) == p1;
    ParagraphsAtStep(cs, 0, b);
    assert ParagraphOf(cs[0], b) == [];
    ParagraphsSuffix(cs, 0, b);
    assert cs[0..] == cs;
  }

  /** Company evaluation holds the parked paragraph, then the WHOIS paragraph, each when its signal is set. */
  lemma DerivedCompanyEvaluation(d: DomainInfo)
    ensures Aggregate(Contributions(d)).htmlDetails.companyEvaluation == ExpectedDetails(d).companyEvaluation
  {
    var cs := Contributions(d);
    AggregateBuckets(cs, CompanyEvaluation);
    SilentRules(d, CompanyEvaluation);
    CompanyEvaluationByOwner(cs, CompanyEvaluation);
  }

  /** Technical analysis holds the registrar, SSL and blacklist paragraphs, in that order. */
  lemma DerivedTechnicalAnalysis(d: DomainInfo)
    ensures Aggregate(Contributions(d)).htmlDetails.technicalAnalysis == ExpectedDetails(d).technicalAnalysis
  {
    var cs := Contributions(d);
    AggregateBuckets(cs, TechnicalAnalysis);
    SilentRules(d, TechnicalAnalysis);
    TechnicalAnalysisByOwner(cs, TechnicalAnalysis);
  }

  /** Detailed analysis holds exactly one paragraph: the one for the age tier. */
  lemma DerivedDetailedAnalysis(d: DomainInfo)
    ensures Aggregate(Contributions(d)).htmlDetails.detailedAnalysis == ExpectedDetails(d).detailedAnalysis
  {
    var cs := Contributions(d);
    AggregateBuckets(cs, DetailedAnalysis);
    SilentRules(d, DetailedAnalysis);
    DetailedAnalysisByOwner(cs, DetailedAnalysis);
  }

  /**
   * The engine fills the buckets as the rule table says: one detailed-analysis
   * paragraph (the age), the registrar, SSL and blacklist paragraphs in that
   * order under technical analysis, and the parked then WHOIS paragraphs under
   * company evaluation.
   */
  lemma DerivedDetails(d: DomainInfo)
    ensures Aggregate(Contributions(d)).htmlDetails == ExpectedDetails(d)
    ensures |Aggregate(Contributions(d)).htmlDetails.detailedAnalysis| == 1
  {
    DerivedCompanyEvaluation(d);
    DerivedTechnicalAnalysis(d);
    DerivedDetailedAnalysis(d);
  }

  /** The aggregated contributions are exactly what the rule table derives. */
  lemma EngineMatchesRuleTable(d: DomainInfo)
    ensures forall l :: l in Aggregate(Contributions(d)).highlights.positive <==> DerivesPositive(d, l)
    ensures forall l :: l in Aggregate(Contributions(d)).highlights.negative <==> DerivesNegative(d, l)
    ensures Aggregate(Contributions(d)).htmlDetails == ExpectedDetails(d)
  {
    forall l: Positive ensures l in Aggregate(Contributions(d)).highlights.positive <==> DerivesPositive(d, l) {
      DerivedPositive(d, l);
    }
    forall l: Negative ensures l in Aggregate(Contributions(d)).highlights.negative <==> DerivesNegative(d, l) {
      DerivedNegative(d, l);
    }
    DerivedDetails(d);
  }

  /**
   * `generateHighlights`: runs every rule in order, adding its labels to the two
   * sets and appending its paragraph to the bucket it names.
   */
  method GenerateHighlights(d: DomainInfo) returns (report: HighlightReport)
    ensures report == Aggregate(Contributions(d))
    ensures forall l :: l in report.highlights.positive <==> DerivesPositive(d, l)
    ensures forall l :: l in report.highlights.negative <==> DerivesNegative(d, l)
    ensures report.htmlDetails == ExpectedDetails(d)
  {
    var positive: set<Positive> := {};
    var negative: set<Negative> := {};
    var htmlDetails := NoDetails;
    ghost var cs := Contributions(d);
    for i := 0 to |Derivers|
      invariant HighlightReport(Highlights(positive, negative), htmlDetails) == Aggregate(cs[..i])
    {
      var c := Derivers[i](d);
      AggregateStep(cs, i);
      if c.details.Some? {
        htmlDetails := htmlDetails.Push(c.details.value.bucket, c.details.value.p);
      }
      if c.positive.Some? {
        positive := positive + {c.positive.value};
      }
      if c.negative.Some? {
        negative := negative + {c.negative.value};
      }
    }
    assert cs[..|Derivers|] == cs;
    report := HighlightReport(Highlights(positive, negative), htmlDetails);
    EngineMatchesRuleTable(d);
  }

  // ---------------------------------------------------------------------------
  // The trust score: `computeScore`.
  // ---------------------------------------------------------------------------

  /**
   * The score constants, which live in a constants file that is not part of
   * this model: the base score and the weights of the rank, SSL and parked
   * adjustments (the rank adjustment uses the weight the source calls
   * `DOMAIN_AGE`).
   */
  datatype Weights = Weights(base: real, domainAge: real, sslValid: real, domainParked: real)

  /** The rank at or under which the score short-circuits to 100; written `500_00` in the source. */
  const SCORE_SHORT_CIRCUIT_RANK: int := 500_00

  /** The multiple of the base score added for the age bracket (negative for young domains). */
  function AgeFactor(age: int): (f: real)
    ensures f < 0.0 <==> age < TWO_YEARS
    ensures age < TWO_YEARS ==> f == -0.5
    ensures TWO_YEARS <= age < FIVE_YEARS ==> f == 0.5
    ensures FIVE_YEARS <= age < SEVEN_YEARS ==> f == 0.6
    ensures SEVEN_YEARS <= age ==> f == 0.9
  {
    if age < TWO_YEARS then -0.5
    else if age < FIVE_YEARS then 0.5
    else if age < SEVEN_YEARS then 0.6
    else 0.9
  }

  /**
   * The score before the name-dependent jitter: the base score scaled by one
   * plus the weights of the age bracket, the rank, the certificate and the
   * parked state.
   */
  function RawScore(d: DomainInfo, w: Weights): (s: real)
    ensures s == w.base * (1.0 + AgeFactor(d.domainAge)
      + (if d.globalRank != 0 then w.domainAge else 0.0)
      + (if d.sslState.valid then w.sslValid else -w.sslValid)
      - (if d.isParkedDomain then w.domainParked else 0.0))
  {
    w.base
      + w.base * AgeFactor(d.domainAge)
      + (if d.globalRank != 0 then w.base * w.domainAge else 0.0)
      + (if d.sslState.valid then w.base * w.sslValid else -(w.base * w.sslValid))
      - (if d.isParkedDomain then w.base * w.domainParked else 0.0)
  }

  /**
   * `charCodeAt` of a character: its UTF-16 code unit, which is the high
   * surrogate for characters outside the Basic Multilingual Plane.
   */
  function CharCode(c: char): (u: nat)
    ensures u < 0x1_0000
    ensures (c as int) < 0x1_0000 ==> u == c as int
    ensures (c as int) >= 0x1_0000 ==> 0xD800 <= u < 0xDC00
    ensures (c as int) >= 0x1_0000 ==>
      0x1_0000 + (u - 0xD800) * 0x400 <= c as int < 0x1_0000 + (u - 0xD800 + 1) * 0x400
  {
    if (c as int) < 0x1_0000 then c as int
    else 0xD800 + ((c as int) - 0x1_0000) / 0x400
  }

  /** The jitter `domainName.charCodeAt(0) % 11`, between 0 and 10. */
  function Jitter(name: string): (j: nat)
    requires |name| > 0
    ensures j <= 10
    ensures j == CharCode(name[0]) % 11
  {
    CharCode(name[0]) % 11
  }

  /**
   * The score after the jitter, which only scores of at most 89 receive; only
   * those read the name, so only they need a first character.
   */
  function FinalScore(d: DomainInfo, w: Weights): (f: real)
    requires |d.domainName| > 0 || RawScore(d, w) > 89.0
    ensures RawScore(d, w) <= f <= RawScore(d, w) + 10.0
    ensures RawScore(d, w) <= 89.0 ==> f == RawScore(d, w) + Jitter(d.domainName) as real
    ensures RawScore(d, w) > 89.0 ==> f == RawScore(d, w)
  {
    var raw := RawScore(d, w);
    if raw <= 89.0 then raw + Jitter(d.domainName) as real else raw
  }

  /**
   * `computeScore`: the top ranks short-circuit to 100; otherwise the score is
   * built up step by step, and a final score of 100 or more is returned as 100
   * while a lower one is written to `preComputedScore` and nothing is returned.
   */
  method ComputeScore(d: DomainInfo, w: Weights) returns (returned: Option<real>, after: DomainInfo)
    requires |d.domainName| > 0 || RankedWithin(d.globalRank, SCORE_SHORT_CIRCUIT_RANK) || RawScore(d, w) > 89.0
    ensures RankedWithin(d.globalRank, SCORE_SHORT_CIRCUIT_RANK) ==> returned == Some(100.0) && after == d
    ensures !RankedWithin(d.globalRank, SCORE_SHORT_CIRCUIT_RANK) && FinalScore(d, w) >= 100.0 ==>
      returned == Some(100.0) && after == d
    ensures !RankedWithin(d.globalRank, SCORE_SHORT_CIRCUIT_RANK) && FinalScore(d, w) < 100.0 ==>
      returned.None? && after == d.(preComputedScore := Some(FinalScore(d, w)))
  {
    after := d;
    var currentScore := w.base;
    if d.globalRank > 0 && d.globalRank <= 500_00 {
      return Some(100.0), after;
    }
    if d.domainAge < TWO_YEARS {
      currentScore := currentScore - w.base * 0.5;
    } else if d.domainAge < FIVE_YEARS {
      currentScore := currentScore + w.base * 0.5;
    } else if d.domainAge >= FIVE_YEARS && d.domainAge < SEVEN_YEARS {
      currentScore := currentScore + w.base * 0.6;
    } else if d.domainAge >= SEVEN_YEARS {
      currentScore := currentScore + w.base * 0.9;
    }
    assert currentScore == w.base + w.base * AgeFactor(d.domainAge);
    if d.globalRank != 0 {
      currentScore := currentScore + w.base * w.domainAge;
    }
    if d.sslState.valid {
      currentScore := currentScore + w.base * w.sslValid;
    } else {
      currentScore := currentScore - w.base * w.sslValid;
    }
    if d.isParkedDomain {
      currentScore := currentScore - w.base * w.domainParked;
    }
    assert currentScore == RawScore(d, w);
    if currentScore <= 89.0 {
      currentScore := currentScore + (CharCode(d.domainName[0]) % 11) as real;
    }
    if currentScore >= 100.0 {
      return Some(100.0), after;
    }
    after := after.(preComputedScore := Some(currentScore));
    returned := None;
  }

  /** A jittered score stays below 100, so the jitter never triggers the cap. */
  lemma JitteredScoreIsStored(d: DomainInfo, w: Weights)
    requires |d.domainName| > 0
    requires RawScore(d, w) <= 89.0
    ensures RawScore(d, w) <= FinalScore(d, w) <= RawScore(d, w) + 10.0
    ensures FinalScore(d, w) < 100.0
  {
  }

  /**
   * The score reads only the first character of the name, whether the domain
   * is ranked, its age, SSL validity and parked state: two bundles that agree
   * on these score alike.
   */
  lemma ScoreSignals(d1: DomainInfo, d2: DomainInfo, w: Weights)
    requires |d1.domainName| > 0 && |d2.domainName| > 0
    requires d1.domainName[0] == d2.domainName[0]
    requires (d1.globalRank == 0) == (d2.globalRank == 0)
    requires d1.domainAge == d2.domainAge
    requires d1.sslState.valid == d2.sslState.valid
    requires d1.isParkedDomain == d2.isParkedDomain
    ensures FinalScore(d1, w) == FinalScore(d2, w)
  {
    assert RawScore(d1, w) == RawScore(d2, w);
    assert Jitter(d1.domainName) == Jitter(d2.domainName);
  }

  /** Nothing clamps from below: a young, insecure, parked domain gets a negative score. */
  lemma NoLowerClamp()
    ensures var d := DomainInfo("a", 0, true, true, "", false, false, false, false, 0, true,
                                SslState(false, None), false, false, false, false, false, false,
                                false, false, false, false, false, NoHighlights, NoHighlights, None);
            FinalScore(d, Weights(50.0, 0.2, 0.3, 0.5)) < 0.0
  {
  }

  /**
   * For a young, unranked, uncertified, parked domain the final score is
   * negative exactly when the certificate and parked penalties exceed half the
   * base score plus the jitter: no weights and no name are clamped from below.
   */
  lemma NegativeScoreCondition(d: DomainInfo, w: Weights)
    requires |d.domainName| > 0
    requires d.domainAge < TWO_YEARS && d.globalRank == 0 && !d.sslState.valid && d.isParkedDomain
    ensures FinalScore(d, w) < 0.0 <==>
      w.base * w.sslValid + w.base * w.domainParked > w.base * 0.5 + Jitter(d.domainName) as real
  {
  }

  /**
   * The score and the age rule share their 2-, 5- and 7-year boundaries: each
   * age multiple goes with the age paragraph of the same bracket.
   */
  lemma AgeFactorMatchesAgeParagraph(d: DomainInfo)
    ensures AgeFactor(d.domainAge) == -0.5 <==>
      AgeHighlights(d).details.value.p in {AgeUnderOneYear, AgeOneToTwoYears}
    ensures AgeFactor(d.domainAge) == 0.5 <==> AgeHighlights(d).details.value.p == AgeTwoToFiveYears
    ensures AgeFactor(d.domainAge) == 0.6 <==> AgeHighlights(d).details.value.p == AgeFiveToSevenYears
    ensures AgeFactor(d.domainAge) == 0.9 <==> AgeHighlights(d).details.value.p == AgeSevenYearsOrMore
  {
  }

  /** The age term lowers the score exactly for the domains the age rule labels very young. */
  lemma AgeScoreAgreesWithAgeLabel(d: DomainInfo)
    ensures AgeFactor(d.domainAge) < 0.0 <==> DerivesNegative(d, DomainAgeVeryYoung)
    ensures AgeFactor(d.domainAge) > 0.0 <==> DerivesPositive(d, DomainAgeSomeYears) || DerivesPositive(d, DomainAgeOld)
  {
  }

  /** An older domain never gets a smaller age factor. */
  lemma AgeFactorMonotone(a1: int, a2: int)
    requires a1 <= a2
    ensures AgeFactor(a1) <= AgeFactor(a2)
  {
  }
}
