/**
 * The signal bundle about one website (`DomainInfo`) and the vocabulary the
 * report is written in: highlight labels, paragraph buckets and the
 * contribution one rule makes to the report.
 *
 * The label names and the paragraph texts live in a constants file that is
 * not part of this model; labels are therefore enumerations and paragraphs
 * are distinct opaque constants (only their bucket and order matter).
 */
module ReportTypes {
  import opened Optional

  /** The closed vocabulary of positive highlight labels. */
  datatype Positive =
    | RankedAmongTop1OOK
    | RankedAmongTop5OOK
    | DomainAgeSomeYears
    | DomainAgeOld
    | SslValid
    | RegistrarGoodReputation
    | SupportsHsts
    | ImplementsRefererPolicy
    | ProtectedAgainstInjection
    | NotDnsBlacklisted
    | SafeByGoogleSafeBrowsing
    | SafeDnsFilter

  /**
   * The negative highlight labels. All are fixed constants except the one the
   * SSL rule builds at run time around the certificate error it was given.
   */
  datatype Negative =
    | DomainAgeVeryYoung
    | SslInvalidWithError(error: string)
    | NoSslCertFound
    | RegistrarUnknown
    | UrlRedirects
    | UrlTooLong
    | LoadsExternalObjects
    | DoesNotImplementRefererPolicy
    | NotProtectedAgainstInjection
    | DomainParked
    | DoesHideWhois
    | DnsBlackListed
    | DoesNotAllowAnalyseContent

  /** The text of the run-time SSL label. */
  function SslErrorLabelText(error: string): (text: string)
    ensures |text| == 35 + |error|
    ensures text[..35] == "Invalid SSL Certificate with error "
    ensures text[35..] == error
  {
    "Invalid SSL Certificate with error " + error
  }

  /**
   * Different errors give different label texts, so the label can be kept as
   * a constructor over its error without losing or merging any label.
   */
  lemma SslErrorLabelTextInjective(a: string, b: string)
    ensures SslErrorLabelText(a) == SslErrorLabelText(b) <==> a == b
  {
    if SslErrorLabelText(a) == SslErrorLabelText(b) {
      assert a == SslErrorLabelText(a)[35..];
    }
  }

  /** The three keys of the detail buckets. */
  datatype Bucket = CompanyEvaluation | TechnicalAnalysis | DetailedAnalysis

  /** The explanatory paragraphs, one constant per distinct text. */
  datatype Paragraph =
    | AgeUnderOneYear
    | AgeOneToTwoYears
    | AgeTwoToFiveYears
    | AgeFiveToSevenYears
    | AgeSevenYearsOrMore
    | SslMissing
    | SslPresent
    | RegistrarReputable
    | ParkedState
    | WhoisHiddenOwner
    | DnsBlacklistListing

  /** A paragraph tagged with the bucket it goes to. */
  datatype Detail = Detail(bucket: Bucket, p: Paragraph)

  /** What one rule contributes: each part may be absent. */
  datatype Contribution = Contribution(
    positive: Option<Positive>,
    negative: Option<Negative>,
    details: Option<Detail>)

  /** The contribution of a rule that emits nothing. */
  const Nothing: Contribution := Contribution(None, None, None)

  /** Positive and negative label sets. */
  datatype Highlights = Highlights(positive: set<Positive>, negative: set<Negative>)

  const NoHighlights: Highlights := Highlights({}, {})

  /** The three ordered paragraph lists of the report. */
  datatype HtmlDetails = HtmlDetails(
    companyEvaluation: seq<Paragraph>,
    technicalAnalysis: seq<Paragraph>,
    detailedAnalysis: seq<Paragraph>)
  {
    /** The list kept under bucket `b`. */
    function Get(b: Bucket): seq<Paragraph>
    {
      match b
      case CompanyEvaluation => companyEvaluation
      case TechnicalAnalysis => technicalAnalysis
      case DetailedAnalysis => detailedAnalysis
    }

    /** `htmlDetails[b].push(p)`: appends to bucket `b` and leaves the others alone. */
    function Push(b: Bucket, p: Paragraph): (r: HtmlDetails)
      ensures r.Get(b) == Get(b) + [p]
      ensures forall b' :: b' != b ==> r.Get(b') == Get(b')
    {
      match b
      case CompanyEvaluation => this.(companyEvaluation := companyEvaluation + [p])
      case TechnicalAnalysis => this.(technicalAnalysis := technicalAnalysis + [p])
      case DetailedAnalysis => this.(detailedAnalysis := detailedAnalysis + [p])
    }
  }

  const NoDetails: HtmlDetails := HtmlDetails([], [], [])

  /** `sslState`: whether the certificate is valid and, optionally, an error text. */
  datatype SslState = SslState(valid: bool, error: Option<string>)

  /**
   * The signal bundle, field for field. `domainAge` is in milliseconds;
   * `globalRank` is 0 for "not ranked" and otherwise lower means more popular;
   * `preComputedScore` is the nullable score slot.
   */
  datatype DomainInfo = DomainInfo(
    domainName: string,
    globalRank: int,
    doesAllowAnalyzeContent: bool,
    isParkedDomain: bool,
    redirectsTo: string,
    isKnownRegistrar: bool,
    isDnsBlackListed: bool,
    supportsHsts: bool,
    hasFavIcon: bool,
    domainAge: int,
    domainAgeReadable: bool,
    sslState: SslState,
    supportsCSP: bool,
    whoisHidden: bool,
    implementsReferrerPolicy: bool,
    loadsExternalObjects: bool,
    isAbnormalUrl: bool,
    urlTooLong: bool,
    isProtectedAgaintsClickJacking: bool,
    isUrlShortened: bool,
    doesSupportHSTS: bool,
    isProtectedAgainstXSS: bool,
    doesLoadExternalObjects: bool,
    preDefinedHighlights: Highlights,
    highlights: Highlights,
    preComputedScore: Option<real>)
}
