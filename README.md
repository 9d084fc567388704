# Website trust report: a Dafny model

This project models the core of a service that scores how trustworthy a
website is. A caller sends a bundle of signals about one domain (`DomainInfo`):
its global popularity rank, its age, its certificate state, whether it is
parked, blacklisted, hides its WHOIS record, and so on. The service then:

1. resets the accumulators of the bundle (the pre-defined highlights and the
   pre-computed score);
2. runs a pipeline of handlers over the bundle
   (`runPipeline = funcs.reduce((acc, f) => f(acc), x)`):
   - `doesAllowAnalyzeContent` records a label when content analysis is refused;
   - `globalRank` looks the domain up in a sharded rank file and forces a set
     of signals and labels for well-ranked domains;
3. runs thirteen independent rules ("derivers") in a fixed order. Each rule
   contributes at most one positive label, one negative label and one
   paragraph for one of three buckets: company evaluation, technical analysis
   and detailed analysis. `generateHighlights` folds them into two label sets
   and three ordered paragraph lists.

`computeScore` is the tiered score formula. It short-circuits to 100 for the
best ranks, otherwise builds the score from the age, rank, certificate and
parked state, jitters low scores by the first character of the name, and
caps at 100.

The model is split into these modules:

- `Optional`: an option type.
- `ReportTypes`: labels, paragraphs, buckets and the signal bundle.
- `ReportModel`: the derivers, the engine and the score.
- `ReportService`: the pipeline, the handlers and the entry point.
- `ReportHelpers`: the shard file name, line parsing and the rank lookup.

## How the model is built

- **Data.**
  - The signal bundle is a datatype with the source's fields. The source
    mutates it in place; here every step returns the updated bundle.
  - Labels are two enumerations. The one run-time label, the SSL error
    label, carries its error text; `SslErrorLabelText` gives its wording.
  - The paragraph texts are distinct constants, because only their bucket
    and order matter to the engine.
- **The rules.**
  - Each rule is a function whose contract states, both ways, when it emits
    which label and which paragraph.
  - `DerivesPositive`, `DerivesNegative` and `ExpectedDetails` restate the
    rule table as an independent reference: when each label appears, and
    what each bucket holds in order.
  - `GenerateHighlights` is a loop over the rules. It is proved equal to the
    fold `Aggregate` and to that reference.
- **The score.** `ComputeScore` is the source's if-chain over a local score.
  It returns the value the source returns (`Some(100.0)` or nothing) and the
  bundle after the write to `preComputedScore`.
  - The score constants are in a constants file that is not part of this
    model, so they are parameters (`Weights`).
  - Arithmetic is exact (`real`).
- **The rank lookup.** `GetGlobalRank` scans the lines of the shard file in
  order and returns the rank of the first line for the name, or 0.
  - The file itself is a parameter: the sequence of its lines.
  - `parseInt` reads the leading decimal digits. `None` stands for `NaN`.
- **The `globalRank` handler** takes the rank the lookup returned as a
  parameter.

### Behaviour kept as the code has it

The model follows the code in the places where the code departs from what its
names or the surrounding design suggest:

- `computeScore` short-circuits at rank `500_00`, which is 50,000
  (`SCORE_SHORT_CIRCUIT_RANK`). The code's other thresholds are 200,000 and
  500,000.
- The rank badge names are inverted against their thresholds:
  - every rank below 500,000 gets the "top 1OOK" badge;
  - every rank from 500,000 on gets "top 5OOK".
- The redirect rule ignores rank 0 too, so an unranked redirecting site is
  never flagged.
- The handler's `withinTop100k` band is coded with 200,000. It is the same
  band as `withinTop200k` (`Top100kBandIs200k`).
- `computeScore` has no lower clamp (`NoLowerClamp`). Below 100 it returns
  nothing and only writes `preComputedScore`.
- The score overwrites the score slot whatever it holds. A rank within 500,000
  but beyond 50,000 makes the rank handler store 100, and the score can then
  store a lower value over it (`RankScoreCanBeLowered`).
- `generateHighlights` never reads the pre-defined highlights that the
  handlers fill. The label for refused content analysis is therefore never
  reported (`AnalyseContentLabelNeverReported`).
- The rank term of the score uses the weight named `DOMAIN_AGE`.

## Model

| member | source | states |
|---|---|---|
| ReportTypes.SslErrorLabelText | src/report.model.ts:122-124 | the run-time SSL label is the fixed 35-character prefix followed by the error text |
| ReportTypes.SslErrorLabelTextInjective | src/report.model.ts:122-124 | two errors give the same label text iff they are the same error, so the label is kept as a constructor over its error without merging labels |
| ReportTypes.HtmlDetails.Push | src/report.model.ts:310-313 | pushing a paragraph appends it to its bucket and leaves the other two buckets unchanged |
| ReportModel.RankHighlights | src/report.model.ts:92-103 | no badge iff unranked; "top 1OOK" iff ranked below 500,000; "top 5OOK" iff rank at least 500,000; never a negative label or paragraph |
| ReportModel.AgeHighlights | src/report.model.ts:59-90 | exactly one of a positive or negative label; negative iff younger than two years; "some years" iff in [2, 7) years and "old" from 7 years; always one detailed-analysis paragraph, one per age bracket, boundaries going to the older bracket |
| ReportModel.RegistrarHighlights | src/report.model.ts:140-153 | positive label with the technical paragraph iff the registrar is known or the domain is ranked; otherwise the "unknown registrar" label and no paragraph |
| ReportModel.SslHighlights | src/report.model.ts:106-138 | valid certificate gives the positive label and the "present" paragraph; otherwise the error label when an error text is present and non-empty, else "no certificate"; always a technical paragraph |
| ReportModel.HstsHighlights | src/report.model.ts:165-172 | the HSTS label iff HSTS is supported or the domain is ranked; nothing else |
| ReportModel.RedirectsHighlights | src/report.model.ts:174-182 | nothing for ranks in [0, 500,000], rank 0 included; beyond, the redirect label iff a redirect target is present |
| ReportModel.UrlTooLongHighlights | src/report.model.ts:184-193 | the URL-too-long label iff unranked and the URL is too long |
| ReportModel.ExternalObjectsHighlights | src/report.model.ts:195-207 | nothing within 200,000; the external-objects label iff loading them and ranked outside that band |
| ReportModel.ReferrerPolicyHighlights | src/report.model.ts:209-221 | positive iff a referrer policy is implemented or the domain is ranked, otherwise the negative label |
| ReportModel.CspHighlights | src/report.model.ts:223-236 | nothing within 200,000; beyond, exactly one label, positive iff CSP is supported |
| ReportModel.ParkedHighlights | src/report.model.ts:238-250 | the parked label and the company-evaluation paragraph iff the domain is parked |
| ReportModel.WhoisHiddenHighlights | src/report.model.ts:278-288 | the hidden-WHOIS label and the company-evaluation paragraph iff WHOIS is hidden |
| ReportModel.DnsBlHighlights | src/report.model.ts:263-276 | the blacklist label with its technical paragraph iff blacklisted and unranked; in every other case the not-blacklisted label |
| ReportModel.RuleOrder | src/report.model.ts:329-349 | the engine consults the thirteen active rules in the order of the rule list: rank, age, registrar, certificate, HSTS, redirects, URL length, external objects, referrer policy, CSP, parked, hidden WHOIS, blacklist |
| ReportModel.Absorb | src/report.model.ts:302-318 | one engine step adds the rule's labels to the two sets and appends its paragraph to the bucket it names |
| ReportModel.AggregatePositive | src/report.model.ts:302-318 | a label is in the aggregated positive set iff some rule offered it |
| ReportModel.AggregateNegative | src/report.model.ts:302-318 | a label is in the aggregated negative set iff some rule offered it |
| ReportModel.AggregateBuckets | src/report.model.ts:302-318 | each aggregated bucket is exactly the paragraphs tagged with it, in rule order |
| ReportModel.DerivedPositive | src/report.model.ts:290-349 | the engine's positive set is exactly the labels the rule table derives, for every label |
| ReportModel.DerivedNegative | src/report.model.ts:290-349 | the engine's negative set is exactly the labels the rule table derives, for every label |
| ReportModel.DerivedCompanyEvaluation | src/report.model.ts:238-288 | company evaluation holds the parked paragraph then the hidden-WHOIS paragraph, each iff its signal is set |
| ReportModel.DerivedTechnicalAnalysis | src/report.model.ts:106-153 | technical analysis holds the registrar, certificate and blacklist paragraphs in that order |
| ReportModel.DerivedDetailedAnalysis | src/report.model.ts:59-90 | detailed analysis holds exactly the age paragraph |
| ReportModel.DerivedDetails | src/report.model.ts:290-319 | the three buckets are exactly those of the rule table; detailed analysis always has one paragraph |
| ReportModel.EngineMatchesRuleTable | src/report.model.ts:290-349 | the folded contributions agree with the rule table on both label sets and all three buckets |
| ReportModel.GenerateHighlights | src/report.model.ts:290-327 | the loop computes the fold of the rules' contributions, so its sets and buckets are exactly the rule table's |
| ReportModel.AgeFactor | src/report.model.ts:34-38 | the age multiple of the base score is -0.5 under two years, 0.5 from two to under five years, 0.6 from five to under seven years and 0.9 from seven years; each boundary takes the older bracket |
| ReportModel.AgeFactorMatchesAgeParagraph | src/report.model.ts:34-38 | the score and the age rule share their 2-, 5- and 7-year boundaries: each age multiple goes with the age paragraph of the same bracket |
| ReportModel.RawScore | src/report.model.ts:27-49 | the score before the jitter is the base score times one plus the weights of the age bracket, of being ranked, of the certificate (added when valid, subtracted otherwise) and of being parked (subtracted) |
| ReportModel.CharCode | src/report.model.ts:51 | `charCodeAt` is a UTF-16 code unit: the code point inside the Basic Multilingual Plane; outside it, the high surrogate whose block of 1,024 code points holds the character |
| ReportModel.Jitter | src/report.model.ts:51 | the jitter is the first code unit of the name modulo 11, between 0 and 10 |
| ReportModel.FinalScore | src/report.model.ts:50-52 | the jitter is added exactly to scores of at most 89; the final score is at least the raw score and at most 10 above it |
| ReportModel.ComputeScore | src/report.model.ts:26-57 | ranks in (0, 50,000] return 100 and change nothing, whatever the other fields hold, an empty name included; otherwise a final score of at least 100 returns 100 and changes nothing, and a lower one returns nothing and is stored in the score slot |
| ReportModel.JitteredScoreIsStored | src/report.model.ts:50-56 | a jittered score rises by at most 10, stays below 100, and so is always stored rather than capped |
| ReportModel.ScoreSignals | src/report.model.ts:29-52 | past the 50,000 short-circuit, the score reads only the first character of the name, whether the domain is ranked, its age, its certificate validity and its parked state |
| ReportModel.NoLowerClamp | src/report.model.ts:34-56 | with base 50 and weights 0.2, 0.3 and 0.5, a young, unranked, uncertified, parked domain named "a" gets a negative score |
| ReportModel.NegativeScoreCondition | src/report.model.ts:34-56 | for any weights and name, a young, unranked, uncertified, parked domain scores below zero exactly when the certificate and parked penalties exceed half the base score plus the jitter: nothing clamps from below |
| ReportModel.AgeScoreAgreesWithAgeLabel | src/report.model.ts:34-38 | the age term lowers the score exactly for domains the age rule labels very young, and raises it exactly for those it labels with an age badge |
| ReportModel.AgeFactorMonotone | src/report.model.ts:34-38 | an older domain never gets a smaller age term |
| ReportService.RunPipeline | src/report.service.ts:11-19 | the handlers run from first to last: a non-empty pipeline applies its last handler to the result of the others |
| ReportService.RunPipelineEmpty | src/report.service.ts:11-19 | the empty pipeline returns its input |
| ReportService.RunPipelineSnoc | src/report.service.ts:11-19 | a handler appended to a pipeline runs on the pipeline's result |
| ReportService.RunPipelineAppend | src/report.service.ts:11-19 | running a concatenation of pipelines is running one after the other |
| ReportService.DoesAllowAnalyzeContent | src/report.service.ts:21-28 | the refused-analysis label is added to the pre-defined negatives iff analysis is not allowed; nothing else changes |
| ReportService.GlobalRank | src/report.service.ts:30-84 | stores the rank; any non-zero rank clears the abnormal URL flag; within 500,000 seven signals are forced good and the score slot is 100; within 200,000 external objects are cleared; the pre-defined positives gain exactly `AddedByRank` and lose "top 5OOK" within 200,000; the other fields are unchanged |
| ReportService.RankScoreCanBeLowered | src/report.service.ts:67 | a rank handler that stored 100 for a rank within 500,000 but beyond 50,000 does not stop the score: the score of the enriched bundle can be below 100, and the score writes it over the 100 |
| ReportService.GlobalRankIdempotent | src/report.service.ts:30-84 | enriching twice with the same rank is enriching once |
| ReportService.RankBadgesExclusive | src/report.service.ts:55-81 | starting without the "top 1OOK" badge, the handler never leaves both badges |
| ReportService.Top100kBandIs200k | src/report.service.ts:34-35 | rank 150,000 gets the "top 1OOK" badge and not "top 5OOK" |
| ReportService.Handlers | src/report.service.ts:86 | the two registered handlers |
| ReportService.HandlersPipeline | src/report.service.ts:86-95 | running the registered handlers is content analysis first, then rank enrichment |
| ReportService.Reset | src/report.service.ts:89-93 | the reset empties the pre-defined highlights and clears the score slot, and nothing else |
| ReportService.Report | src/report.service.ts:88-103 | the entry point enriches the reset bundle with the two handlers and reports exactly the rule table's labels and buckets for the enriched bundle |
| ReportService.EnrichedPredefined | src/report.service.ts:88-95 | after the reset and the handlers, the pre-defined positives are exactly `AddedByRank` and the negatives hold only the refused-analysis label, iff analysis is refused |
| ReportService.AnalyseContentLabelNeverReported | src/report.service.ts:21-28 | the refused-analysis label never reaches the report |
| ReportService.TopRankNegatives | src/report.service.ts:47-72 | within 200,000 the report can only hold negatives for age, certificate and hidden WHOIS |
| ReportHelpers.ShardKeyLength | src/report.helpers.ts:7 | the shard key is two characters, or the whole name when it is shorter |
| ReportHelpers.ShardFileName | src/report.helpers.ts:7 | the file name is the shard key followed by ".txt" |
| ReportHelpers.SameShard | src/report.helpers.ts:5-9 | two names map to the same shard file iff they share their shard key |
| ReportHelpers.Split | src/report.helpers.ts:23 | `split(":")` yields at least one piece, no piece contains the separator, a string without separator is one piece and a string with one has at least two |
| ReportHelpers.SplitFirst | src/report.helpers.ts:23-24 | the first piece is the text before the first separator, or the whole string when there is none |
| ReportHelpers.JoinSplit | src/report.helpers.ts:23 | splitting and re-joining gives back the line |
| ReportHelpers.SplitJoin | src/report.helpers.ts:23 | joining separator-free pieces and splitting again gives back the pieces |
| ReportHelpers.SplitPrefix | src/report.helpers.ts:23 | a separator-free piece followed by the separator splits off as the first piece |
| ReportHelpers.DigitPrefix | src/report.helpers.ts:25 | the leading run of decimal digits: all digits, and the next character is not one |
| ReportHelpers.ParseInt | src/report.helpers.ts:25 | `parseInt` is `NaN` iff there are no leading digits, otherwise their decimal value |
| ReportHelpers.ShowDecimal | src/report.helpers.ts:22-26 | a rank is written as a non-empty string of digits |
| ReportHelpers.DecimalRoundTrip | src/report.helpers.ts:25 | reading back the digits of a number gives the number |
| ReportHelpers.ParseShowDecimal | src/report.helpers.ts:25 | `parseInt` reads back a written rank |
| ReportHelpers.LineName | src/report.helpers.ts:23-24 | the name a line is for is its longest colon-free prefix: a prefix of the line, followed by a colon unless it is the whole line |
| ReportHelpers.LineRank | src/report.helpers.ts:23-25 | a line without a colon gives no rank (`NaN`); otherwise the rank is `parseInt` of the piece after the first colon |
| ReportHelpers.FormatLineRoundTrip | src/report.helpers.ts:22-26 | a `name:rank` line reads back as its name and rank |
| ReportHelpers.GetGlobalRank | src/report.helpers.ts:14-29 | returns 0 when no line is for the name; otherwise the `parseInt` of the second piece of the first line for the name |
| ReportHelpers.LookupFindsFormattedLine | src/report.helpers.ts:22-27 | the first `name:rank` line for a name meets the lookup's first-match condition, with that rank |
| ReportHelpers.LookupFormatted | src/report.helpers.ts:14-29 | looking a name up in lines whose first line for it is `name:rank` returns that rank |

## Left out

- HTTP handling: the Express app and the request validation are left out. The request schema would reject an empty domain name (src/report.middleware.ts:6), but src/app.ts:24-29 does not mount that validation. The model still assumes a non-empty name wherever the score reads its first character (see the ComputeScore line below).
- The file system is left out: the shard directory path, opening the file and reading its lines. The lookup receives the lines as a parameter. A missing shard file is not modelled: `fs.createReadStream` then fails, the `for await` at src/report.helpers.ts:22 rejects, and `getGlobalRank` throws instead of returning 0.
- Async ordering is left out. The source's `globalRank` handler is `async`, so its writes land after the engine has run. Here the handlers run to completion, one after the other.
- GenerateHighlights: in the source, `generateHighlights` ends by calling `computeScore(report)` (src/report.model.ts:324), and `report` is not declared anywhere in scope. Evaluating it throws a `ReferenceError`, so `generateHighlights`, and with it the default export (src/report.service.ts:96), never returns. The model's `GenerateHighlights` returns the highlights and buckets the source has built by that point, and has no score. `ComputeScore` is modelled on its own.
- Report: returns a report where the source throws the `ReferenceError` above.
- The running score that `generateHighlights` keeps between rules is left out. No active rule sets it, so it has no effect.
- The two rules not in the active list are left out: the URL-shortener rule and the abnormal-URL rule.
- The paragraph texts are left out; they are opaque constants.
- The label texts and the score constants are left out. They are in a constants file that is not part of this model.
- `src/report.type.ts` is not part of this model.
- ComputeScore: the arithmetic is exact real arithmetic, not IEEE doubles.
- ComputeScore: a missing certificate state (`sslState` absent) is not modelled.
- ComputeScore: an empty domain name is modelled only where the source never reads its first character: a rank in (0, 50,000], which returns 100 (src/report.model.ts:32), and a raw score above 89, which skips the jitter (src/report.model.ts:50-52). Otherwise `charCodeAt(0)` is `NaN`, so `computeScore` stores `NaN` (src/report.model.ts:51, 56); the model requires a non-empty name there, as the unmounted request schema would.
- ParseInt: leading white space, signs and the `0x` hexadecimal prefix are not read as JavaScript's `parseInt` reads them. A piece with leading white space or a sign yields `None` (`NaN`), where JavaScript reads the number after it. A piece starting `0x` yields `Some(0)`, where JavaScript reads a hexadecimal number (`parseInt("0x1A")` is 26).
- ShardFileName: `str.slice(0, 2)` takes the first two UTF-16 code units, and the model takes the first two characters (code points). The two agree for names inside the Basic Multilingual Plane. For "😀a.com" the source opens "😀.txt" and the model "😀a.txt". For "a😀" the source takes "a" and a lone high surrogate, which a Dafny string cannot hold.
- ShardKeyLength: counts characters, not UTF-16 code units, for the reason above.
- GetGlobalRank: does not model a `NaN` rank reaching the handler. The handler takes an integer rank.
- SslHighlights: the fallback `sslState?.error || sslState` inside the template is not modelled. It only applies when the error text is present, so the error text is always used.
