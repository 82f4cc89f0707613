# RFP management system — verified model of the procurement back end

This project models the deterministic business logic of an RFP (request for
proposal) management back end:

- **RFP creation.** An RFP is built from a natural-language request that a
  language model parses. It starts as a draft. It is set to sent when vendors
  are assigned, and to responses received when a proposal arrives.
- **Outbound mail.** One RFP email goes to each vendor. Its subject carries the
  RFP's 24-character document id. Each send is recorded as sent or failed.
- **Inbound replies.** The inbox poller reads unseen replies and applies three
  gates: a known sender, an RFP id in the subject, and no earlier proposal from
  that vendor for that RFP. A reply that passes all three is ingested.
- **Ingestion.** The mail text and attachments are joined, parsed by the
  language model, scored against the RFP and stored. The new proposal is then
  linked once to its RFP and once to its vendor.
- **Scoring.** Four piecewise-linear sub-scores (price, delivery, compliance,
  support) are combined with fixed weights and JavaScript `Math.round`.
- **Comparison.** All proposals of an RFP are turned into text summaries and
  given to the language model for a recommendation. A fixed fallback is used
  when the reply cannot be read.

Modules:

| module | what it holds |
|---|---|
| `Wrappers` | `Option` and `Result` |
| `Text` | JavaScript string built-ins: `includes`, `join`, template literals, `trim`, `toLowerCase`, `parseInt`, integer-to-text |
| `Model` | the RFP, vendor and proposal records, inbound mail, number formatting, errors |
| `ProposalScoring` | the scoring functions, over `real` |
| `Db` | the document store: a `Database` class holding maps from id to record |
| `ProposalService` | assembling the email content, `createFromEmail` as methods on the store |
| `Correlation` | `extractRfpId` and the outbound subject line |
| `Outbound` | the RFP email's item list, its default values and the send loop |
| `Inbound` | the gates of `processSingleEmail` and the poll's per-message bookkeeping |
| `ComparisonService` | scored entries, proposal summaries, the recommendation prompt, the fallback |
| `RfpService` | RFP construction and the vendor/status update |

The language models are function parameters. Each one maps the user prompt to
the parsed reply, or to `None` when the reply is not valid JSON. The mail
transport is a parameter that returns the send error, if any. Number
formatting (`${x}` and `toLocaleString` on non-integer numbers) is a parameter
`NumberFormat`. A new RFP's document id is an input.

The store keeps four invariants, `Database.Valid()` being the first two
together:

- `Database.Referenced()`: every id listed on an RFP or a vendor names a stored
  proposal of that RFP or vendor, and every stored id is below the id counter.
- `Database.Listed()`: every proposal's RFP and vendor exist, and no list
  repeats an id.
- `Database.Complete()`: every proposal is listed on its RFP and its vendor.
- `Database.UniquePairs()`: at most one proposal per (RFP, vendor) pair.

The public operations (`CreateFromEmail`, `ProcessSingleEmail` and the poll
built on it, `CreateFromNaturalLanguage`, `UpdateRfpVendors`) keep `Valid()`
and `Complete()`. The single steps `InsertProposal` and `CreateProposal` leave
the new proposal unlisted, so `Complete()` holds again only once
`LinkProposal` has run. `ProcessSingleEmail`, everything built on it and the
RFP operations keep `UniquePairs()`. `CreateFromEmail` keeps it only for a
pair that has no proposal yet: like createProposal, it does not check for a
duplicate, and the only guard is processSingleEmail's lookup of an existing
proposal.

Apart from what "## Left out" lists, the model follows the code, with one
deliberate correction: the price score below budget
(see "Findings"). The comment at proposal.service.js line 188 says "lower is
better", and the one at line 233 says the score is "scaled based on savings".
The formula at line 233 does the opposite: the score falls as the saving grows.
That formula is modelled as written (`PriceScoreAsWritten`,
`ScoreProposalAsWritten`). The stored score uses the corrected one
(`PriceScore`, `ScoreProposal`).

Processing is tied to pure functions over a snapshot `Store` of the database,
so each method's new state can be stated exactly:

- `Ingested` is the store after `createFromEmail` succeeds.
- `Process` is one reply through the gates and `createFromEmail`.
- `Step` is one fetched message: the MIME parse, then `Process`.
- `Run` is the poll's messages handled one after another.

## Model

| member | source | states |
|---|---|---|
| ProposalScoring.Round | backend/src/services/proposal.service.js:217-221 | `Math.round`: the integer within half of x, halves rounded up |
| ProposalScoring.PriceScoreAsWritten | backend/src/services/proposal.service.js:230-234 | the code as written: over budget 30, at budget 70, under budget in [70, 100), a price of 0 scores 70 |
| ProposalScoring.AsWrittenRewardsHigherPrice | backend/src/services/proposal.service.js:233 | as written, of two prices under budget the higher one scores strictly more |
| ProposalScoring.AsWrittenCounterexample | backend/src/services/proposal.service.js:233 | budget 100: a price of 10 scores 73 and a price of 90 scores 97; a price of 0 scores less than 99 |
| ProposalScoring.PriceScore | backend/src/services/proposal.service.js:230-234 | corrected score: over budget 30, at budget 70, under budget in (70, 100], a price of 0 scores 100 |
| ProposalScoring.PriceScoreIsSavingsShare | backend/src/services/proposal.service.js:233 | under budget the corrected score is 70 plus 30 times the fraction of the budget saved |
| ProposalScoring.PriceScoreRewardsSavings | backend/src/services/proposal.service.js:188 | the corrected score strictly rises as the price falls, up to and including the budget |
| ProposalScoring.PriceScoresMirror | backend/src/services/proposal.service.js:233 | under budget the score as written and the corrected score add up to 170, so one falls exactly as the other rises |
| ProposalScoring.LeadTimeDays | backend/src/services/proposal.service.js:238 | the leading integer of the lead-time text, 30 when there is none or it is 0; never 0 |
| ProposalScoring.LeadTimeReadsLeadingNumber | backend/src/services/proposal.service.js:238 | a lead time that starts with a number n ≠ 0 followed by a non-digit reads as n days |
| ProposalScoring.LeadTimeIgnoresUnit | backend/src/services/proposal.service.js:238 | "3 weeks" reads as 3 days |
| ProposalScoring.RequiredDays | backend/src/services/proposal.service.js:239 | the RFP's lead-time days, or 30 when absent or 0 |
| ProposalScoring.DeliveryScore | backend/src/services/proposal.service.js:241-243 | on time or early 100; more than 1.5 times the required time 30; otherwise in [65, 100) |
| ProposalScoring.DeliveryScoreAntitone | backend/src/services/proposal.service.js:241-243 | a later delivery never scores higher |
| ProposalScoring.CalculateDeliveryScore | backend/src/services/proposal.service.js:236-244 | 100 when the proposal's lead time is within the required days; 30 when it is more than 1.5 times them; always 30 or in [65, 100] |
| ProposalScoring.ComplianceScore | backend/src/services/proposal.service.js:246-250 | matched/total·100: at least 0, 100 when all match, above 100 when more match than there are items (no cap) |
| ProposalScoring.ComplianceExample | backend/src/services/proposal.service.js:249 | 3 of 4 scores 75, 5 of 4 scores 125 |
| ProposalScoring.CalculateComplianceScore | backend/src/services/proposal.service.js:246-250 | at least 0; at most 100 when no more specs match than the RFP has items, exactly 100 when as many, above 100 when more |
| ProposalScoring.SupportScore | backend/src/services/proposal.service.js:252-258 | one of 50/70/80/100; at least 80 exactly when the warranty text contains "24"; 70 or 100 exactly when an SLA is given |
| ProposalScoring.OverallInRange | backend/src/services/proposal.service.js:210-214 | the weights sum to 1, so sub-scores in [0, 100] give a rounded overall score in [0, 100] |
| ProposalScoring.OverallExample | backend/src/services/proposal.service.js:210-221 | sub-scores 80, 100, 60, 100 give an overall score of 80 |
| ProposalScoring.RoundingOrderMatters | backend/src/services/proposal.service.js:210-221 | the overall score is rounded from the unrounded sub-scores; rounding them first would give a different result |
| ProposalScoring.RecordScores | backend/src/services/proposal.service.js:216-227 | each reported sub-score and the overall score is the rounding of its unrounded value; the reasoning text shows the rounded sub-scores |
| ProposalScoring.ScoreProposal | backend/src/services/proposal.service.js:187-228 | the record's scores round the four sub-scores of the proposal against the RFP and their weighted sum; the support score is exact |
| ProposalScoring.ScoreProposalRanges | backend/src/services/proposal.service.js:187-228 | price 30..100 for a non-negative price, delivery 30..100, support in {50, 70, 80, 100}, overall 0..100 when no more specs match than there are items |
| ProposalScoring.ScoreProposalAsWritten | backend/src/services/proposal.service.js:187-234 | the record scoreProposal builds with line 233's price score: each reported sub-score and the overall score round their unrounded values; the reasoning text shows the rounded sub-scores |
| ProposalScoring.AsWrittenDiffersOnlyInPrice | backend/src/services/proposal.service.js:187-234 | delivery, compliance and support agree with the corrected record; at or over budget the two records are equal; under budget the two unrounded price scores add up to 170 |
| ProposalScoring.ScoreProposalAsWrittenRanges | backend/src/services/proposal.service.js:187-234 | as written, price 30..100 for a non-negative price, and overall 0..100 when also no more specs match than there are items |
| Text.Contains | backend/src/services/proposal.service.js:108 | `includes`: true exactly when the text occurs at some position |
| Text.Trim | backend/src/services/email.service.js:260 | `trim`: the text from the end of its leading whitespace on, with only whitespace before and after it and whitespace at neither end |
| Text.TrimmedKeepsLower | backend/src/services/email.service.js:260 | trimming a lower-cased address keeps it free of upper-case letters |
| ProposalService.EmailContent | backend/src/services/proposal.service.js:102-114 | the content starts with the email body |
| ProposalService.EmailContentIsBodyThenBlocks | backend/src/services/proposal.service.js:106-111 | the content is the body followed by one block per attachment, in order |
| ProposalService.AppendAttachment | backend/src/services/proposal.service.js:107-110 | appends "\n\n[Attachment: name]", then "\n" and the text only when the content type contains "text" |
| ProposalService.ExtractEmailContent | backend/src/services/proposal.service.js:102-114 | the loop builds the body followed by the attachment blocks; with no attachments it returns the body unchanged |
| ProposalService.UseAIToParseProposal | backend/src/services/proposal.service.js:175-181 | succeeds exactly when the reply parses, with the parsed data; otherwise fails with "Failed to parse proposal data" |
| ProposalService.CreateProposal | backend/src/services/proposal.service.js:263-282 | stores the proposal under the next id with status parsed and no score; nothing else changes |
| ProposalService.RecordScore | backend/src/services/proposal.service.js:46-49 | the proposal gets its score record and status evaluated; nothing else changes |
| ProposalService.LinkProposal | backend/src/services/proposal.service.js:51-65 | the id is appended to the RFP's list (status then responses received) and to the vendor's history; it is there exactly once; the invariants hold |
| ProposalService.RecordProposal | backend/src/services/proposal.service.js:37-65 | create, score and link: the full new state of the store, with each id listed exactly once and the invariants kept |
| ProposalService.MailBody | backend/src/services/proposal.service.js:26 | the text part when it is non-empty, else the HTML part, else ""; line 41 stores the same body |
| ProposalService.IngestError | backend/src/services/proposal.service.js:19-73 | no error exactly when the vendor exists, the reply parses, the RFP exists and the proposal can be scored; otherwise the error of the first step that fails, in the order vendor, parse, RFP, score |
| ProposalService.IngestedStoresProposal | backend/src/services/proposal.service.js:37-65 | after a successful ingestion: one new proposal under an id not used before, for that RFP and vendor, with its parse, status evaluated and the score of its parse against the RFP; it is listed on the RFP, whose status is then responses received, and on the vendor; every other proposal is unchanged |
| ProposalService.CreateFromEmail | backend/src/services/proposal.service.js:19-73 | fails exactly when IngestError gives an error, with that error, and then changes nothing; on success returns the next id and leaves exactly the store `Ingested` describes, with the id listed once on its RFP and once on its vendor |
| Db.Database.FindVendorByEmail | backend/src/services/email.service.js:259-261 | a vendor with exactly that email, or None when no vendor has it |
| Db.Database.InsertProposal | backend/src/services/proposal.service.js:280 | saving gives the proposal the next, unused id |
| Correlation.FirstHexWindow | backend/src/services/email.service.js:292 | the first position at or after `from` where 24 hex characters start, or None when there is none |
| Correlation.ExtractRfpId | backend/src/services/email.service.js:289-300 | None for a missing or empty subject; Some exactly when a 24-hex-character window exists; the result is the leftmost window, copied verbatim, of length 24 and all hex |
| Correlation.Subject | backend/src/services/email.service.js:36 | "Request for Proposal: title - id", which ends in the RFP id |
| Correlation.SubjectRoundTrip | backend/src/services/email.service.js:36 | for a 24-hex id and a title without a 24-hex run, the id extracted from the outbound subject is the RFP id |
| Correlation.ReplySubjectRoundTrip | backend/src/services/email.service.js:289-300 | a reply subject (a prefix such as "Re: " before the outbound subject) still yields the RFP id, when the prefix has no 24-hex run and does not end in a hex digit |
| Correlation.NoWindowNoMatch | backend/src/services/email.service.js:292-299 | a subject with no 24-hex run yields no id |
| Correlation.UpperCaseIdIsKept | backend/src/services/email.service.js:292 | the match is case-insensitive and keeps the letters' case |
| Outbound.BuildSpecsHtml | backend/src/services/email.service.js:68-74 | the nested `<ul>` holds one `<li>key: value</li>` per spec, in order |
| Outbound.AppendItem | backend/src/services/email.service.js:67-75 | appends the item's `<li>` with name and quantity, and the spec list only when the item has specs |
| Outbound.AppendItems | backend/src/services/email.service.js:66-76 | appends one item fragment per item, in order |
| Outbound.BuildItemsHtml | backend/src/services/email.service.js:65-77 | the item list is `<ul>`, the fragments in order, `</ul>`; missing items give `<ul></ul>` |
| Outbound.EmailFields | backend/src/services/email.service.js:110-146 | the defaults for absent or falsy values: currency USD, total N/A, deadline TBD, lead time N/A, net 30, warranty 12 months of hardware coverage, "the specified date" |
| Outbound.EmailNumbersReadBack | backend/src/services/email.service.js:126-138 | read back with parseInt, net days, warranty months and lead time give the terms' values, or the defaults 30 and 12 |
| Outbound.GenerateRfpEmailBody | backend/src/services/email.service.js:60-77 | the body carries the built item list and the filled-in values |
| Outbound.SendOutcome | backend/src/services/email.service.js:30-54 | one vendor's record carries its id and email; it is failed exactly when the transport reports an error, and then carries that error |
| Outbound.SendToVendor | backend/src/services/email.service.js:31-53 | builds the body, sends it and records exactly the outcome SendOutcome defines |
| Outbound.SendRfpToVendors | backend/src/services/email.service.js:26-58 | one record per vendor, in input order, each the outcome of its own send, so a failure never stops later sends |
| Inbound.Decide | backend/src/services/email.service.js:256-287 | the gates in order: unknown sender, no RFP id, existing proposal for the pair; it ingests exactly when all three pass |
| Inbound.NormalizedSender | backend/src/services/email.service.js:257-260 | the address looked up is the lower-cased sender with its leading and trailing whitespace cut off: a contiguous part of it with only whitespace around it, whitespace at neither end, and no upper-case ASCII letter |
| Inbound.ReplyIsIngested | backend/src/services/email.service.js:265-284 | a known vendor's first reply to an RFP email is ingested for that RFP and that vendor, with the outbound subject as it is or behind a prefix such as "Re: " |
| Inbound.ProcessOutcomes | backend/src/services/email.service.js:256-287 | skipped exactly when a gate stops the message, for that gate's reason; failed exactly when createFromEmail gives an error, with that error; otherwise created under the next id. Only a created outcome changes the store: one new proposal, for a pair that had none, evaluated, scored and listed on its RFP and its vendor, with every other proposal unchanged |
| Inbound.ProcessSingleEmail | backend/src/services/email.service.js:256-287 | the vendor found is one that Vendor.findOne can return for the lower-cased, trimmed sender; the outcome and the new store are exactly those of `Process`; the pairs stay unique and the invariants hold |
| Inbound.IngestReply | backend/src/services/email.service.js:280-286 | the outcome and the new store are createFromEmail's: its error with the store unchanged, or the next id with the store `Ingested` describes |
| Inbound.CreatedIds | backend/src/services/email.service.js:211-213 | an id is collected exactly when one of the outcomes created it |
| Inbound.StepCreates | backend/src/services/email.service.js:203-226 | a message that creates nothing leaves the store unchanged; a created one has the next id, its proposal is stored and the counter moves up by one; no proposal is removed and no vendor address changes |
| Inbound.SenderLookupByEmails | backend/src/services/email.service.js:259-261 | the vendor lookup depends only on the vendors' addresses |
| Inbound.Run | backend/src/services/email.service.js:193-231 | the messages handled one after another against the store the earlier ones left, one outcome per message |
| Inbound.RunPrefix | backend/src/services/email.service.js:193-231 | the first j outcomes of a run are the outcomes of the run over the first j messages |
| Inbound.RunAt | backend/src/services/email.service.js:203-226 | outcome k of a run is what handling message k does to the store the first k messages left |
| Inbound.CreatedIdsFresh | backend/src/services/email.service.js:211-213 | the ids a run collects are strictly increasing, were not in the store before, and name proposals in the store after |
| Inbound.HandleMessage | backend/src/services/email.service.js:203-226 | a message the MIME parser rejects fails and changes nothing; a parsed one is processed with a vendor the lookup can return; the outcome and the new store are exactly those of `Step` |
| Inbound.HandleAll | backend/src/services/email.service.js:193-231 | one outcome and one seen flag per message, in order; a message is seen exactly when handling it did not fail; each vendor is one the lookup can return; the outcomes and the final store are exactly those of `Run`, so by RunAt outcome k is message k handled in turn; the pairs stay unique and the invariants hold |
| Inbound.PollIncomingEmails | backend/src/services/email.service.js:179-241 | a failed search fails and changes nothing; zero results give [] and change nothing; otherwise the ids of the created outcomes of `Run` over the messages, strictly increasing, each new to the store and in it afterwards |
| ComparisonService.ScoredEntries | backend/src/services/comparison.service.js:27-31 | one entry per proposal, in order, with its vendor and its stored score record (None for `{}`) |
| ComparisonService.TotalText | backend/src/services/comparison.service.js:124 | the formatted total price, or N/A when absent |
| ComparisonService.BreakdownText | backend/src/services/comparison.service.js:125 | the price lines joined with ", ", or N/A when absent or empty |
| ComparisonService.ShippingText | backend/src/services/comparison.service.js:131 | the shipping cost, or "Included" when absent or 0 |
| ComparisonService.ListText | backend/src/services/comparison.service.js:140 | the unmatched specs joined with ", ", or the default for a missing or empty list |
| ComparisonService.OverallText | backend/src/services/comparison.service.js:142 | the overall score, or N/A when there is no score record or it is 0 |
| ComparisonService.SummaryFieldsOf | backend/src/services/comparison.service.js:117-142 | the vendor's name and e-mail and the currency are copied; every field with a fallback is non-empty (the shipping cost unless the number formatter prints a non-zero cost as "") |
| ComparisonService.SummaryTextDefaults | backend/src/services/comparison.service.js:126-136 | discounts None, lead time and estimated date N/A, payment Net 30, warranty 12 months, support Standard when absent; the given text when it is present and non-empty, for each of the six |
| ComparisonService.SummaryTextEnds | backend/src/services/comparison.service.js:117-143 | the summary text opens with the vendor's name and e-mail and the pricing heading, and ends with the score line |
| ComparisonService.ProposalSummary | backend/src/services/comparison.service.js:117-143 | the summary opens with "**Vendor: name** (email)" and the pricing heading, and closes with the overall-score line |
| ComparisonService.SummaryShowsScore | backend/src/services/comparison.service.js:142 | each summary contains the line "Overall Score: …/100" |
| ComparisonService.SummaryNumbersReadBack | backend/src/services/comparison.service.js:139-142 | read back with parseInt: the matched-spec count (0 for a missing list) and, unless N/A, the stored overall score |
| ComparisonService.SummaryTexts | backend/src/services/comparison.service.js:54-55 | one summary per entry, in order |
| ComparisonService.SummariesInOrder | backend/src/services/comparison.service.js:54-56 | one more entry appends the separator "\n\n---\n\n" and its summary at the end |
| ComparisonService.ItemNames | backend/src/services/comparison.service.js:82 | one name per RFP item, in order; none when the list is missing |
| ComparisonService.Requirements | backend/src/services/comparison.service.js:78-84 | the requirements part of the prompt names every RFP item |
| ComparisonService.RecommendationPrompt | backend/src/services/comparison.service.js:78-88 | the user prompt names every RFP item |
| ComparisonService.SummaryInPrompt | backend/src/services/comparison.service.js:78-88 | every proposal's summary is in the prompt the model sees |
| ComparisonService.GenerateRecommendation | backend/src/services/comparison.service.js:99-111 | the parsed reply, or the fallback "Unable to generate recommendation" / "Error in AI analysis" with empty strengths, risks and alternatives and no decision |
| ComparisonService.PromptReadError | backend/src/services/comparison.service.js:80-82 | the prompt throws "Cannot read properties of undefined" exactly when the budget, the delivery terms or the items are missing, naming the first property read from a missing one: `total`, `deadline`, then `map` |
| ComparisonService.CompareAndRecommend | backend/src/services/comparison.service.js:16-47 | no proposals is an error; proposals without an RFP fail; an RFP without a budget, delivery terms or items fails with the prompt's TypeError; it succeeds exactly otherwise, and then totalProposals is the number of proposals, the entries are the proposals in order, and the recommendation is generated |
| RfpService.ParseNaturalLanguageToJson | backend/src/services/rfp.service.js:68-77 | succeeds exactly when the reply parses; otherwise fails with "Failed to structure the RFP from your input. Try again." |
| RfpService.NewRfp | backend/src/services/rfp.service.js:16-21 | the title is the parsed title when non-empty, else "Procurement Request"; the description is the raw input, the specifications the parse, status draft, no vendors and no proposals |
| RfpService.CreateFromNaturalLanguage | backend/src/services/rfp.service.js:12-29 | a failed parse fails with the parse error and a taken id as a duplicate key, and neither changes anything; a parsed reply and a free id always succeed; on success the new RFP is stored under its id and nothing else changes |
| RfpService.UpdateRfpVendors | backend/src/services/rfp.service.js:88-94 | replaces the vendor list with exactly the given ids and sets status sent whatever it was; None and no change for an unknown id |

## Left out

- IMAP and SMTP. The connection, search, fetch streams, MIME parsing and the
  `addFlags` callback are I/O. The search result and each parsed message are
  inputs, and a failed send is an error text from the transport.
- Concurrency in the inbox poll. The source handles fetched messages
  concurrently and collects proposals in completion order. The model handles
  them one after another, in fetch order. Two replies for the same pair in one
  poll can both pass the duplicate gate in the source; in the model the second
  is skipped.
- Mongoose. Stores are maps, document ids are exact strings (no ObjectId
  casting, so an id is not matched case-insensitively against the store),
  proposal ids come from a counter, and `populate` is replaced by passing the
  vendor records.
- The language-model calls and `JSON.parse`. A reply is modelled as already
  schema-shaped; a reply that is valid JSON of the wrong shape is not modelled.
- IEEE-754 arithmetic. Scores are real numbers. When a proposal cannot be
  scored, CreateFromEmail fails with ScoreNotFinite and stores nothing. The
  source differs in two ways:
  - These cases throw a TypeError in scoreProposal, before createProposal at
    proposal.service.js line 38, so in the source too nothing is stored; only
    the error differs:
    - no `budget` object (line 191);
    - no `deliveryTerms` (line 239);
    - no `items` list (line 247);
    - no `specsMatched` list (line 248);
    - no warranty text (line 254).
  - These cases give a NaN or infinite number, which the source goes on to
    store:
    - a missing budget total or a missing price gives NaN. When both are
      missing the prices compare equal at line 232, so the source scores 70;
    - a negative price against a budget of 0 gives −Infinity at line 233;
    - an empty items list gives NaN or Infinity at line 249.

  How the store treats a NaN score is not part of this model.
- ProposalScoring.ScoreProposal: stores the corrected price sub-score
  (`PriceScore`), not line 233's formula. `ScoreProposalAsWritten` is the record
  as written, and `AsWrittenDiffersOnlyInPrice` states how the two differ.
- `Object.entries` order. An item's specs are a list of pairs in the order
  given. JavaScript lists integer-like keys first, in ascending order; that
  reordering is not modelled.
- JSON numbers in integer fields. An item's `quantity`, `leadTimeDays`,
  `netDays` and the warranty `period` are integers, so a fractional value there
  is not modelled.
- `toLocaleString`, and `${x}` on non-integer numbers. These depend on the locale
  and on floating-point printing, so they are a parameter.
- `toLowerCase` maps only ASCII letters.
- `parseInt` uses unbounded integers; precision loss for very long digit runs is not modelled.
- Clocks: `receivedAt`, `generatedAt`, and the one-day search window.
- The static HTML and CSS of the RFP email. Only its filled-in values are modelled.
- Controllers, routes, `app.js`, `vendor.service.js`, the seed data and the front end.
- `getRFPs`, `getRFPById` and `getProposalsByRFP`. These are store queries with sorting.
- Db.Database.FindVendorByEmail: when several vendors share an email it picks
  any one of them. Mongoose would pick the first in natural order.
- ComparisonService.CompareAndRecommend: a proposal whose vendor no longer
  exists (a failed `populate`) is not modelled. The proposals come with their
  vendors.
- ComparisonService.Requirements: called on its own, it renders a missing
  `budget` or `deliveryTerms` as "undefined" and missing items as no names,
  where the source's template throws a TypeError. CompareAndRecommend returns
  that TypeError (PromptReadError) before any prompt is built, so the prompt of
  a comparison is only built when all three exist. A missing `total`,
  `currency` or `deadline` inside them is rendered as "undefined", as in the
  source.

## Findings

| source | as written | input that shows it | evidently intended | confidence | as-written member | corrected member |
|---|---|---|---|---|---|---|
| backend/src/services/proposal.service.js:233 | `100 - ((budget - price) / budget) * 30`: the score falls as the saving grows, from about 100 just under budget to 70 at a price of 0 | budget 100: a price of 90 scores 97 and a price of 10 scores 73; just under budget scores about 100 but exactly at budget 70 | "lower is better" and "scaled based on savings": `100 - (price / budget) * 30`, which is 70 at budget and rises to 100 as the saving grows | high; not executed | ProposalScoring.AsWrittenRewardsHigherPrice | ProposalScoring.PriceScoreRewardsSavings |
