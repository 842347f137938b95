# Property manager: a verified model of its rating and listing core

The property manager is a web application. A household uses it to collect
property listings, score them against its own priorities and pick one. This
project models its core in Dafny and proves properties of that model:

- **Initial rating population** (`RatingUtils`). When a property is added,
  each primary user gets one row per criterion. The score is the matching
  priority's weight times the criterion's points, when the property's
  features mention the criterion. It is capped at 100.
- **The calculate-score server function, in both versions**
  (`CalculateScore`, `CalculateScoreLegacy`, with the shared reduction in
  `Aggregation`). Half of every primary rating of the property, plus up
  votes, minus down votes, clamped to [0, 100] and upserted into the score
  table.
- **The score-conflict dialog for power users** (`ScoreConflictResolver`).
- **The dashboard** (`DashboardPage`): the loaded list with combined
  scores, the four stacked filters, the in-place sort by score, the card
  layout and deletion.
- **The scrape server function** (`Scrape`): price and integer parsing,
  the three site scrapers with their selection loops, URL dispatch, the
  assembled record and the request checks.
- **The priority and criterion settings page** (`PrioritySettingsPage`):
  its schemas, the 10 and 5 caps, the inserts, the reloads and deletion.
- **The manual property form** (`ManualPropertyForm`): its schema, the
  comma-separated feature list and the empty-date-as-null rule.
- **Adding a feature to a property** (`FeatureInput`).
- **The add-property form** (`AddPropertyForm`): field defaults, the image
  choice and write-back, and the loop that seeds every primary user.
- **The route guard** (`AuthGuard`).
- **The per-property rating form** (`PropertyRatingForm`): the schema and
  the upsert, which the rating table's primary key resolves.

`Store` holds the tables as datatypes, plus the query functions the
components share. Its `Database` class holds the tables as fields that the
state-changing methods reassign. `Common` holds the JavaScript string and
sequence operations the core relies on: lower-casing, `includes`, `trim`,
`split` and `join`, and `filter`. A store call that can fail takes a
boolean (or a record of booleans) saying whether it fails. Generated ids,
the clock, the page fetch and URL validation are parameters too. The
rating table's primary key is not fixed by the code: `Database.ratingKey`
says whether it is a generated id or the (user, property, criterion)
triple, and the upsert and population results are stated for each.
Likewise `Database.scoreEmbed` says whether the store returns a
property's `property_scores` embed as one object or as a list, and the
dashboard's loaded scores are stated for both. Number inputs that can be
cleared hold `None` for the NaN that `parseFloat` or `parseInt` then
gives. Scores are exact `real`s.

## Model

| member | source | states |
|---|---|---|
| Common.Lower | src/pages/DashboardPage.tsx:62 | `toLowerCase` keeps the length and lower-cases each character in place |
| Common.LowerIdempotent | src/lib/ratingUtils.ts:31-32 | lower-casing an already lower-cased text changes nothing |
| Common.IncludesIffOccurs | src/pages/DashboardPage.tsx:62 | `includes` holds exactly when the searched text occurs at some index |
| Common.TrimIsCore | src/components/properties/ManualPropertyForm.tsx:69 | the trimmed text occurs inside the original, and neither starts nor ends with whitespace |
| Common.TrimIdempotent | src/components/properties/ManualPropertyForm.tsx:69 | trimming twice is trimming once |
| Common.JoinSplit | src/components/properties/ManualPropertyForm.tsx:69 | the pieces of a split, joined with the separator, give the text back |
| Common.SplitJoin | src/components/properties/ManualPropertyForm.tsx:69 | splitting a join of separator-free pieces gives back the same pieces |
| Common.SplitShape | src/components/properties/ManualPropertyForm.tsx:69 | a split has one piece more than the text has separators, and no piece holds a separator |
| Common.FilterIsSubsequence | src/pages/DashboardPage.tsx:60-73 | a filtered list is a subsequence of the list it came from |
| Store.PrimaryIds | supabase-non-cli/functions/calculate-score/index.ts:65-86 | an id is listed exactly when a user with that id has the primary role; the list is no longer than the table |
| Store.NoPrimaryIds | supabase-non-cli/functions/calculate-score/index.ts:75 | with no primary user the id list is empty |
| Store.PropertyById | src/lib/ratingUtils.ts:7-11 | a found row is in the table and has the id; with no row of that id nothing is found |
| Store.PropertyByIdFresh | src/components/properties/AddPropertyForm.tsx:78-98 | a row inserted under an id no other row has is the row found under it |
| Store.RatingsFor | supabase-non-cli/functions/calculate-score/index.ts:89-93 | a rating row is selected exactly when it is in the table, is for the property, and its user is among the ids |
| Store.FeedbackFor | supabase-non-cli/functions/calculate-score/index.ts:101-104 | a vote is selected exactly when it is in the table and is for the property |
| RatingUtils.FindPriority | src/lib/ratingUtils.ts:31 | a found priority is in the list and has the criterion's name ignoring case; when none is found, no priority has that name |
| RatingUtils.FindPriorityFirst | src/lib/ratingUtils.ts:31 | when several priorities match, the first in list order is found |
| RatingUtils.InitialScore | src/lib/ratingUtils.ts:30-40 | the seeded score never exceeds 100 |
| RatingUtils.InitialScoreRule | src/lib/ratingUtils.ts:30-34 | with the first matching priority at index i, the score is min(weight × points, 100) when some feature mentions the name ignoring case, and 0 otherwise |
| RatingUtils.InitialScoreNoPriority | src/lib/ratingUtils.ts:31-32 | without a priority of the criterion's name the score is 0 |
| RatingUtils.NoFeaturesScoreZero | src/lib/ratingUtils.ts:32 | a property with no features scores 0 on every criterion |
| RatingUtils.InitialScoreInRange | src/lib/ratingUtils.ts:33-40 | with weights in [1, 10] and non-negative points the score lies in [0, 100] |
| RatingUtils.SeedRows | src/lib/ratingUtils.ts:29-41 | one row per criterion, in criterion order, each the criterion's scored row |
| RatingUtils.InsertedSubset | src/lib/ratingUtils.ts:36-41 | every row that gets inserted is one of the seeded rows |
| RatingUtils.PopulateInitialRatings | src/lib/ratingUtils.ts:4-46 | the loop appends exactly the rows whose insert succeeds, in criterion order, and nothing when a fetch fails; no error escapes |
| RatingUtils.OneRowPerCriterion | src/lib/ratingUtils.ts:29-42 | without failures there is exactly one row per criterion of the user, in order, with the criterion's id, the user, the property and the rule's score (zero scores included) |
| RatingUtils.FetchFailureAddsNothing | src/lib/ratingUtils.ts:13-45 | a failed property, priority or criterion fetch adds no row |
| RatingUtils.PopulatedRowsShape | src/lib/ratingUtils.ts:36-41 | every added row is for the given property and user, with a score of at most 100 |
| RatingUtils.PopulateTwice | src/lib/ratingUtils.ts:36-41 | with a generated-id key population is not idempotent: a second call appends the same rows again, so the table grows by twice the user's criterion count |
| RatingUtils.Collisions | src/lib/ratingUtils.ts:36-41 | a seeded row's position is a collision exactly when the table already holds a row of its (user, property, criterion) triple |
| RatingUtils.KeyedRepeatAddsNothing | src/lib/ratingUtils.ts:36-41 | with the triple as key, a first run without failures adds the seeded rows, and a second run, whose colliding inserts all fail, adds nothing |
| Aggregation.Clamp | supabase-non-cli/functions/calculate-score/index.ts:122 | the result lies in [0, 100], equals the input inside that range, and is 0 below it and 100 above it |
| Aggregation.PrimaryIsHalfTheSum | supabase-non-cli/functions/calculate-score/index.ts:112-114 | the ratings fold is half the sum of the scores |
| Aggregation.FeedbackIsUpMinusDown | supabase-non-cli/functions/calculate-score/index.ts:116-120 | the votes fold is the number of "up" votes minus the number of "down" votes; every other value counts 0 |
| Aggregation.PrimaryNonNegative | supabase-non-cli/functions/calculate-score/index.ts:112-114 | non-negative scores give a non-negative ratings component |
| Aggregation.CombinedIsClampedBalance | supabase-non-cli/functions/calculate-score/index.ts:112-122 | the combined score is the clamp of half the score sum plus the up votes minus the down votes |
| Aggregation.VotesOnly | supabase/functions/calculate-score/index.ts:31-33 | with no rating rows the combined score is the clamped vote balance |
| CalculateScore.Handle | supabase-non-cli/functions/calculate-score/index.ts:31-164 | only a scored answer changes the score table; it comes from a JSON body with a truthy id, lies in [0, 100] and is what gets stored under that id |
| CalculateScore.UnparsableBody | supabase-non-cli/functions/calculate-score/index.ts:40-50 | a body that is not JSON is answered 400 whatever the store holds, and the score table is unchanged |
| CalculateScore.NullBodyIs500 | supabase-non-cli/functions/calculate-score/index.ts:52 | a `null` body cannot be destructured; the catch-all answers 500 and no score is written |
| CalculateScore.MissingPropertyId | supabase-non-cli/functions/calculate-score/index.ts:52-62 | a missing or falsy id is answered 400 and writes no score |
| CalculateScore.NoPrimaryUsersScoresZero | supabase-non-cli/functions/calculate-score/index.ts:75-84 | with no primary user the answer is 200 with a combined score of 0, whatever the votes, and nothing is written |
| CalculateScore.SuccessfulRun | supabase-non-cli/functions/calculate-score/index.ts:124-149 | on success exactly the property's score changes; the answer reports the stored score, the number of rating rows and the number of votes |
| CalculateScore.SuccessfulScore | supabase-non-cli/functions/calculate-score/index.ts:86-122 | the stored score is clamp(Σscore/2 + #up − #down) over exactly the property's primary-user rating rows and all its votes |
| CalculateScore.StoreErrorIs500 | supabase-non-cli/functions/calculate-score/index.ts:151-163 | any failing store call before or at the upsert gives 500 and leaves the score table unchanged |
| CalculateScore.Idempotent | supabase-non-cli/functions/calculate-score/index.ts:112-130 | running again on the resulting table gives the same answer and the same table |
| CalculateScore.IrrelevantRatingsIgnored | supabase-non-cli/functions/calculate-score/index.ts:86-93 | rating rows of other properties or of non-primary users do not change the outcome |
| CalculateScoreLegacy.Handle | supabase/functions/calculate-score/index.ts:9-48 | only a scored answer changes the score table; it comes from a body with a truthy id, lies in [0, 100] and is what gets stored under that id |
| CalculateScoreLegacy.BadBodyIs500 | supabase/functions/calculate-score/index.ts:10 | a body that is not JSON, or is `null`, fails before the try block: 500, and nothing is written |
| CalculateScoreLegacy.MissingPropertyId | supabase/functions/calculate-score/index.ts:10-13 | a parsed body without a truthy id is answered 400 and writes nothing |
| CalculateScoreLegacy.VoteOnlyScore | supabase/functions/calculate-score/index.ts:16-39 | when the primary-user lookup fails or finds no one, the clamped vote balance is still answered and written |
| CalculateScoreLegacy.StoreErrorIs500 | supabase/functions/calculate-score/index.ts:45-46 | a failed ratings read, feedback read or upsert gives 500 with no score, and the table is unchanged |
| CalculateScoreLegacy.AgreesWithCurrentVersion | supabase/functions/calculate-score/index.ts:15-44 | with a primary user and no failures, both versions answer and store the same score |
| ScoreConflictResolver.Resolver.constructor | src/components/ratings/ScoreConflictResolver.tsx:15-16 | the dialog starts closed with no stored rows |
| ScoreConflictResolver.Resolver.OnLoad | src/components/ratings/ScoreConflictResolver.tsx:18-21 | only a power user's component checks; for anyone else the state is unchanged |
| ScoreConflictResolver.Resolver.CheckConflicts | src/components/ratings/ScoreConflictResolver.tsx:23-39 | the new state is the check's result on this property's primary rating rows |
| ScoreConflictResolver.CheckResult | src/components/ratings/ScoreConflictResolver.tsx:30-38 | a fetch error keeps the state; a conflict opens the dialog and stores the rows; otherwise nothing changes |
| ScoreConflictResolver.Resolver.HandleResolve | src/components/ratings/ScoreConflictResolver.tsx:41-55 | the dialog closes exactly on an OK answer; a thrown or non-OK answer leaves it as it was |
| ScoreConflictResolver.Resolver.DialogVisible | src/components/ratings/ScoreConflictResolver.tsx:57-60 | the dialog is shown only to a power user, and to a power user exactly while it is open |
| ScoreConflictResolver.Resolver.SetOpen | src/components/ratings/ScoreConflictResolver.tsx:60 | the dialog's own open/close control sets `open` |
| ScoreConflictResolver.CheckNeverCloses | src/components/ratings/ScoreConflictResolver.tsx:35-38 | after a check the dialog is open exactly when it was open already or the fetch succeeded with a conflict |
| ScoreConflictResolver.ThresholdIsStrict | src/components/ratings/ScoreConflictResolver.tsx:35 | two rows conflict exactly when their scores differ by more than 20; any other row count never conflicts |
| ScoreConflictResolver.ConflictSymmetric | src/components/ratings/ScoreConflictResolver.tsx:35 | the conflict does not depend on the order of the two rows |
| ScoreConflictResolver.RowsNotUsers | src/components/ratings/ScoreConflictResolver.tsx:24-35 | two users with two rows each give more than two rows and never flag |
| DashboardPage.ScoreEntries | src/pages/DashboardPage.tsx:33-41 | `?.[0]` reaches at most one score, the stored one; it reaches none exactly when the embed is an object or no score is stored |
| DashboardPage.CombinedScoreOf | src/pages/DashboardPage.tsx:41 | the first joined score, or 0 when there is none |
| DashboardPage.Listings | src/pages/DashboardPage.tsx:38-42 | one listing per loaded property, in order |
| DashboardPage.LoadedScore | src/pages/DashboardPage.tsx:41 | a listing carries its property unchanged. With a list embed it carries the stored combined score, or 0 when none is stored; with an object embed it carries 0 whatever is stored |
| DashboardPage.ObjectEmbedScoresZero | src/pages/DashboardPage.tsx:41 | with an object embed every loaded listing scores 0, so the list is already in descending order and all scores are equal, which the sort leaves in load order |
| DashboardPage.LocationIgnoresCase | src/pages/DashboardPage.tsx:61-63 | the location filter keeps a listing exactly when its lower-cased location includes the lower-cased text |
| DashboardPage.BedroomsRule | src/pages/DashboardPage.tsx:64-66 | bedrooms 3 keeps 3 or more; another non-zero value keeps that exact count; 0 or absent keeps everything |
| DashboardPage.LocationStage | src/pages/DashboardPage.tsx:61-63 | the first stage filters by location when that filter is on and keeps the list otherwise |
| DashboardPage.BedroomsStage | src/pages/DashboardPage.tsx:64-66 | the second stage narrows the first stage's list by bedrooms when that filter is on |
| DashboardPage.PriceMinStage | src/pages/DashboardPage.tsx:67-69 | the third stage narrows by the minimum price when that filter is on |
| DashboardPage.PriceMaxStage | src/pages/DashboardPage.tsx:70-72 | the fourth stage narrows by the maximum price when that filter is on |
| DashboardPage.PriceBoundsInclusive | src/pages/DashboardPage.tsx:67-72 | both price bounds are inclusive, and each is off when 0 or absent |
| DashboardPage.NoFiltersShowAll | src/pages/DashboardPage.tsx:59-73 | with every filter off the whole list is shown |
| DashboardPage.FilterAgainIsIdle | src/pages/DashboardPage.tsx:59-73 | filtering the shown list again by the same filters changes nothing |
| DashboardPage.Dashboard.constructor | src/pages/DashboardPage.tsx:14-15 | both lists start empty, as two separate arrays |
| DashboardPage.Dashboard.FetchProperties | src/pages/DashboardPage.tsx:29-46 | a failed load keeps both lists and whether they share an array; a successful one sets both to the one array of loaded listings |
| DashboardPage.Dashboard.HandleFilter | src/pages/DashboardPage.tsx:59-74 | the shown list is the store's list narrowed by every filter that is on. It is a subsequence, with a listing in it exactly when it is in the store's list and passes the filters; the store's list is untouched, and the shown list is a copy that no longer shares its array |
| DashboardPage.SortByScore | src/pages/DashboardPage.tsx:88 | the in-place sort leaves the array a permutation of itself with scores non-increasing, and leaves an array whose scores are all equal exactly as it was |
| DashboardPage.TopCardIsBest | src/pages/DashboardPage.tsx:87-90 | in display order the first card has the highest score |
| DashboardPage.CardSpan | src/pages/DashboardPage.tsx:90 | rank 0 spans the full row, ranks 1 and 2 half of it, the rest the default |
| DashboardPage.Dashboard.Render | src/pages/DashboardPage.tsx:87-93 | the shown list becomes a permutation of itself in descending score order, with one card per listing and that rank's span. A list whose scores are all equal (every list under an object embed) keeps its load order. While the store's list is the same array it is reordered with it; otherwise it is untouched |
| DashboardPage.Dashboard.HandleDelete | src/pages/DashboardPage.tsx:48-57 | only a primary user's successful delete removes the property's rows; a successful reload then sets both lists to the one array of loaded listings, and a failed one keeps both lists as they were; without a primary user or after a failed delete nothing changes |
| Scrape.Digits | supabase/functions/scrape/index.ts:40 | removing the non-digits leaves only digits |
| Scrape.ParseIntegerRoundTrip | supabase/functions/scrape/index.ts:39-42 | a number written in decimal reads back as itself |
| Scrape.ParseIntegerOfDigits | supabase/functions/scrape/index.ts:40 | dropping the non-digits first changes nothing |
| Scrape.ParseIntegerConcat | supabase/functions/scrape/index.ts:39-42 | every digit counts wherever it stands: the value of a + b is a's value shifted by b's digit count plus b's value |
| Scrape.CleanPrice | supabase/functions/scrape/index.ts:33 | only digits and dots are left |
| Scrape.ParseDecimal | supabase/functions/scrape/index.ts:34 | `parseFloat` on digits and dots gives no number or a non-negative one |
| Scrape.ParsePrice | supabase/functions/scrape/index.ts:32-36 | the parsed price is never negative |
| Scrape.ParseDecimalParts | supabase/functions/scrape/index.ts:34 | "w.f", alone or followed by another dot, reads as whole part w and fraction f |
| Scrape.PriceWithoutDot | supabase/functions/scrape/index.ts:32-42 | a price text without a dot parses as its digits read as an integer |
| Scrape.ParsePriceRoundTrip | supabase/functions/scrape/index.ts:32-36 | a whole-unit price written in decimal parses back to itself |
| Scrape.ParsePriceIgnoresOtherChars | supabase/functions/scrape/index.ts:33 | characters other than digits and dots (currency signs, commas, spaces) do not change the price |
| Scrape.Truncate | supabase/functions/scrape/index.ts:58 | `slice(0, n)` is the prefix of length min(n, length) |
| Scrape.FirstFound | supabase/functions/scrape/index.ts:68-72 | the `||` chain yields the element of the first selector that finds one, and nothing only when no selector finds one |
| Scrape.ScrapeZillow | supabase/functions/scrape/index.ts:55-64 | the Zillow scraper's price is non-negative, its description is at most 1000 characters, its location at most 100, and its agent is "Zillow" |
| Scrape.FirstImage | supabase/functions/scrape/index.ts:72 | `querySelector('img')` finds nothing exactly on a page without images, and otherwise the first of the images the generic scraper walks |
| Scrape.ScrapeRightmove | supabase/functions/scrape/index.ts:66-75 | the same bounds, with agent "Rightmove" |
| Scrape.FoundPrice | supabase/functions/scrape/index.ts:93-95 | a selector's price is non-negative |
| Scrape.FoundDescription | supabase/functions/scrape/index.ts:101-103 | a selector's description is at most 1000 characters |
| Scrape.FirstPositiveZero | supabase/functions/scrape/index.ts:88-98 | the generic price is 0 exactly when no selector yields a positive price |
| Scrape.FirstPositiveIsFirst | supabase/functions/scrape/index.ts:92-98 | a positive generic price is the first positive one in selector order |
| Scrape.FirstNonEmptyIsFirst | supabase/functions/scrape/index.ts:100-106 | a non-empty generic description is the first non-empty one in selector order |
| Scrape.FirstNonEmptyEmpty | supabase/functions/scrape/index.ts:100-106 | the generic description is empty exactly when every selector yields an empty one |
| Scrape.ImageChoice | supabase/functions/scrape/index.ts:108-119 | the image is the first source mentioning property, house or home; failing that, the first image's source; failing that, '' |
| Scrape.GenericScrape | supabase/functions/scrape/index.ts:77-129 | the generic scraper's record is bounded, with no bedrooms and agent "Unknown" |
| Scrape.FindPrice | supabase/functions/scrape/index.ts:92-98 | the price loop stops at the first positive price, or ends with 0 |
| Scrape.FindDescription | supabase/functions/scrape/index.ts:100-106 | the description loop stops at the first non-empty description, or ends with '' |
| Scrape.FindImage | supabase/functions/scrape/index.ts:108-119 | the image loop and its fallback choose the image `ImageChoice` describes |
| Scrape.ScrapeGeneric | supabase/functions/scrape/index.ts:77-129 | the three loops together produce the generic record |
| Scrape.SiteFor | supabase/functions/scrape/index.ts:187-193 | a URL containing 'zillow.com' goes to Zillow; otherwise one containing 'rightmove.co.uk' goes to Rightmove; anything else is generic |
| Scrape.ZillowFirst | supabase/functions/scrape/index.ts:187-190 | a URL mentioning both sites goes to Zillow |
| Scrape.EveryScraperBounded | supabase/functions/scrape/index.ts:185-193 | whichever scraper runs, the bounds hold and the agent is non-empty |
| Scrape.Assemble | supabase/functions/scrape/index.ts:200-214 | the record keeps the scraped values and today's date, falls back to "Unknown" for an empty agent, and always has four false flags, condition "Unknown" and no features |
| Scrape.DatePartIsPrefix | supabase/functions/scrape/index.ts:206 | the date part is everything before the first 'T' |
| Scrape.HandleScrape | supabase/functions/scrape/index.ts:131-240 | the handler, running the looping generic scraper, answers exactly what its specification `Scrape.Answer` gives for the request, URL check, fetch and scraper dispatch |
| Scrape.BadBodyIs500 | supabase/functions/scrape/index.ts:137 | a body that is not JSON, or is `null`, is answered 500 whatever the fetch would return |
| Scrape.MissingUrlIs400 | supabase/functions/scrape/index.ts:139-147 | a missing or empty URL is answered 400, whatever the fetch would return |
| Scrape.AnsweredRecord | supabase/functions/scrape/index.ts:200-214 | every answered record has the fixed defaults, a non-negative price, bounded texts, today's date and a non-empty agent |
| PrioritySettingsPage.OfferedPoints | src/pages/PrioritySettingsPage.tsx:217-220 | each category offers 10, 5, 2 or 0 points |
| PrioritySettingsPage.Decide | src/pages/PrioritySettingsPage.tsx:71-88 | added exactly when valid, under the cap and the insert succeeds; at the cap the limit message; invalid values never submit |
| PrioritySettingsPage.Page.constructor | src/pages/PrioritySettingsPage.tsx:28-39 | both lists start empty and both forms hold their defaults |
| PrioritySettingsPage.Page.Render | src/pages/PrioritySettingsPage.tsx:119-121 | access is denied exactly to a user who is not primary |
| PrioritySettingsPage.Page.Load | src/pages/PrioritySettingsPage.tsx:41-69 | only a primary user fetches; each list becomes the user's rows unless its fetch fails |
| PrioritySettingsPage.Page.SubmitPriority | src/pages/PrioritySettingsPage.tsx:71-88 | the outcome is `Decide` with the cap 10. Only when added is the row inserted, the list refetched and the form reset; otherwise nothing changes |
| PrioritySettingsPage.Page.SubmitCriterion | src/pages/PrioritySettingsPage.tsx:90-107 | the same, for criteria with the cap 5 |
| PrioritySettingsPage.Page.DeletePriority | src/pages/PrioritySettingsPage.tsx:109-117 | a successful delete removes the rows with that id and refetches; a failed one changes nothing |
| PrioritySettingsPage.PriorityCapKept | src/pages/PrioritySettingsPage.tsx:72-75 | while the loaded list mirrors the store, the user never holds more than 10 priorities |
| PrioritySettingsPage.CriterionCapKept | src/pages/PrioritySettingsPage.tsx:91-94 | the same for criteria and 5 |
| PrioritySettingsPage.AcceptedWeightInRange | src/pages/PrioritySettingsPage.tsx:15-18 | every accepted priority has a numeric weight in [1, 10] and a name of 1 to 50 characters |
| PrioritySettingsPage.ClearedWeightRejected | src/pages/PrioritySettingsPage.tsx:151 | a cleared or non-numeric weight (NaN from `parseInt`) never validates |
| ManualPropertyForm.DefaultsInvalid | src/components/properties/ManualPropertyForm.tsx:37-51 | the defaults do not validate (no location) and the four flags default to false |
| ManualPropertyForm.SplitFeatures | src/components/properties/ManualPropertyForm.tsx:69 | empty text gives no features |
| ManualPropertyForm.SplitFeaturesShape | src/components/properties/ManualPropertyForm.tsx:69 | non-empty text gives one entry per comma plus one, empty pieces kept. Each entry is the trimmed piece at the same position, and none holds a comma |
| ManualPropertyForm.FeaturesTrimmed | src/components/properties/ManualPropertyForm.tsx:69 | no entry starts or ends with whitespace |
| ManualPropertyForm.FeaturesRoundTrip | src/components/properties/ManualPropertyForm.tsx:69 | trimmed comma-free entries written with commas read back as the same list |
| ManualPropertyForm.StoredDate | src/components/properties/ManualPropertyForm.tsx:62 | an empty date is stored as null; any other is kept |
| ManualPropertyForm.ClearedNumberRejected | src/components/properties/ManualPropertyForm.tsx:103-129 | a cleared or non-numeric price or bedrooms field (NaN) never validates, whatever the other fields hold |
| ManualPropertyForm.BuildRow | src/components/properties/ManualPropertyForm.tsx:56-71 | the inserted row carries the values, the parsed price and bedrooms, the split features, the stored date, the new id and the adding user |
| ManualPropertyForm.Submit | src/components/properties/ManualPropertyForm.tsx:54-78 | exactly one row is inserted when the values validate and the insert succeeds, otherwise none; ratings are never touched |
| FeatureInput.AppendFeature | src/components/properties/FeatureInput.tsx:40-42 | the existing list with the feature last, or the feature alone when there is no list |
| FeatureInput.AfterAdd | src/components/properties/FeatureInput.tsx:44-50 | the upsert adds the (property, user) key if it was missing and keeps every other key |
| FeatureInput.AppendKeepsEarlier | src/components/properties/FeatureInput.tsx:40-42 | earlier entries stay, in order, and the new feature is last |
| FeatureInput.DuplicatesKept | src/components/properties/FeatureInput.tsx:40-42 | re-adding a feature lengthens the list by one and adds one more copy |
| FeatureInput.OtherListsUnchanged | src/components/properties/FeatureInput.tsx:31-50 | the list of every other property or user is unchanged |
| FeatureInput.AddTwice | src/components/properties/FeatureInput.tsx:40-50 | two adds append both features, in order |
| FeatureInput.SubmitFeature | src/components/properties/FeatureInput.tsx:29-59 | the list is replaced exactly when the feature is 1 to 50 characters, the read does not fail with anything but "no rows", and the upsert succeeds; otherwise nothing changes |
| AddPropertyForm.TextOr | src/components/properties/AddPropertyForm.tsx:84-93 | a missing or empty text gives the fallback; any other is kept |
| AddPropertyForm.FlagOr | src/components/properties/AddPropertyForm.tsx:89-92 | a flag is true only when the scrape said true |
| AddPropertyForm.RealOrZero | src/components/properties/AddPropertyForm.tsx:83 | a missing price is 0; a present one is kept |
| AddPropertyForm.IntOrZero | src/components/properties/AddPropertyForm.tsx:86 | missing bedrooms are 0; present ones are kept |
| AddPropertyForm.NewRow | src/components/properties/AddPropertyForm.tsx:78-98 | the inserted row has an empty image and each scraped field or its default ('', 0, 'Unknown', false, [], today) |
| AddPropertyForm.ScrapedRecordStoredAsIs | src/components/properties/AddPropertyForm.tsx:83-94 | a record the scrape function assembled is stored as it came: the form's defaults change none of its fields |
| AddPropertyForm.FinalImage | src/components/properties/AddPropertyForm.tsx:107-128 | a successful upload gives its public URL plus `?resize=300x200`; otherwise the scraped image or '' |
| AddPropertyForm.ImageWrittenBack | src/components/properties/AddPropertyForm.tsx:107-140 | an uploaded image always wins and is never empty; otherwise the image is written back exactly when the scrape gave one |
| AddPropertyForm.WithImage | src/components/properties/AddPropertyForm.tsx:131-135 | the update sets the image of the rows with that id and changes no other row |
| AddPropertyForm.NewPropertyFound | src/components/properties/AddPropertyForm.tsx:78-140 | earlier rows are kept, and the new property is found under its id, with the final image exactly when it was non-empty and its update succeeded |
| AddPropertyForm.PopulationsAt | src/components/properties/AddPropertyForm.tsx:151-157 | the k-th block is what the population call for the k-th primary user adds |
| AddPropertyForm.AddedRowsShape | src/components/properties/AddPropertyForm.tsx:151-157 | every added rating row is for the new property, belongs to a primary user and scores at most 100 |
| AddPropertyForm.EveryHealthyUserRated | src/components/properties/AddPropertyForm.tsx:151-157 | one user's failure does not stop the others: every user whose calls succeed gets a row for each criterion |
| AddPropertyForm.SeedUser | src/components/properties/AddPropertyForm.tsx:152-156 | the call for the i-th user appends that user's block |
| AddPropertyForm.SeedPrimaryUsers | src/components/properties/AddPropertyForm.tsx:151-157 | the loop appends the primary users' blocks, in user order |
| AddPropertyForm.AddPanel.constructor | src/components/properties/AddPropertyForm.tsx:26 | the manual form starts hidden |
| AddPropertyForm.AddPanel.Submit | src/components/properties/AddPropertyForm.tsx:15-168 | a URL the form schema rejects (`isUrl`) is refused with nothing changed. For a valid URL, a failed scrape or insert shows the manual form and changes nothing. Otherwise the property is stored with its image, and the primary users are seeded unless their listing fails, which is still reported as success |
| AuthGuard.Guard | src/components/auth/AuthGuard.tsx:9-32 | loading wins; no user redirects to login. Unauthorized exactly when a list is given and the user has no role or a role outside it; children render exactly when a user is present and the list is absent or holds the user's role |
| AuthGuard.RolelessUserTurnedAway | src/components/auth/AuthGuard.tsx:27-29 | a signed-in user without a role is sent to the unauthorized page by every role list |
| AuthGuard.NoRoleListAdmitsEveryone | src/App.tsx:20-23 | the routes give no role list, so any signed-in user reaches every page once loading ends |
| AuthGuard.EmptyRoleListAdmitsNoOne | src/components/auth/AuthGuard.tsx:27-29 | an empty list is present and turns every user away |
| AuthGuard.WiderListKeepsAccess | src/components/auth/AuthGuard.tsx:27-29 | widening the role list never takes access away |
| AuthGuard.OnlyRoleMatters | src/components/auth/AuthGuard.tsx:27 | the decision depends on the user only through their role, present or absent |
| PropertyRatingForm.DefaultsNotSubmittable | src/components/ratings/PropertyRatingForm.tsx:13-29 | the default values fail the schema (no criterion id) |
| PropertyRatingForm.Upsert | src/components/ratings/PropertyRatingForm.tsx:50-55 | the row is present afterwards and no row of another triple is lost. Under a generated-id key the row is appended. Under the triple as key, rows of other triples are exactly as before and the only row of its triple is the row itself |
| PropertyRatingForm.UpsertKeepsKeysUnique | src/components/ratings/PropertyRatingForm.tsx:50-55 | under the triple as key, triples stay unique; an existing triple keeps the length and a new one adds one row |
| PropertyRatingForm.LastWriteWins | src/components/ratings/PropertyRatingForm.tsx:50-55 | under the triple as key, a second upsert of the same triple gives the table a single upsert of the second row would |
| PropertyRatingForm.UpsertIdempotent | src/components/ratings/PropertyRatingForm.tsx:50-55 | under the triple as key, submitting the same row twice stores it once |
| PropertyRatingForm.GeneratedIdKeepsBothWrites | src/components/ratings/PropertyRatingForm.tsx:50-55 | under a generated-id key both writes are kept, in order, leaving two rows of one triple |
| PropertyRatingForm.SavedScoreInRange | src/components/ratings/PropertyRatingForm.tsx:13-16 | every saved score lies in [0, 100] and is in the table afterwards; under the triple as key the table keeps one row per triple |
| PropertyRatingForm.Form.constructor | src/components/ratings/PropertyRatingForm.tsx:25-30 | no criteria loaded and the default values |
| PropertyRatingForm.Form.Render | src/components/ratings/PropertyRatingForm.tsx:64 | the form shows, with the loaded criteria, exactly for a primary user |
| PropertyRatingForm.Form.Load | src/components/ratings/PropertyRatingForm.tsx:32-47 | only a primary user fetches; a failed fetch keeps the list |
| PropertyRatingForm.Form.Submit | src/components/ratings/PropertyRatingForm.tsx:49-62 | saved exactly for a primary user with valid values and a successful upsert. Then the row is upserted under the store's rating key and the form reset; otherwise the table and the entered values are unchanged |

Supporting members need no row of their own. `Common.Filter`,
`Common.Split` and the other sequence and string helpers are in this group.
So are the digit-reading helpers of `Scrape`, `RatingUtils.Inserted`,
`AddPropertyForm.Populations`, and `DashboardPage.InsertAt` and
`DashboardPage.Swap` (the steps of the in-place sort).

Where the written description of the system and the code differ, the model
follows the code:

- **Initial rating population.**
  - It is not done exactly once per property and user. With a generated
    id each call appends again (`RatingUtils.PopulateTwice`); with the
    (user, property, criterion) triple as key a repeated call adds nothing
    (`RatingUtils.KeyedRepeatAddsNothing`).
  - A failed row insert leaves that criterion without a row.
- **The conflict check** counts rating rows, not users
  (`ScoreConflictResolver.RowsNotUsers`).
- **The conflict dialog** can also be dismissed by the user through its
  own close control (`Resolver.SetOpen`).
- **The older calculate-score function** still writes a vote-only score
  when there is no primary user, or when the primary-user lookup fails.
- **Features of a property.**
  - A feature added on a property page goes to the per-user feature list
    (the `property_features` table).
  - Initial population reads the property row's own feature list instead.
- **A criterion's points** are not written by the settings page, which
  inserts only the name and the category. The store fills them in. The
  model therefore takes the stored points as a parameter of
  `Page.SubmitCriterion`, and offers the 10/5/2/0 table only in the picker.

## Left out

- Store, auth and storage client calls are not modelled as a library.
  Each call is a read of the `Database` fields, plus a boolean saying
  whether it fails. Generated ids, `Date.now` and the upload file name are
  parameters or left out.
- Lower-casing folds only ASCII A–Z; Unicode case mapping is not modelled.
- Prices and scores are exact reals. IEEE rounding in `parseFloat` and in
  `score * 0.5` is not modelled.
- Scrape.Truncate: counts Unicode scalar values, where `slice` counts
  UTF-16 code units. Text with characters outside the Basic Multilingual
  Plane is cut at a different point, and the source can split a surrogate
  pair, which the model cannot. The length bounds of the schemas
  (`PrioritySettingsPage.ValidPriority`, `ValidCriterion`,
  `FeatureInput.ValidFeature`, `ManualPropertyForm.Valid`) count the same
  way as `Truncate`.
- Scrape.ParseInteger: is exact for every digit string, where `parseInt`
  returns a double and rounds values beyond 2^53.
- Scrape.ParseDecimal: models `parseFloat` only on the cleaned text of
  digits and dots, which is all `parsePrice` ever passes it.
- The scrape function's page fetch, HTML parsing, `querySelector` lookups
  and 15-second timeout are a `fetch` parameter and an abstract selector
  lookup.
- URL validation (`isValidUrl`) is an `isValidUrl` parameter, and so are
  the add and manual forms' `z.string().url()` checks (`isUrl`).
- Resolving a relative image URL against the page's origin is a `resolve`
  parameter.
- The superseded cheerio scraper (`supabase/functions/scrape/--index.ts`)
  is not part of this model.
- Realtime subscriptions, CORS headers, logging and toasts are left out,
  as are concurrent runs of the score function and the races between them.
- `useUser` maps the session to an id and an email and sets no role. The
  guard takes the role as part of `AuthGuard.SessionUser`, where it may be
  absent; the pages take it as an `Option<Role>` input. The user store
  (`src/lib/store.ts`) is not part of this model.
- The login, sign-up, analytics, details and unauthorized pages, the
  property card and the filter panel are not part of this model. Only the
  routes' use of the guard is stated (`AuthGuard.NoRoleListAdmitsEveryone`).
- `property_id` is a string in both score functions, and `url` is a string
  in the scrape function. A non-string JSON value (a number, an array) is
  not modelled: the scrape function's `new URL` would turn it into a string
  first, so a number is refused as invalid while a one-element array of a
  URL may pass the check and reach the generic scraper.
- Bedroom counts and weights are integers; fractional values that the
  schemas' `z.number()` would accept are not modelled.
- DashboardPage.LoadedScore: the shape of the score embed is a parameter
  (`Database.scoreEmbed`), since the schema is not part of the code. The
  dashboard reads it as a list (`?.[0]`), while the details and analytics
  pages read it as an object (src/pages/PropertyDetailsPage.tsx:60,
  src/pages/AnalyticsPage.tsx:35). With the score table unique per
  property the store returns an object, and the dashboard then lists every
  property with 0 (`DashboardPage.ObjectEmbedScoresZero`). Those two pages
  are not part of this model.
- DashboardPage.SortByScore: states order, permutation and that an
  all-equal array is left as it was, but not the general stability of
  `Array.prototype.sort` among equal scores in a mixed list.
- DashboardPage.Dashboard.Render: likewise keeps load order only when all
  scores are equal (as under an object embed); relative order of equal
  scores in a mixed list is not stated.
- RatingUtils.PopulateInitialRatings: which row inserts fail is a
  parameter. With the (user, property, criterion) triple as key, the store
  fails every insert whose triple is already present; the model states
  that only for a repeated population (`RatingUtils.KeyedRepeatAddsNothing`).
- Rating rows carry no generated `id` or `created_at`; under a generated-id
  key two rows with the same values are told apart only by position.
- A signed-out user's `added_by` (null) is not modelled; the adding user
  is a plain string.
- PropertyRatingForm.IsUuid: accepts any 8-4-4-4-12 hex string, without
  zod's version and variant checks.
- FeatureInput.SubmitFeature: does not reset the form or call the success
  callback; a stored null list is modelled as a missing one.
- The upsert of a feature list assumes the table is keyed by (property,
  adding user).
- The manual form writes no image; its row's image is ''.
- AddPropertyForm.RealOrZero: does not model a NaN price from the scrape
  answer.
- AddPropertyForm.Populations: the per-user blocks are computed against
  the tables as they stand before the loop. Each user's rows only touch the
  rating table, which population never reads.
