# Career recommendation engine: a Dafny model

This project models the core of a career-counselling web service, following
two files: `services/recommendationService.js` and
`services/careerCounselor.js`.

- **Normaliser.** `normalizeProfile` turns the loosely typed form input into a
  canonical profile. Scalar fields are lower-cased and trimmed. Comma lists are
  split, trimmed, lower-cased and stripped of empty tokens. Numbers are coerced,
  and "yes" flags become booleans.
- **Engine.** `generateRecommendations` runs its four sections:
  - A: the education stage pushes fixed entries.
  - B: every domain of the knowledge base `CAREER_DOMAINS` is scored, and a
    domain scoring above 2 is pushed with its first three suggestions.
  - C: the working list is sorted by score. An empty list returns the
    "No clear match found" entry. Otherwise the list is flattened into titled
    entries.
  - D: up to three context entries are appended.
- **Rule-based counsellor.** `getCareerRecommendations` has four independent
  membership rules, one career each, plus a fallback career.

Module layout (one module per file):

| file | module | models |
|---|---|---|
| `text.dfy` | `Text` | `trim`, `toLowerCase`, `split(",")`, string `includes` |
| `profile.dfy` | `Profile` | raw and canonical profiles; `lower`, `csv`, `num`, `normalizeProfile` |
| `knowledge_base.dfy` | `KnowledgeBase` | `CAREER_DOMAINS` |
| `scoring.dfy` | `Scoring` | the domain score of section B (specification function and loop method) |
| `ranking.dfy` | `Ranking` | the working list and `recs.sort` |
| `engine.dfy` | `Engine` | sections A–D, `generateRecommendations` |
| `career_counselor.dfy` | `CareerCounselor` | `getCareerRecommendations` |

The imperative parts are methods proved against specification functions:
- the education ladder (`EducationStage`);
- the scoring loops (`ScoreDomain`);
- the domain loop (`MatchDomains`);
- the context pushes (`ContextStage`);
- the counsellor's pushes (`GetCareerRecommendations`).

`Engine.Recommend` chains these methods. Its result equals
`RecommendationsOver(p, ds)`, a function of the profile and the catalogue.
`GenerateRecommendations` runs it on the knowledge base. The properties are
lemmas about these functions.

Most output lemmas are stated over the catalogue `ds` as a parameter. The
pure assembly step `Assemble(stage, ms, ctx)` keeps them apart from the
literal texts. The lemmas about the real knowledge base instantiate them.

Properties of the code that a reader might not expect, each stated by a lemma:
- There is no deduplication pass: repeated comma-list tokens are kept
  (`Profile.CsvKeepsDuplicates`).
- The output can be empty (`Engine.EmptyOutputIff`). An education-stage entry
  counts as "something pushed", which blocks the fallback, and the flattening
  then drops it, because it carries no `recommendations`.
- No education-stage entry ever reaches the output
  (`Engine.StageEntriesDropped`).
- A CGPA is used as given: there is no scaling of percentages.
- The only rules besides the domain scores are the education ladder and the
  three context entries; there are no interest or skill trigger rules.

## Model

| member | source | states |
|---|---|---|
| Text.ToLower | services/recommendationService.js:7-8 | same length; no upper-case letter remains; a character changes exactly when it is an upper-case letter; whitespace stays whitespace |
| Text.Trim | services/recommendationService.js:7-8 | the result is a slice of the input with no whitespace at either end, and everything cut off is whitespace |
| Text.TrimPadded | services/recommendationService.js:7-8 | trimming whitespace padding around a trimmed word gives back the word |
| Text.TrimOfTrimmed | services/recommendationService.js:7-8 | trim is the identity on trimmed strings, so it is idempotent |
| Text.LowerTrimCommute | services/recommendationService.js:7-8 | lower-then-trim (`lower`) equals trim-then-lower (`csv`'s per-token map) |
| Text.ToLowerOfLower | services/recommendationService.js:7 | lower-casing a lower-case string changes nothing |
| Text.Split | services/recommendationService.js:8 | `split(",")` yields at least one piece, no piece holds a comma, and joining the pieces with commas gives back the input |
| Text.SplitNoComma | services/recommendationService.js:8 | a comma-free string splits into itself alone |
| Text.SplitAppend | services/recommendationService.js:8 | splitting `a + "," + b` is splitting `a` followed by splitting `b` |
| Text.SplitJoin | services/recommendationService.js:8 | split undoes join on comma-free pieces (round trip) |
| Text.ContainsAt | services/recommendationService.js:199-201 | string `includes` holds exactly when the needle occurs at some offset |
| Text.Contains | services/recommendationService.js:199-201 | string `includes`: a needle longer than the haystack is never found, and the empty needle is always found (with `ContainsAt`, found exactly at its offsets) |
| Profile.Normal | services/recommendationService.js:8 | the per-token normaliser yields lower-case, trimmed text, no longer than its input, and adds no comma |
| Profile.Lower | services/recommendationService.js:7 | a string is lower-cased and trimmed (equal to the token normaliser); any non-string gives "" |
| Profile.Tokens | services/recommendationService.js:8 | `filter(Boolean)` keeps no more tokens than there are pieces, each non-empty and normal |
| Profile.TokensAppend | services/recommendationService.js:8 | filtering distributes over concatenation, so order is kept |
| Profile.Csv | services/recommendationService.js:8 | a non-string gives []; every token is non-empty, normal and comma-free; there are no more tokens than comma pieces |
| Profile.CsvPiece | services/recommendationService.js:8 | a comma-free input gives its normal form as one token, or nothing when that is blank |
| Profile.CsvAppend | services/recommendationService.js:8 | the tokens of `a + "," + b` are those of `a` followed by those of `b` |
| Profile.CsvKeepsDuplicates | services/recommendationService.js:8 | "x,x" gives the token twice: no deduplication |
| Profile.Num | services/recommendationService.js:9 | `num`: a NaN-like value becomes 0, and any other value is its number |
| Profile.ListField | services/recommendationService.js:18-19 | an array is lowered element by element with no splitting or filtering; anything else goes through `csv` |
| Profile.Flag | services/recommendationService.js:36-38 | a flag is set exactly when the field is a string whose normal form is "yes" |
| Profile.FlagAcceptsPaddedYes | services/recommendationService.js:36-38 | "yes" in any letter case with any whitespace padding sets the flag |
| Profile.NormalizeProfile | services/recommendationService.js:6-40 | every string field and token comes out normal; each scalar string field is `lower` of its raw field, `hobbies`/`techSkills`/`softSkills`/`values` are `csv` of theirs, `subjects`/`industries` follow the array-or-csv rule, and the four numbers are `num` of theirs, so NaN-like `age`, `cgpa`, `entrepreneurship` and `creativity` become 0; `name` falls back to "" when falsy; each flag holds exactly when its field normalises to "yes"; array lists keep their length |
| Profile.EmptyRawDefaults | services/recommendationService.js:6-40 | an entirely absent form normalises to "", [], 0 and false in every field, and `name` to "" |
| KnowledgeBase.Domains | services/recommendationService.js:45-113 | the catalogue holds six domains |
| KnowledgeBase.DomainsShape | services/recommendationService.js:45-113 | the domain names are pairwise distinct and each domain has two or three suggestions |
| Scoring.ScoreDomain | services/recommendationService.js:182-204 | the three `forEach` loops and the modifiers compute exactly the domain score: 2 per keyword hit, 2 per skill hit, 2 for the personality, 1 per value, then the goal and rating bonuses |
| Scoring.DomainScore | services/recommendationService.js:182-204 | the score a domain gets: at least 2 per keyword hit, 2 per skill hit and 1 per shared value, and at least 2 when the personality is listed; the modifiers only add |
| Scoring.CountZero | services/recommendationService.js:184-196 | nothing is counted exactly when no wanted entry is in the pool |
| Scoring.CountAll | services/recommendationService.js:184-196 | everything is counted exactly when every wanted entry is in the pool |
| Scoring.CountAppend | services/recommendationService.js:184-196 | counting distributes over concatenation of the wanted list |
| Scoring.Count6 | services/recommendationService.js:184-196 | over six wanted entries the count is the sum of the six hits |
| Scoring.CountMonotone | services/recommendationService.js:184-196 | a larger pool never counts fewer hits |
| Scoring.ScoreMonotone | services/recommendationService.js:182-204 | a profile with at least the same signals never scores a domain lower |
| Scoring.PersonalityAloneScoresTwo | services/recommendationService.js:192 | a personality match alone is worth exactly 2, which does not pass the threshold |
| Scoring.TwoKeywordsScoreAboveTwo | services/recommendationService.js:184-186 | two keyword hits alone make at least 4 |
| Ranking.Insert | services/recommendationService.js:216 | insertion adds exactly one entry |
| Ranking.InsertPermutes | services/recommendationService.js:216 | insertion adds the element to the multiset and nothing else |
| Ranking.InsertSorted | services/recommendationService.js:216 | insertion keeps a ranked list ranked |
| Ranking.SortByScore | services/recommendationService.js:216 | the result has the input's length and descending scores (`score \|\| 0` as key) |
| Ranking.SortPermutes | services/recommendationService.js:216 | sorting is a permutation |
| Ranking.SortStable | services/recommendationService.js:216 | among entries of equal score the input order is kept (stability) |
| Ranking.SortStagesLast | services/recommendationService.js:216 | score-less education entries pushed before positive-score domains end up after them, in their original order |
| Engine.EducationStage | services/recommendationService.js:131-178 | the ladder pushes exactly the education-stage entries of the profile, in order |
| Engine.StageRecs | services/recommendationService.js:131-178 | the education-stage entries a profile gets: at most one, since the education level matches one rung of the ladder and the 12th-grade stream lists do not overlap |
| Engine.MatchDomains | services/recommendationService.js:181-213 | the domain loop appends exactly the qualifying domains, in catalogue order, each with its score and first three suggestions |
| Engine.MatchOf | services/recommendationService.js:206-210 | the entry a qualifying domain pushes: its name, its score and a prefix of at most three of its suggestions |
| Engine.MatchesIn | services/recommendationService.js:181-213 | the working-list entries of section B: no more entries than catalogue domains, each a domain entry whose score exceeds 2 (once per domain: `Engine.MatchesOfDomain`) |
| Engine.Take3 | services/recommendationService.js:210 | `slice(0, 3)` is a prefix of length min(n, 3) |
| Engine.Suggested | services/recommendationService.js:228-232 | one entry per suggestion, titled "<title> (<domain>)", described after the domain, with the suggestion's path |
| Engine.Expand | services/recommendationService.js:227-233 | the `flatMap` callback: an education-stage entry yields nothing; a domain entry yields one entry per suggestion, in order, titled "<suggestion title> (<domain>)", described "Recommended from your <domain> alignment." and carrying the suggestion's path |
| Engine.Render | services/recommendationService.js:227-233 | the `flatMap`: every flattened entry has a title ending in ')' (which entry it comes from: `Engine.RenderMember`) |
| Engine.RenderMember | services/recommendationService.js:227-233 | every flattened entry comes from the suggestions of some working-list entry |
| Engine.SortedSound | services/recommendationService.js:181-216 | every entry of the ranked working list is the entry of a catalogue domain scoring above 2 |
| Engine.RenderedSound | services/recommendationService.js:181-233 | every flattened entry is a rendered suggestion of a catalogue domain scoring above 2 |
| Engine.MatchesAbove | services/recommendationService.js:206 | every pushed domain scored above 2 |
| Engine.MatchesInSound | services/recommendationService.js:181-213 | every pushed entry is the match of some catalogue domain that scored above 2 |
| Engine.MatchesOfDomain | services/recommendationService.js:181-213 | a domain is pushed once when it scores above 2 and otherwise not at all |
| Engine.SortOfDomain | services/recommendationService.js:216 | sorting neither drops nor duplicates any domain's entry |
| Engine.RenderStaged | services/recommendationService.js:227-233 | education-stage entries flatten to nothing |
| Engine.RenderOfDesc | services/recommendationService.js:227-233 | one domain's entries in the flattened list are the flattening of that domain's working-list entry |
| Engine.DescriptionInjective | services/recommendationService.js:230 | the description names its domain unambiguously |
| Engine.AssembleFallback | services/recommendationService.js:218-224 | the fallback alone comes back exactly when nothing was pushed |
| Engine.AssembleEmpty | services/recommendationService.js:218-258 | nothing comes back exactly when a stage entry, no domain and no context entry was pushed |
| Engine.AssembleOfDesc | services/recommendationService.js:216-233 | one domain's share of the output is the flattening of its working-list entry |
| Engine.FallbackIff | services/recommendationService.js:218-224 | the output is the fallback alone exactly when neither a stage entry nor a domain was pushed |
| Engine.StageEntriesDropped | services/recommendationService.js:131-178 | no education-stage entry ever reaches the output |
| Engine.ContextStage | services/recommendationService.js:235-258 | the context pushes append exactly the context entries whose conditions hold |
| Engine.ContextRecs | services/recommendationService.js:235-258 | the context entries a profile gets: at most three |
| Engine.Assemble | services/recommendationService.js:216-258 | sections C and D: the fallback alone when nothing was pushed, otherwise a list that ends in the context entries |
| Engine.RecommendationsOver | services/recommendationService.js:127-258 | what the engine returns over a catalogue: the fallback alone when neither a stage entry nor a domain was pushed, otherwise a list that ends in the profile's context entries |
| Engine.AssembleSound | services/recommendationService.js:216-258 | every assembled entry is the fallback, a context entry, or a rendered suggestion of a catalogue domain scoring above 2 |
| Engine.ContextEntries | services/recommendationService.js:235-258 | each context entry is pushed exactly when its condition holds |
| Engine.ContextPresence | services/recommendationService.js:235-258 | once something was pushed, each context entry is in the output exactly when its condition holds |
| Engine.OutputEntries | services/recommendationService.js:218-258 | every returned entry is the fallback, one of the three context entries, or one of the rendered suggestions of a catalogue domain that scored above 2; each rendered entry's title ends in a parenthesis |
| Engine.EmptyOutputIff | services/recommendationService.js:131-258 | the output is empty exactly when a stage entry was pushed, no domain qualified and no context condition holds |
| Engine.DomainEntriesInOutput | services/recommendationService.js:206-233 | a domain's entries are in the output exactly when it scores above 2, and they are its first three suggestions, rendered |
| Engine.MatchesOfPair | services/recommendationService.js:181-213 | of two distinct domains `ds[i]`, `ds[j]` with `i < j`, the working list holds `ds[i]`'s entry, then `ds[j]`'s, each exactly when it scores above 2 |
| Engine.SortOfPair | services/recommendationService.js:216 | picking two domains' entries out of the ranked list is ranking the picked entries |
| Engine.RenderOfPair | services/recommendationService.js:227-233 | two domains' entries in the flattened list are the flattening of their working-list entries, in the same order |
| Engine.RankedOutput | services/recommendationService.js:206-233 | of two qualifying domains, the returned list holds all suggestions of the one with the higher score (or, on equal scores, the earlier one in the catalogue), then all of the other's |
| Engine.RankedAheadInOutput | services/recommendationService.js:206-233 | when `ds[i]` scores above a qualifying `ds[j]`, or equally and earlier in the catalogue, every returned entry rendered from `ds[i]` sits at a lower position than every entry rendered from `ds[j]` |
| Engine.SingleDomainOutput | services/recommendationService.js:206-258 | when exactly one domain qualifies, the output is its rendered suggestions followed by the context entries |
| Engine.Recommend | services/recommendationService.js:129-260 | the imperative body returns exactly the specified output for the given catalogue |
| Engine.GenerateRecommendations | services/recommendationService.js:127-261 | the method returns exactly the specified output of the normalised profile over the knowledge base |
| Engine.KnowledgeBaseShape | services/recommendationService.js:45-113 | the knowledge base has distinct names and every domain has suggestions |
| Engine.SilentFallback | services/recommendationService.js:218-224 | a profile without signals, education level or personality gets the fallback alone |
| Engine.EmptyFormFallback | services/recommendationService.js:127-224 | an empty form gets the fallback alone |
| Engine.MoreSignalsKeepDomain | services/recommendationService.js:181-233 | adding signals never removes a recommended domain |
| Engine.PythonSqlIntrovert | services/recommendationService.js:127-261 | a 12th-grade science introvert with Python and SQL gets exactly Technology's three suggestions and the portfolio entry |
| Engine.ScenarioStage | services/recommendationService.js:140-147 | a 12th-grade science profile pushes the science-stream entry alone |
| Engine.ScenarioMatches | services/recommendationService.js:181-213 | only Technology qualifies for that profile |
| CareerCounselor.GetCareerRecommendations | services/careerCounselor.js:3-45 | the method returns exactly the catalogue careers whose rule fires, or the fallback career |
| CareerCounselor.Firing | services/careerCounselor.js:9-35 | the rule filter over a list of careers: no longer than the list, every kept career taken from it (`FiringMembers` says which are kept) |
| CareerCounselor.CareersFor | services/careerCounselor.js:9-45 | what the counsellor returns: between one and four careers |
| CareerCounselor.CatalogueFiring | services/careerCounselor.js:9-35 | the rules fire one by one in the fixed order |
| CareerCounselor.FiringMembers | services/careerCounselor.js:9-35 | a career is kept exactly when it is listed and its rule fires |
| CareerCounselor.Presence | services/careerCounselor.js:9-35 | each of the four careers is returned exactly when its own condition holds |
| CareerCounselor.OutputShape | services/careerCounselor.js:9-42 | the result never is empty, holds 1 to 4 careers, in the fixed order, each at most once |
| CareerCounselor.FallbackIff | services/careerCounselor.js:37-42 | the fallback career is returned exactly when no rule fires, and then alone |

## Left out

- JavaScript number coercion: `isNaN` and `Number(v)` on arbitrary strings are not modelled. A numeric field arrives already classified as NaN-like or as a number (`Profile.Numeric`), and `num` maps the first to 0.
- Floating point: numbers are modelled as `real`, so rounding is not captured; the comparisons `>= 4` and `>= 8` are exact.
- Unicode case mapping: `toLowerCase` is modelled on the ASCII letters only. `trim` uses the full ECMAScript whitespace set.
- The load-time loop at services/recommendationService.js:116-122 fills in missing domain lists. The catalogue here already has every list present (an empty one where the source omits it), which is the state that loop leaves behind.
- `recs.sort` is a library call. It is modelled as a pure stable insertion sort, not as an in-place array algorithm.
- A missing profile field in `getCareerRecommendations` (a `TypeError` in the source) is not modelled. The three fields are always lists of strings.
- `CareerCounselor.GetCareerRecommendations`: `includes` is read as array membership. When a field is a string, the source performs a substring search; that reading is not modelled.
- The HTTP server, routes, controllers and page rendering are outside the core; they only collect the form and display the result.
- The catalogue is a parameter of `Engine.Recommend`, `Engine.RecommendationsOver` and most output lemmas; `GenerateRecommendations` and the scenario lemmas fix it to the knowledge base.
