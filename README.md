# AI salary estimator: a verified model of its scoring core

The repository is a student demo for predicting salaries on the AI job market. A
Streamlit front end calls a connector module. For now the connector scores every
request with a closed-form heuristic, `_estimate_salary_mock`, instead of a trained
model. This project models that heuristic and the four things built on it, and proves
what they promise:

- **The scorer** of connector/Connector.py (`Scoring`). It looks up a base salary per
  job title. It adds fixed adjustments for experience, remote ratio, education,
  company size, skill count (capped at 0.08) and benefits score. It multiplies and
  then rounds to the nearest hundred.
- **`predict_salary`** (`Connector`). It wraps the scorer's result, or the exception
  the scorer raises, into an "ok" or "error" reply.
- **`inverse_salary_search`** (`Connector`). It resolves four search domains and
  scores every combination against a fixed payload. It stable-sorts the candidates by
  their distance from the target salary and keeps the first `top_n`.
- **`salary_grid`** (`Connector`). It overlays each combination of the spec's value
  lists on a copy of the base payload and emits one row per combination. The first
  exception discards the rows built so far.
- **The grid tab of streamlit/AiJobPage.py** (`AiJobPage`). It has the page's own
  positional copy of the scorer. It replaces empty selections by all options, steps
  the remote range by 10 and truncates the six-way product to `max_rows`. It then
  builds one record per combination.

The modules are:

- `results.dfy`: `Option`, `Result`, and `TryMap`, a left-to-right loop that stops at
  the first failure, with its lemmas.
- `sequences.dfy`: `itertools.product` (`Product`, with an independent mixed-radix
  description `Combination`), Python's slice `s[:n]` (`Take`), and a stable sort by an
  integer key (`SortBy`).
- `scoring.dfy`, `connector.dfy` and `ai_job_page.dfy`: the three parts above.

**Arithmetic.**
- The source computes in binary floating point; the model computes exactly.
- A benefits score is held in tenths (8.5 is `Num(85)`). Every adjustment is then a
  whole number of thousandths, and the multiplier is
  `M = 1000 + exp + remote + edu + size + min(10n, 80) + (benefits - 75)` thousandths.
- Every base salary is a whole number of thousands, so `base * (1 + adjustments)` is
  the integer `(base / 1000) * M`.
- `round(x, -2)` is rounding to the nearest hundred with ties to the even hundred.

**Python values.** A payload is a `map<string, Value>`, where a `Value` is None, a
string, a number or a list. The connector's scorer is total in the sense that it
never needs a precondition: on a malformed payload it returns the exception Python
would raise, with the text `str(exc)` gives; a rejected string is quoted as `repr()` quotes it, except for the non-ASCII characters listed under "Left out". The checks happen in Python's own order:
`float(benefits_score)`, the job-title and experience lookups (a list cannot be hashed),
the comparison `remote_ratio >= 80`, the education and company-size lookups, then
`len(required_skills)`.

**Loops.** The search and the grid are imperative in the source. The model has a
method for each loop. Each method is proved equal to a function (`Candidates` and
`Solutions` for the search, `GridRows` for the grid), and the properties are proved
about those functions. The body of each Python loop is a
method of its own:
- `ScoreCandidate` for the search;
- `OverlayCombo` and `ScoreRow` for the grid.

The loop that calls that body is also a method of its own, `ScoreCombinations` and
`ScoreGrid`, so that each proof stays small. `list.sort` and `itertools.product` are
library calls and are modelled as functions.

## Model

| member | source | states |
|---|---|---|
| Scoring.RoundHundred | connector/Connector.py:83 | the result is a multiple of 100 within 50 of the input, and an exact tie goes to the even hundred |
| Scoring.Estimate | connector/Connector.py:82-83 | the estimate from the looked-up terms is always a multiple of 100 |
| Scoring.EstimateSalaryMock | connector/Connector.py:24-83 | every successful estimate is an exact multiple of 100 |
| Scoring.Message | connector/Connector.py:112-116 | the text of every exception the scorer can raise is non-empty; a string that float() rejects is quoted by Repr |
| Scoring.Repr | connector/Connector.py:36 | repr() of the rejected string is enclosed in one quote character at both ends, a double quote exactly when the string holds a single quote and no double quote |
| Scoring.UnescapeChar | connector/Connector.py:36 | each escape repr() writes (a doubled backslash, an escaped quote, `\t`, `\n`, `\r`, `\xhh`) reads back as its character |
| Scoring.UnescapeEscapeAll | connector/Connector.py:36 | the text repr() writes between the quotes reads back as the string, for every string |
| Scoring.ReprRoundTrip | connector/Connector.py:36 | stripping repr()'s quotes and reading the escapes back gives the original string |
| Scoring.ReprPlain | connector/Connector.py:36 | a string without quotes, backslashes or escaped characters is written as itself in single quotes |
| Scoring.EscapePlain | connector/Connector.py:36 | repr() leaves such a string's characters unchanged |
| Scoring.ReprSingleQuote | connector/Connector.py:36 | `it's` is quoted with double quotes, as `"it's"` |
| Scoring.ReprBackslash | connector/Connector.py:36 | a backslash is doubled: `a\b` is written `'a\\b'` |
| Scoring.TypeName | connector/Connector.py:112-116 | definition: the Python type name that the TypeError texts of `str(exc)` contain; Message uses it |
| Scoring.ToFloat | connector/Connector.py:36 | definition: `float(benefits_score)` in tenths, failing on None, a string or a list; NonNumericBenefitsFails states it |
| Scoring.FieldsOf | connector/Connector.py:30-36 | definition: the seven values read with `payload.get` and their defaults; its properties are UpdateField, RemoveField and MissingFieldIsDefault |
| Scoring.Lookup | connector/Connector.py:48-77 | definition: `table.get(v, default)`, where a list cannot be hashed; its properties are TitleFallback, ExperienceFallback, EducationFallback and SizeFallback |
| Scoring.RemoteOf | connector/Connector.py:58-63 | definition: the two comparisons of the remote ratio, failing on a non-number; its properties are RemoteStepTerms, RemoteSteps and RemoteMonotone |
| Scoring.SkillCount | connector/Connector.py:35 | definition: `len(v or [])`; its properties are SkillsTerms, SkillsCap and SkillsBelowCap |
| Scoring.TermsFrom | connector/Connector.py:36-80 | definition: the lookups in Python's evaluation order, stopping at the first exception; its properties are the *Terms lemmas and NonNumericBenefitsFails |
| Scoring.TermsOf | connector/Connector.py:30-80 | definition: the payload's fields read and looked up, or the first exception; EstimateSalaryMock rounds its result and the *Terms lemmas state it |
| Scoring.Multiplier | connector/Connector.py:79-82 | definition: the multiplier in thousandths; its properties are EstimateMonotone, EstimateStrict, SkillsBelowCap and WorkedExample |
| Scoring.Raw | connector/Connector.py:82 | definition: `base * multiplier` as an exact integer; Estimate rounds it and WorkedExample evaluates it |
| Scoring.BaseLookupInRange | connector/Connector.py:38-48 | a looked-up or defaulted base salary lies in [95000, 165000] and is a whole number of thousands |
| Scoring.BaseInRange | connector/Connector.py:48 | the base salary of every successful scoring lies in [95000, 165000] and is a whole number of thousands |
| Scoring.EstimateMonotone | connector/Connector.py:82-83 | with the base fixed, a larger multiplier never gives a smaller estimate |
| Scoring.EstimateStrict | connector/Connector.py:82-83 | with a base of at least 95000, a multiplier larger by 0.05 or more gives a strictly larger estimate |
| Scoring.RoundHundredMonotone | connector/Connector.py:83 | rounding to hundreds preserves order |
| Scoring.RoundHundredStrict | connector/Connector.py:83 | amounts more than 100 apart round to different hundreds |
| Scoring.UpdateField | connector/Connector.py:30-36 | setting one payload key changes the value read for that field, and for no other field |
| Scoring.RemoveField | connector/Connector.py:30-36 | removing a key makes the scorer read that field's default |
| Scoring.EmptyPayload | connector/Connector.py:30-36 | the empty payload scores exactly 120000 (AI Specialist, Mid, remote 0, Bachelor, M, no skills, benefits 7.5) |
| Scoring.MissingFieldIsDefault | connector/Connector.py:30-36 | leaving a field out equals giving its default, and a key the scorer does not read changes nothing |
| Scoring.TitleFallback | connector/Connector.py:48 | an unknown job title gives the same terms as AI Specialist |
| Scoring.UnknownTitleIsDefault | connector/Connector.py:48 | a job title missing from the table (an unknown string, None, a number) is scored with base 120000 |
| Scoring.ExperienceFallback | connector/Connector.py:50-56 | an unknown experience level gives the same terms as Mid |
| Scoring.UnknownExperienceIsMid | connector/Connector.py:50-56 | an unknown experience level contributes 0: it scores as Mid |
| Scoring.EducationFallback | connector/Connector.py:65-70 | an unknown education gives the same terms as Bachelor |
| Scoring.UnknownEducationIsBachelor | connector/Connector.py:65-70 | an unknown education contributes 0: it scores as Bachelor |
| Scoring.SizeFallback | connector/Connector.py:72-77 | an unknown company size gives the same terms as M |
| Scoring.UnknownSizeIsMedium | connector/Connector.py:72-77 | an unknown company size contributes 0: it scores as M |
| Scoring.NonNumericBenefitsFails | connector/Connector.py:36 | a benefits_score that is not a number makes the scorer fail in float(), whatever else the payload holds |
| Scoring.SkillsTerms | connector/Connector.py:79 | skills that len() accepts change the skill count and nothing else |
| Scoring.SkillsCapTerms | connector/Connector.py:79 | on the values read, two skill lists of length 8 or more give the same estimate |
| Scoring.SkillsCap | connector/Connector.py:79 | any two skill lists of length 8 or more give the same estimate |
| Scoring.SkillsBelowCap | connector/Connector.py:79 | below the cap, one more skill adds exactly 0.01 to the multiplier |
| Scoring.RemoteTerms | connector/Connector.py:58-63 | a numeric remote ratio changes the remote adjustment and nothing else |
| Scoring.RemoteStepTerms | connector/Connector.py:58-63 | on the values read, every remote ratio gives the terms of 100, 50 or 0 |
| Scoring.RemoteSteps | connector/Connector.py:58-63 | the remote adjustment is a step function: every ratio scores like 100 (from 80 up), 50 (from 50 to below 80) or 0 |
| Scoring.RemoteMonotone | connector/Connector.py:58-63 | a higher remote ratio never lowers the estimate, and never changes whether scoring succeeds |
| Scoring.ExperienceTerms | connector/Connector.py:50-56 | a level from the table changes the experience boost and nothing else |
| Scoring.ExperienceEstimate | connector/Connector.py:50-56 | a level from the table scores as the Mid payload's terms with that level's boost, and fails exactly when Mid fails |
| Scoring.ExperiencePair | connector/Connector.py:50-83 | two levels whose boosts differ by 0.05 or more score in that order, whatever the rest of the payload |
| Scoring.ExperienceOrdering | connector/Connector.py:50-56 | with all else fixed, Entry < Mid < Senior < Principal strictly, and Lead < Principal |
| Scoring.BenefitsTerms | connector/Connector.py:80 | a numeric benefits score changes the benefits adjustment and nothing else |
| Scoring.BenefitsMonotone | connector/Connector.py:80 | a higher benefits score never lowers the estimate |
| Scoring.WorkedExample | connector/Connector.py:24-83 | AI Architect, Senior, remote 100, PhD, XL, three skills, benefits 8.5: multiplier 1.51, estimate 226500 |
| Connector.PredictSalary | connector/Connector.py:90-116 | the reply is "ok" exactly when the scorer succeeds, with its salary (a multiple of 100), source "mock" and the flag echoed; otherwise "error" with a non-empty message |
| Connector.PredictIgnoresFlag | connector/Connector.py:97-101 | use_mock changes neither the status nor the salary |
| Connector.PredictNonNumericBenefits | connector/Connector.py:112-116 | a string benefits_score gives the error reply "could not convert string to float: " followed by the string's repr() |
| Connector.Resolve | connector/Connector.py:155-158 | an absent key, None or an empty list selects the default list; a non-empty list is used as given |
| Connector.SearchDomains | connector/Connector.py:138-158 | there are four domains, none of them empty |
| Connector.ScoreCandidate | connector/Connector.py:164-191 | one combination's candidate is the scorer's salary with its distance from the target, or the scorer's exception |
| Connector.ScoreCombinations | connector/Connector.py:160-191 | the loop yields exactly `Candidates` over the combinations, or the first exception |
| Connector.InverseSalarySearch | connector/Connector.py:119-205 | the reply holds exactly `Solutions`, source "mock", the target and the flag, or the scorer's exception |
| Connector.SearchPayload | connector/Connector.py:164-179 | definition: the fixed search payload with the four searched values; EvaluateFields and EvaluateSucceeds state how it scores |
| Connector.Evaluate | connector/Connector.py:164-191 | definition: one combination's candidate or the scorer's exception; its properties are EvaluateFields and EvaluateSucceeds |
| Connector.Candidates | connector/Connector.py:160-191 | definition: the candidate list in product order, or the first exception; its properties are PoolLength, CandidatesAt and CandidateOrigin |
| Connector.Pool | connector/Connector.py:155-191 | definition: the candidates over the resolved domains; its properties are SearchPoolSize and SolutionsFromDomains |
| Connector.Solutions | connector/Connector.py:155-195 | definition: the pool stably sorted by distance and sliced to top_n; its properties are SearchOrdering, SolutionsSorted and SearchResultLength |
| Connector.SearchPoolSize | connector/Connector.py:155-163 | the number of candidates is the product of the four domain sizes |
| Connector.DefaultPoolSize | connector/Connector.py:141-153 | without constraints there are 8 x 5 x 4 x 3 = 480 candidates |
| Connector.PoolLength | connector/Connector.py:160-191 | there is one candidate per combination |
| Connector.CandidatesAt | connector/Connector.py:160-191 | candidate i is the evaluation of combination i, in product order |
| Connector.EvaluateFields | connector/Connector.py:180-191 | a candidate records its four values, the scorer's salary for them and the distance of that salary from the target |
| Connector.EvaluateSucceeds | connector/Connector.py:164-180 | the fixed search payload scores whenever title, level and size are not lists and the remote ratio is a number |
| Connector.SearchResultLength | connector/Connector.py:195 | the result has min(top_n, pool) rows for top_n >= 0, and drops -top_n rows from the end otherwise |
| Connector.SearchOrdering | connector/Connector.py:193-195 | the solutions are a prefix of the candidates stably sorted by distance: candidates at the same distance keep their enumeration order |
| Connector.SolutionsSorted | connector/Connector.py:194-195 | the solutions ascend by distance from the target |
| Connector.CandidateOrigin | connector/Connector.py:161-191 | every candidate's values form one of the combinations, its salary is the scorer's and its distance is abs(salary - target) |
| Connector.SolutionIsCandidate | connector/Connector.py:194-195 | every solution is one of the candidates |
| Connector.InDomains | connector/Connector.py:161-163 | a combination takes its j-th value from the j-th domain |
| Connector.SolutionsFromDomains | connector/Connector.py:155-195 | every solution takes its values from the resolved domains, with the scorer's salary and diff_from_target = abs(salary - target) |
| Connector.CandidatesSucceed | connector/Connector.py:160-191 | the loop raises nothing when every combination has non-list title, level and size and a numeric remote ratio |
| Connector.DomainsSucceed | connector/Connector.py:160-191 | scoring every combination of four such domains raises nothing |
| Connector.SearchSucceeds | connector/Connector.py:155-195 | the search itself succeeds under the same condition on the resolved domains |
| Connector.DefaultDomains | connector/Connector.py:141-158 | without constraints the domains are the four default lists |
| Connector.NoConstraintsSucceeds | connector/Connector.py:141-195 | a search without constraints always succeeds, whatever the target and top_n |
| Connector.DefaultSearch | connector/Connector.py:119-205 | without constraints, a search for 150000 returns ten rows, in ascending order of distance |
| Connector.AnalystOnSiteDomains | connector/Connector.py:155-158 | constraining title and remote ratio leaves level and size at their defaults |
| Connector.AnalystOnSitePool | connector/Connector.py:155-163 | fixing Data Analyst and remote 0 gives 1 x 5 x 4 x 1 = 20 candidates |
| Connector.AnalystOnSiteRow | connector/Connector.py:155-195 | every row of that search is a fully on-site Data Analyst |
| Connector.ConstrainedSearch | connector/Connector.py:155-195 | that search succeeds, and every row is a fully on-site Data Analyst |
| Connector.Overlay | connector/Connector.py:224-226 | every grid key is present in the overlaid payload |
| Connector.OverlayCombo | connector/Connector.py:224-226 | the copy-and-overwrite loop builds the overlay of the combination on the base payload |
| Connector.ScoreRow | connector/Connector.py:224-231 | one combination's row is its fields and the scorer's salary, or the scorer's exception |
| Connector.ScoreGrid | connector/Connector.py:223-231 | the loop yields one row per combination in order, or the first exception |
| Connector.SalaryGrid | connector/Connector.py:208-246 | the reply holds the rows of `GridRows`, source "mock", the flag and grid_size = the number of rows; on an exception, "error" with its text and no rows |
| Connector.OverlayAt | connector/Connector.py:224-226 | with distinct keys, each key holds its combination value and every other key is present exactly when the base payload has it, with the base payload's value |
| Connector.RowForFields | connector/Connector.py:229-230 | a row lists the keys in order, each with its combination value, and the scorer's salary for the overlaid payload |
| Connector.RowFields | connector/Connector.py:229 | definition: the grid keys, in order, with the overlaid payload's values; RowForFields states them |
| Connector.RowFor | connector/Connector.py:224-231 | definition: one combination's row or the scorer's exception; its properties are RowForFields and RowAt |
| Connector.GridRows | connector/Connector.py:218-231 | definition: the rows over the product of the value lists, or the first exception; its properties are GridSize, GridEmptyList, GridRowAt and RowsFailFirst |
| Connector.GridSize | connector/Connector.py:223-239 | the number of rows is the product of the value-list lengths |
| Connector.GridEmptyList | connector/Connector.py:219-223 | a field with no values gives zero rows, not an error |
| Connector.GridRowAt | connector/Connector.py:223-231 | row i holds the i-th combination in mixed-radix order over the declared keys, and the scorer's salary for it |
| Connector.RowAt | connector/Connector.py:223-231 | row i of the loop over any list of combinations lists the keys with combination i's values, and the scorer's salary for it |
| Connector.RowsFailFirst | connector/Connector.py:217-246 | the grid loop succeeds exactly when every combination scores, and a failure reports the first failing combination's exception |
| Connector.SingleFieldGrid | connector/Connector.py:218-231 | a one-field grid gives one row per value, in the given order |
| Sequences.Product | connector/Connector.py:161-163 | definition: `itertools.product`; its properties are ProductLength, ProductAt and ProductMember |
| Sequences.SortBy | connector/Connector.py:194 | definition: `list.sort(key=...)` as a stable insertion sort; its properties are SortBySorted and SortByStable |
| Sequences.Combination | connector/Connector.py:223 | the combination of rank i has one value from each list |
| Sequences.ProductLength | connector/Connector.py:161-163 | itertools.product yields as many combinations as the product of the list lengths |
| Sequences.ProductAt | connector/Connector.py:161-163 | the i-th combination of the product is the mixed-radix Combination of rank i |
| Sequences.ProductMember | connector/Connector.py:161-163 | a sequence is a combination exactly when it takes its j-th element from the j-th list |
| Sequences.CountZero | connector/Connector.py:223 | an empty list among the factors makes the product empty |
| Sequences.Take | connector/Connector.py:195 | `s[:n]` is a prefix of length min(n, len) for n >= 0, and drops -n elements otherwise |
| Sequences.InsertByPermutes | connector/Connector.py:194 | inserting into the sorted list adds exactly the one element |
| Sequences.SortBySorted | connector/Connector.py:194 | the sort yields a list ordered by the key that is a permutation of the input |
| Sequences.SortByStable | connector/Connector.py:194 | elements with equal keys stay in their input order |
| Sequences.TakeSortedLength | connector/Connector.py:194-195 | sorting and then slicing keeps as many elements as the slice keeps of the input |
| Sequences.TakeSorted | connector/Connector.py:194-195 | the first n of the sorted list are in order of their keys |
| Sequences.TakeSortedMembers | connector/Connector.py:194-195 | each of the first n of the sorted list comes from the input |
| Results.TryMap | connector/Connector.py:223-231 | definition: a loop over a list that stops at the first exception; its properties are TryMapOk and TryMapFirstError |
| Results.TryMapOk | connector/Connector.py:160-191 | a loop that raises on the first failure succeeds exactly when every element does, and then result i is element i's |
| Results.TryMapFirstError | connector/Connector.py:223-246 | a failed loop reports the failure of the first failing element |
| AiJobPage.OptionsInTables | streamlit/AiJobPage.py:30-43 | the page's lists of levels, education, sizes and titles are exactly the scorer's table keys |
| AiJobPage.EstimateSalaryPositional | streamlit/AiJobPage.py:95-115 | the positional scorer's result is a multiple of 100, on the listed levels, education and sizes it requires |
| AiJobPage.PositionalAgrees | streamlit/AiJobPage.py:95-115 | on the values it accepts, it gives the connector scorer's salary for the same fields |
| AiJobPage.PositionalUnknownTitle | streamlit/AiJobPage.py:98-107 | an unknown title falls back to base 120000, the AI Specialist's |
| AiJobPage.PositionalSkillsCap | streamlit/AiJobPage.py:112 | past eight skills the salary no longer grows |
| AiJobPage.RangeBy10 | streamlit/AiJobPage.py:315 | definition: `range(start, stop, 10)`; RangeBy10Shape states its contents |
| AiJobPage.RemoteValues | streamlit/AiJobPage.py:315 | definition: the range of remote ratios, or [50] when it is empty; RemoteValuesShape states its contents |
| AiJobPage.RangeBy10Shape | streamlit/AiJobPage.py:315 | `range(start, stop, 10)` is empty exactly when start >= stop, else starts at start, steps by 10, and holds exactly start plus multiples of 10 below stop |
| AiJobPage.RemoteValuesShape | streamlit/AiJobPage.py:315 | for min <= max the remotes start at min, step by 10, lie in [min, max] and are exactly those values; an empty range gives [50] |
| AiJobPage.DefaultRemoteValues | streamlit/AiJobPage.py:295-315 | the slider's default 40-80 gives 40, 50, 60, 70, 80 |
| AiJobPage.OrAll | streamlit/AiJobPage.py:309-313 | an empty selection becomes the full option list and a non-empty one is kept as chosen, so no domain is empty, and a selection from the options stays within them |
| AiJobPage.GridDomains | streamlit/AiJobPage.py:309-315 | six domains, none of them empty |
| AiJobPage.GridCombos | streamlit/AiJobPage.py:317-320 | definition: the six-way product cut to max_rows; its properties are GridCombosPrefix, GridCombosTyped and OpeningGrid |
| AiJobPage.Join | streamlit/AiJobPage.py:338 | definition: `", ".join(g_skills)`, held in each record |
| AiJobPage.RecordOf | streamlit/AiJobPage.py:323-344 | definition: the record of one combination; its properties are RecordFields and RecordSalary |
| AiJobPage.BuildRecords | streamlit/AiJobPage.py:322-344 | one record per combination, in order, record i built from combination i (its remote from combos[len(records)]) |
| AiJobPage.GridCombosTyped | streamlit/AiJobPage.py:317 | every combination is five texts and a remote ratio from the domains, and can be scored when the selections come from the widgets |
| AiJobPage.GridRecords | streamlit/AiJobPage.py:309-344 | the records are exactly one per kept combination, in order, each the record of its combination |
| AiJobPage.GridCombosPrefix | streamlit/AiJobPage.py:317-320 | the kept combinations are the first min(pool, max_rows) of the six-way product |
| AiJobPage.OpeningGrid | streamlit/AiJobPage.py:289-320 | as the form opens, the product has 8 x 5 x 4 x 8 x 4 x 5 = 25600 combinations and the first 200 are kept |
| AiJobPage.RecordSalary | streamlit/AiJobPage.py:327-330 | a record has a salary exactly when the mock is on; it is then the page scorer's result, a multiple of 100, and the connector's salary for the same fields |
| AiJobPage.RecordFields | streamlit/AiJobPage.py:322-338 | record i's five texts and remote_ratio are combination i's six values |
| AiJobPage.DefaultsAgree | streamlit/AiJobPage.py:30-43 | with nothing selected, the page's titles, levels and sizes are the connector search's default lists |

## Left out

- The Streamlit user interface: pages, tabs, forms, CSS, tables, warnings (`st.warning` at streamlit/AiJobPage.py:319), the prediction and inverse tabs, and app.py. This is rendering only.
- The canned example rows of the inverse tab (streamlit/AiJobPage.py:231-277). They are fixed display data, not a search.
- The training, cleaning and analysis scripts (Train.py, Czysczenie.py, Wstepna_analiza.py, data_processing.py). They are file I/O, pandas, plotting and AutoGluon training, all foreign libraries. Czysczenie.py's remote-ratio snapping is not part of this model.
- A trained model behind `use_mock = False`: the source has none, and the flag is only echoed back.
- Floating point. Every estimate is computed exactly, so the binary-float rounding of `round(x, -2)` near a tie is not reproduced.
- Numbers with more than one decimal digit. Every number is held in tenths, which is what the page's sliders (step 0.1 and 5) and the source's literals produce.
- Scoring.ToFloat: `float()` of a numeric string such as "8.5" is modelled as a conversion error, like every other string.
- Scoring.Message: repr() is modelled for the quote choice, backslashes, quotes, tab, newline, carriage return and the characters it writes as `\xhh` (the C0 controls, DEL, U+0080 to U+00A0 and U+00AD). Other characters Unicode does not class as printable (U+2028, unassigned code points and the like) are written as they are, where repr() escapes them as `\uXXXX` or `\UXXXXXXXX`.
- Connector.InverseSalarySearch: the target salary is a whole number of dollars; a fractional target would make diff_from_target fractional.
- Scoring.TypeName: `int` and `float` are told apart by whether the number is whole, so `7.0` prints as `int` in an error message.
- Connector.RowFields: a grid key named `salary_usd` would be overwritten by the salary at Connector.py:230. The model keeps the fields and the salary apart.
- AiJobPage.EstimateSalaryPositional: the KeyError the page's scorer raises for an unknown level, education or size is a precondition, not an error value. The widgets only offer values from the tables (AiJobPage.OptionsInTables).
- The currency selector of the grid form: it has one option ("USD") and does not reach the records.
- Python's aliasing of lists and dictionaries. Payloads and lists are values here, so `dict(base_payload)` needs no copy and the base payload is never changed by the grid.
