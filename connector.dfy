/** The functions connector/Connector.py offers the front end: predict_salary,
    inverse_salary_search and salary_grid, all scoring with the heuristic scorer.
    The use_mock flag changes nothing; it is only echoed back in the metadata. */
module Connector {
  import opened Results
  import opened Sequences
  import opened Scoring

  // ---------------------------------------------------------------------------
  // predict_salary
  // ---------------------------------------------------------------------------

  /** The reply of predict_salary: status "ok" with the prediction and its metadata, or
      status "error" with the exception's text and no prediction. */
  datatype Prediction =
    | Predicted(salaryUsd: int, source: string, useMockFlag: bool)
    | Failed(error: string)

  function Status(r: Prediction): string {
    if r.Predicted? then "ok" else "error"
  }

  /** `predict_salary(payload, use_mock)`: every exception of the scorer is caught. */
  function PredictSalary(payload: Payload, useMock: bool): (r: Prediction)
    ensures r.Predicted? <==> EstimateSalaryMock(payload).Ok?
    ensures r.Predicted? ==>
              r.salaryUsd == EstimateSalaryMock(payload).value && r.salaryUsd % 100 == 0 &&
              r.source == "mock" && r.useMockFlag == useMock
    ensures r.Failed? ==> r.error == Message(EstimateSalaryMock(payload).error) && |r.error| > 0
  {
    match EstimateSalaryMock(payload)
    case Ok(salary) => Predicted(salary, "mock", useMock)
    case Err(e) => Failed(Message(e))
  }

  /** The flag only shows up in the metadata: the status and the salary do not depend on it. */
  lemma PredictIgnoresFlag(payload: Payload)
    ensures Status(PredictSalary(payload, true)) == Status(PredictSalary(payload, false))
    ensures PredictSalary(payload, true).Predicted? ==>
              PredictSalary(payload, true).salaryUsd == PredictSalary(payload, false).salaryUsd
  {
  }

  /** A benefits_score that is a string fails in float() and comes back as an error. */
  lemma PredictNonNumericBenefits(payload: Payload, s: string, useMock: bool)
    ensures PredictSalary(payload[BenefitsKey := Str(s)], useMock) ==
            Failed("could not convert string to float: " + Repr(s))
  {
    NonNumericBenefitsFails(payload, Str(s));
  }

  // ---------------------------------------------------------------------------
  // inverse_salary_search
  // ---------------------------------------------------------------------------

  /** Allowed values per searched field: the field may be absent, None or a list. */
  type Constraints = map<string, Option<seq<Value>>>

  const DefaultJobTitles: seq<Value> := [
    Str("AI Research Scientist"), Str("AI Software Engineer"), Str("AI Specialist"), Str("NLP Engineer"),
    Str("AI Consultant"), Str("AI Architect"), Str("Principal Data Scientist"), Str("Data Analyst")
  ]
  const DefaultExperience: seq<Value> := [Str("Entry"), Str("Mid"), Str("Senior"), Str("Principal"), Str("Lead")]
  const DefaultCompanySize: seq<Value> := [Str("S"), Str("M"), Str("L"), Str("XL")]
  const DefaultRemoteRatio: seq<Value> := [Whole(0), Whole(50), Whole(100)]

  /** `constraints.get(key) or default`: an absent key, None and the empty list all
      select the default domain. */
  function Resolve(c: Constraints, key: string, default: seq<Value>): (d: seq<Value>)
    ensures (key !in c || c[key] == None || c[key] == Some([])) ==> d == default
    ensures key in c && c[key].Some? && c[key].value != [] ==> d == c[key].value
  {
    if key in c && c[key].Some? && c[key].value != [] then c[key].value else default
  }

  /** The four search domains, in the order product() takes them (lines 138, 155-158). */
  function SearchDomains(constraints: Option<Constraints>): (ds: seq<seq<Value>>)
    ensures |ds| == 4 && forall j :: 0 <= j < 4 ==> ds[j] != []
  {
    var c := if constraints.Some? then constraints.value else map[];
    [Resolve(c, JobTitleKey, DefaultJobTitles), Resolve(c, ExperienceKey, DefaultExperience),
     Resolve(c, SizeKey, DefaultCompanySize), Resolve(c, RemoteKey, DefaultRemoteRatio)]
  }

  /** Lines 164-179: the payload scored for one combination; everything but the four
      searched fields is fixed. */
  function SearchPayload(jobTitle: Value, experience: Value, size: Value, remote: Value): Payload {
    map[
      "employment_type" := Str("FT"), "company_location" := Str("US"),
      "employee_residence" := Str("US"), "industry" := Str("Technology"),
      "years_experience" := Whole(3), "salary_currency" := Str("USD"),
      BenefitsKey := Num(75), SkillsKey := List([Str("Python"), Str("SQL")]), EducationKey := Str("Master"),
      SizeKey := size, RemoteKey := remote, ExperienceKey := experience, JobTitleKey := jobTitle
    ]
  }

  /** One row of the search: the four chosen values, the salary and its distance from the target. */
  datatype Candidate = Candidate(jobTitle: Value, experienceLevel: Value, companySize: Value,
                                 remoteRatio: Value, salaryUsd: int, diffFromTarget: int)

  function Abs(x: int): nat {
    if x < 0 then -x else x
  }

  /** Lines 180-191 for one combination. */
  function Evaluate(target: int, combo: seq<Value>): Result<Candidate, ScoreError>
    requires |combo| == 4
  {
    var salary :- EstimateSalaryMock(SearchPayload(combo[0], combo[1], combo[2], combo[3]));
    Ok(Candidate(combo[0], combo[1], combo[2], combo[3], salary, Abs(salary - target)))
  }

  /** The loop body of lines 160-191 as a function of the combination. */
  function Evaluator(target: int): seq<Value> --> Result<Candidate, ScoreError> {
    (combo: seq<Value>) requires |combo| == 4 => Evaluate(target, combo)
  }

  /** The candidate list the loop of lines 160-191 builds, or the exception it raises. */
  function Candidates(target: int, combos: seq<seq<Value>>): Result<seq<Candidate>, ScoreError>
    requires forall i :: 0 <= i < |combos| ==> |combos[i]| == 4
  {
    TryMap(combos, Evaluator(target))
  }

  /** The sort key `lambda x: x["diff_from_target"]`. */
  function DiffKey(c: Candidate): int {
    c.diffFromTarget
  }

  /** The candidates of a search: one per combination of the resolved domains. */
  function Pool(target: int, constraints: Option<Constraints>): Result<seq<Candidate>, ScoreError> {
    ProductShape(SearchDomains(constraints));
    Candidates(target, Product(SearchDomains(constraints)))
  }

  /** The solutions the search returns: the candidates sorted by distance, truncated. */
  function Solutions(target: int, constraints: Option<Constraints>, topN: int): Result<seq<Candidate>, ScoreError> {
    var candidates :- Pool(target, constraints);
    Ok(Take(SortBy(candidates, DiffKey), topN))
  }

  /** The reply of inverse_salary_search (its status is always "ok"). */
  datatype SearchResponse = SearchResponse(solutions: seq<Candidate>, source: string,
                                           targetSalary: int, useMockFlag: bool)

  /** The body of the loop of lines 160-191, one combination at a time; it computes
      what the function Evaluate specifies. */
  method ScoreCandidate(targetSalary: int, combo: seq<Value>) returns (r: Result<Candidate, ScoreError>)
    requires |combo| == 4
    ensures r == Evaluate(targetSalary, combo)
  {
    var jobTitle, exp, size, rr := combo[0], combo[1], combo[2], combo[3];
    var payload := SearchPayload(jobTitle, exp, size, rr);
    var salary := EstimateSalaryMock(payload);
    if salary.Err? {
      return Err(salary.error);
    }
    var diff := Abs(salary.value - targetSalary);
    return Ok(Candidate(jobTitle, exp, size, rr, salary.value, diff));
  }

  /** The loop of lines 160-191: score every combination in turn, stopping at the first
      exception. */
  method ScoreCombinations(targetSalary: int, combos: seq<seq<Value>>)
    returns (r: Result<seq<Candidate>, ScoreError>)
    requires forall k :: 0 <= k < |combos| ==> |combos[k]| == 4
    ensures r == Candidates(targetSalary, combos)
  {
    ghost var evaluate := Evaluator(targetSalary);
    var candidates: seq<Candidate> := [];
    while |candidates| < |combos|
      invariant |candidates| <= |combos| && Pointwise(combos, evaluate, candidates)
    {
      var next := ScoreCandidate(targetSalary, combos[|candidates|]);
      if next.Err? {
        PointwiseErr(combos, evaluate, candidates);
        return Err(next.error);
      }
      PointwiseStep(combos, evaluate, candidates, next.value);
      candidates := candidates + [next.value];
    }
    PointwiseAll(combos, evaluate, candidates);
    return Ok(candidates);
  }

  /** `inverse_salary_search(target_salary, constraints, use_mock, top_n)`. An exception of
      the scorer is not caught here: it propagates, as `Err`. */
  method InverseSalarySearch(targetSalary: int, constraints: Option<Constraints>, useMock: bool, topN: int)
    returns (r: Result<SearchResponse, ScoreError>)
    ensures r == match Solutions(targetSalary, constraints, topN)
                 case Ok(s) => Ok(SearchResponse(s, "mock", targetSalary, useMock))
                 case Err(e) => Err(e)
  {
    var c := if constraints.Some? then constraints.value else map[];
    var jobTitles := Resolve(c, JobTitleKey, DefaultJobTitles);
    var expLevels := Resolve(c, ExperienceKey, DefaultExperience);
    var companySizes := Resolve(c, SizeKey, DefaultCompanySize);
    var remoteRatios := Resolve(c, RemoteKey, DefaultRemoteRatio);
    ghost var domains := [jobTitles, expLevels, companySizes, remoteRatios];
    assert domains == SearchDomains(constraints);
    var combos := Product([jobTitles, expLevels, companySizes, remoteRatios]);
    ProductShape(domains);

    var candidates :- ScoreCombinations(targetSalary, combos);
    candidates := SortBy(candidates, DiffKey);
    var solutions := Take(candidates, topN);
    return Ok(SearchResponse(solutions, "mock", targetSalary, useMock));
  }

  /** The number of candidates is the product of the four domain sizes. */
  lemma SearchPoolSize(constraints: Option<Constraints>)
    ensures var ds := SearchDomains(constraints);
      |Product(ds)| == |ds[0]| * (|ds[1]| * (|ds[2]| * |ds[3]|))
  {
    var ds := SearchDomains(constraints);
    ProductLength(ds);
    CountOfFour(ds);
  }

  /** Without constraints the domains have 8, 5, 4 and 3 values: 480 candidates. */
  lemma DefaultPoolSize()
    ensures |Product(SearchDomains(None))| == 480
  {
    SearchPoolSize(None);
    DefaultDomains();
  }

  /** The candidates are as many as the combinations, each the scorer's verdict on its
      combination with the distance from the target, in the order product() yields them. */
  lemma CandidatesAt(target: int, combos: seq<seq<Value>>, i: nat)
    requires forall k :: 0 <= k < |combos| ==> |combos[k]| == 4
    requires Candidates(target, combos).Ok? && i < |combos|
    ensures |Candidates(target, combos).value| == |combos|
    ensures Ok(Candidates(target, combos).value[i]) == Evaluate(target, combos[i])
  {
    TryMapOk(combos, Evaluator(target));
  }

  /** What a successful evaluation records: the four values, the scorer's salary for
      them, and the distance of that salary from the target. */
  lemma EvaluateFields(target: int, combo: seq<Value>)
    requires |combo| == 4 && Evaluate(target, combo).Ok?
    ensures var c := Evaluate(target, combo).value;
      [c.jobTitle, c.experienceLevel, c.companySize, c.remoteRatio] == combo &&
      Ok(c.salaryUsd) == EstimateSalaryMock(SearchPayload(combo[0], combo[1], combo[2], combo[3])) &&
      c.diffFromTarget == Abs(c.salaryUsd - target)
  {
  }

  /** The scorer accepts a search payload whose title, level and size are not lists and
      whose remote ratio is a number. */
  lemma EvaluateSucceeds(target: int, combo: seq<Value>)
    requires |combo| == 4 && !combo[0].List? && !combo[1].List? && !combo[2].List? && combo[3].Num?
    ensures Evaluate(target, combo).Ok?
  {
    var p := SearchPayload(combo[0], combo[1], combo[2], combo[3]);
    assert FieldsOf(p) == Fields(combo[0], combo[1], combo[3], Str("Master"), combo[2],
                                 List([Str("Python"), Str("SQL")]), Num(75));
  }

  /** One candidate per combination. */
  lemma PoolLength(target: int, constraints: Option<Constraints>)
    requires Pool(target, constraints).Ok?
    ensures |Pool(target, constraints).value| == |Product(SearchDomains(constraints))|
  {
    var ds := SearchDomains(constraints);
    ProductShape(ds);
    TryMapOk(Product(ds), Evaluator(target));
  }

  /** The search returns min(top_n, pool) rows for a non-negative top_n; a negative top_n
      drops that many rows from the end, as Python's slice does. */
  lemma SearchResultLength(target: int, constraints: Option<Constraints>, topN: int)
    requires Solutions(target, constraints, topN).Ok?
    ensures var pool := |Product(SearchDomains(constraints))|;
      |Solutions(target, constraints, topN).value| == if topN >= 0 then Min(topN, pool) else Max(0, pool + topN)
  {
    var candidates := Pool(target, constraints).value;
    assert Solutions(target, constraints, topN).value == Take(SortBy(candidates, DiffKey), topN);
    TakeSortedLength(candidates, DiffKey, topN);
    PoolLength(target, constraints);
  }

  /** The solutions are the first rows of the candidates stably sorted by distance:
      candidates at the same distance keep their enumeration order. */
  lemma SearchOrdering(target: int, constraints: Option<Constraints>, topN: int)
    requires Pool(target, constraints).Ok?
    ensures Solutions(target, constraints, topN).Ok?
    ensures var candidates := Pool(target, constraints).value;
      var solutions := Solutions(target, constraints, topN).value;
      solutions <= SortBy(candidates, DiffKey) &&
      (forall k :: WithKey(SortBy(candidates, DiffKey), DiffKey, k) == WithKey(candidates, DiffKey, k))
  {
    var candidates := Pool(target, constraints).value;
    forall k ensures WithKey(SortBy(candidates, DiffKey), DiffKey, k) == WithKey(candidates, DiffKey, k) {
      SortByStable(candidates, DiffKey, k);
    }
  }

  /** Every candidate is the evaluation of one of the combinations: the one made of its
      own four values. */
  lemma CandidateOrigin(target: int, combos: seq<seq<Value>>, s: Candidate)
    requires forall k :: 0 <= k < |combos| ==> |combos[k]| == 4
    requires Candidates(target, combos).Ok? && s in Candidates(target, combos).value
    ensures var c := [s.jobTitle, s.experienceLevel, s.companySize, s.remoteRatio];
      c in combos && Evaluate(target, c) == Ok(s)
  {
    TryMapMember(combos, Evaluator(target), s);
    var i :| 0 <= i < |combos| && Evaluator(target)(combos[i]) == Ok(s);
    var c := combos[i];
    assert Evaluate(target, c) == Ok(s);
    EvaluateFields(target, c);
  }

  /** Every solution is one of the candidates. */
  lemma SolutionIsCandidate(target: int, constraints: Option<Constraints>, topN: int, s: Candidate)
    requires Solutions(target, constraints, topN).Ok? && s in Solutions(target, constraints, topN).value
    ensures s in Pool(target, constraints).value
  {
    TakeSortedMembers(Pool(target, constraints).value, DiffKey, topN, s);
  }

  /** A combination of four domains takes its j-th value from the j-th domain. */
  lemma InDomains(ds: seq<seq<Value>>, c: seq<Value>)
    requires |ds| == 4 && c in Product(ds)
    ensures |c| == 4 && c[0] in ds[0] && c[1] in ds[1] && c[2] in ds[2] && c[3] in ds[3]
  {
    ProductMember(ds, c);
  }

  /** Every row takes its four values from the resolved domains (so a one-value
      constraint fixes that field in every row), its salary is the scorer's, and its
      distance is |salary - target|. */
  lemma SolutionsFromDomains(target: int, constraints: Option<Constraints>, topN: int, s: Candidate)
    requires Solutions(target, constraints, topN).Ok? && s in Solutions(target, constraints, topN).value
    ensures var ds := SearchDomains(constraints);
      s.jobTitle in ds[0] && s.experienceLevel in ds[1] && s.companySize in ds[2] && s.remoteRatio in ds[3] &&
      Ok(s.salaryUsd) == EstimateSalaryMock(SearchPayload(s.jobTitle, s.experienceLevel, s.companySize, s.remoteRatio)) &&
      s.diffFromTarget == Abs(s.salaryUsd - target)
  {
    var ds := SearchDomains(constraints);
    ProductShape(ds);
    SolutionIsCandidate(target, constraints, topN, s);
    var c := [s.jobTitle, s.experienceLevel, s.companySize, s.remoteRatio];
    CandidateOrigin(target, Product(ds), s);
    EvaluateFields(target, c);
    InDomains(ds, c);
  }

  /** A combination the scorer accepts: title, level and size are not lists and the remote
      ratio is a number. */
  predicate Scorable(combo: seq<Value>) {
    |combo| == 4 && !combo[0].List? && !combo[1].List? && !combo[2].List? && combo[3].Num?
  }

  /** Scoring succeeds on every combination whose title, level and size are not lists
      and whose remote ratio is a number. */
  lemma CandidatesSucceed(target: int, combos: seq<seq<Value>>)
    requires forall k :: 0 <= k < |combos| ==> |combos[k]| == 4
    requires forall c :: c in combos ==> Scorable(c)
    ensures Candidates(target, combos).Ok?
  {
    forall i | 0 <= i < |combos| ensures Evaluator(target)(combos[i]).Ok? {
      assert combos[i] in combos;
      EvaluateSucceeds(target, combos[i]);
    }
    TryMapOk(combos, Evaluator(target));
  }

  /** The search fails only on a value the scorer cannot handle: when every job title,
      level and size is a string, None or a number and every remote ratio a number, it
      succeeds; in particular it always succeeds without constraints. */
  lemma SearchSucceeds(target: int, constraints: Option<Constraints>, topN: int)
    requires var ds := SearchDomains(constraints);
      (forall v :: v in ds[0] ==> !v.List?) && (forall v :: v in ds[1] ==> !v.List?) &&
      (forall v :: v in ds[2] ==> !v.List?) && (forall v :: v in ds[3] ==> v.Num?)
    ensures Solutions(target, constraints, topN).Ok?
  {
    DomainsSucceed(target, SearchDomains(constraints));
  }

  /** Every combination of four such domains is scorable, so scoring them all succeeds. */
  lemma DomainsSucceed(target: int, ds: seq<seq<Value>>)
    requires |ds| == 4
    requires (forall v :: v in ds[0] ==> !v.List?) && (forall v :: v in ds[1] ==> !v.List?) &&
      (forall v :: v in ds[2] ==> !v.List?) && (forall v :: v in ds[3] ==> v.Num?)
    ensures (ProductShape(ds); Candidates(target, Product(ds)).Ok?)
  {
    ProductShape(ds);
    forall c | c in Product(ds) ensures Scorable(c) {
      InDomains(ds, c);
    }
    CandidatesSucceed(target, Product(ds));
  }

  /** Without constraints the domains are the four default lists. */
  lemma DefaultDomains()
    ensures SearchDomains(None) == [DefaultJobTitles, DefaultExperience, DefaultCompanySize, DefaultRemoteRatio]
  {
  }

  /** A search without constraints always succeeds. */
  lemma NoConstraintsSucceeds(target: int, topN: int)
    ensures Solutions(target, None, topN).Ok?
  {
    DefaultDomains();
    SearchSucceeds(target, None, topN);
  }

  /** The solutions ascend by distance from the target. */
  lemma SolutionsSorted(target: int, constraints: Option<Constraints>, topN: int)
    requires Solutions(target, constraints, topN).Ok?
    ensures SortedBy(Solutions(target, constraints, topN).value, DiffKey)
  {
    TakeSorted(Pool(target, constraints).value, DiffKey, topN);
  }

  /** Without constraints, a search for 150000 returns ten rows in ascending order of
      distance from the target. */
  lemma DefaultSearch()
    ensures Solutions(150_000, None, 10).Ok?
    ensures |Solutions(150_000, None, 10).value| == 10
    ensures SortedBy(Solutions(150_000, None, 10).value, DiffKey)
  {
    NoConstraintsSucceeds(150_000, 10);
    DefaultPoolSize();
    SearchResultLength(150_000, None, 10);
    SolutionsSorted(150_000, None, 10);
  }

  /** The constraints of the example search: Data Analyst, fully on site. */
  const AnalystOnSite: Constraints := map[JobTitleKey := Some([Str("Data Analyst")]), RemoteKey := Some([Whole(0)])]

  lemma AnalystOnSiteDomains()
    ensures SearchDomains(Some(AnalystOnSite)) == [[Str("Data Analyst")], DefaultExperience, DefaultCompanySize, [Whole(0)]]
  {
  }

  /** With job_title fixed to Data Analyst and remote_ratio to 0, the pool has
      1 x 5 x 4 x 1 = 20 candidates. */
  lemma AnalystOnSitePool()
    ensures |Product(SearchDomains(Some(AnalystOnSite)))| == 20
  {
    AnalystOnSiteDomains();
    SearchPoolSize(Some(AnalystOnSite));
  }

  /** Every row of that search is a fully on-site Data Analyst. */
  lemma AnalystOnSiteRow(target: int, topN: int, s: Candidate)
    requires Solutions(target, Some(AnalystOnSite), topN).Ok?
    requires s in Solutions(target, Some(AnalystOnSite), topN).value
    ensures s.jobTitle == Str("Data Analyst") && s.remoteRatio == Whole(0)
  {
    AnalystOnSiteDomains();
    SolutionsFromDomains(target, Some(AnalystOnSite), topN, s);
  }

  /** The example search succeeds, and every row it returns is a fully on-site Data Analyst. */
  lemma ConstrainedSearch(target: int, topN: int)
    ensures Solutions(target, Some(AnalystOnSite), topN).Ok?
    ensures forall s :: s in Solutions(target, Some(AnalystOnSite), topN).value ==>
              s.jobTitle == Str("Data Analyst") && s.remoteRatio == Whole(0)
  {
    AnalystOnSiteDomains();
    SearchSucceeds(target, Some(AnalystOnSite), topN);
    forall s | s in Solutions(target, Some(AnalystOnSite), topN).value
      ensures s.jobTitle == Str("Data Analyst") && s.remoteRatio == Whole(0)
    {
      AnalystOnSiteRow(target, topN, s);
    }
  }

  // ---------------------------------------------------------------------------
  // salary_grid
  // ---------------------------------------------------------------------------

  /** A grid spec: its fields in declaration order, each with its list of values. */
  type GridSpec = seq<(string, seq<Value>)>

  /** A dictionary's keys are distinct. */
  predicate DistinctKeys(spec: GridSpec) {
    forall i, j :: 0 <= i < j < |spec| ==> spec[i].0 != spec[j].0
  }

  /** `list(grid_spec.keys())` */
  function Keys(spec: GridSpec): seq<string>
  {
    seq(|spec|, i requires 0 <= i < |spec| => spec[i].0)
  }

  /** `[grid_spec[k] for k in keys]` */
  function ValueLists(spec: GridSpec): seq<seq<Value>>
  {
    seq(|spec|, i requires 0 <= i < |spec| => spec[i].1)
  }

  /** A copy of `base` with `keys[j]` set to `combo[j]`, one key after the other. */
  function Overlay(base: Payload, keys: seq<string>, combo: seq<Value>): (p: Payload)
    requires |keys| == |combo|
    ensures forall k :: k in keys ==> k in p
    decreases |keys|
  {
    if keys == [] then base
    else Overlay(base, keys[..|keys| - 1], combo[..|combo| - 1])[keys[|keys| - 1] := combo[|combo| - 1]]
  }

  /** One row of the grid: the varying fields with their values, and the salary. */
  datatype GridRow = GridRow(fields: seq<(string, Value)>, salaryUsd: int)

  /** `{k: payload[k] for k in keys}` */
  function RowFields(keys: seq<string>, payload: Payload): seq<(string, Value)>
    requires forall k :: k in keys ==> k in payload
  {
    seq(|keys|, j requires 0 <= j < |keys| => (keys[j], payload[keys[j]]))
  }

  /** Lines 224-231 for one combination. */
  function RowFor(keys: seq<string>, base: Payload, combo: seq<Value>): Result<GridRow, ScoreError>
    requires |keys| == |combo|
  {
    var payload := Overlay(base, keys, combo);
    var salary :- EstimateSalaryMock(payload);
    Ok(GridRow(RowFields(keys, payload), salary))
  }

  /** The loop body of lines 223-231 as a function of the combination. */
  function RowMaker(keys: seq<string>, base: Payload): seq<Value> --> Result<GridRow, ScoreError> {
    (combo: seq<Value>) requires |combo| == |keys| => RowFor(keys, base, combo)
  }

  /** The rows the loop of lines 223-231 builds, or the exception it raises. */
  function GridRows(spec: GridSpec, base: Payload): Result<seq<GridRow>, ScoreError> {
    ProductShape(ValueLists(spec));
    TryMap(Product(ValueLists(spec)), RowMaker(Keys(spec), base))
  }

  /** The reply of salary_grid: status "ok" with rows and metadata, or status "error"
      with the exception's text. */
  datatype GridResponse =
    | GridOk(rows: seq<GridRow>, source: string, useMockFlag: bool, gridSize: nat)
    | GridFailed(error: string)

  /** Lines 224-226: a copy of the base payload with the combination's values put in. */
  method OverlayCombo(base: Payload, keys: seq<string>, combo: seq<Value>) returns (payload: Payload)
    requires |keys| == |combo|
    ensures payload == Overlay(base, keys, combo)
  {
    payload := base;
    var j := 0;
    while j < |keys|
      invariant 0 <= j <= |keys|
      invariant payload == Overlay(base, keys[..j], combo[..j])
    {
      assert keys[..j + 1][..j] == keys[..j] && combo[..j + 1][..j] == combo[..j];
      payload := payload[keys[j] := combo[j]];
      j := j + 1;
    }
    assert keys[..j] == keys && combo[..j] == combo;
  }

  /** The body of the loop of lines 223-231, one combination at a time; it computes
      what the function RowFor specifies. */
  method ScoreRow(keys: seq<string>, base: Payload, combo: seq<Value>) returns (r: Result<GridRow, ScoreError>)
    requires |keys| == |combo|
    ensures r == RowFor(keys, base, combo)
  {
    var payload := OverlayCombo(base, keys, combo);
    var salary := EstimateSalaryMock(payload);
    if salary.Err? {
      return Err(salary.error);
    }
    return Ok(GridRow(RowFields(keys, payload), salary.value));
  }

  /** The loop of lines 223-231: one row per combination, stopping at the first exception. */
  method ScoreGrid(keys: seq<string>, base: Payload, combos: seq<seq<Value>>)
    returns (r: Result<seq<GridRow>, ScoreError>)
    requires forall k :: 0 <= k < |combos| ==> |combos[k]| == |keys|
    ensures r == TryMap(combos, RowMaker(keys, base))
  {
    ghost var row := RowMaker(keys, base);
    var rows: seq<GridRow> := [];
    while |rows| < |combos|
      invariant |rows| <= |combos| && Pointwise(combos, row, rows)
    {
      var next := ScoreRow(keys, base, combos[|rows|]);
      if next.Err? {
        PointwiseErr(combos, row, rows);
        return Err(next.error);
      }
      PointwiseStep(combos, row, rows, next.value);
      rows := rows + [next.value];
    }
    PointwiseAll(combos, row, rows);
    return Ok(rows);
  }

  /** `salary_grid(grid_spec, base_payload, use_mock)`: all or nothing: the first
      exception discards the rows built so far. */
  method SalaryGrid(spec: GridSpec, base: Payload, useMock: bool) returns (r: GridResponse)
    ensures r == match GridRows(spec, base)
                 case Ok(rows) => GridOk(rows, "mock", useMock, |rows|)
                 case Err(e) => GridFailed(Message(e))
  {
    var keys := Keys(spec);
    var valuesLists := ValueLists(spec);
    var combos := Product(valuesLists);
    ProductShape(valuesLists);
    var rows := ScoreGrid(keys, base, combos);
    match rows
    case Ok(rs) => return GridOk(rs, "mock", useMock, |rs|);
    case Err(e) => return GridFailed(Message(e));
  }

  /** Overlaying distinct keys leaves each key with its own value and every other field
      with the base payload's. */
  lemma {:induction false} OverlayAt(base: Payload, keys: seq<string>, combo: seq<Value>)
    requires |keys| == |combo|
    requires forall i, j :: 0 <= i < j < |keys| ==> keys[i] != keys[j]
    ensures forall j :: 0 <= j < |keys| ==> Overlay(base, keys, combo)[keys[j]] == combo[j]
    ensures forall k :: k !in keys ==>
              (k in Overlay(base, keys, combo) <==> k in base) &&
              (k in base ==> Overlay(base, keys, combo)[k] == base[k])
    decreases |keys|
  {
    if keys != [] {
      var n := |keys| - 1;
      OverlayAt(base, keys[..n], combo[..n]);
      forall k | k !in keys ensures k !in keys[..n] && k != keys[n] {
      }
      forall j | 0 <= j < n ensures keys[..n][j] == keys[j] && keys[j] != keys[n] && combo[..n][j] == combo[j] {
      }
    }
  }

  /** A row lists the grid's keys in order, each with the combination's value, and the
      scorer's salary for the base payload with those values put in. */
  lemma RowForFields(keys: seq<string>, base: Payload, combo: seq<Value>)
    requires |keys| == |combo| && forall i, j :: 0 <= i < j < |keys| ==> keys[i] != keys[j]
    requires RowFor(keys, base, combo).Ok?
    ensures var row := RowFor(keys, base, combo).value;
      |row.fields| == |keys| &&
      (forall j :: 0 <= j < |keys| ==> row.fields[j] == (keys[j], combo[j])) &&
      Ok(row.salaryUsd) == EstimateSalaryMock(Overlay(base, keys, combo))
  {
    OverlayAt(base, keys, combo);
  }

  /** One row per combination: the number of rows is the product of the list lengths. */
  lemma GridSize(spec: GridSpec, base: Payload)
    requires GridRows(spec, base).Ok?
    ensures |GridRows(spec, base).value| == Count(ValueLists(spec))
  {
    ProductShape(ValueLists(spec));
    ProductLength(ValueLists(spec));
    TryMapOk(Product(ValueLists(spec)), RowMaker(Keys(spec), base));
  }

  /** A field with no values gives no combinations: the grid is empty, not an error. */
  lemma GridEmptyList(spec: GridSpec, base: Payload, j: nat)
    requires j < |spec| && spec[j].1 == []
    ensures GridRows(spec, base) == Ok([])
  {
    var lists := ValueLists(spec);
    assert |lists| == |spec| && lists[j] == [];
    CountZero(lists);
    ProductLength(ValueLists(spec));
  }

  /** Row i holds the i-th combination in lexicographic order over the declared key order,
      each value under its own key, and the scorer's salary for the base payload with
      those values put in. */
  lemma GridRowAt(spec: GridSpec, base: Payload, i: nat)
    requires DistinctKeys(spec)
    requires GridRows(spec, base).Ok? && i < Count(ValueLists(spec))
    ensures |GridRows(spec, base).value| == Count(ValueLists(spec))
    ensures var row, combo := GridRows(spec, base).value[i], Combination(ValueLists(spec), i);
      |row.fields| == |spec| &&
      (forall j :: 0 <= j < |spec| ==> row.fields[j] == (spec[j].0, combo[j])) &&
      Ok(row.salaryUsd) == EstimateSalaryMock(Overlay(base, Keys(spec), combo))
  {
    var keys, lists := Keys(spec), ValueLists(spec);
    ProductShape(lists);
    ProductLength(lists);
    ProductAt(lists, i);
    RowAt(keys, base, Product(lists), i);
  }

  /** Row i of the walk over a list of combinations is the row of combination i. */
  lemma RowAt(keys: seq<string>, base: Payload, combos: seq<seq<Value>>, i: nat)
    requires forall k :: 0 <= k < |combos| ==> |combos[k]| == |keys|
    requires forall a, b :: 0 <= a < b < |keys| ==> keys[a] != keys[b]
    requires TryMap(combos, RowMaker(keys, base)).Ok? && i < |combos|
    ensures var rows := TryMap(combos, RowMaker(keys, base)).value;
      |rows| == |combos| && |rows[i].fields| == |keys| &&
      (forall j :: 0 <= j < |keys| ==> rows[i].fields[j] == (keys[j], combos[i][j])) &&
      Ok(rows[i].salaryUsd) == EstimateSalaryMock(Overlay(base, keys, combos[i]))
  {
    TryMapOk(combos, RowMaker(keys, base));
    RowForFields(keys, base, combos[i]);
  }


  /** The grid (GridRows is this walk over the product of the value lists) succeeds
      exactly when every combination scores; a failure reports the exception of the
      first combination that fails. */
  lemma RowsFailFirst(keys: seq<string>, base: Payload, combos: seq<seq<Value>>)
    requires forall k :: 0 <= k < |combos| ==> |combos[k]| == |keys|
    ensures TryMap(combos, RowMaker(keys, base)).Ok? <==>
            forall i :: 0 <= i < |combos| ==> EstimateSalaryMock(Overlay(base, keys, combos[i])).Ok?
    ensures TryMap(combos, RowMaker(keys, base)).Err? ==>
              exists i :: 0 <= i < |combos| &&
                EstimateSalaryMock(Overlay(base, keys, combos[i])) == Err(TryMap(combos, RowMaker(keys, base)).error) &&
                forall j :: 0 <= j < i ==> EstimateSalaryMock(Overlay(base, keys, combos[j])).Ok?
  {
    var f := RowMaker(keys, base);
    forall i | 0 <= i < |combos|
      ensures var s := EstimateSalaryMock(Overlay(base, keys, combos[i]));
        f(combos[i]).Ok? == s.Ok? && (s.Err? ==> f(combos[i]) == Err(s.error))
    {
    }
    TryMapOk(combos, f);
    if TryMap(combos, f).Err? {
      TryMapFirstError(combos, f);
      var k :| 0 <= k < |combos| && f(combos[k]) == Err(TryMap(combos, f).error) &&
               forall j :: 0 <= j < k ==> f(combos[j]).Ok?;
      assert EstimateSalaryMock(Overlay(base, keys, combos[k])) == Err(TryMap(combos, f).error);
    }
  }

  /** A grid over one field gives one row per value, in the order given. */
  lemma SingleFieldGrid(key: string, values: seq<Value>, base: Payload, i: nat)
    requires GridRows([(key, values)], base).Ok? && i < |values|
    ensures |GridRows([(key, values)], base).value| == |values|
    ensures GridRows([(key, values)], base).value[i].fields == [(key, values[i])]
  {
    var spec := [(key, values)];
    assert ValueLists(spec) == [values];
    SingleCombination(values, i);
    GridRowAt(spec, base, i);
  }
}
