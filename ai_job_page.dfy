/** The page streamlit/AiJobPage.py: its own positional copy of the heuristic scorer,
    and the "variants" tab, which enumerates the combinations of the chosen values
    itself and scores each one on the page. */
module AiJobPage {
  import opened Results
  import opened Sequences
  import opened Scoring
  import Connector

  // ---------------------------------------------------------------------------
  // The option lists of the page's widgets
  // ---------------------------------------------------------------------------

  const Roles: seq<string> := [
    "AI Research Scientist", "AI Software Engineer", "AI Specialist", "NLP Engineer",
    "AI Consultant", "AI Architect", "Principal Data Scientist", "Data Analyst"
  ]
  const ExperienceLevels: seq<string> := ["Entry", "Mid", "Senior", "Principal", "Lead"]
  const CompanySizes: seq<string> := ["S", "M", "L", "XL"]
  const EducationLevels: seq<string> := ["None", "Bachelor", "Master", "PhD"]
  const Locations: seq<string> := ["US", "PL", "UK", "DE", "FR", "CA", "IN", "Remote"]

  /** The page's lists of levels, education and sizes are exactly the keys of the
      scorer's tables, so every choice the widgets offer can be looked up. */
  lemma OptionsInTables()
    ensures forall x :: x in ExperienceLevels <==> x in ExperienceBoost
    ensures forall x :: x in EducationLevels <==> x in EducationAdjustment
    ensures forall x :: x in CompanySizes <==> x in SizeAdjustment
    ensures forall x :: x in Roles <==> x in BaseSalary
  {
  }

  // ---------------------------------------------------------------------------
  // The positional scorer (lines 95-115)
  // ---------------------------------------------------------------------------

  /** `_estimate_salary_mock(job_title, experience_level, remote_ratio, education_required,
      company_size, required_skills, benefits_score)`, with benefits_score in tenths. The
      job title falls back to 120000, but level, education and size are read with `[]`:
      a value missing from those tables raises, so the caller must pass listed values. */
  function EstimateSalaryPositional(jobTitle: string, experienceLevel: string, remoteRatio: int,
                                    educationRequired: string, companySize: string,
                                    requiredSkills: seq<string>, benefitsTenths: int): (r: int)
    requires experienceLevel in ExperienceBoost && educationRequired in EducationAdjustment
    requires companySize in SizeAdjustment
    ensures r % 100 == 0
  {
    var base := if jobTitle in BaseSalary then BaseSalary[jobTitle] else DefaultBase;
    Estimate(Terms(base, ExperienceBoost[experienceLevel], RemoteAdjustment(10 * remoteRatio),
                   EducationAdjustment[educationRequired], SizeAdjustment[companySize],
                   |requiredSkills|, benefitsTenths))
  }

  /** A list of strings as a payload value. */
  function Strs(xs: seq<string>): seq<Value>
  {
    seq(|xs|, i requires 0 <= i < |xs| => Str(xs[i]))
  }

  /** The dictionary payload carrying the same seven arguments. */
  function PositionalPayload(jobTitle: string, experienceLevel: string, remoteRatio: int,
                             educationRequired: string, companySize: string,
                             requiredSkills: seq<string>, benefitsTenths: int): Payload {
    map[JobTitleKey := Str(jobTitle), ExperienceKey := Str(experienceLevel),
        RemoteKey := Whole(remoteRatio), EducationKey := Str(educationRequired),
        SizeKey := Str(companySize), SkillsKey := List(Strs(requiredSkills)),
        BenefitsKey := Num(benefitsTenths)]
  }

  /** On the values it accepts, the page's scorer gives the connector's salary for the
      same fields. */
  lemma PositionalAgrees(jobTitle: string, experienceLevel: string, remoteRatio: int,
                         educationRequired: string, companySize: string,
                         requiredSkills: seq<string>, benefitsTenths: int)
    requires experienceLevel in ExperienceBoost && educationRequired in EducationAdjustment
    requires companySize in SizeAdjustment
    ensures EstimateSalaryMock(PositionalPayload(jobTitle, experienceLevel, remoteRatio, educationRequired,
                                                 companySize, requiredSkills, benefitsTenths)) ==
            Ok(EstimateSalaryPositional(jobTitle, experienceLevel, remoteRatio, educationRequired,
                                        companySize, requiredSkills, benefitsTenths))
  {
    var p := PositionalPayload(jobTitle, experienceLevel, remoteRatio, educationRequired,
                               companySize, requiredSkills, benefitsTenths);
    assert FieldsOf(p) == Fields(Str(jobTitle), Str(experienceLevel), Whole(remoteRatio),
                                 Str(educationRequired), Str(companySize),
                                 List(Strs(requiredSkills)), Num(benefitsTenths));
  }

  /** A job title missing from the table is paid as an AI Specialist (base 120000). */
  lemma PositionalUnknownTitle(jobTitle: string, experienceLevel: string, remoteRatio: int,
                               educationRequired: string, companySize: string,
                               requiredSkills: seq<string>, benefitsTenths: int)
    requires jobTitle !in BaseSalary
    requires experienceLevel in ExperienceBoost && educationRequired in EducationAdjustment
    requires companySize in SizeAdjustment
    ensures EstimateSalaryPositional(jobTitle, experienceLevel, remoteRatio, educationRequired,
                                     companySize, requiredSkills, benefitsTenths) ==
            EstimateSalaryPositional("AI Specialist", experienceLevel, remoteRatio, educationRequired,
                                     companySize, requiredSkills, benefitsTenths)
  {
  }

  /** The skills adjustment stops at 0.08: past eight skills the salary no longer grows. */
  lemma PositionalSkillsCap(jobTitle: string, experienceLevel: string, remoteRatio: int,
                            educationRequired: string, companySize: string,
                            a: seq<string>, b: seq<string>, benefitsTenths: int)
    requires experienceLevel in ExperienceBoost && educationRequired in EducationAdjustment
    requires companySize in SizeAdjustment
    requires |a| >= 8 && |b| >= 8
    ensures EstimateSalaryPositional(jobTitle, experienceLevel, remoteRatio, educationRequired,
                                     companySize, a, benefitsTenths) ==
            EstimateSalaryPositional(jobTitle, experienceLevel, remoteRatio, educationRequired,
                                     companySize, b, benefitsTenths)
  {
  }

  // ---------------------------------------------------------------------------
  // The remote ratios of the grid (line 315)
  // ---------------------------------------------------------------------------

  /** `list(range(start, stop, 10))` */
  function RangeBy10(start: int, stop: int): seq<int>
    decreases stop - start
  {
    if start >= stop then [] else [start] + RangeBy10(start + 10, stop)
  }

  /** The range is empty exactly when start >= stop; otherwise it starts at start, climbs
      in steps of 10 and stays below stop, and it holds exactly the numbers of
      [start, stop) that are start plus a multiple of 10. */
  lemma {:induction false} RangeBy10Shape(start: int, stop: int)
    ensures var r := RangeBy10(start, stop);
      (r == [] <==> start >= stop) &&
      (r != [] ==> r[0] == start) &&
      (forall i :: 0 <= i < |r| ==> start <= r[i] < stop && r[i] == start + 10 * i) &&
      (forall x :: x in r <==> start <= x < stop && (x - start) % 10 == 0)
    decreases stop - start
  {
    if start < stop {
      RangeBy10Shape(start + 10, stop);
      var r, tail := RangeBy10(start, stop), RangeBy10(start + 10, stop);
      assert r == [start] + tail;
      forall i | 0 <= i < |r| ensures start <= r[i] < stop && r[i] == start + 10 * i {
        if i > 0 {
          assert r[i] == tail[i - 1];
        }
      }
      forall x ensures x in r <==> start <= x < stop && (x - start) % 10 == 0 {
        assert x in r <==> x == start || x in tail;
      }
    }
  }

  /** `list(range(g_remote_min, g_remote_max + 1, 10)) or [50]` */
  function RemoteValues(lo: int, hi: int): seq<int> {
    var r := RangeBy10(lo, hi + 1);
    if r == [] then [50] else r
  }

  /** For lo <= hi the values start at lo, climb in steps of 10 and stay within [lo, hi],
      and they are exactly the numbers of [lo, hi] that are lo plus a multiple of 10; for
      lo > hi the list is [50]. */
  lemma RemoteValuesShape(lo: int, hi: int)
    ensures var r := RemoteValues(lo, hi);
      (lo > hi ==> r == [50]) &&
      (lo <= hi ==>
         r[0] == lo &&
         (forall i :: 0 <= i < |r| ==> lo <= r[i] <= hi) &&
         (forall i :: 0 <= i < |r| - 1 ==> r[i + 1] == r[i] + 10) &&
         (forall x :: x in r <==> lo <= x <= hi && (x - lo) % 10 == 0))
  {
    RangeBy10Shape(lo, hi + 1);
    var r := RangeBy10(lo, hi + 1);
    if lo <= hi {
      forall i | 0 <= i < |r| - 1 ensures r[i + 1] == r[i] + 10 {
      }
    }
  }

  /** The default range 40-80 of the slider gives 40, 50, 60, 70, 80. */
  lemma DefaultRemoteValues()
    ensures RemoteValues(40, 80) == [40, 50, 60, 70, 80]
  {
    assert RangeBy10(80, 81) == [80];
    assert RangeBy10(70, 81) == [70, 80];
    assert RangeBy10(60, 81) == [60, 70, 80];
    assert RangeBy10(50, 81) == [50, 60, 70, 80];
  }

  // ---------------------------------------------------------------------------
  // The grid tab (lines 309-345)
  // ---------------------------------------------------------------------------

  /** `chosen or all`: an empty multiselect stands for every option. */
  function OrAll(chosen: seq<string>, all: seq<string>): (r: seq<string>)
    ensures all != [] ==> r != []
    ensures (forall x :: x in chosen ==> x in all) ==> forall x :: x in r ==> x in all
    ensures chosen == [] ==> r == all
    ensures chosen != [] ==> r == chosen
  {
    if chosen == [] then all else chosen
  }

  /** An element of a combination: the five text fields and the remote ratio have
      different types, so a combination holds a sum of the two. */
  datatype Cell = Text(text: string) | Percent(percent: int)

  function Texts(xs: seq<string>): seq<Cell>
  {
    seq(|xs|, i requires 0 <= i < |xs| => Text(xs[i]))
  }

  function Percents(xs: seq<int>): seq<Cell>
  {
    seq(|xs|, i requires 0 <= i < |xs| => Percent(xs[i]))
  }

  /** The values the grid form submits. The currency selector has one option and is not
      used by the records; it is left out. */
  datatype GridForm = GridForm(
    jobTitles: seq<string>, experience: seq<string>, companySizes: seq<string>,
    locations: seq<string>, education: seq<string>, remoteMin: int, remoteMax: int,
    skills: seq<string>, benefitsTenths: int, years: int, industry: string,
    employment: string, maxRows: int)

  /** A multiselect only returns options it offers. */
  predicate FromOptions(form: GridForm) {
    (forall x :: x in form.experience ==> x in ExperienceLevels) &&
    (forall x :: x in form.education ==> x in EducationLevels) &&
    (forall x :: x in form.companySizes ==> x in CompanySizes)
  }

  /** Lines 309-315: titles, levels, sizes, locations, education and remote ratios, in the
      order product() takes them. */
  function GridDomains(form: GridForm): (ds: seq<seq<Cell>>)
    ensures |ds| == 6 && forall j :: 0 <= j < 6 ==> ds[j] != []
  {
    RemoteValuesShape(form.remoteMin, form.remoteMax);
    [Texts(OrAll(form.jobTitles, Roles)), Texts(OrAll(form.experience, ExperienceLevels)),
     Texts(OrAll(form.companySizes, CompanySizes)), Texts(OrAll(form.locations, Locations)),
     Texts(OrAll(form.education, EducationLevels)), Percents(RemoteValues(form.remoteMin, form.remoteMax))]
  }

  /** Lines 317-320: the combinations, cut to the first max_rows when there are more. */
  function GridCombos(form: GridForm): seq<seq<Cell>> {
    var combos := Product(GridDomains(form));
    if |combos| > form.maxRows then Take(combos, form.maxRows) else combos
  }

  /** One row of the table: the six values of its combination, the form's single-valued
      fields, and the salary (None when the mock is off). */
  datatype GridRecord = GridRecord(
    jobTitle: string, experienceLevel: string, companySize: string, companyLocation: string,
    educationRequired: string, remoteRatio: int, skills: string, benefitsTenths: int,
    employmentType: string, yearsExperience: int, industry: string, salaryUsd: Option<int>)

  /** A combination of five texts followed by a remote ratio. */
  predicate Typed(c: seq<Cell>) {
    |c| == 6 && c[0].Text? && c[1].Text? && c[2].Text? && c[3].Text? && c[4].Text? && c[5].Percent?
  }

  /** A typed combination whose level, size and education the scorer can look up. */
  predicate InTables(c: seq<Cell>) {
    Typed(c) && c[1].text in ExperienceBoost && c[2].text in SizeAdjustment &&
    c[4].text in EducationAdjustment
  }

  /** `", ".join(xs)` */
  function Join(xs: seq<string>, sep: string): string
    decreases |xs|
  {
    if xs == [] then "" else if |xs| == 1 then xs[0] else xs[0] + sep + Join(xs[1..], sep)
  }

  /** Lines 324-344 for one combination. */
  function RecordOf(form: GridForm, mock: bool, c: seq<Cell>): GridRecord
    requires Typed(c) && (mock ==> InTables(c))
  {
    GridRecord(
      c[0].text, c[1].text, c[2].text, c[3].text, c[4].text, c[5].percent,
      Join(form.skills, ", "), form.benefitsTenths, form.employment, form.years, form.industry,
      if mock then Some(EstimateSalaryPositional(c[0].text, c[1].text, c[5].percent, c[4].text,
                                                 c[2].text, form.skills, form.benefitsTenths))
      else None)
  }

  /** The loop of lines 322-344. The five text fields come from the combination being
      visited and the remote ratio from `combos[len(records)]`, which is the same one. */
  method BuildRecords(form: GridForm, mock: bool, combos: seq<seq<Cell>>) returns (records: seq<GridRecord>)
    requires forall k :: 0 <= k < |combos| ==> Typed(combos[k]) && (mock ==> InTables(combos[k]))
    ensures |records| == |combos|
    ensures forall i :: 0 <= i < |combos| ==> records[i] == RecordOf(form, mock, combos[i])
  {
    var skills := Join(form.skills, ", ");
    records := [];
    var k := 0;
    while k < |combos|
      invariant 0 <= k <= |combos| && |records| == k
      invariant forall i :: 0 <= i < k ==> records[i] == RecordOf(form, mock, combos[i])
    {
      var jt, xp, sz, loc, edu := combos[k][0].text, combos[k][1].text, combos[k][2].text,
                                  combos[k][3].text, combos[k][4].text;
      var remote := combos[|records|][5].percent;
      var est: Option<int> := None;
      if mock {
        est := Some(EstimateSalaryPositional(jt, xp, remote, edu, sz, form.skills, form.benefitsTenths));
      }
      records := records + [GridRecord(jt, xp, sz, loc, edu, remote, skills, form.benefitsTenths,
                                       form.employment, form.years, form.industry, est)];
      k := k + 1;
    }
  }

  /** An element of a text domain is that text; one of the remote domain, that ratio. */
  lemma TextsMember(xs: seq<string>, c: Cell)
    requires c in Texts(xs)
    ensures c.Text? && c.text in xs
  {
  }

  lemma PercentsMember(xs: seq<int>, c: Cell)
    requires c in Percents(xs)
    ensures c.Percent? && c.percent in xs
  {
  }

  /** Every combination of the grid is typed, takes its values from the domains, and is
      one the scorer can look up when the form's choices come from the widgets' options. */
  lemma GridCombosTyped(form: GridForm)
    ensures forall c :: c in GridCombos(form) ==> Typed(c)
    ensures FromOptions(form) ==> forall c :: c in GridCombos(form) ==> InTables(c)
  {
    var ds := GridDomains(form);
    var all := Product(ds);
    OptionsInTables();
    forall c | c in GridCombos(form) ensures Typed(c) && (FromOptions(form) ==> InTables(c)) {
      assert c in all;
      ProductMember(ds, c);
      TextsMember(OrAll(form.jobTitles, Roles), c[0]);
      TextsMember(OrAll(form.experience, ExperienceLevels), c[1]);
      TextsMember(OrAll(form.companySizes, CompanySizes), c[2]);
      TextsMember(OrAll(form.locations, Locations), c[3]);
      TextsMember(OrAll(form.education, EducationLevels), c[4]);
      PercentsMember(RemoteValues(form.remoteMin, form.remoteMax), c[5]);
    }
  }

  /** The grid block of lines 309-344: build the combinations, cut them to max_rows, and
      make one record per combination, scored when the mock is on. */
  method GridRecords(form: GridForm, mock: bool) returns (records: seq<GridRecord>)
    requires mock ==> FromOptions(form)
    ensures (GridCombosTyped(form);
      var combos := GridCombos(form);
      |records| == |combos| &&
      forall i :: 0 <= i < |combos| ==> records[i] == RecordOf(form, mock, combos[i]))
  {
    var titles := OrAll(form.jobTitles, Roles);
    var exps := OrAll(form.experience, ExperienceLevels);
    var sizes := OrAll(form.companySizes, CompanySizes);
    var locs := OrAll(form.locations, Locations);
    var edus := OrAll(form.education, EducationLevels);
    var remotes := RemoteValues(form.remoteMin, form.remoteMax);

    var combos := Product([Texts(titles), Texts(exps), Texts(sizes), Texts(locs), Texts(edus), Percents(remotes)]);
    if |combos| > form.maxRows {
      combos := Take(combos, form.maxRows);
    }
    assert combos == GridCombos(form);
    GridCombosTyped(form);
    forall k | 0 <= k < |combos| ensures Typed(combos[k]) && (mock ==> InTables(combos[k])) {
      assert combos[k] in combos;
    }
    records := BuildRecords(form, mock, combos);
  }

  /** The combinations kept are the first min(pool, max_rows) of the product, for the
      limits 1-2000 the form allows. */
  lemma GridCombosPrefix(form: GridForm)
    requires form.maxRows >= 0
    ensures var all := Product(GridDomains(form));
      |GridCombos(form)| == Min(|all|, form.maxRows) && GridCombos(form) == all[..|GridCombos(form)|]
  {
  }

  /** The form as it opens: nothing selected, remote 40-80 and a limit of 200. */
  predicate OpeningForm(form: GridForm) {
    form.jobTitles == [] && form.experience == [] && form.companySizes == [] &&
    form.locations == [] && form.education == [] &&
    form.remoteMin == 40 && form.remoteMax == 80 && form.maxRows == 200
  }

  /** As the form opens, the product has 8 x 5 x 4 x 8 x 4 x 5 = 25600 combinations, of
      which the first 200 are kept. */
  lemma OpeningGrid(form: GridForm)
    requires OpeningForm(form)
    ensures |Product(GridDomains(form))| == 25600 && |GridCombos(form)| == 200
  {
    var ds := GridDomains(form);
    DefaultRemoteValues();
    ProductLength(ds);
    CountOfSix(ds);
    assert |ds[0]| == 8 && |ds[1]| == 5 && |ds[2]| == 4 && |ds[3]| == 8 && |ds[4]| == 4 && |ds[5]| == 5;
  }

  /** A record's salary is there exactly when the mock is on; it is then the page's
      scorer's result for the record's own fields, a multiple of 100, and equal to the
      connector's salary for the same fields. */
  lemma RecordSalary(form: GridForm, mock: bool, c: seq<Cell>)
    requires Typed(c) && (mock ==> InTables(c))
    ensures var r := RecordOf(form, mock, c);
      (r.salaryUsd.Some? <==> mock) &&
      (mock ==>
         r.salaryUsd.value == EstimateSalaryPositional(r.jobTitle, r.experienceLevel, r.remoteRatio,
                                                       r.educationRequired, r.companySize,
                                                       form.skills, form.benefitsTenths) &&
         r.salaryUsd.value % 100 == 0 &&
         EstimateSalaryMock(PositionalPayload(r.jobTitle, r.experienceLevel, r.remoteRatio,
                                              r.educationRequired, r.companySize,
                                              form.skills, form.benefitsTenths)) == Ok(r.salaryUsd.value))
  {
    if mock {
      PositionalAgrees(c[0].text, c[1].text, c[5].percent, c[4].text, c[2].text, form.skills, form.benefitsTenths);
    }
  }

  /** Record i carries the i-th kept combination: its five texts and, as remote_ratio,
      `combos[i][5]`. */
  lemma RecordFields(form: GridForm, mock: bool, c: seq<Cell>)
    requires Typed(c) && (mock ==> InTables(c))
    ensures var r := RecordOf(form, mock, c);
      [Text(r.jobTitle), Text(r.experienceLevel), Text(r.companySize), Text(r.companyLocation),
       Text(r.educationRequired), Percent(r.remoteRatio)] == c
  {
  }

  /** With nothing selected, the titles, levels and sizes are the ones the connector's
      search uses by default. */
  lemma DefaultsAgree()
    ensures Strs(Roles) == Connector.DefaultJobTitles
    ensures Strs(ExperienceLevels) == Connector.DefaultExperience
    ensures Strs(CompanySizes) == Connector.DefaultCompanySize
  {
  }
}
