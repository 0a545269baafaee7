/** The heuristic salary scorer `_estimate_salary_mock` of connector/Connector.py.

    The source computes in binary floating point; this model computes exactly. Every
    adjustment is a whole number of thousandths once benefits_score is taken in tenths,
    and every base salary is a whole number of thousands, so the unrounded salary
    `base * (1 + adjustments)` is the integer `(base / 1000) * M`, where M is the
    multiplier in thousandths. Rounding to the nearest hundred breaks ties to even. */
module Scoring {
  import opened Results

  /** A payload value as Python code may pass it: None, a string, a number or a list.
      Numbers are exact decimals with one fractional digit, held in tenths (8.5 is Num(85)). */
  datatype Value = Nil | Str(s: string) | Num(tenths: int) | List(items: seq<Value>)

  /** A request payload: a dictionary from field names to values. */
  type Payload = map<string, Value>

  /** The whole number n as a payload value. */
  function Whole(n: int): Value {
    Num(10 * n)
  }

  const JobTitleKey := "job_title"
  const ExperienceKey := "experience_level"
  const RemoteKey := "remote_ratio"
  const EducationKey := "education_required"
  const SizeKey := "company_size"
  const SkillsKey := "required_skills"
  const BenefitsKey := "benefits_score"

  /** Base salary per job title, in dollars. */
  const BaseSalary: map<string, int> := map[
    "AI Research Scientist" := 155_000,
    "AI Software Engineer" := 135_000,
    "AI Specialist" := 120_000,
    "NLP Engineer" := 140_000,
    "AI Consultant" := 125_000,
    "AI Architect" := 150_000,
    "Principal Data Scientist" := 165_000,
    "Data Analyst" := 95_000
  ]

  /** The base salary of a title missing from the table. */
  const DefaultBase := 120_000

  /** Experience boost, in thousandths. */
  const ExperienceBoost: map<string, int> := map[
    "Entry" := -150, "Mid" := 0, "Senior" := 250, "Principal" := 450, "Lead" := 400
  ]

  /** Education adjustment, in thousandths. */
  const EducationAdjustment: map<string, int> := map[
    "None" := -50, "Bachelor" := 0, "Master" := 50, "PhD" := 120
  ]

  /** Company size adjustment, in thousandths. */
  const SizeAdjustment: map<string, int> := map[
    "S" := -30, "M" := 0, "L" := 30, "XL" := 50
  ]

  /** The exceptions the scorer can raise on a malformed payload. */
  datatype ScoreError =
    | NotAFloat(value: Value)      // float(benefits_score) on None, a string or a list
    | Unhashable                   // a list used as a dictionary key
    | NotComparable(value: Value)  // remote_ratio >= 80 on a value that is not a number
    | NoLength(value: Value)       // len(required_skills) on a non-zero number

  function TypeName(v: Value): string {
    match v
    case Nil => "NoneType"
    case Str(_) => "str"
    case Num(t) => if t % 10 == 0 then "int" else "float"
    case List(_) => "list"
  }

  // ---------------------------------------------------------------------------
  // repr() of a string, as float()'s error message quotes it
  // ---------------------------------------------------------------------------

  /** The lowercase hexadecimal digit of a value below 16. */
  function HexDigit(k: int): char
    requires 0 <= k < 16
  {
    if k < 10 then ('0' as int + k) as char else ('a' as int + k - 10) as char
  }

  /** The value of a lowercase hexadecimal digit; other characters read as 0. */
  function HexValue(d: char): int {
    if '0' <= d <= '9' then d as int - '0' as int
    else if 'a' <= d <= 'f' then d as int - 'a' as int + 10
    else 0
  }

  /** The characters repr() writes as `\xhh`: the C0 controls (tab, newline and carriage
      return have their own escapes), DEL, the C1 controls, the no-break space and the
      soft hyphen. */
  predicate HexEscaped(c: char) {
    c as int < 0x20 || 0x7f <= c as int <= 0xa0 || c as int == 0xad
  }

  /** How repr() writes one character of a string it encloses in `quote`. */
  function EscapeChar(c: char, quote: char): string {
    if c == '\\' || c == quote then ['\\', c]
    else if c == '\t' then "\\t"
    else if c == '\n' then "\\n"
    else if c == '\r' then "\\r"
    else if HexEscaped(c) then ['\\', 'x', HexDigit(c as int / 16), HexDigit(c as int % 16)]
    else [c]
  }

  /** The characters of a string as repr() writes them between the quotes. */
  function EscapeAll(s: string, quote: char): string {
    if s == [] then [] else EscapeChar(s[0], quote) + EscapeAll(s[1..], quote)
  }

  /** repr() encloses a string in single quotes, unless it holds a single quote and no
      double quote. */
  function QuoteFor(s: string): char {
    if '\'' in s && '"' !in s then '"' else '\''
  }

  /** `repr(s)` for a str. */
  function Repr(s: string): (r: string)
    ensures |r| >= 2 && r[0] == r[|r| - 1] == QuoteFor(s)
    ensures r[0] == '"' <==> '\'' in s && '"' !in s
  {
    [QuoteFor(s)] + EscapeAll(s, QuoteFor(s)) + [QuoteFor(s)]
  }

  /** Reading back the characters between the quotes, as a Python string literal does. */
  function Unescape(t: string): string
    decreases |t|
  {
    if t == [] then []
    else if t[0] == '\\' && |t| >= 4 && t[1] == 'x' then
      [(16 * HexValue(t[2]) + HexValue(t[3])) as char] + Unescape(t[4..])
    else if t[0] == '\\' && |t| >= 2 then
      [if t[1] == 't' then '\t' else if t[1] == 'n' then '\n' else if t[1] == 'r' then '\r' else t[1]]
        + Unescape(t[2..])
    else [t[0]] + Unescape(t[1..])
  }

  /** One escaped character reads back as itself, whatever follows it. */
  lemma UnescapeChar(c: char, quote: char, rest: string)
    requires quote == '\'' || quote == '"'
    ensures Unescape(EscapeChar(c, quote) + rest) == [c] + Unescape(rest)
  {
    var t := EscapeChar(c, quote) + rest;
    if c == '\\' || c == quote {
      assert t[0] == '\\' && t[1] == c && t[2..] == rest;
    } else if c == '\t' || c == '\n' || c == '\r' {
      assert t[0] == '\\' && t[2..] == rest;
    } else if HexEscaped(c) {
      var n := c as int;
      assert t[0] == '\\' && t[1] == 'x' && t[2] == HexDigit(n / 16) && t[3] == HexDigit(n % 16);
      assert HexValue(t[2]) == n / 16 && HexValue(t[3]) == n % 16;
      assert t[4..] == rest;
    } else {
      assert t[0] == c && t[1..] == rest;
    }
  }

  /** The characters repr() writes between the quotes read back as the string itself. */
  lemma {:induction false} UnescapeEscapeAll(s: string, quote: char)
    requires quote == '\'' || quote == '"'
    ensures Unescape(EscapeAll(s, quote)) == s
  {
    if s != [] {
      UnescapeEscapeAll(s[1..], quote);
      UnescapeChar(s[0], quote, EscapeAll(s[1..], quote));
      assert s == [s[0]] + s[1..];
    }
  }

  /** The text between repr()'s quotes reads back as the string. */
  lemma ReprRoundTrip(s: string)
    ensures Unescape(Repr(s)[1..|Repr(s)| - 1]) == s
  {
    var q := QuoteFor(s);
    assert Repr(s)[1..|Repr(s)| - 1] == EscapeAll(s, q);
    UnescapeEscapeAll(s, q);
  }

  /** A character repr() writes as it is. */
  predicate PlainChar(c: char) {
    c != '\'' && c != '\\' && c != '\t' && c != '\n' && c != '\r' && !HexEscaped(c)
  }

  /** A string without quotes, backslashes or characters repr() escapes is written in
      single quotes as it is. */
  lemma {:induction false} ReprPlain(s: string)
    requires forall i :: 0 <= i < |s| ==> PlainChar(s[i])
    ensures Repr(s) == "'" + s + "'"
  {
    EscapePlain(s);
  }

  lemma {:induction false} EscapePlain(s: string)
    requires forall i :: 0 <= i < |s| ==> PlainChar(s[i])
    ensures EscapeAll(s, '\'') == s
  {
    if s != [] {
      EscapePlain(s[1..]);
      assert s == [s[0]] + s[1..];
    }
  }

  /** `repr("it's")` is `"it's"`: a single quote inside switches to double quotes. */
  lemma ReprSingleQuote()
    ensures Repr("it's") == "\"it's\""
  {
    assert "it's"[2] == '\'';
    assert QuoteFor("it's") == '"';
    assert EscapeAll("s", '"') == "s";
    assert EscapeAll("'s", '"') == "'s";
    assert EscapeAll("t's", '"') == "t's";
  }

  /** `repr("a\\b")` is `'a\\b'`: a backslash is doubled. */
  lemma ReprBackslash()
    ensures Repr("a\\b") == "'a\\\\b'"
  {
    assert QuoteFor("a\\b") == '\'';
    assert EscapeAll("b", '\'') == "b";
    assert EscapeAll("\\b", '\'') == "\\\\b";
  }

  /** The text `str(exc)` gives for the exception. */
  function Message(e: ScoreError): (m: string)
    ensures |m| > 0
  {
    match e
    case NotAFloat(Str(s)) => "could not convert string to float: " + Repr(s)
    case NotAFloat(v) => "float() argument must be a string or a real number, not '" + TypeName(v) + "'"
    case Unhashable => "unhashable type: 'list'"
    case NotComparable(v) => "'>=' not supported between instances of '" + TypeName(v) + "' and 'int'"
    case NoLength(v) => "object of type '" + TypeName(v) + "' has no len()"
  }

  /** `payload.get(key, default)` */
  function Get(p: Payload, key: string, default: Value): Value {
    if key in p then p[key] else default
  }

  /** `float(v)`, in tenths. */
  function ToFloat(v: Value): Result<int, ScoreError> {
    match v
    case Num(t) => Ok(t)
    case _ => Err(NotAFloat(v))
  }

  /** `table.get(v, default)`: only a string can match a key; a list cannot be hashed. */
  function Lookup(table: map<string, int>, v: Value, default: int): Result<int, ScoreError> {
    match v
    case Str(s) => Ok(if s in table then table[s] else default)
    case List(_) => Err(Unhashable)
    case _ => Ok(default)
  }

  /** The remote adjustment, in thousandths, for a remote ratio given in tenths of a percent. */
  function RemoteAdjustment(tenths: int): int {
    if tenths >= 800 then 50 else if tenths >= 500 then 20 else 0
  }

  /** The comparisons `remote_ratio >= 80` and `remote_ratio >= 50`. */
  function RemoteOf(v: Value): Result<int, ScoreError> {
    match v
    case Num(t) => Ok(RemoteAdjustment(t))
    case _ => Err(NotComparable(v))
  }

  /** `len(v or [])`: None and zero are falsy and count as the empty list; a string
      counts its characters, a list its elements; len() of another number raises. */
  function SkillCount(v: Value): Result<nat, ScoreError> {
    match v
    case Nil => Ok(0)
    case Str(s) => Ok(|s|)
    case List(xs) => Ok(|xs|)
    case Num(t) => if t == 0 then Ok(0) else Err(NoLength(v))
  }

  /** `min(n * 0.01, 0.08)`, in thousandths. */
  function SkillsAdjustment(n: nat): int {
    if 10 * n <= 80 then 10 * n else 80
  }

  /** The looked-up parts of the formula: the base salary in dollars, four adjustments in
      thousandths, the skill count and benefits_score in tenths. */
  datatype Terms = Terms(base: int, experience: int, remote: int, education: int, size: int,
                         skillCount: nat, benefitsTenths: int)

  /** The value a missing field is read as: an AI Specialist at Mid level, fully on
      site, with a Bachelor, at a company of size M, with no skills and benefits 7.5. */
  function DefaultOf(key: string): Value {
    if key == JobTitleKey then Str("AI Specialist")
    else if key == ExperienceKey then Str("Mid")
    else if key == RemoteKey then Whole(0)
    else if key == EducationKey then Str("Bachelor")
    else if key == SizeKey then Str("M")
    else if key == SkillsKey then List([])
    else if key == BenefitsKey then Num(75)
    else Nil
  }

  /** The seven values lines 30-36 read from the payload, defaults filled in. */
  datatype Fields = Fields(jobTitle: Value, experienceLevel: Value, remoteRatio: Value,
                           educationRequired: Value, companySize: Value, requiredSkills: Value,
                           benefitsScore: Value)

  /** Lines 30-36: `payload.get(key, default)` for each of the seven fields. */
  function FieldsOf(p: Payload): Fields
  {
    Fields(Get(p, JobTitleKey, Str("AI Specialist")), Get(p, ExperienceKey, Str("Mid")),
           Get(p, RemoteKey, Whole(0)), Get(p, EducationKey, Str("Bachelor")),
           Get(p, SizeKey, Str("M")), Get(p, SkillsKey, List([])), Get(p, BenefitsKey, Num(75)))
  }

  /** Lines 36-80 on the values read: the lookups in the order Python evaluates them,
      failing at the first step that raises (float() runs first, len() last). */
  function TermsFrom(f: Fields): Result<Terms, ScoreError> {
    var benefits :- ToFloat(f.benefitsScore);
    var base :- Lookup(BaseSalary, f.jobTitle, DefaultBase);
    var experience :- Lookup(ExperienceBoost, f.experienceLevel, 0);
    var remote :- RemoteOf(f.remoteRatio);
    var education :- Lookup(EducationAdjustment, f.educationRequired, 0);
    var size :- Lookup(SizeAdjustment, f.companySize, 0);
    var skills :- SkillCount(f.requiredSkills);
    Ok(Terms(base, experience, remote, education, size, skills, benefits))
  }

  /** Lines 30-80: the terms of the formula for a payload, or the exception raised. */
  function TermsOf(p: Payload): Result<Terms, ScoreError> {
    TermsFrom(FieldsOf(p))
  }

  /** `1 + exp_boost + remote_adj + edu_adj + size_adj + skills_adj + benefits_adj`, in
      thousandths; `(benefits_score - 7.5) * 0.01` is `benefitsTenths - 75` thousandths. */
  function Multiplier(t: Terms): int {
    1000 + t.experience + t.remote + t.education + t.size + SkillsAdjustment(t.skillCount)
      + (t.benefitsTenths - 75)
  }

  /** The unrounded salary, `base * multiplier`. */
  function Raw(t: Terms): int {
    t.base / 1000 * Multiplier(t)
  }

  /** `round(x, -2)`: the nearest multiple of 100, a tie going to the even hundred. */
  function RoundHundred(x: int): (r: int)
    ensures r % 100 == 0
    ensures x - 50 <= r <= x + 50
    ensures (r == x - 50 || r == x + 50) ==> (r / 100) % 2 == 0
  {
    var q, rest := x / 100, x % 100;
    if rest < 50 then q * 100
    else if rest > 50 then (q + 1) * 100
    else if q % 2 == 0 then q * 100
    else (q + 1) * 100
  }

  /** Lines 82-83. */
  function Estimate(t: Terms): (r: int)
    ensures r % 100 == 0
  {
    RoundHundred(Raw(t))
  }

  /** `_estimate_salary_mock(payload)`: the estimate, or the exception it raises. */
  function EstimateSalaryMock(p: Payload): (r: Result<int, ScoreError>)
    ensures r.Ok? ==> r.value % 100 == 0
  {
    var t :- TermsOf(p);
    Ok(Estimate(t))
  }

  // ---------------------------------------------------------------------------
  // Rounding
  // ---------------------------------------------------------------------------

  /** Rounding to hundreds never reverses the order of two amounts. */
  lemma RoundHundredMonotone(a: int, b: int)
    requires a <= b
    ensures RoundHundred(a) <= RoundHundred(b)
  {
  }

  /** Amounts more than 100 apart round to different hundreds. */
  lemma RoundHundredStrict(a: int, b: int)
    requires a + 100 < b
    ensures RoundHundred(a) < RoundHundred(b)
  {
  }

  lemma MulMonotone(k: int, a: int, b: int)
    requires k >= 0 && a <= b
    ensures k * a <= k * b
  {
    assert k * b - k * a == k * (b - a);
  }

  lemma MulAtLeast(k: int, d: int, kMin: int, dMin: int)
    requires 0 <= kMin <= k && 0 <= dMin <= d
    ensures k * d >= kMin * dMin
  {
    MulMonotone(k, dMin, d);
    MulMonotone(dMin, kMin, k);
  }

  // ---------------------------------------------------------------------------
  // The formula
  // ---------------------------------------------------------------------------

  /** Every base salary, looked up or defaulted, lies between the Data Analyst's and the
      Principal Data Scientist's and is a whole number of thousands. */
  lemma BaseLookupInRange(v: Value)
    requires Lookup(BaseSalary, v, DefaultBase).Ok?
    ensures var b := Lookup(BaseSalary, v, DefaultBase).value; 95_000 <= b <= 165_000 && b % 1000 == 0
  {
  }

  /** So the integer raw salary is exactly `base * multiplier`. */
  lemma BaseInRange(f: Fields)
    requires TermsFrom(f).Ok?
    ensures var t := TermsFrom(f).value;
      95_000 <= t.base <= 165_000 && t.base % 1000 == 0
  {
    var t := TermsFrom(f).value;
    BaseLookupInRange(f.jobTitle);
    assert t.base == Lookup(BaseSalary, f.jobTitle, DefaultBase).value;
  }

  /** With the base fixed, a larger multiplier never gives a smaller estimate. */
  lemma EstimateMonotone(t1: Terms, t2: Terms)
    requires t1.base == t2.base && t1.base >= 0
    requires Multiplier(t1) <= Multiplier(t2)
    ensures Estimate(t1) <= Estimate(t2)
  {
    MulMonotone(t1.base / 1000, Multiplier(t1), Multiplier(t2));
    RoundHundredMonotone(Raw(t1), Raw(t2));
  }

  /** With a base of at least 95000, raising the multiplier by 50 thousandths or more
      raises the estimate. */
  lemma EstimateStrict(t1: Terms, t2: Terms)
    requires t1.base == t2.base && t1.base >= 95_000
    requires Multiplier(t1) + 50 <= Multiplier(t2)
    ensures Estimate(t1) < Estimate(t2)
  {
    var k := t1.base / 1000;
    MulAtLeast(k, Multiplier(t2) - Multiplier(t1), 95, 50);
    assert Raw(t2) - Raw(t1) == k * (Multiplier(t2) - Multiplier(t1));
    RoundHundredStrict(Raw(t1), Raw(t2));
  }

  // ---------------------------------------------------------------------------
  // Reading the payload
  // ---------------------------------------------------------------------------

  /** The values read with the one for `key` replaced by `v`, if `key` is one of the
      seven fields; otherwise the values read are unchanged. */
  function WithField(f: Fields, key: string, v: Value): Fields {
    if key == JobTitleKey then f.(jobTitle := v)
    else if key == ExperienceKey then f.(experienceLevel := v)
    else if key == RemoteKey then f.(remoteRatio := v)
    else if key == EducationKey then f.(educationRequired := v)
    else if key == SizeKey then f.(companySize := v)
    else if key == SkillsKey then f.(requiredSkills := v)
    else if key == BenefitsKey then f.(benefitsScore := v)
    else f
  }

  /** Setting a field of the payload changes the value read for it and nothing else. */
  lemma UpdateField(p: Payload, key: string, v: Value)
    ensures FieldsOf(p[key := v]) == WithField(FieldsOf(p), key, v)
  {
    if key == JobTitleKey {
    } else if key == ExperienceKey {
    } else if key == RemoteKey {
    } else if key == EducationKey {
    } else if key == SizeKey {
    } else if key == SkillsKey {
    } else if key == BenefitsKey {
    } else {
    }
  }

  /** Removing a field makes the scorer read its default. */
  lemma RemoveField(p: Payload, key: string)
    ensures FieldsOf(p - {key}) == WithField(FieldsOf(p), key, DefaultOf(key))
  {
    if key == JobTitleKey {
    } else if key == ExperienceKey {
    } else if key == RemoteKey {
    } else if key == EducationKey {
    } else if key == SizeKey {
    } else if key == SkillsKey {
    } else if key == BenefitsKey {
    } else {
    }
  }

  /** The empty payload is an AI Specialist at Mid level, fully on site, with a Bachelor,
      at a company of size M, with no skills and benefits 7.5: 120000 exactly. */
  lemma EmptyPayload()
    ensures EstimateSalaryMock(map[]) == Ok(120_000)
  {
    assert FieldsOf(map[]) == Fields(Str("AI Specialist"), Str("Mid"), Whole(0), Str("Bachelor"), Str("M"), List([]), Num(75));
    var t := TermsOf(map[]).value;
    assert t == Terms(120_000, 0, 0, 0, 0, 0, 75);
    assert Raw(t) == 120_000;
  }

  /** Leaving a field out is the same as giving its default; a field the scorer does not
      read changes nothing at all. */
  lemma MissingFieldIsDefault(p: Payload, key: string)
    ensures EstimateSalaryMock(p - {key}) == EstimateSalaryMock(p[key := DefaultOf(key)])
    ensures DefaultOf(key) == Nil ==> EstimateSalaryMock(p - {key}) == EstimateSalaryMock(p)
  {
    RemoveField(p, key);
    UpdateField(p, key, DefaultOf(key));
  }

  // ---------------------------------------------------------------------------
  // Fallbacks for unknown values
  // ---------------------------------------------------------------------------

  lemma TitleFallback(f: Fields, v: Value)
    requires !v.List? && !(v.Str? && v.s in BaseSalary)
    ensures TermsFrom(f.(jobTitle := v)) == TermsFrom(f.(jobTitle := Str("AI Specialist")))
  {
    assert Lookup(BaseSalary, v, DefaultBase) == Lookup(BaseSalary, Str("AI Specialist"), DefaultBase);
  }

  /** A job title that is not in the table (an unknown string, None or a number) is
      scored with the default base of 120000, the AI Specialist's. */
  lemma UnknownTitleIsDefault(p: Payload, v: Value)
    requires !v.List? && !(v.Str? && v.s in BaseSalary)
    ensures EstimateSalaryMock(p[JobTitleKey := v]) == EstimateSalaryMock(p[JobTitleKey := Str("AI Specialist")])
  {
    UpdateField(p, JobTitleKey, v);
    UpdateField(p, JobTitleKey, Str("AI Specialist"));
    TitleFallback(FieldsOf(p), v);
  }

  lemma ExperienceFallback(f: Fields, v: Value)
    requires !v.List? && !(v.Str? && v.s in ExperienceBoost)
    ensures TermsFrom(f.(experienceLevel := v)) == TermsFrom(f.(experienceLevel := Str("Mid")))
  {
    assert Lookup(ExperienceBoost, v, 0) == Lookup(ExperienceBoost, Str("Mid"), 0);
  }

  /** An unknown experience level adds nothing: it scores as Mid. */
  lemma UnknownExperienceIsMid(p: Payload, v: Value)
    requires !v.List? && !(v.Str? && v.s in ExperienceBoost)
    ensures EstimateSalaryMock(p[ExperienceKey := v]) == EstimateSalaryMock(p[ExperienceKey := Str("Mid")])
  {
    UpdateField(p, ExperienceKey, v);
    UpdateField(p, ExperienceKey, Str("Mid"));
    ExperienceFallback(FieldsOf(p), v);
  }

  lemma EducationFallback(f: Fields, v: Value)
    requires !v.List? && !(v.Str? && v.s in EducationAdjustment)
    ensures TermsFrom(f.(educationRequired := v)) == TermsFrom(f.(educationRequired := Str("Bachelor")))
  {
    assert Lookup(EducationAdjustment, v, 0) == Lookup(EducationAdjustment, Str("Bachelor"), 0);
  }

  /** An unknown education level adds nothing: it scores as Bachelor. */
  lemma UnknownEducationIsBachelor(p: Payload, v: Value)
    requires !v.List? && !(v.Str? && v.s in EducationAdjustment)
    ensures EstimateSalaryMock(p[EducationKey := v]) == EstimateSalaryMock(p[EducationKey := Str("Bachelor")])
  {
    UpdateField(p, EducationKey, v);
    UpdateField(p, EducationKey, Str("Bachelor"));
    EducationFallback(FieldsOf(p), v);
  }

  lemma SizeFallback(f: Fields, v: Value)
    requires !v.List? && !(v.Str? && v.s in SizeAdjustment)
    ensures TermsFrom(f.(companySize := v)) == TermsFrom(f.(companySize := Str("M")))
  {
    assert Lookup(SizeAdjustment, v, 0) == Lookup(SizeAdjustment, Str("M"), 0);
  }

  /** An unknown company size adds nothing: it scores as M. */
  lemma UnknownSizeIsMedium(p: Payload, v: Value)
    requires !v.List? && !(v.Str? && v.s in SizeAdjustment)
    ensures EstimateSalaryMock(p[SizeKey := v]) == EstimateSalaryMock(p[SizeKey := Str("M")])
  {
    UpdateField(p, SizeKey, v);
    UpdateField(p, SizeKey, Str("M"));
    SizeFallback(FieldsOf(p), v);
  }

  /** float() fails on anything but a number, and it runs before any other step, so a
      payload whose benefits_score is not a number always fails with that error. */
  lemma NonNumericBenefitsFails(p: Payload, v: Value)
    requires !v.Num?
    ensures EstimateSalaryMock(p[BenefitsKey := v]) == Err(NotAFloat(v))
  {
    UpdateField(p, BenefitsKey, v);
  }

  // ---------------------------------------------------------------------------
  // Skills, remote ratio, experience and benefits
  // ---------------------------------------------------------------------------

  /** Skills that len() accepts change the skill count and nothing else. */
  lemma SkillsTerms(f: Fields, v: Value)
    requires SkillCount(v).Ok?
    ensures var a, b := TermsFrom(f.(requiredSkills := v)), TermsFrom(f.(requiredSkills := List([])));
      a.Ok? == b.Ok? && (a.Ok? ==> a.value == b.value.(skillCount := SkillCount(v).value))
  {
  }

  /** Setting the skills changes that field alone. */
  lemma SetSkills(p: Payload, v: Value)
    ensures TermsOf(p[SkillsKey := v]) == TermsFrom(FieldsOf(p).(requiredSkills := v))
  {
    UpdateField(p, SkillsKey, v);
  }

  /** On the values read: two lists of eight skills or more score alike. */
  lemma SkillsCapTerms(f: Fields, a: seq<Value>, b: seq<Value>)
    requires |a| >= 8 && |b| >= 8
    ensures var ta, tb := TermsFrom(f.(requiredSkills := List(a))), TermsFrom(f.(requiredSkills := List(b)));
      ta.Ok? == tb.Ok? && (ta.Ok? ==> Estimate(ta.value) == Estimate(tb.value))
  {
    SkillsTerms(f, List(a));
    SkillsTerms(f, List(b));
    var ta, tb := TermsFrom(f.(requiredSkills := List(a))), TermsFrom(f.(requiredSkills := List(b)));
    if ta.Ok? {
      assert Multiplier(ta.value) == Multiplier(tb.value);
      assert Raw(ta.value) == Raw(tb.value);
    }
  }

  /** Skills beyond the eighth add nothing: any two lists of eight or more skills give
      the same estimate. */
  lemma SkillsCap(p: Payload, a: seq<Value>, b: seq<Value>)
    requires |a| >= 8 && |b| >= 8
    ensures EstimateSalaryMock(p[SkillsKey := List(a)]) == EstimateSalaryMock(p[SkillsKey := List(b)])
  {
    SetSkills(p, List(a));
    SetSkills(p, List(b));
    SkillsCapTerms(FieldsOf(p), a, b);
  }

  /** Up to the cap, every skill adds 0.01. */
  lemma SkillsBelowCap(p: Payload, a: seq<Value>, x: Value)
    requires |a| < 8
    ensures var t1, t2 := TermsOf(p[SkillsKey := List(a)]), TermsOf(p[SkillsKey := List(a + [x])]);
      t1.Ok? == t2.Ok? && (t1.Ok? ==> Multiplier(t2.value) == Multiplier(t1.value) + 10)
  {
    SetSkills(p, List(a));
    SetSkills(p, List(a + [x]));
    SkillsTerms(FieldsOf(p), List(a));
    SkillsTerms(FieldsOf(p), List(a + [x]));
  }


  /** A numeric remote ratio changes the remote adjustment and nothing else. */
  lemma RemoteTerms(f: Fields, tenths: int)
    ensures var a, b := TermsFrom(f.(remoteRatio := Num(tenths))), TermsFrom(f.(remoteRatio := Num(0)));
      a.Ok? == b.Ok? && (a.Ok? ==> a.value == b.value.(remote := RemoteAdjustment(tenths)))
  {
  }

  /** Setting the remote ratio changes that field alone. */
  lemma SetRemote(p: Payload, v: Value)
    ensures TermsOf(p[RemoteKey := v]) == TermsFrom(FieldsOf(p).(remoteRatio := v))
  {
    UpdateField(p, RemoteKey, v);
  }

  /** On the values read: a ratio scores as the bottom of its step. */
  lemma RemoteStepTerms(f: Fields, tenths: int)
    ensures TermsFrom(f.(remoteRatio := Num(tenths))) ==
            TermsFrom(f.(remoteRatio := Num(if tenths >= 800 then 1000 else if tenths >= 500 then 500 else 0)))
  {
    var step := if tenths >= 800 then 1000 else if tenths >= 500 then 500 else 0;
    RemoteTerms(f, tenths);
    RemoteTerms(f, step);
  }

  /** The remote adjustment is a step function: 0.05 from 80 up, 0.02 from 50 to below
      80, nothing below 50; so every remote ratio scores like 100, 50 or 0. */
  lemma RemoteSteps(p: Payload, tenths: int)
    ensures EstimateSalaryMock(p[RemoteKey := Num(tenths)]) ==
            EstimateSalaryMock(p[RemoteKey := Num(if tenths >= 800 then 1000 else if tenths >= 500 then 500 else 0)])
  {
    var step := if tenths >= 800 then 1000 else if tenths >= 500 then 500 else 0;
    SetRemote(p, Num(tenths));
    SetRemote(p, Num(step));
    RemoteStepTerms(FieldsOf(p), tenths);
  }

  /** A higher remote ratio never lowers the estimate. */
  lemma RemoteMonotone(p: Payload, lo: int, hi: int)
    requires lo <= hi
    ensures var a, b := EstimateSalaryMock(p[RemoteKey := Num(lo)]), EstimateSalaryMock(p[RemoteKey := Num(hi)]);
      a.Ok? == b.Ok? && (a.Ok? ==> a.value <= b.value)
  {
    var pa, pb := p[RemoteKey := Num(lo)], p[RemoteKey := Num(hi)];
    UpdateField(p, RemoteKey, Num(lo));
    UpdateField(p, RemoteKey, Num(hi));
    RemoteTerms(FieldsOf(p), lo);
    RemoteTerms(FieldsOf(p), hi);
    if TermsOf(pa).Ok? {
      BaseInRange(FieldsOf(pa));
      EstimateMonotone(TermsOf(pa).value, TermsOf(pb).value);
    }
  }

  /** Setting the experience level changes that field alone. */
  lemma SetExperience(p: Payload, v: Value)
    ensures FieldsOf(p[ExperienceKey := v]) == FieldsOf(p).(experienceLevel := v)
  {
    UpdateField(p, ExperienceKey, v);
  }

  /** The payload with the given experience level. */
  function WithExperience(p: Payload, level: string): Payload {
    p[ExperienceKey := Str(level)]
  }

  /** A level from the table changes the experience boost and nothing else. */
  lemma ExperienceTerms(f: Fields, level: string)
    requires level in ExperienceBoost
    ensures var a, b := TermsFrom(f.(experienceLevel := Str(level))), TermsFrom(f.(experienceLevel := Str("Mid")));
      a.Ok? == b.Ok? && (a.Ok? ==> a.value == b.value.(experience := ExperienceBoost[level]))
  {
  }

  /** A level from the table scores as the Mid payload's terms with that level's boost. */
  lemma ExperienceEstimate(p: Payload, level: string)
    requires level in ExperienceBoost
    ensures var r, m := EstimateSalaryMock(WithExperience(p, level)), TermsOf(WithExperience(p, "Mid"));
      r.Ok? == m.Ok? && (r.Ok? ==> r.value == Estimate(m.value.(experience := ExperienceBoost[level])) && m.value.base >= 95_000)
  {
    var f := FieldsOf(p);
    if TermsOf(WithExperience(p, "Mid")).Ok? { BaseInRange(FieldsOf(WithExperience(p, "Mid"))); }
    SetExperience(p, Str(level));
    SetExperience(p, Str("Mid"));
    ExperienceTerms(f, level);
  }

  /** Two levels from the table whose boosts differ by at least 50 thousandths score in
      that order. */
  lemma ExperiencePair(p: Payload, lower: string, higher: string)
    requires lower in ExperienceBoost && higher in ExperienceBoost
    requires ExperienceBoost[lower] + 50 <= ExperienceBoost[higher]
    ensures var a, b := EstimateSalaryMock(WithExperience(p, lower)), EstimateSalaryMock(WithExperience(p, higher));
      a.Ok? == b.Ok? && (a.Ok? ==> a.value < b.value)
  {
    ExperienceEstimate(p, lower);
    ExperienceEstimate(p, higher);
    var m := TermsOf(WithExperience(p, "Mid"));
    if m.Ok? {
      EstimateStrict(m.value.(experience := ExperienceBoost[lower]), m.value.(experience := ExperienceBoost[higher]));
    }
  }

  /** Entry < Mid < Senior < Principal, and Lead < Principal: the one step down in the
      table, kept as the source has it. */
  lemma ExperienceOrdering(p: Payload)
    ensures var entry, mid, senior, principal, lead :=
      EstimateSalaryMock(WithExperience(p, "Entry")), EstimateSalaryMock(WithExperience(p, "Mid")),
      EstimateSalaryMock(WithExperience(p, "Senior")), EstimateSalaryMock(WithExperience(p, "Principal")),
      EstimateSalaryMock(WithExperience(p, "Lead"));
      entry.Ok? == mid.Ok? == senior.Ok? == principal.Ok? == lead.Ok? &&
      (entry.Ok? ==>
        entry.value < mid.value < senior.value < principal.value && lead.value < principal.value)
  {
    ExperiencePair(p, "Entry", "Mid");
    ExperiencePair(p, "Mid", "Senior");
    ExperiencePair(p, "Senior", "Principal");
    ExperiencePair(p, "Lead", "Principal");
  }

  /** A numeric benefits score changes the benefits adjustment and nothing else. */
  lemma BenefitsTerms(f: Fields, tenths: int)
    ensures var a, b := TermsFrom(f.(benefitsScore := Num(tenths))), TermsFrom(f.(benefitsScore := Num(75)));
      a.Ok? == b.Ok? && (a.Ok? ==> a.value == b.value.(benefitsTenths := tenths))
  {
  }

  /** A higher benefits score never lowers the estimate. */
  lemma BenefitsMonotone(p: Payload, lo: int, hi: int)
    requires lo <= hi
    ensures var a, b := EstimateSalaryMock(p[BenefitsKey := Num(lo)]), EstimateSalaryMock(p[BenefitsKey := Num(hi)]);
      a.Ok? == b.Ok? && (a.Ok? ==> a.value <= b.value)
  {
    var pa, pb := p[BenefitsKey := Num(lo)], p[BenefitsKey := Num(hi)];
    UpdateField(p, BenefitsKey, Num(lo));
    UpdateField(p, BenefitsKey, Num(hi));
    BenefitsTerms(FieldsOf(p), lo);
    BenefitsTerms(FieldsOf(p), hi);
    if TermsOf(pa).Ok? {
      BaseInRange(FieldsOf(pa));
      EstimateMonotone(TermsOf(pa).value, TermsOf(pb).value);
    }
  }

  /** AI Architect, Senior, fully remote, PhD, size XL, three skills, benefits 8.5:
      the multiplier is 1.51 and the estimate 226500. */
  lemma WorkedExample()
    ensures var p := map[
        JobTitleKey := Str("AI Architect"), ExperienceKey := Str("Senior"), RemoteKey := Whole(100),
        EducationKey := Str("PhD"), SizeKey := Str("XL"),
        SkillsKey := List([Str("Python"), Str("SQL"), Str("AWS")]), BenefitsKey := Num(85)];
      TermsOf(p).Ok? && Multiplier(TermsOf(p).value) == 1510 && EstimateSalaryMock(p) == Ok(226_500)
  {
    var p := map[
        JobTitleKey := Str("AI Architect"), ExperienceKey := Str("Senior"), RemoteKey := Whole(100),
        EducationKey := Str("PhD"), SizeKey := Str("XL"),
        SkillsKey := List([Str("Python"), Str("SQL"), Str("AWS")]), BenefitsKey := Num(85)];
    assert FieldsOf(p) == Fields(Str("AI Architect"), Str("Senior"), Whole(100), Str("PhD"), Str("XL"),
                                 List([Str("Python"), Str("SQL"), Str("AWS")]), Num(85));
    assert TermsOf(p) == Ok(Terms(150_000, 250, 50, 120, 50, 3, 85));
  }

}
