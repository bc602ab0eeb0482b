/** The profile normaliser: turns the loosely typed form input into the canonical
    profile record that the scoring engine reads. */
module Profile {
  import opened Text

  /** A JavaScript value as the normaliser distinguishes it: `undefined`, a string,
      an array, or any other value (number, boolean, null, object), of which only
      its truthiness matters here. */
  datatype Raw = Undefined | Str(s: string) | Arr(items: seq<Raw>) | Other(truthy: bool)

  /** A numeric form field after JavaScript's coercion: either a value for which
      `isNaN` holds, or the number `Number(v)` gives. */
  datatype Numeric = NotANumber | Number(value: real)

  /** The raw profile bag handed to the engine. */
  datatype RawProfile = RawProfile(
    name: Raw, age: Numeric, gender: Raw, education: Raw, stream: Raw, cgpa: Numeric,
    subjects: Raw, industries: Raw, workType: Raw, hobbies: Raw,
    entrepreneurship: Numeric, creativity: Numeric, techSkills: Raw, softSkills: Raw,
    parentsOccupation: Raw, familyExpectations: Raw, supportHigherStudies: Raw,
    lifeGoal: Raw, workLife: Raw, relocate: Raw, lifestyle: Raw, personality: Raw,
    values: Raw, riskLevel: Raw, hasExperience: Raw, hasProjects: Raw,
    hasCertifications: Raw)

  /** The canonical profile. */
  datatype Profile = Profile(
    name: Raw, age: real, gender: string, education: string, stream: string, cgpa: real,
    subjects: seq<string>, industries: seq<string>, workType: string, hobbies: seq<string>,
    entrepreneurship: real, creativity: real, techSkills: seq<string>, softSkills: seq<string>,
    parentsOccupation: string, familyExpectations: string, supportHigherStudies: string,
    lifeGoal: string, workLife: string, relocate: string, lifestyle: string,
    personality: string, values: seq<string>, riskLevel: string,
    hasExperience: bool, hasProjects: bool, hasCertifications: bool)

  /** JavaScript truthiness. */
  predicate Truthy(v: Raw) {
    match v
    case Undefined => false
    case Str(s) => s != ""
    case Arr(_) => true
    case Other(t) => t
  }

  /** Lower-case with no whitespace at either end. */
  predicate IsNormal(s: string) {
    IsTrimmed(s) && IsLower(s)
  }

  /** What a comma list yields: a non-empty normal string holding no comma. */
  predicate IsToken(t: string) {
    t != "" && IsNormal(t) && ',' !in t
  }

  /** The per-token normaliser of `csv`: `x.trim().toLowerCase()`. */
  function Normal(x: string): (t: string)
    ensures IsNormal(t)
    ensures ',' !in x ==> ',' !in t
    ensures |t| <= |x|
  {
    var y := Trim(x);
    var t := ToLower(y);
    NormalFacts(x, y, t);
    t
  }

  lemma NormalFacts(x: string, y: string, t: string)
    requires y == Trim(x) && t == ToLower(y)
    ensures IsNormal(t) && |t| <= |x|
    ensures ',' !in x ==> ',' !in t
  {
    if t != [] {
      assert IsSpace(t[0]) == IsSpace(y[0]) && IsSpace(t[|t| - 1]) == IsSpace(y[|y| - 1]);
    }
    if ',' !in x {
      var i := Start(x, 0);
      forall k | 0 <= k < |t| ensures t[k] != ',' {
        assert y[k] == x[i + k];
        assert t[k] == LowerChar(y[k]);
      }
    }
  }

  /** `lower`: a string is lower-cased and trimmed; anything else becomes "". */
  function Lower(v: Raw): (r: string)
    ensures IsNormal(r)
    ensures !v.Str? ==> r == ""
    ensures v.Str? ==> r == Normal(v.s)
  {
    match v
    case Str(s) =>
      LowerTrimCommute(s);
      Trim(ToLower(s))
    case _ => ""
  }

  /** The `filter(Boolean)` over the normalised pieces: empty tokens are dropped,
      the rest keep their order and their duplicates. */
  function Tokens(pieces: seq<string>): (r: seq<string>)
    ensures |r| <= |pieces|
    ensures forall t :: t in r ==> t != "" && IsNormal(t)
    ensures (forall i :: 0 <= i < |pieces| ==> ',' !in pieces[i]) ==> forall t :: t in r ==> ',' !in t
  {
    if pieces == [] then [] else TokenOf(pieces[0]) + Tokens(pieces[1..])
  }

  /** One piece's contribution: its normal form, unless that is empty. */
  function TokenOf(piece: string): (r: seq<string>)
    ensures |r| <= 1
    ensures forall t :: t in r ==> t != "" && IsNormal(t)
    ensures ',' !in piece ==> forall t :: t in r ==> ',' !in t
  {
    var t := Normal(piece);
    if t == "" then [] else [t]
  }

  lemma {:induction false} TokensAppend(a: seq<string>, b: seq<string>)
    ensures Tokens(a + b) == Tokens(a) + Tokens(b)
    decreases |a|
  {
    if a == [] {
      assert a + b == b;
    } else {
      var c := a + b;
      var first := TokenOf(a[0]);
      assert c[0] == a[0] && c[1..] == a[1..] + b;
      assert Tokens(c) == first + Tokens(a[1..] + b);
      TokensAppend(a[1..], b);
      assert Tokens(a) == first + Tokens(a[1..]);
      AppendAssoc(first, Tokens(a[1..]), Tokens(b));
    }
  }

  /** `csv`: a string is split on commas into normalised, non-empty tokens;
      anything else gives no tokens. */
  function Csv(v: Raw): (r: seq<string>)
    ensures !v.Str? ==> r == []
    ensures forall t :: t in r ==> IsToken(t)
    ensures v.Str? ==> |r| <= |Split(v.s)|
  {
    match v
    case Str(s) => Tokens(Split(s))
    case _ => []
  }

  /** A comma-free input is one token, or none when it is blank. */
  lemma CsvPiece(s: string)
    requires ',' !in s
    ensures Csv(Str(s)) == if Normal(s) == "" then [] else [Normal(s)]
  {
    SplitNoComma(s);
  }

  /** A comma separates the tokens of its two sides, in input order. */
  lemma CsvAppend(a: string, b: string)
    ensures Csv(Str(a + "," + b)) == Csv(Str(a)) + Csv(Str(b))
  {
    SplitAppend(a, b);
    TokensAppend(Split(a), Split(b));
  }

  /** Repeated tokens are kept: no deduplication happens. */
  lemma CsvKeepsDuplicates(s: string)
    requires ',' !in s && Normal(s) != ""
    ensures Csv(Str(s + "," + s)) == [Normal(s), Normal(s)]
  {
    CsvAppend(s, s);
    CsvPiece(s);
  }

  /** `num`: a NaN-like value becomes 0, any other value its numeric value. */
  function Num(v: Numeric): (r: real)
    ensures v.NotANumber? ==> r == 0.0
    ensures v.Number? ==> r == v.value
  {
    match v
    case NotANumber => 0.0
    case Number(x) => x
  }

  /** `subjects` and `industries`: an array is lowered element by element (no
      splitting, no filtering), anything else goes through `csv`. */
  function ListField(v: Raw): (r: seq<string>)
    ensures v.Arr? ==> |r| == |v.items|
    ensures v.Arr? ==> forall i :: 0 <= i < |r| ==>
      r[i] == (if v.items[i].Str? then Normal(v.items[i].s) else "")
    ensures !v.Arr? ==> r == Csv(v)
    ensures forall t :: t in r ==> IsNormal(t)
  {
    match v
    case Arr(items) => seq(|items|, i requires 0 <= i < |items| => Lower(items[i]))
    case _ => Csv(v)
  }

  /** The three "yes" flags. */
  function Flag(v: Raw): (b: bool)
    ensures b <==> v.Str? && Normal(v.s) == "yes"
  {
    Lower(v) == "yes"
  }

  /** "yes" in any letter case, with any whitespace around it, sets a flag. */
  lemma FlagAcceptsPaddedYes(lead: string, w: string, trail: string)
    requires AllSpace(lead) && AllSpace(trail) && ToLower(w) == "yes"
    ensures Flag(Str(lead + w + trail))
  {
    assert IsTrimmed(w) by {
      assert ToLower(w)[0] == 'y' && ToLower(w)[2] == 's';
    }
    TrimPadded(lead, w, trail);
  }

  /** Every field of a canonical profile is in normal form. */
  predicate WellFormed(p: Profile) {
    && IsNormal(p.gender) && IsNormal(p.education) && IsNormal(p.stream)
    && IsNormal(p.workType) && IsNormal(p.parentsOccupation)
    && IsNormal(p.familyExpectations) && IsNormal(p.supportHigherStudies)
    && IsNormal(p.lifeGoal) && IsNormal(p.workLife) && IsNormal(p.relocate)
    && IsNormal(p.lifestyle) && IsNormal(p.personality) && IsNormal(p.riskLevel)
    && (forall t :: t in p.subjects ==> IsNormal(t))
    && (forall t :: t in p.industries ==> IsNormal(t))
    && (forall t :: t in p.hobbies ==> IsToken(t))
    && (forall t :: t in p.techSkills ==> IsToken(t))
    && (forall t :: t in p.softSkills ==> IsToken(t))
    && (forall t :: t in p.values ==> IsToken(t))
  }

  /** `normalizeProfile`: total, every field comes out in normal form, and each
      canonical field is its raw field put through `lower`, `csv`, `num`, the
      array-or-csv rule of the two list fields, or the "yes" test. */
  function NormalizeProfile(raw: RawProfile): (p: Profile)
    ensures WellFormed(p)
    ensures p.name == if Truthy(raw.name) then raw.name else Str("")
    ensures p.age == Num(raw.age) && p.cgpa == Num(raw.cgpa)
    ensures p.entrepreneurship == Num(raw.entrepreneurship) && p.creativity == Num(raw.creativity)
    ensures raw.age.NotANumber? ==> p.age == 0.0
    ensures raw.cgpa.NotANumber? ==> p.cgpa == 0.0
    ensures raw.entrepreneurship.NotANumber? ==> p.entrepreneurship == 0.0
    ensures raw.creativity.NotANumber? ==> p.creativity == 0.0
    ensures p.gender == Lower(raw.gender) && p.education == Lower(raw.education)
    ensures p.stream == Lower(raw.stream) && p.workType == Lower(raw.workType)
    ensures p.parentsOccupation == Lower(raw.parentsOccupation)
    ensures p.familyExpectations == Lower(raw.familyExpectations)
    ensures p.supportHigherStudies == Lower(raw.supportHigherStudies)
    ensures p.lifeGoal == Lower(raw.lifeGoal) && p.workLife == Lower(raw.workLife)
    ensures p.relocate == Lower(raw.relocate) && p.lifestyle == Lower(raw.lifestyle)
    ensures p.personality == Lower(raw.personality) && p.riskLevel == Lower(raw.riskLevel)
    ensures p.subjects == ListField(raw.subjects) && p.industries == ListField(raw.industries)
    ensures p.hobbies == Csv(raw.hobbies) && p.techSkills == Csv(raw.techSkills)
    ensures p.softSkills == Csv(raw.softSkills) && p.values == Csv(raw.values)
    ensures p.hasExperience <==> raw.hasExperience.Str? && Normal(raw.hasExperience.s) == "yes"
    ensures p.hasProjects <==> raw.hasProjects.Str? && Normal(raw.hasProjects.s) == "yes"
    ensures p.hasCertifications <==> raw.hasCertifications.Str? && Normal(raw.hasCertifications.s) == "yes"
    ensures raw.subjects.Arr? ==> |p.subjects| == |raw.subjects.items|
    ensures raw.industries.Arr? ==> |p.industries| == |raw.industries.items|
  {
    Profile(
      name := if Truthy(raw.name) then raw.name else Str(""),
      age := Num(raw.age),
      gender := Lower(raw.gender),
      education := Lower(raw.education),
      stream := Lower(raw.stream),
      cgpa := Num(raw.cgpa),
      subjects := ListField(raw.subjects),
      industries := ListField(raw.industries),
      workType := Lower(raw.workType),
      hobbies := Csv(raw.hobbies),
      entrepreneurship := Num(raw.entrepreneurship),
      creativity := Num(raw.creativity),
      techSkills := Csv(raw.techSkills),
      softSkills := Csv(raw.softSkills),
      parentsOccupation := Lower(raw.parentsOccupation),
      familyExpectations := Lower(raw.familyExpectations),
      supportHigherStudies := Lower(raw.supportHigherStudies),
      lifeGoal := Lower(raw.lifeGoal),
      workLife := Lower(raw.workLife),
      relocate := Lower(raw.relocate),
      lifestyle := Lower(raw.lifestyle),
      personality := Lower(raw.personality),
      values := Csv(raw.values),
      riskLevel := Lower(raw.riskLevel),
      hasExperience := Flag(raw.hasExperience),
      hasProjects := Flag(raw.hasProjects),
      hasCertifications := Flag(raw.hasCertifications))
  }

  /** A form with no field set at all. */
  function EmptyRaw(): RawProfile {
    RawProfile(Undefined, NotANumber, Undefined, Undefined, Undefined, NotANumber,
      Undefined, Undefined, Undefined, Undefined, NotANumber, NotANumber,
      Undefined, Undefined, Undefined, Undefined, Undefined, Undefined,
      Undefined, Undefined, Undefined, Undefined, Undefined, Undefined,
      Undefined, Undefined, Undefined)
  }

  /** Absent fields default to "", [], 0 and false. */
  lemma EmptyRawDefaults()
    ensures var p := NormalizeProfile(EmptyRaw());
      && p.name == Str("") && p.age == 0.0 && p.cgpa == 0.0
      && p.gender == "" && p.education == "" && p.stream == "" && p.workType == ""
      && p.parentsOccupation == "" && p.familyExpectations == "" && p.supportHigherStudies == ""
      && p.lifeGoal == "" && p.workLife == "" && p.relocate == "" && p.lifestyle == ""
      && p.personality == "" && p.riskLevel == ""
      && p.subjects == [] && p.industries == [] && p.hobbies == []
      && p.techSkills == [] && p.softSkills == [] && p.values == []
      && p.entrepreneurship == 0.0 && p.creativity == 0.0
      && !p.hasExperience && !p.hasProjects && !p.hasCertifications
  {
  }
}
