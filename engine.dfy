/** The recommendation engine (`generateRecommendations`): education-stage entries,
    domain scoring against the knowledge base, ranking, the fallback, flattening,
    and the context entries. */
module Engine {
  import opened Text
  import opened Profile
  import opened KnowledgeBase
  import opened Scoring
  import opened Ranking

  // ---- the fixed entries ----

  const ExploreStreams: Rec := Rec("Explore Streams after 10th",
      "Explore Science, Commerce, or Arts based on aptitude and interests.",
      "Take a stream test or consult a counselor to understand strengths.")

  const ScienceStream: Rec := Rec("Science Stream Careers",
      "Engineering, medical, or data science are strong options.",
      "Explore B.Tech, MBBS, or B.Sc courses.")

  const CommerceStream: Rec := Rec("Commerce Stream Careers",
      "Management, finance, or entrepreneurship paths fit well.",
      "BBA, B.Com, or CA/CS foundations.")

  const ArtsStream: Rec := Rec("Arts Stream Careers",
      "Design, psychology, writing, and communication-based roles.",
      "Consider BA, Law, or Design programs.")

  const UndergraduatePlanning: Rec := Rec("Undergraduate Career Planning",
      "Internships and real-world projects can refine direction.",
      "Start internships, online certifications, and industry exposure.")

  const GraduateOpportunities: Rec := Rec("Graduate Career Opportunities",
      "Specialize or target leadership positions.",
      "Consider MBA, MS, or PhD based on interest.")

  const NoClearMatch: Rec := Rec("No clear match found",
      "Please refine your interests or skills for better recommendations.",
      "Add more details about what you enjoy or are good at.")

  const BuildPortfolio: Rec := Rec("Build Portfolio and Gain Experience",
      "Practical exposure will help solidify your interests.",
      "Start small projects, internships, or freelancing work.")

  const GlobalOpportunities: Rec := Rec("Explore Global Opportunities",
      "Relocation flexibility opens up international options.",
      "Look for remote or overseas internships and master's programs.")

  const StrongAcademics: Rec := Rec("Leverage Strong Academics",
      "Your academic performance is strong for top programs.",
      "Consider scholarships and top-tier institutes for higher studies.")

  // ---- section A: education stage ----

  /** The education-stage entries, in the order the ladder pushes them. */
  function StageRecs(p: Profile): (r: seq<Rec>)
    ensures |r| <= 1
  {
    (if p.education == "10th" then [ExploreStreams] else [])
    + (if p.education == "12th" then
         (if p.stream in ["science", "math", "physics", "computer science"] then [ScienceStream] else [])
         + (if p.stream in ["commerce", "economics"] then [CommerceStream] else [])
         + (if p.stream in ["arts", "humanities", "literature"] then [ArtsStream] else [])
       else [])
    + (if p.education == "undergraduate" then [UndergraduatePlanning] else [])
    + (if p.education in ["graduate", "postgraduate"] then [GraduateOpportunities] else [])
  }

  /** Education-stage entries as they sit in the working list. */
  function Staged(rs: seq<Rec>): (s: seq<Pushed>)
    ensures |s| == |rs|
    ensures forall i :: 0 <= i < |s| ==> s[i] == Stage(rs[i])
  {
    if rs == [] then [] else [Stage(rs[0])] + Staged(rs[1..])
  }

  // ---- section B: domain matching ----

  /** `suggestions.slice(0, 3)`. */
  function Take3(s: seq<Suggestion>): (r: seq<Suggestion>)
    ensures r <= s
    ensures |r| == if |s| <= 3 then |s| else 3
  {
    if |s| <= 3 then s else s[..3]
  }

  /** The working-list entry a qualifying domain pushes. */
  function MatchOf(p: Profile, d: Domain): (r: Pushed)
    ensures r.DomainMatch? && r.domain == d.name && r.score == DomainScore(p, d)
    ensures r.suggestions <= d.suggestions && |r.suggestions| <= 3
  {
    DomainMatch(d.name, DomainScore(p, d), Take3(d.suggestions))
  }

  /** The domains of `ds` scoring strictly above 2, in the order of `ds`. */
  function MatchesIn(p: Profile, ds: seq<Domain>): (r: seq<Pushed>)
    ensures |r| <= |ds|
    ensures forall k :: 0 <= k < |r| ==> r[k].DomainMatch? && r[k].score > 2
  {
    if ds == [] then []
    else
      var d := ds[|ds| - 1];
      MatchesIn(p, ds[..|ds| - 1]) + (if DomainScore(p, d) > 2 then [MatchOf(p, d)] else [])
  }

  // ---- section C: ranking and flattening ----

  function DomainDescription(name: string): string {
    "Recommended from your " + name + " alignment."
  }

  /** The `flatMap` callback: an entry without `recommendations` yields nothing,
      a domain yields one titled entry per suggestion. */
  function Expand(e: Pushed): (r: seq<Rec>)
    ensures |r| == if e.DomainMatch? then |e.suggestions| else 0
    ensures forall k :: 0 <= k < |r| ==> DomainSourced(r[k])
    ensures e.DomainMatch? ==> forall k :: 0 <= k < |r| ==>
      r[k] == Rec(e.suggestions[k].title + " (" + e.domain + ")", DomainDescription(e.domain), e.suggestions[k].path)
  {
    match e
    case Stage(_) => []
    case DomainMatch(d, _, sugs) => Suggested(d, sugs)
  }

  /** The inner `map`: suggestion `s` of domain `d` becomes the entry titled
      "<s.title> (<d>)", described after `d`, with the suggestion's path. */
  function Suggested(d: string, sugs: seq<Suggestion>): (r: seq<Rec>)
    ensures |r| == |sugs|
    ensures forall k :: 0 <= k < |r| ==>
      r[k] == Rec(sugs[k].title + " (" + d + ")", DomainDescription(d), sugs[k].path)
  {
    if sugs == [] then []
    else [Rec(sugs[0].title + " (" + d + ")", DomainDescription(d), sugs[0].path)] + Suggested(d, sugs[1..])
  }

  /** `recs.flatMap(...)`. */
  function Render(s: seq<Pushed>): (r: seq<Rec>)
    ensures forall k :: 0 <= k < |r| ==> DomainSourced(r[k])
  {
    if s == [] then [] else Expand(s[0]) + Render(s[1..])
  }

  // ---- section D: context entries ----

  function ContextRecs(p: Profile): (r: seq<Rec>)
    ensures |r| <= 3
  {
    (if !p.hasExperience && !p.hasProjects then [BuildPortfolio] else [])
    + (if p.relocate == "yes" || p.relocate == "maybe" then [GlobalOpportunities] else [])
    + (if p.cgpa >= 8.0 then [StrongAcademics] else [])
  }

  /** What the engine returns for a canonical profile: the fallback alone when the
      working list stayed empty, otherwise the ranked domain entries followed by
      the context entries. */
  function RecommendationsFor(p: Profile): seq<Rec> {
    RecommendationsOver(p, Domains())
  }

  /** The same, with the catalogue `ds` in place of the knowledge base. */
  function RecommendationsOver(p: Profile, ds: seq<Domain>): (r: seq<Rec>)
    ensures StageRecs(p) == [] && MatchesIn(p, ds) == [] ==> r == [NoClearMatch]
    ensures StageRecs(p) != [] || MatchesIn(p, ds) != [] ==>
      |ContextRecs(p)| <= |r| && r[|r| - |ContextRecs(p)|..] == ContextRecs(p)
  {
    Assemble(StageRecs(p), MatchesIn(p, ds), ContextRecs(p))
  }

  /** Sections C and D from the education-stage entries `stage`, the qualifying
      domains `ms` and the context entries `ctx`: the fallback alone when
      nothing was pushed, otherwise the ranked, flattened domains and `ctx`. */
  function Assemble(stage: seq<Rec>, ms: seq<Pushed>, ctx: seq<Rec>): (r: seq<Rec>)
    ensures stage == [] && ms == [] ==> r == [NoClearMatch]
    ensures stage != [] || ms != [] ==> |ctx| <= |r| && r[|r| - |ctx|..] == ctx
  {
    if stage == [] && ms == [] then [NoClearMatch]
    else Render(SortByScore(ms)) + ctx
  }

  /** Section A of `generateRecommendations`: the education ladder pushes its
      entries onto the empty working list. */
  method EducationStage(p: Profile) returns (recs: seq<Pushed>)
    ensures recs == Staged(StageRecs(p))
  {
    recs := [];
    if p.education == "10th" {
      recs := recs + [Stage(ExploreStreams)];
    }
    if p.education == "12th" {
      if p.stream in ["science", "math", "physics", "computer science"] {
        recs := recs + [Stage(ScienceStream)];
      }
      if p.stream in ["commerce", "economics"] {
        recs := recs + [Stage(CommerceStream)];
      }
      if p.stream in ["arts", "humanities", "literature"] {
        recs := recs + [Stage(ArtsStream)];
      }
    }
    if p.education == "undergraduate" {
      recs := recs + [Stage(UndergraduatePlanning)];
    }
    if p.education in ["graduate", "postgraduate"] {
      recs := recs + [Stage(GraduateOpportunities)];
    }
  }

  /** Section B of `generateRecommendations`: each domain of `ds` is scored in
      turn and, when it scores above 2, pushed with its first three suggestions. */
  method MatchDomains(p: Profile, ds: seq<Domain>, recs0: seq<Pushed>) returns (recs: seq<Pushed>)
    ensures recs == recs0 + MatchesIn(p, ds)
  {
    recs := recs0;
    var i := 0;
    while i < |ds|
      invariant 0 <= i <= |ds|
      invariant recs == recs0 + MatchesIn(p, ds[..i])
    {
      var d := ds[i];
      var score := ScoreDomain(p, d);
      if score > 2 {
        recs := recs + [DomainMatch(d.name, score, Take3(d.suggestions))];
      }
      assert ds[..i + 1][..i] == ds[..i];
      i := i + 1;
    }
    assert ds[..i] == ds;
  }

  /** `generateRecommendations`: normalise, then run the engine over the
      knowledge base. */
  method GenerateRecommendations(profile: RawProfile) returns (recommendations: seq<Rec>)
    ensures recommendations == RecommendationsFor(NormalizeProfile(profile))
  {
    var p := NormalizeProfile(profile);
    recommendations := Recommend(p, Domains());
  }

  /** The body of `generateRecommendations` after normalisation, over the
      catalogue `ds`. */
  method Recommend(p: Profile, ds: seq<Domain>) returns (recommendations: seq<Rec>)
    ensures recommendations == RecommendationsOver(p, ds)
  {
    var recs := EducationStage(p);
    var stages := recs;
    recs := MatchDomains(p, ds, recs);
    MatchesAbove(p, ds);
    SortStagesLast(stages, MatchesIn(p, ds));

    ghost var ms := MatchesIn(p, ds);
    recs := SortByScore(recs);
    assert recs == SortByScore(ms) + stages;
    if |recs| == 0 {
      assert StageRecs(p) == [] && ms == [];
      recommendations := [NoClearMatch];
      return;
    }
    assert !(StageRecs(p) == [] && ms == []);

    var finalRecs := Render(recs);
    RenderAppend(SortByScore(ms), stages);
    RenderStaged(StageRecs(p));
    assert finalRecs == Render(SortByScore(ms));
    recommendations := ContextStage(p, finalRecs);
  }

  /** Section D of `generateRecommendations`: the context entries are pushed after
      the flattened domain entries. */
  method ContextStage(p: Profile, recs0: seq<Rec>) returns (finalRecs: seq<Rec>)
    ensures finalRecs == recs0 + ContextRecs(p)
  {
    finalRecs := recs0;
    if !p.hasExperience && !p.hasProjects {
      finalRecs := finalRecs + [BuildPortfolio];
    }
    if p.relocate == "yes" || p.relocate == "maybe" {
      finalRecs := finalRecs + [GlobalOpportunities];
    }
    if p.cgpa >= 8.0 {
      finalRecs := finalRecs + [StrongAcademics];
    }
  }

  // ---- lemmas: the working list ----

  /** Every pushed domain scored above 2. */
  lemma {:induction false} MatchesAbove(p: Profile, ds: seq<Domain>)
    ensures AllAbove(MatchesIn(p, ds), 2)
    decreases |ds|
  {
    if ds != [] {
      MatchesAbove(p, ds[..|ds| - 1]);
    }
  }

  /** Each pushed entry is the match of a catalogue domain that scored above 2. */
  lemma {:induction false} MatchesInSound(p: Profile, ds: seq<Domain>)
    ensures forall j :: 0 <= j < |MatchesIn(p, ds)| ==>
      exists i :: 0 <= i < |ds| && MatchesIn(p, ds)[j] == MatchOf(p, ds[i]) && DomainScore(p, ds[i]) > 2
    decreases |ds|
  {
    if ds != [] {
      var init := ds[..|ds| - 1];
      var d := ds[|ds| - 1];
      MatchesInSound(p, init);
      var m := MatchesIn(p, ds);
      var last := if DomainScore(p, d) > 2 then [MatchOf(p, d)] else [];
      assert m == MatchesIn(p, init) + last;
      forall j | 0 <= j < |m|
        ensures exists i :: 0 <= i < |ds| && m[j] == MatchOf(p, ds[i]) && DomainScore(p, ds[i]) > 2
      {
        if j < |MatchesIn(p, init)| {
          assert m[j] == MatchesIn(p, init)[j];
          var i :| 0 <= i < |init| && MatchesIn(p, init)[j] == MatchOf(p, init[i]) && DomainScore(p, init[i]) > 2;
          assert init[i] == ds[i];
          assert 0 <= i < |ds| && m[j] == MatchOf(p, ds[i]) && DomainScore(p, ds[i]) > 2;
        } else {
          var i := |ds| - 1;
          assert m[j] == last[0] == MatchOf(p, ds[i]);
          assert 0 <= i < |ds| && m[j] == MatchOf(p, ds[i]) && DomainScore(p, ds[i]) > 2;
        }
      }
    } else {
      assert MatchesIn(p, ds) == [];
    }
  }

  predicate DistinctNames(ds: seq<Domain>) {
    forall i, j :: 0 <= i < j < |ds| ==> ds[i].name != ds[j].name
  }

  /** Whether `e` is the working-list entry of the domain called `name`. */
  predicate Named(e: Pushed, name: string) {
    e.DomainMatch? && e.domain == name
  }

  /** The working-list entries of the domain called `name`. */
  function OfDomain(s: seq<Pushed>, name: string): (r: seq<Pushed>)
    ensures |r| <= |s|
  {
    if s == [] then [] else (if Named(s[0], name) then [s[0]] else []) + OfDomain(s[1..], name)
  }

  lemma {:induction false} OfDomainAppend(a: seq<Pushed>, b: seq<Pushed>, name: string)
    ensures OfDomain(a + b, name) == OfDomain(a, name) + OfDomain(b, name)
    decreases |a|
  {
    if a == [] {
      assert a + b == b;
    } else {
      var head := if Named(a[0], name) then [a[0]] else [];
      assert (a + b)[0] == a[0];
      assert (a + b)[1..] == a[1..] + b;
      calc {
        OfDomain(a + b, name);
        head + OfDomain(a[1..] + b, name);
        { OfDomainAppend(a[1..], b, name); }
        head + (OfDomain(a[1..], name) + OfDomain(b, name));
      }
    }
  }

  lemma {:induction false} MatchesOfAbsent(p: Profile, ds: seq<Domain>, name: string)
    requires forall i :: 0 <= i < |ds| ==> ds[i].name != name
    ensures OfDomain(MatchesIn(p, ds), name) == []
    decreases |ds|
  {
    if ds != [] {
      var init := ds[..|ds| - 1];
      var d := ds[|ds| - 1];
      var last := if DomainScore(p, d) > 2 then [MatchOf(p, d)] else [];
      MatchesOfAbsent(p, init, name);
      OfDomainAppend(MatchesIn(p, init), last, name);
    }
  }

  /** At most the one entry of domain `ds[i]` is pushed, and it is pushed exactly
      when that domain scores above 2. */
  lemma {:induction false} MatchesOfDomain(p: Profile, ds: seq<Domain>, i: nat)
    requires DistinctNames(ds) && i < |ds|
    ensures OfDomain(MatchesIn(p, ds), ds[i].name) ==
      if DomainScore(p, ds[i]) > 2 then [MatchOf(p, ds[i])] else []
    decreases |ds|
  {
    var init := ds[..|ds| - 1];
    var d := ds[|ds| - 1];
    var name := ds[i].name;
    var last := if DomainScore(p, d) > 2 then [MatchOf(p, d)] else [];
    OfDomainAppend(MatchesIn(p, init), last, name);
    if i == |ds| - 1 {
      MatchesOfAbsent(p, init, name);
    } else {
      assert init[i] == ds[i];
      MatchesOfDomain(p, init, i);
    }
  }

  // ---- lemmas: ranking keeps each domain's entry ----

  lemma {:induction false} InsertOfDomain(x: Pushed, s: seq<Pushed>, name: string)
    requires Named(x, name) ==> OfDomain(s, name) == []
    ensures OfDomain(Insert(x, s), name) == (if Named(x, name) then [x] else []) + OfDomain(s, name)
    decreases |s|
  {
    if s == [] || Key(s[0]) <= Key(x) {
      assert ([x] + s)[1..] == s;
    } else {
      var t := Insert(x, s[1..]);
      assert ([s[0]] + t)[1..] == t;
      InsertOfDomain(x, s[1..], name);
    }
  }

  /** Ranking neither drops nor duplicates the entry of any one domain. */
  lemma {:induction false} SortOfDomain(s: seq<Pushed>, name: string)
    requires |OfDomain(s, name)| <= 1
    ensures OfDomain(SortByScore(s), name) == OfDomain(s, name)
    decreases |s|
  {
    if s != [] {
      SortOfDomain(s[1..], name);
      InsertOfDomain(s[0], SortByScore(s[1..]), name);
    }
  }

  // ---- lemmas: flattening ----

  lemma {:induction false} RenderAppend(a: seq<Pushed>, b: seq<Pushed>)
    ensures Render(a + b) == Render(a) + Render(b)
    decreases |a|
  {
    if a == [] {
      assert a + b == b;
    } else {
      assert (a + b)[0] == a[0];
      assert (a + b)[1..] == a[1..] + b;
      calc {
        Render(a + b);
        Expand(a[0]) + Render(a[1..] + b);
        { RenderAppend(a[1..], b); }
        Expand(a[0]) + (Render(a[1..]) + Render(b));
      }
    }
  }

  /** Education-stage entries vanish in the flattening. */
  lemma {:induction false} RenderStaged(rs: seq<Rec>)
    ensures Render(Staged(rs)) == []
    decreases |rs|
  {
    if rs != [] {
      assert Staged(rs)[1..] == Staged(rs[1..]);
      RenderStaged(rs[1..]);
    }
  }

  /** Whether `r` was rendered from some domain: only those titles end in ')'. */
  predicate DomainSourced(r: Rec) {
    |r.title| > 0 && r.title[|r.title| - 1] == ')'
  }

  /** Whether `r` was rendered from the domain called `name`. */
  predicate FromDomain(r: Rec, name: string) {
    DomainSourced(r) && r.description == DomainDescription(name)
  }

  /** The entries of `rs` rendered from the domain called `name`, in order. */
  function OfDesc(rs: seq<Rec>, name: string): (r: seq<Rec>)
    ensures |r| <= |rs|
  {
    if rs == [] then [] else (if FromDomain(rs[0], name) then [rs[0]] else []) + OfDesc(rs[1..], name)
  }

  lemma {:induction false} OfDescAppend(a: seq<Rec>, b: seq<Rec>, name: string)
    ensures OfDesc(a + b, name) == OfDesc(a, name) + OfDesc(b, name)
    decreases |a|
  {
    if a == [] {
      assert a + b == b;
    } else {
      var head := if FromDomain(a[0], name) then [a[0]] else [];
      assert (a + b)[0] == a[0];
      assert (a + b)[1..] == a[1..] + b;
      calc {
        OfDesc(a + b, name);
        head + OfDesc(a[1..] + b, name);
        { OfDescAppend(a[1..], b, name); }
        head + (OfDesc(a[1..], name) + OfDesc(b, name));
      }
    }
  }

  lemma {:induction false} OfDescAll(rs: seq<Rec>, name: string)
    requires forall k :: 0 <= k < |rs| ==> FromDomain(rs[k], name)
    ensures OfDesc(rs, name) == rs
    decreases |rs|
  {
    if rs != [] {
      OfDescAll(rs[1..], name);
    }
  }

  lemma {:induction false} OfDescNone(rs: seq<Rec>, name: string)
    requires forall k :: 0 <= k < |rs| ==> !FromDomain(rs[k], name)
    ensures OfDesc(rs, name) == []
    decreases |rs|
  {
    if rs != [] {
      OfDescNone(rs[1..], name);
    }
  }

  /** The description names its domain unambiguously. */
  lemma DescriptionInjective(a: string, b: string)
    requires DomainDescription(a) == DomainDescription(b)
    ensures a == b
  {
    var n := |"Recommended from your "|;
    assert |a| == |b|;
    assert DomainDescription(a)[n..n + |a|] == a;
    assert DomainDescription(b)[n..n + |b|] == b;
  }

  lemma ExpandOfDesc(e: Pushed, name: string)
    ensures OfDesc(Expand(e), name) == if Named(e, name) then Expand(e) else []
  {
    if Named(e, name) {
      OfDescAll(Expand(e), name);
    } else if e.DomainMatch? {
      forall k | 0 <= k < |Expand(e)| ensures !FromDomain(Expand(e)[k], name) {
        if FromDomain(Expand(e)[k], name) {
          DescriptionInjective(e.domain, name);
        }
      }
      OfDescNone(Expand(e), name);
    }
  }

  /** Picking one domain's entries out of the flattened list is flattening that
      domain's working-list entry. */
  lemma {:induction false} RenderOfDesc(s: seq<Pushed>, name: string)
    ensures OfDesc(Render(s), name) == Render(OfDomain(s, name))
    decreases |s|
  {
    if s != [] {
      OfDescAppend(Expand(s[0]), Render(s[1..]), name);
      ExpandOfDesc(s[0], name);
      RenderOfDesc(s[1..], name);
      var head := if Named(s[0], name) then [s[0]] else [];
      RenderAppend(head, OfDomain(s[1..], name));
      if head != [] {
        assert head[1..] == [];
      }
    }
  }

  /** Everything the flattening produces is a domain-sourced entry. */
  lemma {:induction false} RenderSourced(s: seq<Pushed>)
    ensures forall r :: r in Render(s) ==> DomainSourced(r)
    decreases |s|
  {
    if s != [] {
      RenderSourced(s[1..]);
    }
  }

  /** The fallback entry does not look domain-sourced. */
  lemma FallbackNotSourced()
    ensures !DomainSourced(NoClearMatch)
  {
  }

  /** None of the context entries looks domain-sourced. */
  lemma ContextNotSourced()
    ensures !DomainSourced(BuildPortfolio)
    ensures !DomainSourced(GlobalOpportunities)
    ensures !DomainSourced(StrongAcademics)
  {
  }

  /** One of the three context entries. */
  predicate IsContextEntry(r: Rec) {
    r == BuildPortfolio || r == GlobalOpportunities || r == StrongAcademics
  }

  /** The context entries pushed are the ones whose condition holds; none of
      them looks domain-sourced or is the fallback. */
  lemma ContextEntries(p: Profile)
    ensures forall r :: r in ContextRecs(p) ==> IsContextEntry(r)
    ensures forall r :: r in ContextRecs(p) ==> !DomainSourced(r) && r != NoClearMatch
    ensures BuildPortfolio in ContextRecs(p) <==> !p.hasExperience && !p.hasProjects
    ensures GlobalOpportunities in ContextRecs(p) <==> p.relocate == "yes" || p.relocate == "maybe"
    ensures StrongAcademics in ContextRecs(p) <==> p.cgpa >= 8.0
  {
    ContextNotSourced();
    // the titles tell the entries apart by their first letter alone
    assert BuildPortfolio.title[0] == 'B' && GlobalOpportunities.title[0] == 'E';
    assert StrongAcademics.title[0] == 'L' && NoClearMatch.title[0] == 'N';
  }

  /** The six education-stage entries. */
  function StageEntries(): seq<Rec> {
    [ExploreStreams, ScienceStream, CommerceStream, ArtsStream,
     UndergraduatePlanning, GraduateOpportunities]
  }

  /** No education-stage entry looks domain-sourced, is the fallback or is a
      context entry. */
  lemma StageEntriesApart()
    ensures forall r :: r in StageEntries() ==> r != NoClearMatch && !IsContextEntry(r)
  {
    // the titles tell the entries apart by length alone
    assert |NoClearMatch.title| == 20 && |BuildPortfolio.title| == 35;
    assert |GlobalOpportunities.title| == 28 && |StrongAcademics.title| == 25;
    assert |ExploreStreams.title| == 26 && |ScienceStream.title| == 22;
    assert |CommerceStream.title| == 23 && |ArtsStream.title| == 19;
    assert |UndergraduatePlanning.title| == 29 && |GraduateOpportunities.title| == 29;
  }

  lemma StageEntriesNotSourced()
    ensures forall r :: r in StageEntries() ==> !DomainSourced(r)
  {
  }

  lemma StageRecsAreStageEntries(p: Profile)
    ensures forall r :: r in StageRecs(p) ==> r in StageEntries()
  {
  }

  // ---- lemmas: assembling the output ----

  /** Every assembled entry is a flattened domain suggestion, the fallback, or
      one of `ctx`. */
  lemma AssembleEntries(stage: seq<Rec>, ms: seq<Pushed>, ctx: seq<Rec>)
    ensures forall r :: r in Assemble(stage, ms, ctx) ==>
      DomainSourced(r) || r == NoClearMatch || r in ctx
  {
    RenderSourced(SortByScore(ms));
  }

  /** Every flattened entry comes from the suggestions of some working-list entry. */
  lemma {:induction false} RenderMember(s: seq<Pushed>, r: Rec)
    requires r in Render(s)
    ensures exists e :: e in s && r in Expand(e)
    decreases |s|
  {
    if r !in Expand(s[0]) {
      RenderMember(s[1..], r);
      var e :| e in s[1..] && r in Expand(e);
      assert e in s;
    }
  }

  /** Every entry of the ranked working list is the match of a catalogue domain
      that scored above 2. */
  lemma SortedSound(p: Profile, ds: seq<Domain>, e: Pushed)
    requires e in SortByScore(MatchesIn(p, ds))
    ensures exists i :: 0 <= i < |ds| && DomainScore(p, ds[i]) > 2 && e == MatchOf(p, ds[i])
  {
    var ms := MatchesIn(p, ds);
    assert e in ms by {
      SortPermutes(ms);
      assert e in multiset(SortByScore(ms));
    }
    var j :| 0 <= j < |ms| && ms[j] == e;
    MatchesInSound(p, ds);
  }

  /** Every entry of the ranked, flattened working list is a rendered suggestion
      of a catalogue domain that scored above 2. */
  lemma RenderedSound(p: Profile, ds: seq<Domain>, r: Rec)
    requires r in Render(SortByScore(MatchesIn(p, ds)))
    ensures exists i :: 0 <= i < |ds| && DomainScore(p, ds[i]) > 2 && r in Expand(MatchOf(p, ds[i]))
  {
    RenderMember(SortByScore(MatchesIn(p, ds)), r);
    var e :| e in SortByScore(MatchesIn(p, ds)) && r in Expand(e);
    SortedSound(p, ds, e);
    var i :| 0 <= i < |ds| && DomainScore(p, ds[i]) > 2 && e == MatchOf(p, ds[i]);
    assert r in Expand(MatchOf(p, ds[i]));
  }

  /** Every assembled entry is the fallback, one of `ctx`, or a rendered
      suggestion of a catalogue domain that scored above 2. */
  lemma AssembleSound(stage: seq<Rec>, ctx: seq<Rec>, p: Profile, ds: seq<Domain>)
    ensures forall r :: r in Assemble(stage, MatchesIn(p, ds), ctx) ==>
      r == NoClearMatch || r in ctx
      || exists i :: 0 <= i < |ds| && DomainScore(p, ds[i]) > 2 && r in Expand(MatchOf(p, ds[i]))
  {
    forall r | r in Assemble(stage, MatchesIn(p, ds), ctx) && r != NoClearMatch && r !in ctx
      ensures exists i :: 0 <= i < |ds| && DomainScore(p, ds[i]) > 2 && r in Expand(MatchOf(p, ds[i]))
    {
      RenderedSound(p, ds, r);
    }
  }

  /** The fallback alone comes back exactly when nothing was pushed. */
  lemma AssembleFallback(stage: seq<Rec>, ms: seq<Pushed>, ctx: seq<Rec>)
    requires forall r :: r in ctx ==> r != NoClearMatch
    ensures Assemble(stage, ms, ctx) == [NoClearMatch] <==> stage == [] && ms == []
  {
    if !(stage == [] && ms == []) {
      var out := Assemble(stage, ms, ctx);
      var rendered := Render(SortByScore(ms));
      RenderSourced(SortByScore(ms));
      FallbackNotSourced();
      if out != [] {
        if rendered != [] {
          assert out[0] == rendered[0] && rendered[0] in rendered;
        } else {
          assert out[0] in ctx;
        }
        assert out[0] != NoClearMatch;
      }
    }
  }

  /** Once something was pushed, an entry that does not look domain-sourced is
      returned exactly when it is one of `ctx`. */
  lemma AssembleKeepsContext(stage: seq<Rec>, ms: seq<Pushed>, ctx: seq<Rec>, r: Rec)
    requires stage != [] || ms != []
    requires !DomainSourced(r)
    ensures r in Assemble(stage, ms, ctx) <==> r in ctx
  {
    RenderSourced(SortByScore(ms));
  }

  /** Nothing comes back exactly when a stage entry was pushed, no domain was,
      and `ctx` is empty, provided every pushed domain renders something. */
  lemma AssembleEmpty(stage: seq<Rec>, ms: seq<Pushed>, ctx: seq<Rec>)
    requires ms != [] ==> Render(SortByScore(ms)) != []
    ensures Assemble(stage, ms, ctx) == [] <==> stage != [] && ms == [] && ctx == []
  {
  }

  /** One domain's share of the output is the flattening of its working-list
      entry. */
  lemma AssembleOfDesc(stage: seq<Rec>, ms: seq<Pushed>, ctx: seq<Rec>, name: string)
    requires |OfDomain(ms, name)| <= 1
    requires forall k :: 0 <= k < |ctx| ==> !DomainSourced(ctx[k])
    ensures OfDesc(Assemble(stage, ms, ctx), name) == Render(OfDomain(ms, name))
  {
    if stage == [] && ms == [] {
      FallbackNotSourced();
      OfDescNone([NoClearMatch], name);
    } else {
      var sorted := SortByScore(ms);
      OfDescAppend(Render(sorted), ctx, name);
      OfDescNone(ctx, name);
      RenderOfDesc(sorted, name);
      SortOfDomain(ms, name);
    }
  }

  lemma RenderSingle(t: Pushed)
    ensures Render([t]) == Expand(t)
  {
    assert [t][1..] == [];
  }

  /** A single pushed domain comes back as its suggestions followed by `ctx`. */
  lemma AssembleSingle(stage: seq<Rec>, t: Pushed, ctx: seq<Rec>)
    ensures Assemble(stage, [t], ctx) == Expand(t) + ctx
  {
    assert SortByScore([t]) == [t];
    RenderSingle(t);
  }

  // ---- lemmas: what the engine returns ----

  /** Every returned entry is a rendered domain suggestion, the fallback, or a
      context entry. */
  lemma OutputEntries(p: Profile, ds: seq<Domain>)
    ensures forall r :: r in RecommendationsOver(p, ds) ==>
      DomainSourced(r) || r == NoClearMatch || IsContextEntry(r)
    ensures forall r :: r in RecommendationsOver(p, ds) ==>
      r == NoClearMatch || IsContextEntry(r)
      || exists i :: 0 <= i < |ds| && DomainScore(p, ds[i]) > 2 && r in Expand(MatchOf(p, ds[i]))
  {
    AssembleEntries(StageRecs(p), MatchesIn(p, ds), ContextRecs(p));
    AssembleSound(StageRecs(p), ContextRecs(p), p, ds);
    ContextEntries(p);
  }

  /** The output is the fallback alone exactly when neither an education-stage
      entry nor a domain was pushed. */
  lemma FallbackIff(p: Profile, ds: seq<Domain>)
    ensures RecommendationsOver(p, ds) == [NoClearMatch] <==>
      StageRecs(p) == [] && MatchesIn(p, ds) == []
  {
    ContextEntries(p);
    AssembleFallback(StageRecs(p), MatchesIn(p, ds), ContextRecs(p));
  }

  /** The education-stage entries never reach the output: a profile whose only
      signal is its education level gets back context entries or nothing. */
  lemma StageEntriesDropped(p: Profile, ds: seq<Domain>)
    ensures forall r :: r in StageRecs(p) ==> r !in RecommendationsOver(p, ds)
  {
    OutputEntries(p, ds);
    StageRecsAreStageEntries(p);
    StageEntriesNotSourced();
    StageEntriesApart();
  }

  /** Once something was pushed, each context entry is returned exactly when its
      condition holds. */
  lemma ContextPresence(p: Profile, ds: seq<Domain>)
    requires StageRecs(p) != [] || MatchesIn(p, ds) != []
    ensures BuildPortfolio in RecommendationsOver(p, ds) <==> !p.hasExperience && !p.hasProjects
    ensures GlobalOpportunities in RecommendationsOver(p, ds) <==> p.relocate == "yes" || p.relocate == "maybe"
    ensures StrongAcademics in RecommendationsOver(p, ds) <==> p.cgpa >= 8.0
  {
    var stage, ms, ctx := StageRecs(p), MatchesIn(p, ds), ContextRecs(p);
    ContextNotSourced();
    ContextEntries(p);
    AssembleKeepsContext(stage, ms, ctx, BuildPortfolio);
    AssembleKeepsContext(stage, ms, ctx, GlobalOpportunities);
    AssembleKeepsContext(stage, ms, ctx, StrongAcademics);
  }

  /** A catalogue every domain of which has at least one suggestion. */
  predicate AllSuggest(ds: seq<Domain>) {
    forall i :: 0 <= i < |ds| ==> |ds[i].suggestions| > 0
  }

  /** Some pushed domain means some rendered entry. */
  lemma RenderedNonEmpty(p: Profile, ds: seq<Domain>)
    requires AllSuggest(ds) && MatchesIn(p, ds) != []
    ensures Render(SortByScore(MatchesIn(p, ds))) != []
  {
    var ms := MatchesIn(p, ds);
    var sorted := SortByScore(ms);
    SortPermutes(ms);
    MatchesInSound(p, ds);
    assert sorted[0] in multiset(ms);
    var j :| 0 <= j < |ms| && ms[j] == sorted[0];
    var i :| 0 <= i < |ds| && ms[j] == MatchOf(p, ds[i]) && DomainScore(p, ds[i]) > 2;
    assert |Expand(sorted[0])| > 0;
  }

  /** The output is empty exactly when an education-stage entry was pushed, no
      domain qualified, and no context condition holds. */
  lemma EmptyOutputIff(p: Profile, ds: seq<Domain>)
    requires AllSuggest(ds)
    ensures RecommendationsOver(p, ds) == [] <==>
      && StageRecs(p) != [] && MatchesIn(p, ds) == []
      && (p.hasExperience || p.hasProjects)
      && p.relocate != "yes" && p.relocate != "maybe"
      && p.cgpa < 8.0
  {
    if MatchesIn(p, ds) != [] {
      RenderedNonEmpty(p, ds);
    }
    AssembleEmpty(StageRecs(p), MatchesIn(p, ds), ContextRecs(p));
  }

  /** A domain's entries appear in the output exactly when it scores above 2, and
      they are its first three suggestions, titled and described after it. */
  lemma DomainEntriesInOutput(p: Profile, ds: seq<Domain>, i: nat)
    requires DistinctNames(ds) && i < |ds|
    ensures OfDesc(RecommendationsOver(p, ds), ds[i].name) ==
      if DomainScore(p, ds[i]) > 2 then Expand(MatchOf(p, ds[i])) else []
  {
    MatchesOfDomain(p, ds, i);
    ContextEntries(p);
    AssembleOfDesc(StageRecs(p), MatchesIn(p, ds), ContextRecs(p), ds[i].name);
    RenderSingle(MatchOf(p, ds[i]));
  }

  // ---- lemmas: the ranking as the output shows it ----

  /** Whether `e` is the working-list entry of domain `a` or of domain `b`. */
  predicate NamedEither(e: Pushed, a: string, b: string) {
    Named(e, a) || Named(e, b)
  }

  /** The working-list entries of the domains `a` and `b`, in order. */
  function OfPair(s: seq<Pushed>, a: string, b: string): (r: seq<Pushed>)
    ensures |r| <= |s|
    ensures forall e :: e in r ==> e in s
  {
    if s == [] then [] else (if NamedEither(s[0], a, b) then [s[0]] else []) + OfPair(s[1..], a, b)
  }

  lemma {:induction false} OfPairAppend(s: seq<Pushed>, t: seq<Pushed>, a: string, b: string)
    ensures OfPair(s + t, a, b) == OfPair(s, a, b) + OfPair(t, a, b)
    decreases |s|
  {
    if s == [] {
      assert s + t == t;
    } else {
      var head := if NamedEither(s[0], a, b) then [s[0]] else [];
      assert (s + t)[0] == s[0];
      assert (s + t)[1..] == s[1..] + t;
      OfPairAppend(s[1..], t, a, b);
      AppendAssoc(head, OfPair(s[1..], a, b), OfPair(t, a, b));
    }
  }

  lemma OfPairSingle(e: Pushed, a: string, b: string)
    ensures OfPair([e], a, b) == if NamedEither(e, a, b) then [e] else []
  {
    assert [e][1..] == [];
  }

  /** With no entry of `b` about, the pair filter keeps the entries of `a`. */
  lemma {:induction false} OfPairOneSided(s: seq<Pushed>, a: string, b: string)
    requires OfDomain(s, b) == []
    ensures OfPair(s, a, b) == OfDomain(s, a)
    decreases |s|
  {
    if s != [] {
      OfPairOneSided(s[1..], a, b);
    }
  }

  /** What domain `d` pushes: its entry when it scores above 2, otherwise nothing. */
  function Pushes(p: Profile, d: Domain): (r: seq<Pushed>)
    ensures |r| <= 1
  {
    if DomainScore(p, d) > 2 then [MatchOf(p, d)] else []
  }

  /** Domains `ds[i]` and `ds[j]`, `i < j`, are pushed in catalogue order, each
      exactly when it scores above 2. */
  lemma {:induction false} MatchesOfPair(p: Profile, ds: seq<Domain>, i: nat, j: nat)
    requires DistinctNames(ds) && i < j < |ds|
    ensures OfPair(MatchesIn(p, ds), ds[i].name, ds[j].name) == Pushes(p, ds[i]) + Pushes(p, ds[j])
    decreases |ds|
  {
    if j == |ds| - 1 {
      MatchesOfPairLast(p, ds, i);
    } else {
      var init := ds[..|ds| - 1];
      var d := ds[|ds| - 1];
      var a, b := ds[i].name, ds[j].name;
      assert MatchesIn(p, ds) == MatchesIn(p, init) + Pushes(p, d);
      OfPairAppend(MatchesIn(p, init), Pushes(p, d), a, b);
      assert init[i] == ds[i] && init[j] == ds[j];
      MatchesOfPair(p, init, i, j);
      assert d.name != a && d.name != b;
      OfPairPushes(p, d, a, b);
    }
  }

  /** The case of `MatchesOfPair` where `ds[j]` is the last domain. */
  lemma MatchesOfPairLast(p: Profile, ds: seq<Domain>, i: nat)
    requires DistinctNames(ds) && i < |ds| - 1
    ensures OfPair(MatchesIn(p, ds), ds[i].name, ds[|ds| - 1].name) == Pushes(p, ds[i]) + Pushes(p, ds[|ds| - 1])
  {
    var init := ds[..|ds| - 1];
    var d := ds[|ds| - 1];
    var a, b := ds[i].name, d.name;
    var m0 := MatchesIn(p, init);
    assert OfPair(MatchesIn(p, ds), a, b) == OfPair(m0, a, b) + OfPair(Pushes(p, d), a, b) by {
      assert MatchesIn(p, ds) == m0 + Pushes(p, d);
      OfPairAppend(m0, Pushes(p, d), a, b);
    }
    assert OfPair(m0, a, b) == Pushes(p, ds[i]) by {
      assert init[i] == ds[i];
      MatchesOfAbsent(p, init, b);
      OfPairOneSided(m0, a, b);
      MatchesOfDomain(p, init, i);
    }
    OfPairPushes(p, d, a, b);
  }

  /** A domain's push survives the pair filter exactly when it is one of the pair. */
  lemma OfPairPushes(p: Profile, d: Domain, a: string, b: string)
    ensures OfPair(Pushes(p, d), a, b) == if d.name == a || d.name == b then Pushes(p, d) else []
  {
    if DomainScore(p, d) > 2 {
      OfPairSingle(MatchOf(p, d), a, b);
    }
  }

  /** Filtering a ranked list commutes with inserting into it. */
  lemma {:induction false} InsertOfPair(x: Pushed, t: seq<Pushed>, a: string, b: string)
    requires SortedDesc(t)
    ensures OfPair(Insert(x, t), a, b) ==
      if NamedEither(x, a, b) then Insert(x, OfPair(t, a, b)) else OfPair(t, a, b)
    decreases |t|
  {
    var f := OfPair(t, a, b);
    if t == [] || Key(t[0]) <= Key(x) {
      assert ([x] + t)[1..] == t;
      if f != [] {
        assert f[0] in t;
        assert Key(f[0]) <= Key(x);
      }
    } else {
      var r := Insert(x, t[1..]);
      var g := OfPair(t[1..], a, b);
      var head := if NamedEither(t[0], a, b) then [t[0]] else [];
      assert ([t[0]] + r)[0] == t[0] && ([t[0]] + r)[1..] == r;
      assert OfPair(Insert(x, t), a, b) == head + OfPair(r, a, b);
      assert f == head + g;
      InsertOfPair(x, t[1..], a, b);
      if NamedEither(x, a, b) {
        if head == [] {
          assert head + g == g;
          assert head + Insert(x, g) == Insert(x, g);
        } else {
          assert (head + g)[0] == t[0] && (head + g)[1..] == g;
        }
      } else {
        assert OfPair(r, a, b) == g;
      }
    }
  }

  /** Filtering the ranked list is ranking the filtered list. */
  lemma {:induction false} SortOfPair(s: seq<Pushed>, a: string, b: string)
    ensures OfPair(SortByScore(s), a, b) == SortByScore(OfPair(s, a, b))
    decreases |s|
  {
    if s != [] {
      SortOfPair(s[1..], a, b);
      InsertOfPair(s[0], SortByScore(s[1..]), a, b);
      var f := OfPair(s, a, b);
      if NamedEither(s[0], a, b) {
        assert f[0] == s[0] && f[1..] == OfPair(s[1..], a, b);
      } else {
        assert f == OfPair(s[1..], a, b);
      }
    }
  }

  /** Whether `r` was rendered from domain `a` or from domain `b`. */
  predicate FromEither(r: Rec, a: string, b: string) {
    FromDomain(r, a) || FromDomain(r, b)
  }

  /** The entries of `rs` rendered from the domains `a` and `b`, in order. */
  function OfDescPair(rs: seq<Rec>, a: string, b: string): (r: seq<Rec>)
    ensures |r| <= |rs|
  {
    if rs == [] then [] else (if FromEither(rs[0], a, b) then [rs[0]] else []) + OfDescPair(rs[1..], a, b)
  }

  lemma {:induction false} OfDescPairAppend(s: seq<Rec>, t: seq<Rec>, a: string, b: string)
    ensures OfDescPair(s + t, a, b) == OfDescPair(s, a, b) + OfDescPair(t, a, b)
    decreases |s|
  {
    if s == [] {
      assert s + t == t;
    } else {
      var head := if FromEither(s[0], a, b) then [s[0]] else [];
      assert (s + t)[0] == s[0];
      assert (s + t)[1..] == s[1..] + t;
      OfDescPairAppend(s[1..], t, a, b);
      AppendAssoc(head, OfDescPair(s[1..], a, b), OfDescPair(t, a, b));
    }
  }

  lemma {:induction false} OfDescPairAll(rs: seq<Rec>, a: string, b: string)
    requires forall k :: 0 <= k < |rs| ==> FromEither(rs[k], a, b)
    ensures OfDescPair(rs, a, b) == rs
    decreases |rs|
  {
    if rs != [] {
      OfDescPairAll(rs[1..], a, b);
    }
  }

  lemma {:induction false} OfDescPairNone(rs: seq<Rec>, a: string, b: string)
    requires forall k :: 0 <= k < |rs| ==> !FromEither(rs[k], a, b)
    ensures OfDescPair(rs, a, b) == []
    decreases |rs|
  {
    if rs != [] {
      OfDescPairNone(rs[1..], a, b);
    }
  }

  lemma ExpandOfDescPair(e: Pushed, a: string, b: string)
    ensures OfDescPair(Expand(e), a, b) == if NamedEither(e, a, b) then Expand(e) else []
  {
    if NamedEither(e, a, b) {
      OfDescPairAll(Expand(e), a, b);
    } else if e.DomainMatch? {
      forall k | 0 <= k < |Expand(e)| ensures !FromEither(Expand(e)[k], a, b) {
        if FromDomain(Expand(e)[k], a) {
          DescriptionInjective(e.domain, a);
        }
        if FromDomain(Expand(e)[k], b) {
          DescriptionInjective(e.domain, b);
        }
      }
      OfDescPairNone(Expand(e), a, b);
    }
  }

  /** Picking two domains' entries out of the flattened list is flattening their
      working-list entries, in the same order. */
  lemma {:induction false} RenderOfPair(s: seq<Pushed>, a: string, b: string)
    ensures OfDescPair(Render(s), a, b) == Render(OfPair(s, a, b))
    decreases |s|
  {
    if s != [] {
      OfDescPairAppend(Expand(s[0]), Render(s[1..]), a, b);
      ExpandOfDescPair(s[0], a, b);
      RenderOfPair(s[1..], a, b);
      var head := if NamedEither(s[0], a, b) then [s[0]] else [];
      RenderAppend(head, OfPair(s[1..], a, b));
      if head != [] {
        assert head[1..] == [];
      }
    }
  }

  /** Two domains' share of the output is their working-list entries, ranked
      and flattened. */
  lemma AssembleOfPair(stage: seq<Rec>, ms: seq<Pushed>, ctx: seq<Rec>, a: string, b: string)
    requires forall k :: 0 <= k < |ctx| ==> !DomainSourced(ctx[k])
    ensures OfDescPair(Assemble(stage, ms, ctx), a, b) == Render(SortByScore(OfPair(ms, a, b)))
  {
    if stage == [] && ms == [] {
      FallbackNotSourced();
      OfDescPairNone([NoClearMatch], a, b);
    } else {
      var sorted := SortByScore(ms);
      OfDescPairAppend(Render(sorted), ctx, a, b);
      OfDescPairNone(ctx, a, b);
      RenderOfPair(sorted, a, b);
      SortOfPair(ms, a, b);
    }
  }

  lemma OfDescPairSwap(rs: seq<Rec>, a: string, b: string)
    ensures OfDescPair(rs, a, b) == OfDescPair(rs, b, a)
    decreases |rs|
  {
    if rs != [] {
      OfDescPairSwap(rs[1..], a, b);
    }
  }

  /** Whether domain `ds[i]` ranks ahead of domain `ds[j]`: a higher score, or the
      same score and an earlier place in the catalogue. */
  predicate RanksAhead(p: Profile, ds: seq<Domain>, i: nat, j: nat)
    requires i < |ds| && j < |ds|
  {
    DomainScore(p, ds[i]) > DomainScore(p, ds[j])
    || (DomainScore(p, ds[i]) == DomainScore(p, ds[j]) && i < j)
  }

  /** Two working-list entries are ranked by key, the first one winning ties. */
  lemma RenderPair(x: Pushed, y: Pushed)
    ensures Render(SortByScore([x, y])) ==
      if Key(y) <= Key(x) then Expand(x) + Expand(y) else Expand(y) + Expand(x)
  {
    assert [x, y][1..] == [y];
    assert SortByScore([y]) == [y] by {
      assert [y][1..] == [];
    }
    assert SortByScore([x, y]) == Insert(x, [y]);
    assert [x, y] == [x] + [y] && [y, x] == [y] + [x];
    if Key(y) > Key(x) {
      assert [y][1..] == [];
      assert Insert(x, [y]) == [y] + [x];
    }
    RenderSingle(x);
    RenderSingle(y);
    RenderAppend([x], [y]);
    RenderAppend([y], [x]);
  }

  /** When only `x` and then `y` belong to the domains `a` and `b`, their share of
      the output is their suggestions, ranked by key, `x` winning ties. */
  lemma AssemblePair(stage: seq<Rec>, ms: seq<Pushed>, ctx: seq<Rec>, a: string, b: string, x: Pushed, y: Pushed)
    requires forall k :: 0 <= k < |ctx| ==> !DomainSourced(ctx[k])
    requires OfPair(ms, a, b) == [x, y]
    ensures OfDescPair(Assemble(stage, ms, ctx), a, b) ==
      if Key(y) <= Key(x) then Expand(x) + Expand(y) else Expand(y) + Expand(x)
  {
    AssembleOfPair(stage, ms, ctx, a, b);
    RenderPair(x, y);
  }

  /** Of two qualifying domains, the assembled list holds the suggestions of the
      one that ranks ahead, then those of the other. */
  lemma RankedAssemble(stage: seq<Rec>, ctx: seq<Rec>, p: Profile, ds: seq<Domain>, i: nat, j: nat)
    requires forall k :: 0 <= k < |ctx| ==> !DomainSourced(ctx[k])
    requires DistinctNames(ds) && i < |ds| && j < |ds| && i != j
    requires DomainScore(p, ds[i]) > 2 && DomainScore(p, ds[j]) > 2
    ensures RanksAhead(p, ds, i, j) ==>
      OfDescPair(Assemble(stage, MatchesIn(p, ds), ctx), ds[i].name, ds[j].name)
        == Expand(MatchOf(p, ds[i])) + Expand(MatchOf(p, ds[j]))
  {
    var a, b := ds[i].name, ds[j].name;
    var x, y := MatchOf(p, ds[i]), MatchOf(p, ds[j]);
    var ms := MatchesIn(p, ds);
    if i < j {
      MatchesOfPair(p, ds, i, j);
      AssemblePair(stage, ms, ctx, a, b, x, y);
    } else {
      MatchesOfPair(p, ds, j, i);
      AssemblePair(stage, ms, ctx, b, a, y, x);
      OfDescPairSwap(Assemble(stage, ms, ctx), a, b);
    }
  }

  /** Of two qualifying domains, the output holds the suggestions of the one that
      ranks ahead, then those of the other. */
  lemma RankedOutput(p: Profile, ds: seq<Domain>, i: nat, j: nat)
    requires DistinctNames(ds) && i < |ds| && j < |ds| && i != j
    requires DomainScore(p, ds[i]) > 2 && DomainScore(p, ds[j]) > 2
    ensures RanksAhead(p, ds, i, j) ==>
      OfDescPair(RecommendationsOver(p, ds), ds[i].name, ds[j].name)
        == Expand(MatchOf(p, ds[i])) + Expand(MatchOf(p, ds[j]))
  {
    ContextEntries(p);
    RankedAssemble(StageRecs(p), ContextRecs(p), p, ds, i, j);
  }

  /** Every entry rendered from domain `a` comes before every entry rendered from
      domain `b`. */
  predicate Ahead(rs: seq<Rec>, a: string, b: string) {
    forall m, n :: 0 <= m < |rs| && 0 <= n < |rs| && FromDomain(rs[m], a) && FromDomain(rs[n], b) ==> m < n
  }

  /** No entry of `rs` was rendered from domain `a`. */
  predicate NoneFrom(rs: seq<Rec>, a: string) {
    forall m :: 0 <= m < |rs| ==> !FromDomain(rs[m], a)
  }

  lemma AheadCons(r: Rec, rest: seq<Rec>, a: string, b: string)
    requires Ahead(rest, a, b) && !FromDomain(r, b)
    ensures Ahead([r] + rest, a, b)
  {
    var rs := [r] + rest;
    forall m, n | 0 <= m < |rs| && 0 <= n < |rs| && FromDomain(rs[m], a) && FromDomain(rs[n], b)
      ensures m < n
    {
      assert n > 0;
      if m > 0 {
        assert rs[m] == rest[m - 1] && rs[n] == rest[n - 1];
      }
    }
  }

  lemma NoneFromCons(r: Rec, rest: seq<Rec>, a: string)
    requires NoneFrom(rest, a) && !FromDomain(r, a)
    ensures NoneFrom([r] + rest, a)
  {
    var rs := [r] + rest;
    forall m | 0 <= m < |rs| ensures !FromDomain(rs[m], a) {
      if m > 0 {
        assert rs[m] == rest[m - 1];
      }
    }
  }

  /** When the entries of `a` and `b` come out as those of `a` followed by those of
      `b`, position by position the former precede the latter. */
  lemma {:induction false} AheadOfSplit(rs: seq<Rec>, a: string, b: string, xs: seq<Rec>, ys: seq<Rec>)
    requires a != b
    requires OfDescPair(rs, a, b) == xs + ys
    requires forall k :: 0 <= k < |xs| ==> FromDomain(xs[k], a)
    requires forall k :: 0 <= k < |ys| ==> FromDomain(ys[k], b)
    ensures Ahead(rs, a, b)
    ensures xs == [] ==> NoneFrom(rs, a)
    decreases |rs|
  {
    if rs != [] {
      var r := rs[0];
      var rest := rs[1..];
      assert rs == [r] + rest;
      if FromDomain(r, a) && FromDomain(r, b) {
        DescriptionInjective(a, b);
      } else if FromDomain(r, a) {
        assert OfDescPair(rs, a, b) == [r] + OfDescPair(rest, a, b);
        assert (xs + ys)[0] == r;
        if xs == [] {
          assert false;
        }
        assert (xs + ys)[1..] == xs[1..] + ys;
        AheadOfSplit(rest, a, b, xs[1..], ys);
        AheadCons(r, rest, a, b);
      } else if FromDomain(r, b) {
        assert OfDescPair(rs, a, b) == [r] + OfDescPair(rest, a, b);
        assert (xs + ys)[0] == r;
        if xs != [] {
          assert false;
        }
        assert xs + ys == ys;
        assert OfDescPair(rest, a, b) == xs + ys[1..];
        AheadOfSplit(rest, a, b, xs, ys[1..]);
        NoneFromCons(r, rest, a);
      } else {
        assert OfDescPair(rs, a, b) == OfDescPair(rest, a, b);
        AheadOfSplit(rest, a, b, xs, ys);
        AheadCons(r, rest, a, b);
        if xs == [] {
          NoneFromCons(r, rest, a);
        }
      }
    }
  }

  /** When domain `ds[i]` ranks ahead of a qualifying domain `ds[j]`, every
      assembled entry rendered from `ds[i]` comes before every one rendered from
      `ds[j]`. */
  lemma AheadInAssemble(stage: seq<Rec>, ctx: seq<Rec>, p: Profile, ds: seq<Domain>, i: nat, j: nat)
    requires forall k :: 0 <= k < |ctx| ==> !DomainSourced(ctx[k])
    requires DistinctNames(ds) && i < |ds| && j < |ds| && i != j
    requires DomainScore(p, ds[j]) > 2 && RanksAhead(p, ds, i, j)
    ensures Ahead(Assemble(stage, MatchesIn(p, ds), ctx), ds[i].name, ds[j].name)
  {
    var a, b := ds[i].name, ds[j].name;
    var xs, ys := Expand(MatchOf(p, ds[i])), Expand(MatchOf(p, ds[j]));
    RankedAssemble(stage, ctx, p, ds, i, j);
    if i < j {
      assert a != b;
    } else {
      assert b != a;
    }
    AheadOfSplit(Assemble(stage, MatchesIn(p, ds), ctx), a, b, xs, ys);
  }

  /** The ranking as the returned list shows it: when domain `ds[i]` ranks ahead of
      domain `ds[j]` (a higher score, or an equal one and an earlier place in the
      catalogue) and `ds[j]` qualifies, every entry rendered from `ds[i]` comes
      before every entry rendered from `ds[j]`. */
  lemma RankedAheadInOutput(p: Profile, ds: seq<Domain>, i: nat, j: nat)
    requires DistinctNames(ds) && i < |ds| && j < |ds| && i != j
    requires DomainScore(p, ds[j]) > 2 && RanksAhead(p, ds, i, j)
    ensures Ahead(RecommendationsOver(p, ds), ds[i].name, ds[j].name)
  {
    ContextEntries(p);
    AheadInAssemble(StageRecs(p), ContextRecs(p), p, ds, i, j);
  }

  // ---- lemmas: the knowledge base ----

  /** The knowledge base names its domains apart and gives each suggestions. */
  lemma KnowledgeBaseShape()
    ensures DistinctNames(Domains()) && AllSuggest(Domains())
  {
    DomainsShape();
  }

  /** A profile with no token a domain could match, no goal and low ratings. */
  predicate Silent(p: Profile) {
    && KeywordPool(p) == [] && SkillPool(p) == [] && p.values == []
    && p.lifeGoal == "" && p.entrepreneurship < 4.0 && p.creativity < 4.0
  }

  lemma SilentScoresZero(p: Profile, d: Domain)
    requires Silent(p) && p.personality !in d.personalities
    ensures DomainScore(p, d) == 0
  {
    CountZero(d.keywords, KeywordPool(p));
    CountZero(d.skills, SkillPool(p));
    CountZero(d.values, p.values);
  }

  lemma SilentMatchesNothing(p: Profile, ds: seq<Domain>)
    requires Silent(p)
    requires forall i :: 0 <= i < |ds| ==> p.personality !in ds[i].personalities
    ensures MatchesIn(p, ds) == []
  {
    forall i | 0 <= i < |ds| ensures DomainScore(p, ds[i]) <= 2 {
      SilentScoresZero(p, ds[i]);
    }
    NoneQualify(p, ds);
  }

  /** An empty form gets the fallback entry alone. */
  lemma EmptyFormFallback()
    ensures GenerateRecommendationsResult(EmptyRaw()) == [NoClearMatch]
  {
    EmptyRawDefaults();
    SilentFallback(NormalizeProfile(EmptyRaw()));
  }

  /** A silent profile with no education level and no personality gets the
      fallback entry alone. */
  lemma SilentFallback(p: Profile)
    requires Silent(p) && p.education == "" && p.personality == ""
    ensures RecommendationsFor(p) == [NoClearMatch]
  {
    NoBlankPersonality();
    SilentMatchesNothing(p, Domains());
    NoStageWithoutEducation(p);
    FallbackIff(p, Domains());
  }

  lemma NoStageWithoutEducation(p: Profile)
    requires p.education == ""
    ensures StageRecs(p) == []
  {
  }

  lemma NoBlankPersonality()
    ensures forall i :: 0 <= i < |Domains()| ==> "" !in Domains()[i].personalities
  {
    var kb := Domains();
    assert kb[0] == Technology && kb[1] == ArtsAndDesign && kb[2] == BusinessAndFinance;
    assert kb[3] == PublicServiceAndLaw && kb[4] == Healthcare && kb[5] == EducationAndSocialWork;
  }

  /** The recommendations `generateRecommendations` returns for a raw form. */
  function GenerateRecommendationsResult(raw: RawProfile): seq<Rec> {
    RecommendationsFor(NormalizeProfile(raw))
  }

  /** A profile with every signal of `p` keeps every domain `p` is recommended. */
  lemma MoreSignalsKeepDomain(p: Profile, q: Profile, i: nat)
    requires Covers(p, q) && i < |Domains()|
    requires OfDesc(RecommendationsFor(p), Domains()[i].name) != []
    ensures OfDesc(RecommendationsFor(q), Domains()[i].name) == Expand(MatchOf(q, Domains()[i]))
  {
    var kb := Domains();
    KnowledgeBaseShape();
    DomainEntriesInOutput(p, kb, i);
    DomainEntriesInOutput(q, kb, i);
    ScoreMonotone(p, q, kb[i]);
  }

  /** A 12th-grade science student who knows Python and SQL and calls themself an
      introvert: Technology scores 6 (two skills and the personality), Arts &
      Design only 2 (the personality), so only Technology's three suggestions are
      returned, followed by the portfolio entry; the science-stream entry is
      pushed (ScenarioStage) but dropped. */
  lemma PythonSqlIntrovert(p: Profile)
    requires p.education == "12th" && p.stream == "science" && ScenarioProfile(p)
    requires !p.hasExperience && !p.hasProjects && p.relocate == "" && p.cgpa < 8.0
    ensures DomainScore(p, Technology) == 6 && DomainScore(p, ArtsAndDesign) == 2
    ensures RecommendationsFor(p) == Expand(MatchOf(p, Technology)) + [BuildPortfolio]
  {
    ScenarioTechnology(p);
    ScenarioArts(p);
    ScenarioMatches(p);
    AssembleSingle(StageRecs(p), MatchOf(p, Technology), ContextRecs(p));
    PortfolioOnly(p);
  }

  /** A profile without experience or projects, not relocating and below 8.0
      gets the portfolio entry as its only context entry. */
  lemma PortfolioOnly(p: Profile)
    requires !p.hasExperience && !p.hasProjects && p.relocate == "" && p.cgpa < 8.0
    ensures ContextRecs(p) == [BuildPortfolio]
  {
  }

  /** The scenario's education level and stream push the science-stream entry. */
  lemma ScenarioStage(p: Profile)
    requires p.education == "12th" && p.stream == "science"
    ensures StageRecs(p) == [ScienceStream]
  {
    // "12th" differs from every other education level by length or second letter
    assert |p.education| == 4 && p.education[1] == '2';
  }

  /** Of the knowledge base, only Technology qualifies for the scenario profile. */
  lemma ScenarioMatches(p: Profile)
    requires ScenarioProfile(p)
    ensures MatchesIn(p, Domains()) == [MatchOf(p, Technology)]
  {
    ScenarioTechnology(p);
    ScenarioArts(p);
    ScenarioBusiness(p);
    ScenarioQuiet(p, PublicServiceAndLaw);
    ScenarioQuiet(p, Healthcare);
    ScenarioQuiet(p, EducationAndSocialWork);
    var kb := Domains();
    assert kb[0] == Technology && kb[1] == ArtsAndDesign && kb[2] == BusinessAndFinance;
    assert kb[3] == PublicServiceAndLaw && kb[4] == Healthcare && kb[5] == EducationAndSocialWork;
    SingleMatch(p, kb, 0);
  }

  /** When exactly one domain qualifies, the output is its rendered suggestions
      followed by the context entries. */
  lemma SingleDomainOutput(p: Profile, ds: seq<Domain>, i: nat)
    requires i < |ds| && DomainScore(p, ds[i]) > 2
    requires forall j :: 0 <= j < |ds| && j != i ==> DomainScore(p, ds[j]) <= 2
    ensures RecommendationsOver(p, ds) == Expand(MatchOf(p, ds[i])) + ContextRecs(p)
  {
    SingleMatch(p, ds, i);
    AssembleSingle(StageRecs(p), MatchOf(p, ds[i]), ContextRecs(p));
  }

  lemma {:induction false} SingleMatch(p: Profile, ds: seq<Domain>, i: nat)
    requires i < |ds| && DomainScore(p, ds[i]) > 2
    requires forall j :: 0 <= j < |ds| && j != i ==> DomainScore(p, ds[j]) <= 2
    ensures MatchesIn(p, ds) == [MatchOf(p, ds[i])]
    decreases |ds|
  {
    var init := ds[..|ds| - 1];
    if i == |ds| - 1 {
      forall j | 0 <= j < |init| ensures DomainScore(p, init[j]) <= 2 {
        assert init[j] == ds[j];
      }
      NoneQualify(p, init);
    } else {
      forall j | 0 <= j < |init| && j != i ensures DomainScore(p, init[j]) <= 2 {
        assert init[j] == ds[j];
      }
      assert init[i] == ds[i];
      SingleMatch(p, init, i);
    }
  }

  lemma {:induction false} NoneQualify(p: Profile, ds: seq<Domain>)
    requires forall j :: 0 <= j < |ds| ==> DomainScore(p, ds[j]) <= 2
    ensures MatchesIn(p, ds) == []
    decreases |ds|
  {
    if ds != [] {
      var init := ds[..|ds| - 1];
      forall j | 0 <= j < |init| ensures DomainScore(p, init[j]) <= 2 {
        assert init[j] == ds[j];
      }
      NoneQualify(p, init);
    }
  }

  /** The scenario profile's score is its skill and personality part. */
  predicate ScenarioProfile(p: Profile) {
    && KeywordPool(p) == [] && p.techSkills == ["python", "sql"] && p.softSkills == []
    && p.values == [] && p.personality == "introvert" && p.lifeGoal == ""
    && p.entrepreneurship < 4.0 && p.creativity < 4.0
  }

  lemma ScenarioScore(p: Profile, d: Domain)
    requires ScenarioProfile(p)
    ensures DomainScore(p, d) ==
      2 * Count(d.skills, ["python", "sql"]) + (if "introvert" in d.personalities then 2 else 0)
  {
    CountZero(d.keywords, KeywordPool(p));
    CountZero(d.values, p.values);
    assert SkillPool(p) == ["python", "sql"];
  }

  /** Python and SQL are two of Technology's skills; the personality matches. */
  lemma ScenarioTechnology(p: Profile)
    requires ScenarioProfile(p)
    ensures DomainScore(p, Technology) == 6
  {
    var pool: seq<string> := ["python", "sql"];
    var w := Technology.skills;
    Count6(w, pool);
    // length or first letter tells the skills other than "python" and "sql" apart from both
    assert |w[1]| == 4 && |w[4]| == 5 && |w[5]| == 10;
    assert w[2][0] == 'c';
    ScenarioScore(p, Technology);
  }

  /** No Arts & Design skill is Python or SQL; the personality matches. */
  lemma ScenarioArts(p: Profile)
    requires ScenarioProfile(p)
    ensures DomainScore(p, ArtsAndDesign) == 2
  {
    var w := ArtsAndDesign.skills;
    Count6(w, ["python", "sql"]);
    // the skills differ in length from "python" (6) and "sql" (3)
    assert |w[0]| == 9 && |w[1]| == 11 && |w[2]| == 5 && |w[3]| == 2 && |w[4]| == 2 && |w[5]| == 9;
    ScenarioScore(p, ArtsAndDesign);
  }

  /** No Business & Finance skill is Python or SQL, and "introvert" is not one
      of its personalities. */
  lemma ScenarioBusiness(p: Profile)
    requires ScenarioProfile(p)
    ensures DomainScore(p, BusinessAndFinance) == 0
  {
    var w := BusinessAndFinance.skills;
    // the skills differ in length from "python" (6) and "sql" (3)
    assert |w[0]| == 5 && |w[1]| == 10 && |w[2]| == 13 && |w[3]| == 10;
    CountZero(w, ["python", "sql"]);
    var ps := BusinessAndFinance.personalities;
    // first letter or length tells the personalities apart from "introvert"
    assert ps[0][0] == 'e' && |ps[1]| == 6;
    ScenarioScore(p, BusinessAndFinance);
  }

  /** A domain without skills whose personalities miss "introvert" scores 0. */
  lemma ScenarioQuiet(p: Profile, d: Domain)
    requires ScenarioProfile(p) && d.skills == []
    requires forall k :: 0 <= k < |d.personalities| ==> d.personalities[k] != "introvert"
    ensures DomainScore(p, d) == 0
  {
    ScenarioScore(p, d);
  }
}
