/** The rule-based counsellor (`getCareerRecommendations`): four independent
    membership tests each push one career, in a fixed order, and a fallback
    career is pushed when none of them fires. */
module CareerCounselor {

  datatype Career = Career(title: string, reason: string)

  const SoftwareDeveloper: Career :=
    Career("Software Developer", "You enjoy solving problems and have an interest in technology.")
  const MarketingManager: Career :=
    Career("Marketing Manager", "You are good at understanding people and presenting ideas.")
  const UiUxDesigner: Career :=
    Career("UI/UX Designer", "You have a strong sense of creativity and visual thinking.")
  const Psychologist: Career :=
    Career("Psychologist", "You want to make an emotional impact and help people directly.")
  const Counselor: Career :=
    Career("Career Counselor", "You seem to enjoy understanding and guiding others' paths.")

  /** The four rule-driven careers, in the order the rules are tried. */
  function Catalogue(): seq<Career> {
    [SoftwareDeveloper, MarketingManager, UiUxDesigner, Psychologist]
  }

  /** The position of a career in the output order; the fallback comes last. */
  function Rank(c: Career): nat {
    if c == SoftwareDeveloper then 0
    else if c == MarketingManager then 1
    else if c == UiUxDesigner then 2
    else if c == Psychologist then 3
    else 4
  }

  /** The rule of career `c`: an interest or a strength for the first three, a
      life goal for the psychologist. */
  predicate Fires(c: Career, interests: seq<string>, strengths: seq<string>, lifeGoals: seq<string>) {
    if c == SoftwareDeveloper then "technology" in interests || "problem solving" in strengths
    else if c == MarketingManager then "business" in interests || "communication" in strengths
    else if c == UiUxDesigner then "creativity" in interests || "design" in strengths
    else if c == Psychologist then "help others" in lifeGoals
    else false
  }

  /** The entries of `cs` whose rule fires, in the order of `cs`. */
  function Firing(cs: seq<Career>, interests: seq<string>, strengths: seq<string>, lifeGoals: seq<string>): (r: seq<Career>)
    ensures |r| <= |cs|
    ensures forall k :: 0 <= k < |r| ==> r[k] in cs
  {
    if cs == [] then []
    else
      var head := if Fires(cs[0], interests, strengths, lifeGoals) then [cs[0]] else [];
      head + Firing(cs[1..], interests, strengths, lifeGoals)
  }

  /** The careers recommended: the catalogue entries whose rule fires, or the
      fallback alone when none does. */
  function CareersFor(interests: seq<string>, strengths: seq<string>, lifeGoals: seq<string>): (r: seq<Career>)
    ensures 1 <= |r| <= 4
  {
    var fired := Firing(Catalogue(), interests, strengths, lifeGoals);
    if fired == [] then [Counselor] else fired
  }

  /** `getCareerRecommendations`, with the three profile fields read as arrays. */
  method GetCareerRecommendations(interests: seq<string>, strengths: seq<string>, lifeGoals: seq<string>)
    returns (careers: seq<Career>)
    ensures careers == CareersFor(interests, strengths, lifeGoals)
  {
    careers := [];
    if "technology" in interests || "problem solving" in strengths {
      careers := careers + [SoftwareDeveloper];
    }
    if "business" in interests || "communication" in strengths {
      careers := careers + [MarketingManager];
    }
    if "creativity" in interests || "design" in strengths {
      careers := careers + [UiUxDesigner];
    }
    if "help others" in lifeGoals {
      careers := careers + [Psychologist];
    }
    assert careers == Firing(Catalogue(), interests, strengths, lifeGoals) by {
      CatalogueFiring(interests, strengths, lifeGoals);
    }
    if |careers| == 0 {
      careers := careers + [Counselor];
    }
  }

  /** The catalogue filter spelled out rule by rule. */
  lemma CatalogueFiring(interests: seq<string>, strengths: seq<string>, lifeGoals: seq<string>)
    ensures Firing(Catalogue(), interests, strengths, lifeGoals) ==
      (if "technology" in interests || "problem solving" in strengths then [SoftwareDeveloper] else [])
      + (if "business" in interests || "communication" in strengths then [MarketingManager] else [])
      + (if "creativity" in interests || "design" in strengths then [UiUxDesigner] else [])
      + (if "help others" in lifeGoals then [Psychologist] else [])
  {
    CareersDistinct();
    Firing4(Catalogue(), interests, strengths, lifeGoals);
  }

  /** The entries kept from a four-entry list, rule by rule. */
  function Kept(c: Career, interests: seq<string>, strengths: seq<string>, lifeGoals: seq<string>): seq<Career> {
    if Fires(c, interests, strengths, lifeGoals) then [c] else []
  }

  lemma Firing4(cs: seq<Career>, interests: seq<string>, strengths: seq<string>, lifeGoals: seq<string>)
    requires |cs| == 4
    ensures Firing(cs, interests, strengths, lifeGoals) ==
      Kept(cs[0], interests, strengths, lifeGoals) + Kept(cs[1], interests, strengths, lifeGoals)
      + Kept(cs[2], interests, strengths, lifeGoals) + Kept(cs[3], interests, strengths, lifeGoals)
  {
    var i, s, g := interests, strengths, lifeGoals;
    assert cs[1..][1..][1..][1..] == [];
    assert Firing(cs[1..][1..][1..], i, s, g) == Kept(cs[3], i, s, g);
    assert Firing(cs[1..][1..], i, s, g) == Kept(cs[2], i, s, g) + Kept(cs[3], i, s, g);
    assert Firing(cs[1..], i, s, g) == Kept(cs[1], i, s, g) + (Kept(cs[2], i, s, g) + Kept(cs[3], i, s, g));
    AppendAssoc4(Kept(cs[0], i, s, g), Kept(cs[1], i, s, g), Kept(cs[2], i, s, g), Kept(cs[3], i, s, g));
  }

  lemma AppendAssoc4(a: seq<Career>, b: seq<Career>, c: seq<Career>, d: seq<Career>)
    ensures a + (b + (c + d)) == a + b + c + d
  {
  }

  lemma CareersDistinct()
    ensures SoftwareDeveloper != MarketingManager && SoftwareDeveloper != UiUxDesigner
    ensures SoftwareDeveloper != Psychologist && SoftwareDeveloper != Counselor
    ensures MarketingManager != UiUxDesigner && MarketingManager != Psychologist
    ensures MarketingManager != Counselor
    ensures UiUxDesigner != Psychologist && UiUxDesigner != Counselor
    ensures Psychologist != Counselor
  {
    // the titles have pairwise different lengths
    assert |SoftwareDeveloper.title| == 18 && |MarketingManager.title| == 17;
    assert |UiUxDesigner.title| == 14 && |Psychologist.title| == 12 && |Counselor.title| == 16;
  }

  // ---- lemmas ----

  /** Filtering keeps exactly the entries whose rule fires. */
  lemma {:induction false} FiringMembers(cs: seq<Career>, c: Career,
      interests: seq<string>, strengths: seq<string>, lifeGoals: seq<string>)
    ensures c in Firing(cs, interests, strengths, lifeGoals) <==>
      c in cs && Fires(c, interests, strengths, lifeGoals)
    decreases |cs|
  {
    if cs != [] {
      FiringMembers(cs[1..], c, interests, strengths, lifeGoals);
      assert cs == [cs[0]] + cs[1..];
    }
  }

  /** Strictly increasing ranks: a fixed order with no career twice. */
  predicate StrictlyRanked(cs: seq<Career>) {
    forall i, j :: 0 <= i < j < |cs| ==> Rank(cs[i]) < Rank(cs[j])
  }

  /** Filtering a strictly ranked list keeps it strictly ranked. */
  lemma {:induction false} FiringRanked(cs: seq<Career>,
      interests: seq<string>, strengths: seq<string>, lifeGoals: seq<string>)
    requires StrictlyRanked(cs)
    ensures StrictlyRanked(Firing(cs, interests, strengths, lifeGoals))
    decreases |cs|
  {
    if cs != [] {
      var tail := Firing(cs[1..], interests, strengths, lifeGoals);
      FiringRanked(cs[1..], interests, strengths, lifeGoals);
      if Fires(cs[0], interests, strengths, lifeGoals) {
        forall k | 0 <= k < |tail| ensures Rank(cs[0]) < Rank(tail[k]) {
          assert tail[k] in cs[1..];
          var m :| 0 <= m < |cs[1..]| && cs[1..][m] == tail[k];
          assert cs[m + 1] == tail[k];
        }
        ConsRanked(cs[0], tail);
      }
    }
  }

  /** A career ranked before every entry of a strictly ranked list can lead it. */
  lemma ConsRanked(c: Career, tail: seq<Career>)
    requires StrictlyRanked(tail)
    requires forall k :: 0 <= k < |tail| ==> Rank(c) < Rank(tail[k])
    ensures StrictlyRanked([c] + tail)
  {
    var r := [c] + tail;
    forall i, j | 0 <= i < j < |r| ensures Rank(r[i]) < Rank(r[j]) {
      assert r[j] == tail[j - 1];
      if i > 0 {
        assert r[i] == tail[i - 1];
      }
    }
  }

  /** The output is never empty, holds at most four careers, and lists them in
      the fixed order Software Developer, Marketing Manager, UI/UX Designer,
      Psychologist, each at most once. */
  lemma OutputShape(interests: seq<string>, strengths: seq<string>, lifeGoals: seq<string>)
    ensures 1 <= |CareersFor(interests, strengths, lifeGoals)| <= 4
    ensures StrictlyRanked(CareersFor(interests, strengths, lifeGoals))
  {
    CareersDistinct();
    assert StrictlyRanked(Catalogue());
    FiringRanked(Catalogue(), interests, strengths, lifeGoals);
  }

  /** Each rule-driven career is recommended exactly when its own condition
      holds; the psychologist depends on the life goals alone. */
  lemma Presence(interests: seq<string>, strengths: seq<string>, lifeGoals: seq<string>)
    ensures SoftwareDeveloper in CareersFor(interests, strengths, lifeGoals) <==>
      "technology" in interests || "problem solving" in strengths
    ensures MarketingManager in CareersFor(interests, strengths, lifeGoals) <==>
      "business" in interests || "communication" in strengths
    ensures UiUxDesigner in CareersFor(interests, strengths, lifeGoals) <==>
      "creativity" in interests || "design" in strengths
    ensures Psychologist in CareersFor(interests, strengths, lifeGoals) <==>
      "help others" in lifeGoals
  {
    CareersDistinct();
    var cat := Catalogue();
    FiringMembers(cat, SoftwareDeveloper, interests, strengths, lifeGoals);
    FiringMembers(cat, MarketingManager, interests, strengths, lifeGoals);
    FiringMembers(cat, UiUxDesigner, interests, strengths, lifeGoals);
    FiringMembers(cat, Psychologist, interests, strengths, lifeGoals);
  }

  /** The fallback career appears exactly when no rule fires, and then alone. */
  lemma FallbackIff(interests: seq<string>, strengths: seq<string>, lifeGoals: seq<string>)
    ensures Counselor in CareersFor(interests, strengths, lifeGoals) <==>
      && "technology" !in interests && "problem solving" !in strengths
      && "business" !in interests && "communication" !in strengths
      && "creativity" !in interests && "design" !in strengths
      && "help others" !in lifeGoals
    ensures Counselor in CareersFor(interests, strengths, lifeGoals) ==>
      CareersFor(interests, strengths, lifeGoals) == [Counselor]
  {
    CareersDistinct();
    CatalogueFiring(interests, strengths, lifeGoals);
  }
}
