/** Domain-affinity scoring: the integer tally that measures how well a canonical
    profile matches one knowledge-base domain. */
module Scoring {
  import opened Text
  import opened Profile
  import opened KnowledgeBase

  /** How many entries of `wanted` occur in `pool` (with repetition in `wanted`). */
  function Count(wanted: seq<string>, pool: seq<string>): (n: nat)
    ensures n <= |wanted|
  {
    if wanted == [] then 0
    else Count(wanted[..|wanted| - 1], pool) + (if wanted[|wanted| - 1] in pool then 1 else 0)
  }

  /** The tokens a domain keyword is looked up in. */
  function KeywordPool(p: Profile): seq<string> {
    p.subjects + p.industries + p.hobbies
  }

  /** The tokens a domain skill is looked up in. */
  function SkillPool(p: Profile): seq<string> {
    p.techSkills + p.softSkills
  }

  /** The life-goal modifiers: +2 for each goal word found in `lifeGoal` (as a
      substring) whose domain list names this domain. */
  function GoalBonus(p: Profile, name: string): int {
    (if Contains(p.lifeGoal, "income") && name in ["Technology", "Business & Finance"] then 2 else 0)
    + (if Contains(p.lifeGoal, "innovation") && name in ["Technology", "Arts & Design", "Business & Finance"] then 2 else 0)
    + (if Contains(p.lifeGoal, "social") && name in ["Education / Social Work", "Healthcare"] then 2 else 0)
  }

  /** The rating modifiers: an entrepreneurship rating of at least 4 boosts
      "Business & Finance", a creativity rating of at least 4 "Arts & Design". */
  function RatingBonus(p: Profile, name: string): int {
    (if p.entrepreneurship >= 4.0 && name == "Business & Finance" then 2 else 0)
    + (if p.creativity >= 4.0 && name == "Arts & Design" then 2 else 0)
  }

  /** The affinity of `p` for `d`: 2 per keyword found in subjects, industries or
      hobbies, 2 per skill found in technical or soft skills, 2 for a listed
      personality, 1 per shared value, plus the goal and rating modifiers. */
  function DomainScore(p: Profile, d: Domain): (r: int)
    ensures r >= 2 * Count(d.keywords, KeywordPool(p)) + 2 * Count(d.skills, SkillPool(p)) + Count(d.values, p.values)
    ensures p.personality in d.personalities ==> r >= 2
  {
    2 * Count(d.keywords, KeywordPool(p))
    + 2 * Count(d.skills, SkillPool(p))
    + (if p.personality in d.personalities then 2 else 0)
    + Count(d.values, p.values)
    + GoalBonus(p, d.name)
    + RatingBonus(p, d.name)
  }

  /** The body of the `CAREER_DOMAINS.forEach` callback up to the threshold test:
      three `forEach` loops accumulate the score, then the fixed modifiers. */
  method ScoreDomain(p: Profile, d: Domain) returns (score: int)
    ensures score == DomainScore(p, d)
  {
    score := 0;
    var i := 0;
    while i < |d.keywords|
      invariant 0 <= i <= |d.keywords|
      invariant score == 2 * Count(d.keywords[..i], KeywordPool(p))
    {
      var k := d.keywords[i];
      if k in p.subjects || k in p.industries || k in p.hobbies {
        score := score + 2;
      }
      assert d.keywords[..i + 1][..i] == d.keywords[..i];
      i := i + 1;
    }
    assert d.keywords[..i] == d.keywords;
    var base := score;

    i := 0;
    while i < |d.skills|
      invariant 0 <= i <= |d.skills|
      invariant score == base + 2 * Count(d.skills[..i], SkillPool(p))
    {
      var s := d.skills[i];
      if s in p.techSkills || s in p.softSkills {
        score := score + 2;
      }
      assert d.skills[..i + 1][..i] == d.skills[..i];
      i := i + 1;
    }
    assert d.skills[..i] == d.skills;

    if p.personality in d.personalities {
      score := score + 2;
    }
    base := score;

    i := 0;
    while i < |d.values|
      invariant 0 <= i <= |d.values|
      invariant score == base + Count(d.values[..i], p.values)
    {
      var v := d.values[i];
      if v in p.values {
        score := score + 1;
      }
      assert d.values[..i + 1][..i] == d.values[..i];
      i := i + 1;
    }
    assert d.values[..i] == d.values;

    if Contains(p.lifeGoal, "income") && d.name in ["Technology", "Business & Finance"] {
      score := score + 2;
    }
    if Contains(p.lifeGoal, "innovation") && d.name in ["Technology", "Arts & Design", "Business & Finance"] {
      score := score + 2;
    }
    if Contains(p.lifeGoal, "social") && d.name in ["Education / Social Work", "Healthcare"] {
      score := score + 2;
    }
    if p.entrepreneurship >= 4.0 && d.name == "Business & Finance" {
      score := score + 2;
    }
    if p.creativity >= 4.0 && d.name == "Arts & Design" {
      score := score + 2;
    }
  }

  /** Nothing is counted exactly when no wanted entry is in the pool. */
  lemma {:induction false} CountZero(wanted: seq<string>, pool: seq<string>)
    ensures Count(wanted, pool) == 0 <==> forall i :: 0 <= i < |wanted| ==> wanted[i] !in pool
    decreases |wanted|
  {
    if wanted != [] {
      var init := wanted[..|wanted| - 1];
      CountZero(init, pool);
      assert forall i :: 0 <= i < |init| ==> init[i] == wanted[i];
    }
  }

  /** Everything is counted exactly when every wanted entry is in the pool. */
  lemma {:induction false} CountAll(wanted: seq<string>, pool: seq<string>)
    ensures Count(wanted, pool) == |wanted| <==> forall i :: 0 <= i < |wanted| ==> wanted[i] in pool
    decreases |wanted|
  {
    if wanted != [] {
      var init := wanted[..|wanted| - 1];
      CountAll(init, pool);
      assert forall i :: 0 <= i < |init| ==> init[i] == wanted[i];
    }
  }

  /** Counting distributes over concatenation of the wanted list. */
  lemma {:induction false} CountAppend(a: seq<string>, b: seq<string>, pool: seq<string>)
    ensures Count(a + b, pool) == Count(a, pool) + Count(b, pool)
    decreases |b|
  {
    if b == [] {
      assert a + b == a;
    } else {
      assert (a + b)[..|a + b| - 1] == a + b[..|b| - 1];
      CountAppend(a, b[..|b| - 1], pool);
    }
  }

  /** Counting over six wanted entries, one at a time. */
  lemma Count6(w: seq<string>, pool: seq<string>)
    requires |w| == 6
    ensures Count(w, pool) ==
      (if w[0] in pool then 1 else 0) + (if w[1] in pool then 1 else 0)
      + (if w[2] in pool then 1 else 0) + (if w[3] in pool then 1 else 0)
      + (if w[4] in pool then 1 else 0) + (if w[5] in pool then 1 else 0)
  {
    var w5, w4, w3, w2, w1 := w[..5], w[..4], w[..3], w[..2], w[..1];
    assert w5[..4] == w4 && w4[..3] == w3 && w3[..2] == w2 && w2[..1] == w1 && w1[..0] == [];
    assert Count(w1, pool) == (if w[0] in pool then 1 else 0);
    assert Count(w2, pool) == Count(w1, pool) + (if w[1] in pool then 1 else 0);
    assert Count(w3, pool) == Count(w2, pool) + (if w[2] in pool then 1 else 0);
    assert Count(w4, pool) == Count(w3, pool) + (if w[3] in pool then 1 else 0);
    assert Count(w5, pool) == Count(w4, pool) + (if w[4] in pool then 1 else 0);
    assert Count(w, pool) == Count(w5, pool) + (if w[5] in pool then 1 else 0);
  }

  /** A larger pool never counts fewer matches. */
  lemma {:induction false} CountMonotone(wanted: seq<string>, pool: seq<string>, pool': seq<string>)
    requires forall t :: t in pool ==> t in pool'
    ensures Count(wanted, pool) <= Count(wanted, pool')
    decreases |wanted|
  {
    if wanted != [] {
      CountMonotone(wanted[..|wanted| - 1], pool, pool');
    }
  }

  /** `q` has every signal `p` has: each list keeps at least `p`'s tokens, the
      ratings are no lower, and the personality and life goal are the same. */
  predicate Covers(p: Profile, q: Profile) {
    && (forall t :: t in KeywordPool(p) ==> t in KeywordPool(q))
    && (forall t :: t in SkillPool(p) ==> t in SkillPool(q))
    && (forall t :: t in p.values ==> t in q.values)
    && p.personality == q.personality && p.lifeGoal == q.lifeGoal
    && p.entrepreneurship <= q.entrepreneurship && p.creativity <= q.creativity
  }

  /** Adding signals to a profile never lowers any domain's score. */
  lemma ScoreMonotone(p: Profile, q: Profile, d: Domain)
    requires Covers(p, q)
    ensures DomainScore(p, d) <= DomainScore(q, d)
  {
    CountMonotone(d.keywords, KeywordPool(p), KeywordPool(q));
    CountMonotone(d.skills, SkillPool(p), SkillPool(q));
    CountMonotone(d.values, p.values, q.values);
  }

  /** A personality match on its own is worth exactly 2. */
  lemma PersonalityAloneScoresTwo(p: Profile, d: Domain)
    requires forall i :: 0 <= i < |d.keywords| ==> d.keywords[i] !in KeywordPool(p)
    requires forall i :: 0 <= i < |d.skills| ==> d.skills[i] !in SkillPool(p)
    requires forall i :: 0 <= i < |d.values| ==> d.values[i] !in p.values
    requires GoalBonus(p, d.name) == 0 && RatingBonus(p, d.name) == 0
    requires p.personality in d.personalities
    ensures DomainScore(p, d) == 2
  {
    CountZero(d.keywords, KeywordPool(p));
    CountZero(d.skills, SkillPool(p));
    CountZero(d.values, p.values);
  }

  /** Two matching keywords alone already pass the threshold of 2. */
  lemma TwoKeywordsScoreAboveTwo(p: Profile, d: Domain, i: nat, j: nat)
    requires i < j < |d.keywords|
    requires d.keywords[i] in KeywordPool(p) && d.keywords[j] in KeywordPool(p)
    ensures DomainScore(p, d) >= 4
  {
    CountAtLeastTwo(d.keywords, KeywordPool(p), i, j);
  }

  lemma {:induction false} CountAtLeastTwo(wanted: seq<string>, pool: seq<string>, i: nat, j: nat)
    requires i < j < |wanted| && wanted[i] in pool && wanted[j] in pool
    ensures Count(wanted, pool) >= 2
    decreases |wanted|
  {
    var init := wanted[..|wanted| - 1];
    if j < |wanted| - 1 {
      assert init[i] == wanted[i] && init[j] == wanted[j];
      CountAtLeastTwo(init, pool, i, j);
    } else {
      assert init[i] == wanted[i];
      CountAtLeastOne(init, pool, i);
    }
  }

  lemma {:induction false} CountAtLeastOne(wanted: seq<string>, pool: seq<string>, i: nat)
    requires i < |wanted| && wanted[i] in pool
    ensures Count(wanted, pool) >= 1
    decreases |wanted|
  {
    var init := wanted[..|wanted| - 1];
    if i < |wanted| - 1 {
      assert init[i] == wanted[i];
      CountAtLeastOne(init, pool, i);
    }
  }
}
