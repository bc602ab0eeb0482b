/** The static catalogue of career domains the engine scores a profile against. */
module KnowledgeBase {

  datatype Suggestion = Suggestion(title: string, path: string)

  /** One career domain. Every list is present; a list the catalogue does not give
      is empty, which is what the load-time fill-in leaves behind. */
  datatype Domain = Domain(
    name: string,
    keywords: seq<string>,
    skills: seq<string>,
    personalities: seq<string>,
    values: seq<string>,
    suggestions: seq<Suggestion>)

  /** `CAREER_DOMAINS`, in catalogue order. */
  function Domains(): (kb: seq<Domain>)
    ensures |kb| == 6
  {
    [Technology, ArtsAndDesign, BusinessAndFinance, PublicServiceAndLaw,
     Healthcare, EducationAndSocialWork]
  }

  /** The catalogue names its domains apart and gives each two or three
      suggestions. */
  lemma DomainsShape()
    ensures forall i, j :: 0 <= i < j < |Domains()| ==> Domains()[i].name != Domains()[j].name
    ensures forall i :: 0 <= i < |Domains()| ==> 2 <= |Domains()[i].suggestions| <= 3
  {
    var names := ["Technology", "Arts & Design", "Business & Finance", "Public Service / Law",
      "Healthcare", "Education / Social Work"];
    assert forall i :: 0 <= i < 6 ==> Domains()[i].name == names[i];
    assert forall i, j :: 0 <= i < j < 6 ==> names[i] != names[j] by {
      // the names tell the domains apart by their first letter alone
      assert names[0][0] == 'T' && names[1][0] == 'A' && names[2][0] == 'B';
      assert names[3][0] == 'P' && names[4][0] == 'H' && names[5][0] == 'E';
    }
  }

  const Technology: Domain :=
    Domain("Technology",
      ["coding", "computer", "ai", "data", "software", "machine learning", "web", "app", "robotics"],
      ["python", "java", "c++", "sql", "react", "javascript"],
      ["introvert", "analytical"],
      ["innovation", "logic"],
      [ Suggestion("Software Engineer", "Learn DSA, build projects, intern at tech startups."),
        Suggestion("Data Analyst / Scientist", "Learn Python, SQL, PowerBI, ML basics."),
        Suggestion("AI/ML Engineer", "Specialize in ML frameworks; build AI projects.") ])

  const ArtsAndDesign: Domain :=
    Domain("Arts & Design",
      ["drawing", "art", "creative", "design", "media", "aesthetics", "architecture", "interior"],
      ["photoshop", "illustrator", "figma", "ui", "ux", "designing"],
      ["creative", "introvert", "extrovert"],
      ["creativity", "expression"],
      [ Suggestion("Graphic Designer", "Create a portfolio; learn Adobe tools."),
        Suggestion("UI/UX Designer", "Study user experience; build product mockups."),
        Suggestion("Interior Designer", "Explore architecture/interior design courses; build creative portfolio.") ])

  const BusinessAndFinance: Domain :=
    Domain("Business & Finance",
      ["business", "finance", "economics", "management", "marketing", "sales"],
      ["excel", "accounting", "communication", "leadership"],
      ["extrovert", "leader"],
      ["growth", "stability", "innovation"],
      [ Suggestion("Entrepreneur / Startup Founder", "Develop business ideas; join incubators."),
        Suggestion("Financial Analyst", "Learn financial modeling and market analysis."),
        Suggestion("Marketing Manager", "Develop content, campaigns, and market research.") ])

  const PublicServiceAndLaw: Domain :=
    Domain("Public Service / Law",
      ["law", "justice", "policy", "government", "civil"],
      [],
      ["ambitious", "disciplined"],
      ["justice", "service"],
      [ Suggestion("Civil Services / UPSC", "Prepare for UPSC or State PSC exams."),
        Suggestion("Lawyer / Legal Consultant", "Pursue LLB; specialize in corporate or civil law.") ])

  const Healthcare: Domain :=
    Domain("Healthcare",
      ["medical", "biology", "health", "helping", "care"],
      [],
      ["empathetic"],
      ["service", "care"],
      [ Suggestion("Doctor / Nurse", "Medical degree (MBBS, B.Sc Nursing)."),
        Suggestion("Healthcare Administrator", "Blend management + healthcare."),
        Suggestion("Psychologist / Therapist", "Study psychology, counseling certifications.") ])

  const EducationAndSocialWork: Domain :=
    Domain("Education / Social Work",
      ["teaching", "training", "community", "education", "volunteer"],
      [],
      ["empathetic", "extrovert"],
      ["service", "impact"],
      [ Suggestion("Teacher / Trainer", "Get B.Ed or teaching certification."),
        Suggestion("NGO / Social Worker", "Work in public policy or non-profit sector.") ])
}
