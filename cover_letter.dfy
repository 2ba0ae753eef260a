/** The deterministic string decisions of the cover-letter generator
    (cover_letter_generator.py): keyword extraction, template choice, the
    key-skills phrase, the contact block and its appending to a generated
    letter, the company sentence fallback and the output file name. */
module CoverLetter {
  import opened Wrappers
  import opened Seqs
  import opened Text
  import opened Jobs
  import Config

  /** The lower-cased `title + " " + description` that keywords are sought in. */
  function LetterText(job: Job): string
  {
    Lower(Join(" ", [job.title.GetOr(""), job.description.GetOr("")]))
  }

  /** The technical skills, in list order, whose lower-cased name occurs in `text`. */
  function SkillsMentioned(technicalSkills: seq<string>, text: string): seq<string>
  {
    Filter(technicalSkills, (skill: string) => Mentions(text, skill))
  }

  /** `skill.lower() in text` */
  predicate Mentions(text: string, skill: string) {
    Contains(text, Lower(skill))
  }

  /** Skills are reported in the order of the list they are taken from:
      those of an earlier part of the list come first. */
  lemma {:induction false} SkillsMentionedConcat(a: seq<string>, b: seq<string>, text: string)
    ensures SkillsMentioned(a + b, text) == SkillsMentioned(a, text) + SkillsMentioned(b, text)
  {
    FilterConcat(a, b, (skill: string) => Mentions(text, skill));
  }

  /** One skill is reported exactly when its lower-cased name occurs. */
  lemma SkillsMentionedOne(skill: string, text: string)
    ensures SkillsMentioned([skill], text) == if Mentions(text, skill) then [skill] else []
  {
    assert [skill][1..] == [];
  }

  /** The business keywords `extract_keywords_from_job` can report. */
  datatype BusinessKeyword = DataScience | MachineLearning | DataAnalysis | DataEngineering

  /** The text each keyword is reported as. */
  function Label(k: BusinessKeyword): string {
    match k
    case DataScience => "Data Science"
    case MachineLearning => "Machine Learning"
    case DataAnalysis => "Analyse de données"
    case DataEngineering => "Ingénierie des données"
  }

  /** The position of each keyword's rule among the four. */
  function Rank(k: BusinessKeyword): nat {
    match k
    case DataScience => 0
    case MachineLearning => 1
    case DataAnalysis => 2
    case DataEngineering => 3
  }

  /** The rule adding keyword `k`. The machine-learning rule is a bare
      substring test for "ml", so "html" also triggers it. */
  predicate KeywordApplies(text: string, k: BusinessKeyword) {
    match k
    case DataScience => Contains(text, "data scientist") || Contains(text, "data science")
    case MachineLearning => Contains(text, "machine learning") || Contains(text, "ml")
    case DataAnalysis => Contains(text, "analyst")
    case DataEngineering => Contains(text, "engineer")
  }

  /** Keyword `k` alone when its rule fires, nothing otherwise. */
  function IfApplies(text: string, k: BusinessKeyword): seq<BusinessKeyword> {
    if KeywordApplies(text, k) then [k] else []
  }

  /** The business keywords whose rule fires, in rule order: the order is
      fixed and no keyword is repeated. */
  function BusinessKeywords(text: string): (keywords: seq<BusinessKeyword>)
    ensures |keywords| <= 4
    ensures forall i, j :: 0 <= i < j < |keywords| ==> Rank(keywords[i]) < Rank(keywords[j])
  {
    IfApplies(text, DataScience) + IfApplies(text, MachineLearning)
    + IfApplies(text, DataAnalysis) + IfApplies(text, DataEngineering)
  }

  /** Each keyword is present exactly when its rule fires. */
  lemma BusinessKeywordRules(text: string)
    ensures DataScience in BusinessKeywords(text) <==> Contains(text, "data scientist") || Contains(text, "data science")
    ensures MachineLearning in BusinessKeywords(text) <==> Contains(text, "machine learning") || Contains(text, "ml")
    ensures DataAnalysis in BusinessKeywords(text) <==> Contains(text, "analyst")
    ensures DataEngineering in BusinessKeywords(text) <==> Contains(text, "engineer")
  {
  }

  /** A posting that mentions HTML is credited with machine learning. */
  lemma HtmlCountsAsMachineLearning()
    ensures MachineLearning in BusinessKeywords("html")
  {
    assert SubstringAt("html", "ml", 2);
  }

  /** The keyword rules of `extract_keywords_from_job`, tried in order. */
  method CollectBusinessKeywords(text: string) returns (keywords: seq<BusinessKeyword>)
    ensures keywords == BusinessKeywords(text)
  {
    keywords := [];
    if Contains(text, "data scientist") || Contains(text, "data science") {
      keywords := keywords + [DataScience];
    }
    if Contains(text, "machine learning") || Contains(text, "ml") {
      keywords := keywords + [MachineLearning];
    }
    if Contains(text, "analyst") {
      keywords := keywords + [DataAnalysis];
    }
    if Contains(text, "engineer") {
      keywords := keywords + [DataEngineering];
    }
  }

  /** The skill loop of `extract_keywords_from_job`: every listed skill whose
      lower-cased name occurs in `text`, in list order. */
  method CollectSkills(technicalSkills: seq<string>, text: string) returns (found: seq<string>)
    ensures found == SkillsMentioned(technicalSkills, text)
  {
    found := [];
    var i := 0;
    while i < |technicalSkills|
      invariant 0 <= i <= |technicalSkills|
      invariant found == SkillsMentioned(technicalSkills[..i], text)
    {
      var skill := technicalSkills[i];
      PrefixStep(technicalSkills, i);
      SkillsMentionedConcat(technicalSkills[..i], [skill], text);
      SkillsMentionedOne(skill, text);
      if Mentions(text, skill) {
        found := found + [skill];
      }
      i := i + 1;
    }
    assert technicalSkills[..i] == technicalSkills;
  }

  /** `extract_keywords_from_job(job)`, with `technicalSkills` standing for
      `config.TECHNICAL_SKILLS`: at most five mentioned skills, in list
      order, and the business keywords. */
  method ExtractKeywordsFromJob(technicalSkills: seq<string>, job: Job) returns (skillsFound: seq<string>, keywords: seq<BusinessKeyword>)
    ensures skillsFound == Take(SkillsMentioned(technicalSkills, LetterText(job)), 5)
    ensures keywords == BusinessKeywords(LetterText(job))
  {
    var text := LetterText(job);
    var found := CollectSkills(technicalSkills, text);
    keywords := CollectBusinessKeywords(text);
    skillsFound := Take(found, 5);
  }

  /** What `extract_keywords_from_job` promises of its skills: at most five,
      each a listed skill found in the text, and all of them when no more
      than five are mentioned. */
  lemma ExtractedSkills(technicalSkills: seq<string>, text: string)
    ensures |Take(SkillsMentioned(technicalSkills, text), 5)| <= 5
    ensures forall s :: s in Take(SkillsMentioned(technicalSkills, text), 5) ==>
      s in technicalSkills && Contains(text, Lower(s))
    ensures |SkillsMentioned(technicalSkills, text)| <= 5 ==>
      forall s :: s in technicalSkills && Contains(text, Lower(s)) ==> s in Take(SkillsMentioned(technicalSkills, text), 5)
  {
    var found := SkillsMentioned(technicalSkills, text);
    forall s | s in Take(found, 5)
      ensures s in technicalSkills && Contains(text, Lower(s))
    {
      var i :| 0 <= i < |Take(found, 5)| && Take(found, 5)[i] == s;
      assert found[i] == s;
    }
  }

  /** The four letter templates. */
  datatype TemplateKind = DataScientist | DataAnalyst | DataEngineer | Alternance

  /** The job type chosen from the lower-cased title: 'analyst' wins over the
      engineer words, which win over the work-study words; otherwise the
      data-scientist template. */
  function TemplateFor(job: Job): (kind: TemplateKind)
    ensures var t := Lower(job.title.GetOr(""));
      && (kind == DataAnalyst <==> Contains(t, "analyst"))
      && (kind == DataEngineer <==> !Contains(t, "analyst") && (Contains(t, "engineer") || Contains(t, "ingénieur")))
      && (kind == Alternance <==>
            (!Contains(t, "analyst") && !Contains(t, "engineer") && !Contains(t, "ingénieur")
             && (Contains(t, "alternance") || Contains(t, "apprentissage") || Contains(t, "stage"))))
  {
    var titleLower := Lower(job.title.GetOr(""));
    if Contains(titleLower, "analyst") then DataAnalyst
    else if Contains(titleLower, "engineer") || Contains(titleLower, "ingénieur") then DataEngineer
    else if Contains(titleLower, "alternance") || Contains(titleLower, "apprentissage") || Contains(titleLower, "stage") then Alternance
    else DataScientist
  }

  /** The data-scientist template is the default: it is used exactly when no
      keyword of the other three occurs in the title. */
  lemma DefaultTemplate(job: Job)
    ensures var t := Lower(job.title.GetOr(""));
      TemplateFor(job) == DataScientist <==>
        !Contains(t, "analyst") && !Contains(t, "engineer") && !Contains(t, "ingénieur")
        && !Contains(t, "alternance") && !Contains(t, "apprentissage") && !Contains(t, "stage")
  {
  }

  /** `key_skills`: the first three extracted skills joined with ", ", or
      the first three of `yourSkills` (`config.YOUR_SKILLS`) when none was found. */
  function KeySkills(skillsFound: seq<string>, yourSkills: seq<string>): (phrase: string)
  {
    if skillsFound != [] then Join(", ", Take(skillsFound, 3)) else Join(", ", Take(yourSkills, 3))
  }

  /** Every skill among the first three found is named in the phrase; with no
      skill found, each of the first three of one's own skills is. */
  lemma KeySkillsNamed(skillsFound: seq<string>, yourSkills: seq<string>)
    ensures skillsFound != [] ==>
      forall k :: 0 <= k < 3 && k < |skillsFound| ==> Contains(KeySkills(skillsFound, yourSkills), skillsFound[k])
    ensures skillsFound == [] ==>
      forall k :: 0 <= k < 3 && k < |yourSkills| ==> Contains(KeySkills(skillsFound, yourSkills), yourSkills[k])
  {
    var chosen := if skillsFound != [] then skillsFound else yourSkills;
    forall k | 0 <= k < 3 && k < |chosen|
      ensures Contains(Join(", ", Take(chosen, 3)), chosen[k])
    {
      JoinContainsParts(", ", Take(chosen, 3), k);
    }
  }

  /** With no skill found, the configured default skills are named, all three. */
  lemma DefaultKeySkills()
    ensures KeySkills([], Config.DefaultYourSkills) == Join(", ", Config.DefaultYourSkills)
  {
    assert |Config.DefaultYourSkills| == 3;
  }

  /** The keys of `personal_info` that the modelled code reads; `None` is an absent key. */
  datatype PersonalInfo = PersonalInfo(
    name: Option<string>,
    email: Option<string>,
    phone: Option<string>,
    address: Option<string>)

  /** `personal_info.get('email', '')` */
  function EmailOf(info: PersonalInfo): string {
    info.email.GetOr("")
  }

  /** `personal_info.get('name', config.YOUR_NAME)`, where `yourName` is
      `config.YOUR_NAME`, read from the environment. */
  function NameOf(info: PersonalInfo, yourName: string): string {
    info.name.GetOr(yourName)
  }

  /** The lines of the contact block: the email first, even when empty, then
      the phone line and the address, each only when present and not empty. */
  function ContactParts(info: PersonalInfo): (parts: seq<string>)
    ensures |parts| == 1 + (if Truthy(info.phone) then 1 else 0) + (if Truthy(info.address) then 1 else 0)
    ensures parts[0] == EmailOf(info)
    ensures Truthy(info.phone) ==> parts[1] == "Tél: " + info.phone.value
    ensures Truthy(info.address) ==> parts[|parts| - 1] == info.address.value
  {
    var withPhone := [EmailOf(info)] + if Truthy(info.phone) then ["Tél: " + info.phone.value] else [];
    withPhone + if Truthy(info.address) then [info.address.value] else []
  }

  /** `_build_contact_info(personal_info)`: the contact lines joined by newlines. */
  function BuildContactInfo(info: PersonalInfo): (contact: string)
    ensures |EmailOf(info)| <= |contact| && contact[..|EmailOf(info)|] == EmailOf(info)
  {
    JoinStartsWithFirst("\n", ContactParts(info));
    Join("\n", ContactParts(info))
  }

  /** Every line given is in the contact block. */
  lemma ContactBlockLines(info: PersonalInfo)
    ensures Contains(BuildContactInfo(info), EmailOf(info))
    ensures Truthy(info.phone) ==> Contains(BuildContactInfo(info), "Tél: " + info.phone.value)
    ensures Truthy(info.address) ==> Contains(BuildContactInfo(info), info.address.value)
  {
    var parts := ContactParts(info);
    JoinContainsParts("\n", parts, 0);
    if Truthy(info.phone) {
      JoinContainsParts("\n", parts, 1);
    }
    if Truthy(info.address) {
      JoinContainsParts("\n", parts, |parts| - 1);
    }
  }

  /** The contact check of `generate_cover_letter`: a letter that does not
      contain the email gets the name and the contact block appended, unless
      it already contains the contact block. */
  function WithContact(letter: string, info: PersonalInfo, yourName: string): (r: string)
    ensures |letter| <= |r| && r[..|letter|] == letter
  {
    if Contains(letter, EmailOf(info)) then letter
    else
      var contactInfo := BuildContactInfo(info);
      if Contains(letter, contactInfo) then letter
      else letter + "\n\n" + NameOf(info, yourName) + "\n" + contactInfo
  }

  /** The inner test never fires: a letter holding the contact block holds
      the email it starts with. */
  lemma ContactImpliesEmail(letter: string, info: PersonalInfo)
    ensures Contains(letter, BuildContactInfo(info)) ==> Contains(letter, EmailOf(info))
  {
    ContactBlockLines(info);
    if Contains(letter, BuildContactInfo(info)) {
      ContainsTransitive(letter, BuildContactInfo(info), EmailOf(info));
    }
  }

  /** The letter is left alone exactly when it already mentions the email,
      and afterwards always does; in particular an info without an email
      never changes the letter. */
  lemma {:induction false} WithContactAppendsWhenEmailMissing(letter: string, info: PersonalInfo, yourName: string)
    ensures WithContact(letter, info, yourName) == letter <==> Contains(letter, EmailOf(info))
    ensures !Contains(letter, EmailOf(info)) ==>
      WithContact(letter, info, yourName) == letter + "\n\n" + NameOf(info, yourName) + "\n" + BuildContactInfo(info)
    ensures Contains(WithContact(letter, info, yourName), EmailOf(info))
    ensures info.email.None? ==> WithContact(letter, info, yourName) == letter
  {
    ContactImpliesEmail(letter, info);
    ContainsTrivial(letter);
    if !Contains(letter, EmailOf(info)) {
      var contactInfo := BuildContactInfo(info);
      var prefix := letter + "\n\n" + NameOf(info, yourName) + "\n";
      assert WithContact(letter, info, yourName) == prefix + contactInfo;
      ContactBlockLines(info);
      ContainsConcat(prefix, contactInfo, EmailOf(info));
    }
  }

  /** Appending the contact block twice is the same as once. */
  lemma WithContactIdempotent(letter: string, info: PersonalInfo, yourName: string)
    ensures WithContact(WithContact(letter, info, yourName), info, yourName) == WithContact(letter, info, yourName)
  {
    WithContactAppendsWhenEmailMissing(letter, info, yourName);
    WithContactAppendsWhenEmailMissing(WithContact(letter, info, yourName), info, yourName);
  }

  /** `job.get('company', 'votre entreprise')` */
  function CompanyOf(job: Job): string {
    job.company.GetOr("votre entreprise")
  }

  /** The four reasons naming the company: each is an opening, the company
      and a closing. */
  const ReasonOpening0 := "votre entreprise "
  const ReasonClosing0 := " représente une opportunité passionnante pour mettre en pratique mes compétences en data."
  const ReasonOpening1 := "je suis particulièrement attiré(e) par "
  const ReasonClosing1 := " et ses projets innovants dans le domaine de la data."
  const ReasonOpening2 := "votre entreprise "
  const ReasonClosing2 := " correspond parfaitement à mes aspirations professionnelles et à mes valeurs."
  const ReasonOpening3 := "je serais ravi(e) de contribuer aux projets de "
  const ReasonClosing3 := " et d'apporter ma vision de la data science."

  function Reasons(company: string): (reasons: seq<string>)
    ensures |reasons| == 4
  {
    [ ReasonOpening0 + company + ReasonClosing0,
      ReasonOpening1 + company + ReasonClosing1,
      ReasonOpening2 + company + ReasonClosing2,
      ReasonOpening3 + company + ReasonClosing3 ]
  }

  /** The sentence used when the company is unknown. */
  const WhyCompanyFallback: string :=
    "votre entreprise représente une opportunité intéressante pour mon développement professionnel dans le domaine de la data."

  /** `_generate_why_company(job, personal_info)`. The reason is picked by
      `pick`, which stands for `abs(hash(company))`, modulo four. */
  function WhyCompany(job: Job, pick: nat): (sentence: string)
    ensures CompanyOf(job) == "" || CompanyOf(job) == "N/A" ==> sentence == WhyCompanyFallback
    ensures CompanyOf(job) != "" && CompanyOf(job) != "N/A" ==> sentence in Reasons(CompanyOf(job))
  {
    var company := CompanyOf(job);
    var reasonIndex := pick % 4;
    if company != "N/A" && company != "" then Reasons(company)[reasonIndex] else WhyCompanyFallback
  }

  /** Outside the fallback the sentence names the company, whichever reason is
      picked; a posting without a company key gets the generic name. */
  lemma {:induction false} WhyCompanyNamesCompany(job: Job, pick: nat)
    ensures CompanyOf(job) != "" && CompanyOf(job) != "N/A" ==> Contains(WhyCompany(job, pick), CompanyOf(job))
    ensures job.company.None? ==> Contains(WhyCompany(job, pick), "votre entreprise")
  {
    var company := CompanyOf(job);
    if company != "" && company != "N/A" {
      var k := pick % 4;
      var opening := [ReasonOpening0, ReasonOpening1, ReasonOpening2, ReasonOpening3][k];
      var closing := [ReasonClosing0, ReasonClosing1, ReasonClosing2, ReasonClosing3][k];
      assert WhyCompany(job, pick) == opening + company + closing;
      ContainsTrivial(company);
      ContainsConcat(opening, company, company);
      ContainsConcat(opening + company, closing, company);
    }
  }

  /** The characters `re.sub(r'[^\w\s-]', '', ...)` keeps. */
  predicate KeptInFilename(c: char) {
    IsWordChar(c) || IsSpaceChar(c) || c == '-'
  }

  /** The file-name stem of `save_cover_letter`: the title (or "offre")
      stripped of other characters, cut to 50, spaces made underscores. */
  function FilenameStem(title: Option<string>): (stem: string)
    ensures |stem| <= 50
    ensures forall i :: 0 <= i < |stem| ==> KeptInFilename(stem[i]) && stem[i] != ' '
  {
    var kept := Filter(title.GetOr("offre"), KeptInFilename);
    SwapChar(Take(kept, 50), ' ', '_')
  }

  /** The characters of the stem: the kept characters of the title in their
      order, as many as there are up to 50, each space made '_'. */
  lemma FilenameStemFromKept(title: Option<string>)
    ensures var kept := Filter(title.GetOr("offre"), KeptInFilename);
      |FilenameStem(title)| == (if |kept| < 50 then |kept| else 50)
      && forall i :: 0 <= i < |FilenameStem(title)| ==>
           FilenameStem(title)[i] == (if kept[i] == ' ' then '_' else kept[i])
  {
  }

  /** A character the substitution removes does not change the stem. */
  lemma {:induction false} FilenameStemDropsUnkept(before: string, c: char, after: string)
    requires !KeptInFilename(c)
    ensures FilenameStem(Some(before + [c] + after)) == FilenameStem(Some(before + after))
  {
    FilterSkips(before, c, after, KeptInFilename);
  }

  /** A title of at most 50 kept characters comes back whole, each space made '_'. */
  lemma {:induction false} FilenameStemOfPlainTitle(title: string)
    requires |title| <= 50
    requires forall i :: 0 <= i < |title| ==> KeptInFilename(title[i])
    ensures |FilenameStem(Some(title))| == |title|
    ensures forall i :: 0 <= i < |title| ==>
      FilenameStem(Some(title))[i] == (if title[i] == ' ' then '_' else title[i])
  {
    FilterKeepsAll(title, KeptInFilename);
  }

  /** The path separators and the extension dot are removed. */
  lemma SeparatorsNotKept()
    ensures !KeptInFilename('/') && !KeptInFilename('.') && !KeptInFilename('\\')
  {
  }

  /** The stem never leaves the output directory nor adds an extension. */
  lemma StemIsPlainName(title: Option<string>)
    ensures '/' !in FilenameStem(title) && '.' !in FilenameStem(title) && '\\' !in FilenameStem(title)
  {
    SeparatorsNotKept();
  }

  /** A stem is its own stem: sanitising is idempotent. */
  lemma {:induction false} FilenameStemIdempotent(title: Option<string>)
    ensures FilenameStem(Some(FilenameStem(title))) == FilenameStem(title)
  {
    var stem := FilenameStem(title);
    FilterKeepsAll(stem, KeptInFilename);
    SwapCharAbsent(stem, ' ', '_');
  }
}
