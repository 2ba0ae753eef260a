/** What the counts of an analysis mean: how often one posting can raise a
    key, the bound this puts on every count, the sum of the counts, and the
    key the two vocabularies share. */
module AnalyzerCounts {
  import opened Text
  import opened Seqs
  import opened Jobs
  import opened Counters
  import opened Vocabulary
  import opened Analyzer
  import Config

  /** How many of one posting's increments can fall on key `k`: once per
      listing of `k` as a technical skill and once per group titled `k`. */
  function Multiplicity(skills: seq<string>, groups: seq<SynonymGroup>, k: string): nat {
    Count(skills, k) + Count(GroupKeys(groups), k)
  }

  lemma {:induction false} GroupHitsAtMostKeys(text: string, groups: seq<SynonymGroup>, k: string)
    ensures Count(GroupHits(text, groups), k) <= Count(GroupKeys(groups), k)
  {
    if groups != [] {
      GroupHitsAtMostKeys(text, groups[1..], k);
      assert GroupKeys(groups) == [Title(groups[0].name)] + GroupKeys(groups[1..]);
      CountConcat([Title(groups[0].name)], GroupKeys(groups[1..]), k);
      CountConcat(if GroupMatches(text, groups[0]) then [Title(groups[0].name)] else [],
                  GroupHits(text, groups[1..]), k);
    }
  }

  /** When the keys are distinct, a group's key is counted exactly when the group matches. */
  lemma GroupHitsExactly(text: string, groups: seq<SynonymGroup>, i: nat)
    requires i < |groups| && Distinct(GroupKeys(groups))
    ensures Count(GroupHits(text, groups), Title(groups[i].name)) == if GroupMatches(text, groups[i]) then 1 else 0
  {
    var k := Title(groups[i].name);
    GroupHitsAtMostKeys(text, groups, k);
    CountDistinct(GroupKeys(groups), k);
    assert GroupKeys(groups)[i] == k;
  }

  /** One posting's text raises a key by at most its multiplicity: a technical
      skill once however many of its spellings occur, a group once however
      many of its keywords occur. */
  lemma PerJobAtMostMultiplicity(skills: seq<string>, groups: seq<SynonymGroup>, text: string, k: string)
    ensures Count(Increments(skills, groups, text), k)
         == (if SkillMatches(text, k) then Count(skills, k) else 0) + Count(GroupHits(text, groups), k)
    ensures Count(Increments(skills, groups, text), k) <= Multiplicity(skills, groups, k)
  {
    CountConcat(SkillHits(text, skills), GroupHits(text, groups), k);
    CountFilter(skills, s => SkillMatches(text, s), k);
    GroupHitsAtMostKeys(text, groups, k);
  }

  /** Over a batch, each key rises at most its multiplicity per posting. */
  lemma {:induction false} CountJobsBound(skills: seq<string>, groups: seq<SynonymGroup>, jobs: seq<Job>, k: string)
    ensures Get(CountJobs(skills, groups, jobs), k) <= |jobs| * Multiplicity(skills, groups, k)
  {
    if jobs != [] {
      var init, last := jobs[..|jobs| - 1], jobs[|jobs| - 1];
      var m := Multiplicity(skills, groups, k);
      CountJobsBound(skills, groups, init, k);
      AddAllGet(CountJobs(skills, groups, init), Increments(skills, groups, JobText(last)), k);
      PerJobAtMostMultiplicity(skills, groups, JobText(last), k);
      MulSucc(|init|, m);
    }
  }

  lemma MulSucc(n: nat, m: nat)
    ensures (n + 1) * m == n * m + m
  {
  }

  /** With vocabularies that share only "Kubernetes", every key has
      multiplicity at most one, except "Kubernetes", which has at most two. */
  lemma SharedMultiplicity(skills: seq<string>, groups: seq<SynonymGroup>, k: string)
    requires OnlyKubernetesInBoth(skills, groups)
    ensures Multiplicity(skills, groups, k) <= if k == "Kubernetes" then 2 else 1
  {
    CountDistinct(skills, k);
    CountDistinct(GroupKeys(groups), k);
  }

  /** Every count is at most the number of postings, except that of
      "Kubernetes", which reaches at most twice that number (the configured
      vocabularies qualify, by `VocabularyOverlap`). */
  lemma CountsBoundedByJobs(skills: seq<string>, groups: seq<SynonymGroup>, jobs: seq<Job>, k: string)
    requires OnlyKubernetesInBoth(skills, groups)
    ensures k != "Kubernetes" ==> Get(CountJobs(skills, groups, jobs), k) <= |jobs|
    ensures Get(CountJobs(skills, groups, jobs), k) <= 2 * |jobs|
  {
    CountJobsBound(skills, groups, jobs, k);
    SharedMultiplicity(skills, groups, k);
    var m := Multiplicity(skills, groups, k);
    MulMonotone(|jobs|, m, if k == "Kubernetes" then 2 else 1);
  }

  lemma MulMonotone(n: nat, a: nat, b: nat)
    requires a <= b
    ensures n * a <= n * b
  {
  }

  /** A technical skill other than "Kubernetes" counts a posting exactly once
      when one of its spellings occurs as a whole word, however often. */
  lemma SkillCountedOncePerJob(skills: seq<string>, groups: seq<SynonymGroup>, text: string, skill: string)
    requires OnlyKubernetesInBoth(skills, groups)
    requires skill in skills && skill != "Kubernetes"
    ensures Count(Increments(skills, groups, text), skill) == if SkillMatches(text, skill) then 1 else 0
  {
    PerJobAtMostMultiplicity(skills, groups, text, skill);
    CountDistinct(skills, skill);
    GroupHitsAtMostKeys(text, groups, skill);
    CountDistinct(GroupKeys(groups), skill);
  }

  /** A posting that names Kubernetes as a word matches the technical skill... */
  lemma KubernetesMatchesSkill(text: string)
    requires OccursAsWord(text, "kubernetes")
    ensures SkillMatches(text, "Kubernetes")
  {
    assert Variants("Kubernetes")[0] == "kubernetes";
  }

  /** ... and the synonym group. */
  lemma KubernetesMatchesGroup(text: string)
    requires OccursAsWord(text, "kubernetes")
    ensures GroupMatches(text, SynonymGroup("kubernetes", ["kubernetes", "k8s"]))
  {
    var g := SynonymGroup("kubernetes", ["kubernetes", "k8s"]);
    OccursAsWordContains(text, "kubernetes");
    LowerKubernetes();
    assert Contains(text, Lower(g.keywords[0]));
  }

  lemma LowerKubernetes()
    ensures Lower("kubernetes") == "kubernetes"
  {
  }

  /** A posting that names Kubernetes as a word raises the "Kubernetes" count by two. */
  lemma KubernetesCountedTwice(skills: seq<string>, groups: seq<SynonymGroup>, text: string)
    requires OnlyKubernetesInBoth(skills, groups) && ListsKubernetesTwice(skills, groups)
    requires OccursAsWord(text, "kubernetes")
    ensures Count(Increments(skills, groups, text), "Kubernetes") == 2
  {
    PerJobAtMostMultiplicity(skills, groups, text, "Kubernetes");
    KubernetesSkillOnce(skills, text);
    KubernetesGroupOnce(groups, text);
  }

  /** ... once as the technical skill, listed once ... */
  lemma KubernetesSkillOnce(skills: seq<string>, text: string)
    requires Distinct(skills) && "Kubernetes" in skills
    requires OccursAsWord(text, "kubernetes")
    ensures SkillMatches(text, "Kubernetes") && Count(skills, "Kubernetes") == 1
  {
    KubernetesMatchesSkill(text);
    CountDistinct(skills, "Kubernetes");
  }

  /** ... and once as the group, whose key is listed once. */
  lemma KubernetesGroupOnce(groups: seq<SynonymGroup>, text: string)
    requires Distinct(GroupKeys(groups)) && SynonymGroup("kubernetes", ["kubernetes", "k8s"]) in groups
    requires OccursAsWord(text, "kubernetes")
    ensures Count(GroupHits(text, groups), "Kubernetes") == 1
  {
    KubernetesMatchesGroup(text);
    var i :| 0 <= i < |groups| && groups[i] == SynonymGroup("kubernetes", ["kubernetes", "k8s"]);
    TitlesC2();
    GroupHitsExactly(text, groups, i);
  }

  /** The bound of `CountsBoundedByJobs` is reached: when every posting names
      Kubernetes, its count is twice the number of postings. */
  lemma {:induction false} KubernetesReachesTwiceJobs(skills: seq<string>, groups: seq<SynonymGroup>, jobs: seq<Job>)
    requires OnlyKubernetesInBoth(skills, groups) && ListsKubernetesTwice(skills, groups)
    requires forall j :: j in jobs ==> OccursAsWord(JobText(j), "kubernetes")
    ensures Get(CountJobs(skills, groups, jobs), "Kubernetes") == 2 * |jobs|
  {
    if jobs != [] {
      var init := jobs[..|jobs| - 1];
      assert forall j :: j in init ==> j in jobs;
      KubernetesReachesTwiceJobs(skills, groups, init);
      var last := jobs[|jobs| - 1];
      assert last in jobs;
      SplitLast(jobs);
      KubernetesLastJob(skills, groups, init, last);
    }
  }

  /** A posting naming Kubernetes, counted after a batch, adds two to its count. */
  lemma KubernetesLastJob(skills: seq<string>, groups: seq<SynonymGroup>, init: seq<Job>, last: Job)
    requires OnlyKubernetesInBoth(skills, groups) && ListsKubernetesTwice(skills, groups)
    requires OccursAsWord(JobText(last), "kubernetes")
    ensures Get(CountJobs(skills, groups, init + [last]), "Kubernetes")
         == Get(CountJobs(skills, groups, init), "Kubernetes") + 2
  {
    assert (init + [last])[..|init|] == init;
    AddAllGet(CountJobs(skills, groups, init), Increments(skills, groups, JobText(last)), "Kubernetes");
    KubernetesCountedTwice(skills, groups, JobText(last));
  }

  /** "machine-learning", "machine_learning" and "machine learning" all count
      as the skill "Machine Learning". */
  lemma SpellingVariantsMatch(text: string)
    requires OccursAsWord(text, "machine learning") || OccursAsWord(text, "machine-learning")
          || OccursAsWord(text, "machine_learning")
    ensures SkillMatches(text, "Machine Learning")
  {
    MachineLearningVariants();
    var vs := Variants("Machine Learning");
    if OccursAsWord(text, "machine learning") {
      assert OccursAsWord(text, vs[0]);
    } else if OccursAsWord(text, "machine-learning") {
      assert OccursAsWord(text, vs[1]);
    } else {
      assert OccursAsWord(text, vs[2]);
    }
  }

  /** The three spellings of "Machine Learning", written out. */
  lemma MachineLearningVariants()
    ensures Variants("Machine Learning") == ["machine learning", "machine-learning", "machine_learning"]
  {
    LowerMachineLearning();
    assert SwapChar("machine learning", ' ', '-') == "machine-learning";
    assert SwapChar("machine learning", ' ', '_') == "machine_learning";
  }

  lemma LowerMachineLearning()
    ensures Lower("Machine Learning") == "machine learning"
  {
  }

  /** The number of increments over a batch. */
  function Mentions(skills: seq<string>, groups: seq<SynonymGroup>, jobs: seq<Job>): nat {
    if jobs == [] then 0
    else Mentions(skills, groups, jobs[..|jobs| - 1]) + |Increments(skills, groups, JobText(jobs[|jobs| - 1]))|
  }

  /** `total_mentions`, the sum of the counts, is the number of increments made. */
  lemma {:induction false} TotalIsMentions(skills: seq<string>, groups: seq<SynonymGroup>, jobs: seq<Job>)
    ensures Total(Items(CountJobs(skills, groups, jobs))) == Mentions(skills, groups, jobs)
  {
    if jobs != [] {
      var init := jobs[..|jobs| - 1];
      TotalIsMentions(skills, groups, init);
      TotalAddAll(CountJobs(skills, groups, init), Increments(skills, groups, JobText(jobs[|jobs| - 1])));
    }
  }
}
