/** The two skill vocabularies the analyser searches for: the configured
    technical skills and its own synonym groups (analyzer.py), and the one
    counter key they share. */
module Vocabulary {
  import opened Text
  import opened Seqs
  import Config

  /** A synonym group: counted under `name.title()` when any keyword occurs. */
  datatype SynonymGroup = SynonymGroup(name: string, keywords: seq<string>)

  /** `additional_skills`, in its declaration order, in three parts of eight
      so that facts about it can be established a part at a time. */
  const GroupsA: seq<SynonymGroup> := [
    SynonymGroup("statistics", ["statistique", "statistiques", "statistical"]),
    SynonymGroup("data visualization", ["visualisation", "visualization", "dashboard"]),
    SynonymGroup("etl", ["etl", "extract transform load"]),
    SynonymGroup("nlp", ["nlp", "natural language processing", "traitement du langage"]),
    SynonymGroup("computer vision", ["computer vision", "vision par ordinateur", "opencv"]),
    SynonymGroup("time series", ["time series", "séries temporelles", "forecasting"]),
    SynonymGroup("a/b testing", ["a/b testing", "ab testing", "test ab"]),
    SynonymGroup("agile", ["agile", "scrum", "kanban"])
  ]

  const GroupsB: seq<SynonymGroup> := [
    SynonymGroup("jupyter", ["jupyter", "notebook"]),
    SynonymGroup("matplotlib", ["matplotlib", "seaborn", "plotly"]),
    SynonymGroup("excel", ["excel", "vba", "pivot table"]),
    SynonymGroup("nosql", ["nosql", "mongodb", "cassandra", "redis"]),
    SynonymGroup("postgresql", ["postgresql", "postgres"]),
    SynonymGroup("mysql", ["mysql", "mariadb"]),
    SynonymGroup("elasticsearch", ["elasticsearch", "elastic search"]),
    SynonymGroup("airflow", ["airflow", "apache airflow"])
  ]

  const GroupsC: seq<SynonymGroup> := [
    SynonymGroup("dbt", ["dbt", "data build tool"]),
    SynonymGroup("snowflake", ["snowflake"]),
    SynonymGroup("databricks", ["databricks"]),
    SynonymGroup("mlflow", ["mlflow", "ml flow"]),
    SynonymGroup("kubernetes", ["kubernetes", "k8s"]),
    SynonymGroup("terraform", ["terraform"]),
    SynonymGroup("jenkins", ["jenkins", "ci/cd"]),
    SynonymGroup("github", ["github", "gitlab", "bitbucket"])
  ]

  const SynonymGroups: seq<SynonymGroup> := GroupsA + GroupsB + GroupsC

  /** The counter key of every group, `name.title()`, in group order. */
  function GroupKeys(groups: seq<SynonymGroup>): (ks: seq<string>)
    ensures |ks| == |groups|
    ensures forall i :: 0 <= i < |groups| ==> ks[i] == Title(groups[i].name)
  {
    seq(|groups|, i requires 0 <= i < |groups| => Title(groups[i].name))
  }

  lemma GroupKeysConcat(a: seq<SynonymGroup>, b: seq<SynonymGroup>)
    ensures GroupKeys(a + b) == GroupKeys(a) + GroupKeys(b)
  {
  }

  /** The title-cased group names, written out. */
  const KeyNamesA: seq<string> := ["Statistics", "Data Visualization", "Etl", "Nlp",
    "Computer Vision", "Time Series", "A/B Testing", "Agile"]
  const KeyNamesB: seq<string> := ["Jupyter", "Matplotlib", "Excel", "Nosql",
    "Postgresql", "Mysql", "Elasticsearch", "Airflow"]
  const KeyNamesC: seq<string> := ["Dbt", "Snowflake", "Databricks", "Mlflow",
    "Kubernetes", "Terraform", "Jenkins", "Github"]
  const GroupKeyNames: seq<string> := KeyNamesA + KeyNamesB + KeyNamesC

  /* The facts below about the written-out constants are proved by evaluating
     `Title`, `in` and `!=` on string literals, character by character. One
     lemma about all 24 names or all 25 skills is more than the solver can
     do in one proof, so each is split into numbered parts of one to three
     literals, and a lemma without a number combines them:
     GroupKeysWrittenOut, TechnicalAgainstKeys and TechnicalDistinct. The
     numbered parts state nothing beyond the lemma that combines them. */

  // `str.title()` of each group name, one or two at a time.
  lemma TitlesA0()
    ensures Title("statistics") == "Statistics"
  {
    assert Title("statistics") == "Statistics";
  }

  lemma TitlesA0v()
    ensures Title("data visualization") == "Data Visualization"
  {
    assert Title("data visualization") == "Data Visualization";
  }

  lemma TitlesA1()
    ensures Title("etl") == "Etl"
         && Title("nlp") == "Nlp"
  {
    assert Title("etl") == "Etl";
    assert Title("nlp") == "Nlp";
  }

  lemma TitlesA2()
    ensures Title("computer vision") == "Computer Vision"
  {
    assert Title("computer vision") == "Computer Vision";
  }

  lemma TitlesA2t()
    ensures Title("time series") == "Time Series"
  {
    assert Title("time series") == "Time Series";
  }

  lemma TitlesA3()
    ensures Title("a/b testing") == "A/B Testing"
         && Title("agile") == "Agile"
  {
    assert Title("a/b testing") == "A/B Testing";
    assert Title("agile") == "Agile";
  }

  lemma KeysA()
    ensures GroupKeys(GroupsA) == KeyNamesA
  {
    TitlesA0();
    TitlesA0v();
    TitlesA1();
    TitlesA2();
    TitlesA2t();
    TitlesA3();
  }

  lemma TitlesB0()
    ensures Title("jupyter") == "Jupyter"
         && Title("matplotlib") == "Matplotlib"
  {
    assert Title("jupyter") == "Jupyter";
    assert Title("matplotlib") == "Matplotlib";
  }

  lemma TitlesB1()
    ensures Title("excel") == "Excel"
         && Title("nosql") == "Nosql"
  {
    assert Title("excel") == "Excel";
    assert Title("nosql") == "Nosql";
  }

  lemma TitlesB2()
    ensures Title("postgresql") == "Postgresql"
         && Title("mysql") == "Mysql"
  {
    assert Title("postgresql") == "Postgresql";
    assert Title("mysql") == "Mysql";
  }

  lemma TitlesB3()
    ensures Title("elasticsearch") == "Elasticsearch"
         && Title("airflow") == "Airflow"
  {
    assert Title("elasticsearch") == "Elasticsearch";
    assert Title("airflow") == "Airflow";
  }

  lemma KeysB()
    ensures GroupKeys(GroupsB) == KeyNamesB
  {
    TitlesB0();
    TitlesB1();
    TitlesB2();
    TitlesB3();
  }

  lemma TitlesC0()
    ensures Title("dbt") == "Dbt"
         && Title("snowflake") == "Snowflake"
  {
    assert Title("dbt") == "Dbt";
    assert Title("snowflake") == "Snowflake";
  }

  lemma TitlesC1()
    ensures Title("databricks") == "Databricks"
         && Title("mlflow") == "Mlflow"
  {
    assert Title("databricks") == "Databricks";
    assert Title("mlflow") == "Mlflow";
  }

  lemma TitlesC2()
    ensures Title("kubernetes") == "Kubernetes"
         && Title("terraform") == "Terraform"
  {
    assert Title("kubernetes") == "Kubernetes";
    assert Title("terraform") == "Terraform";
  }

  lemma TitlesC3()
    ensures Title("jenkins") == "Jenkins"
         && Title("github") == "Github"
  {
    assert Title("jenkins") == "Jenkins";
    assert Title("github") == "Github";
  }

  lemma KeysC()
    ensures GroupKeys(GroupsC) == KeyNamesC
  {
    TitlesC0();
    TitlesC1();
    TitlesC2();
    TitlesC3();
  }

  /** `str.title()` turns the group names into the keys written out above:
      "a/b testing" becomes "A/B Testing", "etl" becomes "Etl". */
  lemma GroupKeysWrittenOut()
    ensures GroupKeys(SynonymGroups) == GroupKeyNames
  {
    KeysA();
    KeysB();
    KeysC();
    GroupKeysConcat(GroupsA, GroupsB);
    GroupKeysConcat(GroupsA + GroupsB, GroupsC);
  }

  /** The technical skills at positions `lo` to `hi`, other than "Kubernetes",
      are not group keys. */
  predicate OnlyKubernetesShared(lo: int, hi: int)
    requires 0 <= lo <= hi <= |Config.TechnicalSkills|
  {
    forall i | lo <= i < hi :: Config.TechnicalSkills[i] == "Kubernetes" || Config.TechnicalSkills[i] !in GroupKeyNames
  }

  /** A string outside each part of the keys is outside all of them. */
  lemma NotAKey(s: string)
    requires s !in KeyNamesA && s !in KeyNamesB && s !in KeyNamesC
    ensures s !in GroupKeyNames
  {
  }

  // The technical skills against the keys, two at a time.
  lemma TechnicalAgainstKeys0()
    ensures OnlyKubernetesShared(0, 2)
  {
    NotAKey("Python");
    NotAKey("R");
  }

  lemma TechnicalAgainstKeys1()
    ensures OnlyKubernetesShared(2, 4)
  {
    NotAKey("SQL");
    NotAKey("Java");
  }

  lemma TechnicalAgainstKeys2()
    ensures OnlyKubernetesShared(4, 6)
  {
    NotAKey("Scala");
    NotAKey("Machine Learning");
  }

  lemma TechnicalAgainstKeys3()
    ensures OnlyKubernetesShared(6, 8)
  {
    NotAKey("Deep Learning");
    NotAKey("TensorFlow");
  }

  lemma TechnicalAgainstKeys4()
    ensures OnlyKubernetesShared(8, 10)
  {
    NotAKey("PyTorch");
    NotAKey("Pandas");
  }

  lemma TechnicalAgainstKeys5()
    ensures OnlyKubernetesShared(10, 12)
  {
    NotAKey("NumPy");
    NotAKey("Scikit-learn");
  }

  lemma TechnicalAgainstKeys6()
    ensures OnlyKubernetesShared(12, 14)
  {
    NotAKey("Tableau");
    NotAKey("Power BI");
  }

  lemma TechnicalAgainstKeys7()
    ensures OnlyKubernetesShared(14, 16)
  {
    NotAKey("Qlik");
    NotAKey("Hadoop");
  }

  lemma TechnicalAgainstKeys8()
    ensures OnlyKubernetesShared(16, 18)
  {
    NotAKey("Spark");
    NotAKey("Kafka");
  }

  lemma TechnicalAgainstKeys9()
    ensures OnlyKubernetesShared(18, 20)
  {
    NotAKey("AWS");
    NotAKey("Azure");
  }

  lemma TechnicalAgainstKeys10()
    ensures OnlyKubernetesShared(20, 22)
  {
    NotAKey("GCP");
    NotAKey("Docker");
  }

  lemma TechnicalAgainstKeys11()
    ensures OnlyKubernetesShared(22, 24)
  {
    NotAKey("Git");
  }

  lemma TechnicalAgainstKeys12()
    ensures OnlyKubernetesShared(24, 25)
  {
    NotAKey("CI/CD");
  }

  lemma TechnicalAgainstKeys()
    ensures OnlyKubernetesShared(0, 25)
  {
    TechnicalAgainstKeys0();
    TechnicalAgainstKeys1();
    TechnicalAgainstKeys2();
    TechnicalAgainstKeys3();
    TechnicalAgainstKeys4();
    TechnicalAgainstKeys5();
    TechnicalAgainstKeys6();
    TechnicalAgainstKeys7();
    TechnicalAgainstKeys8();
    TechnicalAgainstKeys9();
    TechnicalAgainstKeys10();
    TechnicalAgainstKeys11();
    TechnicalAgainstKeys12();
  }

  lemma DistinctConcat(a: seq<string>, b: seq<string>)
    requires Distinct(a) && Distinct(b)
    requires forall i :: 0 <= i < |a| ==> a[i] !in b
    ensures Distinct(a + b)
  {
    forall i, j | 0 <= i < j < |a + b| ensures (a + b)[i] != (a + b)[j] {
      if j >= |a| && i < |a| {
        assert (a + b)[j] == b[j - |a|];
      }
    }
  }

  lemma KeyNamesDistinct()
    ensures Distinct(GroupKeyNames)
  {
    assert Distinct(KeyNamesA);
    assert Distinct(KeyNamesB);
    assert Distinct(KeyNamesC);
    assert forall i :: 0 <= i < |KeyNamesA| ==> KeyNamesA[i] !in KeyNamesB;
    DistinctConcat(KeyNamesA, KeyNamesB);
    assert forall i :: 0 <= i < |KeyNamesA| ==> KeyNamesA[i] !in KeyNamesC;
    assert forall i :: 0 <= i < |KeyNamesB| ==> KeyNamesB[i] !in KeyNamesC;
    DistinctConcat(KeyNamesA + KeyNamesB, KeyNamesC);
  }

  /** The technical skill at index `i` differs from every later one. */
  predicate DifferentFromLater(i: int)
    requires 0 <= i < |Config.TechnicalSkills|
  {
    forall j | i < j < |Config.TechnicalSkills| :: Config.TechnicalSkills[i] != Config.TechnicalSkills[j]
  }

  // The technical skills against the later ones, a few at a time.
  lemma TechnicalUnique0()
    ensures forall i | 0 <= i < 3 :: DifferentFromLater(i)
  {
  }

  lemma TechnicalUnique1()
    ensures forall i | 3 <= i < 6 :: DifferentFromLater(i)
  {
  }

  lemma TechnicalUnique2()
    ensures forall i | 6 <= i < 9 :: DifferentFromLater(i)
  {
  }

  lemma TechnicalUnique3()
    ensures forall i | 9 <= i < 12 :: DifferentFromLater(i)
  {
  }

  lemma TechnicalUnique4()
    ensures forall i | 12 <= i < 15 :: DifferentFromLater(i)
  {
  }

  lemma TechnicalUnique5()
    ensures forall i | 15 <= i < 18 :: DifferentFromLater(i)
  {
  }

  lemma TechnicalUnique6()
    ensures forall i | 18 <= i < 21 :: DifferentFromLater(i)
  {
  }

  lemma TechnicalUnique7()
    ensures forall i | 21 <= i < 25 :: DifferentFromLater(i)
  {
  }

  lemma TechnicalDistinct()
    ensures Distinct(Config.TechnicalSkills)
  {
    TechnicalUnique0();
    TechnicalUnique1();
    TechnicalUnique2();
    TechnicalUnique3();
    TechnicalUnique4();
    TechnicalUnique5();
    TechnicalUnique6();
    TechnicalUnique7();
    forall i, j | 0 <= i < j < |Config.TechnicalSkills|
      ensures Config.TechnicalSkills[i] != Config.TechnicalSkills[j]
    {
      assert DifferentFromLater(i);
    }
  }

  /** Each vocabulary lists a key once, and no key other than "Kubernetes"
      is in both. */
  predicate OnlyKubernetesInBoth(skills: seq<string>, groups: seq<SynonymGroup>) {
    && Distinct(skills)
    && Distinct(GroupKeys(groups))
    && forall k :: k in skills && k in GroupKeys(groups) ==> k == "Kubernetes"
  }

  /** "Kubernetes" is a technical skill, and there is a group named
      "kubernetes" whose first keyword is its own name. */
  predicate ListsKubernetesTwice(skills: seq<string>, groups: seq<SynonymGroup>) {
    "Kubernetes" in skills && SynonymGroup("kubernetes", ["kubernetes", "k8s"]) in groups
  }

  /** The configured vocabularies list each key once, and "Kubernetes" is the
      only key in both: the technical skill of config.py and `'kubernetes'.title()`. */
  lemma VocabularyOverlap()
    ensures OnlyKubernetesInBoth(Config.TechnicalSkills, SynonymGroups)
    ensures ListsKubernetesTwice(Config.TechnicalSkills, SynonymGroups)
  {
    GroupKeysWrittenOut();
    TechnicalAgainstKeys();
    TechnicalDistinct();
    KeyNamesDistinct();
    assert Config.TechnicalSkills[22] == "Kubernetes";
    assert SynonymGroups[20] == GroupsC[4];
  }
}
