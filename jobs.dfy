/** A scraped job posting: a JSON object whose string fields may be absent.
    The keys the modelled code reads are the fields below; `None` is a missing key. */
module Jobs {
  import opened Wrappers

  datatype Job = Job(
    title: Option<string>,
    company: Option<string>,
    location: Option<string>,
    source: Option<string>,
    url: Option<string>,
    date: Option<string>,
    description: Option<string>,
    fullDescription: Option<string>,
    criteria: Option<seq<string>>)

  /** Python truthiness of an optional string: present and not empty. */
  predicate Truthy(s: Option<string>) {
    s.Some? && s.value != ""
  }

  /** `job.get('url', '')` */
  function UrlOf(job: Job): string {
    job.url.GetOr("")
  }
}

/** The constant lists of the configuration file, used as fixed inputs. */
module Config {

  /** `TECHNICAL_SKILLS` */
  const TechnicalSkills: seq<string> := [
    "Python", "R", "SQL", "Java", "Scala",
    "Machine Learning", "Deep Learning", "TensorFlow", "PyTorch",
    "Pandas", "NumPy", "Scikit-learn",
    "Tableau", "Power BI", "Qlik",
    "Hadoop", "Spark", "Kafka",
    "AWS", "Azure", "GCP",
    "Docker", "Kubernetes",
    "Git", "CI/CD"
  ]

  /** `YOUR_SKILLS` when the environment does not set it. */
  const DefaultYourSkills: seq<string> := ["Python", "SQL", "Machine Learning"]

  /** `YOUR_NAME` when the environment does not set it. */
  const DefaultYourName: string := "Votre Nom"
}
