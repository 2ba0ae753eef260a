/** Frequency of requested skills over a batch of postings (analyzer.py). */
module Analyzer {
  import opened Wrappers
  import opened Jobs
  import opened Text
  import opened Seqs
  import opened Counters
  import opened Vocabulary
  import Config

  /** The searched text of a posting: title, description, full description and
      the space-joined criteria, joined by spaces and lower-cased. */
  function JobText(job: Job): (t: string)
    ensures forall i :: 0 <= i < |t| ==> !IsUpperChar(t[i])
  {
    Lower(Join(" ", [job.title.GetOr(""), job.description.GetOr(""),
                     job.fullDescription.GetOr(""), Join(" ", job.criteria.GetOr([]))]))
  }

  /** The three spellings tried for a technical skill: as written, with spaces
      as hyphens, with spaces as underscores (all lower-cased). */
  function Variants(skill: string): (vs: seq<string>)
    ensures |vs| == 3 && vs[0] == Lower(skill)
    ensures forall v :: 0 <= v < 3 ==> |vs[v]| == |skill|
  {
    var s := Lower(skill);
    [s, SwapChar(s, ' ', '-'), SwapChar(s, ' ', '_')]
  }

  /** A technical skill matches when one of its spellings occurs as a whole word. */
  predicate SkillMatches(text: string, skill: string) {
    exists v | 0 <= v < 3 :: OccursAsWord(text, Variants(skill)[v])
  }

  /** A synonym group matches when one of its keywords occurs anywhere. */
  predicate GroupMatches(text: string, g: SynonymGroup) {
    exists w | 0 <= w < |g.keywords| :: Contains(text, Lower(g.keywords[w]))
  }

  /** The technical skills that match, in vocabulary order. */
  function SkillHits(text: string, skills: seq<string>): (hits: seq<string>)
    ensures |hits| <= |skills|
    ensures forall i :: 0 <= i < |skills| ==> (skills[i] in hits <==> SkillMatches(text, skills[i]))
    ensures forall k :: k in hits ==> k in skills
  {
    Filter(skills, s => SkillMatches(text, s))
  }

  /** The counter keys of the groups that match, in group order. */
  function GroupHits(text: string, groups: seq<SynonymGroup>): (hits: seq<string>)
    ensures |hits| <= |groups|
    ensures forall i :: 0 <= i < |groups| && GroupMatches(text, groups[i]) ==> Title(groups[i].name) in hits
    ensures forall k :: k in hits ==> exists i :: 0 <= i < |groups| && GroupMatches(text, groups[i]) && k == Title(groups[i].name)
  {
    if groups == [] then []
    else
      var rest := GroupHits(text, groups[1..]);
      assert forall k :: k in rest ==> exists i :: 1 <= i < |groups| && GroupMatches(text, groups[i]) && k == Title(groups[i].name) by {
        forall k | k in rest ensures exists i :: 1 <= i < |groups| && GroupMatches(text, groups[i]) && k == Title(groups[i].name) {
          var j :| 0 <= j < |groups[1..]| && GroupMatches(text, groups[1..][j]) && k == Title(groups[1..][j].name);
          assert groups[j + 1] == groups[1..][j];
        }
      }
      assert forall i :: 1 <= i < |groups| ==> groups[i] == groups[1..][i - 1];
      (if GroupMatches(text, groups[0]) then [Title(groups[0].name)] else []) + rest
  }

  /** The counter keys one posting's text increments, in the order the
      extraction increments them: matching skills, then matching groups. */
  function Increments(skills: seq<string>, groups: seq<SynonymGroup>, text: string): seq<string> {
    SkillHits(text, skills) + GroupHits(text, groups)
  }

  /** The counter after counting every posting in turn from empty. */
  function CountJobs(skills: seq<string>, groups: seq<SynonymGroup>, jobs: seq<Job>): (c: Counter)
    ensures WellFormed(c)
  {
    if jobs == [] then EmptyCounter
    else AddAll(CountJobs(skills, groups, jobs[..|jobs| - 1]), Increments(skills, groups, JobText(jobs[|jobs| - 1])))
  }

  /** `your_skills_lower` */
  function LowerAll(ss: seq<string>): (r: seq<string>)
    ensures |r| == |ss| && forall i :: 0 <= i < |ss| ==> r[i] == Lower(ss[i])
  {
    seq(|ss|, i requires 0 <= i < |ss| => Lower(ss[i]))
  }

  /** Whether a top skill is missing from the lower-cased known skills. */
  predicate IsMissing(known: seq<string>, p: SkillCount) {
    Lower(p.0) !in known
  }

  /** The entries of `top`, in order, whose lower-cased skill is not known. */
  function Gap(top: seq<SkillCount>, known: seq<string>): seq<SkillCount> {
    Filter(top, (p: SkillCount) => IsMissing(known, p))
  }

  /** The gap holds exactly the top entries whose lower-cased skill is not known. */
  lemma GapIsExactlyMissing(top: seq<SkillCount>, known: seq<string>)
    ensures forall i :: 0 <= i < |Gap(top, known)| ==>
      Gap(top, known)[i] in top && Lower(Gap(top, known)[i].0) !in known
    ensures forall i :: 0 <= i < |top| && Lower(top[i].0) !in known ==> top[i] in Gap(top, known)
  {
  }

  /** The gap of a longer list extends the gap of its prefix. */
  lemma GapStep(top: seq<SkillCount>, i: int, known: seq<string>)
    requires 0 <= i < |top|
    ensures Gap(top[..i + 1], known) == Gap(top[..i], known) + if IsMissing(known, top[i]) then [top[i]] else []
  {
    PrefixStep(top, i);
    FilterConcat(top[..i], [top[i]], (p: SkillCount) => IsMissing(known, p));
    assert [top[i]][1..] == top[i..i];
  }

  /** The summary of `get_statistics` (the floating-point average is not modelled). */
  datatype Statistics = Statistics(totalJobs: nat, totalSkills: nat, totalMentions: nat, mostDemanded: SkillCount)

  /** The report of `generate_report`. */
  datatype Report = Report(jobsAnalyzed: nat, totalSkillsFound: nat, topSkills: seq<SkillCount>,
                           skillsGap: seq<SkillCount>, allSkills: seq<SkillCount>)

  /** The skill analyser: the vocabulary it searches for, the counter of the
      last analysis and the number of postings it covered. */
  class SkillsAnalyzer {
    /** `config.TECHNICAL_SKILLS` */
    const technicalSkills: seq<string>
    /** `additional_skills` */
    const synonymGroups: seq<SynonymGroup>
    var counter: Counter
    var jobsAnalyzed: nat

    predicate Valid()
      reads this
    {
      WellFormed(counter)
    }

    constructor ()
      ensures technicalSkills == Config.TechnicalSkills && synonymGroups == SynonymGroups
      ensures Valid() && counter == EmptyCounter && jobsAnalyzed == 0
    {
      technicalSkills := Config.TechnicalSkills;
      synonymGroups := SynonymGroups;
      counter := EmptyCounter;
      jobsAnalyzed := 0;
    }

    /** `analyze_jobs(jobs)`: discards the previous counts, records the batch
      size and counts every posting; returns the counts. */
    method AnalyzeJobs(jobs: seq<Job>) returns (all: seq<SkillCount>)
      modifies this
      ensures Valid()
      ensures counter == CountJobs(technicalSkills, synonymGroups, jobs) && jobsAnalyzed == |jobs|
      ensures all == Items(counter)
    {
      counter := EmptyCounter;
      jobsAnalyzed := |jobs|;
      var i := 0;
      while i < |jobs|
        invariant 0 <= i <= |jobs|
        invariant counter == CountJobs(technicalSkills, synonymGroups, jobs[..i]) && jobsAnalyzed == |jobs|
      {
        CountJobsStep(technicalSkills, synonymGroups, jobs, i);
        ExtractSkillsFromJob(jobs[i]);
        i := i + 1;
      }
      assert jobs[..|jobs|] == jobs;
      all := Items(counter);
    }

    /** `_extract_skills_from_job(job)`: increments each technical skill whose
      spelling occurs as a whole word, then each synonym group with a keyword
      present, each at most once. */
    method ExtractSkillsFromJob(job: Job)
      modifies this`counter
      ensures counter == AddAll(old(counter), Increments(technicalSkills, synonymGroups, JobText(job)))
    {
      var text := JobText(job);
      CountTechnicalSkills(text, technicalSkills);
      CountSynonymGroups(text, synonymGroups);
      AddAllConcat(old(counter), SkillHits(text, technicalSkills), GroupHits(text, synonymGroups));
    }

    /** The first loop of `_extract_skills_from_job`: each skill is counted on
      the first of its spellings found as a whole word. */
    method CountTechnicalSkills(text: string, skills: seq<string>)
      modifies this`counter
      ensures counter == AddAll(old(counter), SkillHits(text, skills))
    {
      var i := 0;
      while i < |skills|
        invariant 0 <= i <= |skills|
        invariant counter == AddAll(old(counter), SkillHits(text, skills[..i]))
      {
        CountSkill(text, skills[i]);
        SkillHitsStep(text, skills, i);
        AddAllOne(old(counter), SkillHits(text, skills[..i]), skills[i], SkillMatches(text, skills[i]));
        i := i + 1;
      }
      assert skills[..|skills|] == skills;
    }

    /** The second loop of `_extract_skills_from_job`: each group is counted
      under its title-cased name on the first keyword found as a substring. */
    method CountSynonymGroups(text: string, groups: seq<SynonymGroup>)
      modifies this`counter
      ensures counter == AddAll(old(counter), GroupHits(text, groups))
    {
      var g := 0;
      while g < |groups|
        invariant 0 <= g <= |groups|
        invariant counter == AddAll(old(counter), GroupHits(text, groups[..g]))
      {
        CountGroup(text, groups[g]);
        GroupHitsStep(text, groups, g);
        AddAllOne(old(counter), GroupHits(text, groups[..g]), Title(groups[g].name), GroupMatches(text, groups[g]));
        g := g + 1;
      }
      assert groups[..|groups|] == groups;
    }

    /** One pass of the inner loop over a skill's spellings: counts the skill
      once, on the first spelling found as a whole word. */
    method CountSkill(text: string, skill: string)
      modifies this`counter
      ensures counter == if SkillMatches(text, skill) then Add(old(counter), skill) else old(counter)
    {
      var variants := Variants(skill);
      var v := 0;
      while v < |variants|
        invariant 0 <= v <= |variants|
        invariant forall u :: 0 <= u < v ==> !OccursAsWord(text, variants[u])
        invariant counter == old(counter)
      {
        if OccursAsWord(text, variants[v]) {
          counter := Add(counter, skill);
          break;
        }
        v := v + 1;
      }
    }

    /** One pass of the inner loop over a group's keywords: counts the group
      once, under its title-cased name, on the first keyword found. */
    method CountGroup(text: string, group: SynonymGroup)
      modifies this`counter
      ensures counter == if GroupMatches(text, group) then Add(old(counter), Title(group.name)) else old(counter)
    {
      var w := 0;
      while w < |group.keywords|
        invariant 0 <= w <= |group.keywords|
        invariant forall u :: 0 <= u < w ==> !Contains(text, Lower(group.keywords[u]))
        invariant counter == old(counter)
      {
        if Contains(text, Lower(group.keywords[w])) {
          counter := Add(counter, Title(group.name));
          break;
        }
        w := w + 1;
      }
    }

    /** `get_top_skills(n)`: the `n` most frequent skills with their counts. */
    function GetTopSkills(n: nat): (top: seq<SkillCount>)
      reads this
      ensures |top| <= n && |top| <= |counter.keys|
      ensures NonIncreasing(top)
      ensures forall i :: 0 <= i < |top| ==> top[i].0 in counter.keys && top[i].1 == Get(counter, top[i].0)
    {
      MostCommon(counter, n)
    }

    /** `get_skills_gap(your_skills)`: the top 30 skills, with their counts and
      in their order, whose lower-cased name is not among the lower-cased known skills. */
    method GetSkillsGap(yourSkills: seq<string>) returns (missing: seq<SkillCount>)
      ensures missing == Gap(GetTopSkills(30), LowerAll(yourSkills))
    {
      var top := GetTopSkills(30);
      var known := LowerAll(yourSkills);
      missing := [];
      var i := 0;
      while i < |top|
        invariant 0 <= i <= |top|
        invariant missing == Gap(top[..i], known)
      {
        var (skill, count) := top[i];
        GapStep(top, i, known);
        if Lower(skill) !in known {
          missing := missing + [(skill, count)];
        }
        i := i + 1;
      }
      assert top[..|top|] == top;
    }

    /** `get_statistics()`: nothing before any skill was counted; otherwise the
      batch size, the number of distinct skills, the sum of the counts and
      the most frequent skill, the first inserted among equals. */
    function GetStatistics(): (r: Option<Statistics>)
      reads this
      ensures r.None? <==> |counter.keys| == 0
      ensures r.Some? ==> (r.value.totalJobs == jobsAnalyzed && r.value.totalSkills == |counter.keys|
                           && r.value.totalMentions == Total(Items(counter)))
      ensures r.Some? ==> forall i :: 0 <= i < |counter.keys| ==> Get(counter, counter.keys[i]) <= r.value.mostDemanded.1
      ensures r.Some? ==> exists m :: (0 <= m < |counter.keys| && r.value.mostDemanded == (counter.keys[m], Get(counter, counter.keys[m]))
                                       && forall i :: 0 <= i < m ==> Get(counter, counter.keys[i]) < r.value.mostDemanded.1)
    {
      if |counter.keys| == 0 then None
      else
        MostCommonFirst(counter);
        Some(Statistics(jobsAnalyzed, |counter.keys|, Total(Items(counter)), MostCommon(counter, 1)[0]))
    }

    /** `generate_report()`'s fields (the file it writes is not modelled);
        `yourSkills` is `config.YOUR_SKILLS`, read from the environment. */
    method GenerateReport(yourSkills: seq<string>) returns (report: Report)
      ensures report.jobsAnalyzed == jobsAnalyzed && report.totalSkillsFound == |counter.keys|
      ensures report.topSkills == GetTopSkills(30)
      ensures report.skillsGap == Gap(GetTopSkills(30), LowerAll(yourSkills))
      ensures report.allSkills == Items(counter)
    {
      var gap := GetSkillsGap(yourSkills);
      report := Report(jobsAnalyzed, |counter.keys|, GetTopSkills(30), gap, Items(counter));
    }
  }

  lemma SkillHitsStep(text: string, skills: seq<string>, i: nat)
    requires i < |skills|
    ensures SkillHits(text, skills[..i + 1])
         == SkillHits(text, skills[..i]) + if SkillMatches(text, skills[i]) then [skills[i]] else []
  {
    assert skills[..i + 1] == skills[..i] + [skills[i]];
    FilterConcat(skills[..i], [skills[i]], s => SkillMatches(text, s));
  }

  lemma GroupHitsStep(text: string, groups: seq<SynonymGroup>, g: nat)
    requires g < |groups|
    ensures GroupHits(text, groups[..g + 1])
         == GroupHits(text, groups[..g]) + if GroupMatches(text, groups[g]) then [Title(groups[g].name)] else []
  {
    assert groups[..g + 1] == groups[..g] + [groups[g]];
    GroupHitsConcat(text, groups[..g], [groups[g]]);
  }

  lemma CountJobsStep(skills: seq<string>, groups: seq<SynonymGroup>, jobs: seq<Job>, i: nat)
    requires i < |jobs|
    ensures CountJobs(skills, groups, jobs[..i + 1])
         == AddAll(CountJobs(skills, groups, jobs[..i]), Increments(skills, groups, JobText(jobs[i])))
  {
    var prefix := jobs[..i + 1];
    assert prefix[..|prefix| - 1] == jobs[..i];
    assert prefix[|prefix| - 1] == jobs[i];
  }

  lemma {:induction false} GroupHitsConcat(text: string, a: seq<SynonymGroup>, b: seq<SynonymGroup>)
    ensures GroupHits(text, a + b) == GroupHits(text, a) + GroupHits(text, b)
  {
    if a == [] {
      assert a + b == b;
    } else {
      assert (a + b)[0] == a[0] && (a + b)[1..] == a[1..] + b;
      GroupHitsConcat(text, a[1..], b);
    }
  }
}
