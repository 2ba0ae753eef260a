/** The list of postings already seen, kept between runs (tracker.py). */
module Tracker {
  import opened Wrappers
  import opened Seqs
  import opened Text
  import opened Jobs

  /** `{job.get('url', '') for job in tracked_jobs}` */
  function TrackedUrls(tracked: seq<Job>): (urls: set<string>)
    ensures forall j :: j in tracked ==> UrlOf(j) in urls
    ensures forall u :: u in urls ==> exists j :: j in tracked && UrlOf(j) == u
  {
    set j | j in tracked :: UrlOf(j)
  }

  /** The scraped postings whose URL is not tracked, in scraped order. */
  function Unseen(tracked: seq<Job>, scraped: seq<Job>): (unseen: seq<Job>)
    ensures forall i :: 0 <= i < |unseen| ==> unseen[i] in scraped && UrlOf(unseen[i]) !in TrackedUrls(tracked)
    ensures forall i :: 0 <= i < |scraped| && UrlOf(scraped[i]) !in TrackedUrls(tracked) ==> scraped[i] in unseen
  {
    var urls := TrackedUrls(tracked);
    Filter(scraped, (j: Job) => UrlOf(j) !in urls)
  }

  /** `keyword_lower in job.get('title', '').lower() or keyword_lower in job.get('description', '').lower()` */
  predicate MentionsKeyword(job: Job, keywordLower: string) {
    Contains(Lower(job.title.GetOr("")), keywordLower) || Contains(Lower(job.description.GetOr("")), keywordLower)
  }

  /** What `datetime.fromisoformat` yields: an instant, and whether the text
      carried a UTC offset (an "aware" datetime). */
  datatype ParsedDate = ParsedDate(instant: int, hasOffset: bool)

  /** `job.get('date', '')` */
  function DateText(job: Job): string {
    job.date.GetOr("")
  }

  /** The date text as it is handed to the parser: every `Z` in it, not only
      a trailing one, written as `+00:00`. */
  function Normalized(date: string): (r: string)
    ensures 'Z' !in date ==> r == date
    ensures 'Z' !in r
  {
    ReplaceChar(date, 'Z', "+00:00")
  }

  /** A trailing `Z` becomes the offset `+00:00`, and the rest is normalised alike. */
  lemma TrailingZ(date: string)
    ensures Normalized(date + "Z") == Normalized(date) + "+00:00"
  {
    ReplaceCharConcat(date, "Z", 'Z', "+00:00");
    assert ReplaceChar("Z", 'Z', "+00:00") == "+00:00" + ReplaceChar("", 'Z', "+00:00");
  }

  /** The verdict of the `try` block on a non-empty date: parsed and not before
      the cutoff, or raised. It raises when the parser rejects the text, and
      also when the parsed date carries an offset, because comparing it with
      the cutoff (a datetime without one) raises a TypeError. */
  predicate SurvivesCutoff(date: string, cutoff: int, parse: string -> Option<ParsedDate>) {
    match parse(Normalized(date))
    case None => true
    case Some(d) => d.hasOffset || d.instant >= cutoff
  }

  /** `_is_job_recent(job, cutoff_date)`: kept when undated, unparseable, or not
      older than the cutoff. */
  predicate IsJobRecent(job: Job, cutoff: int, parse: string -> Option<ParsedDate>) {
    DateText(job) == "" || SurvivesCutoff(DateText(job), cutoff, parse)
  }

  /** Whether the loop of `get_recent_jobs` appends a posting: undated
      postings are left out, unparseable ones let in. */
  predicate ListedAsRecent(job: Job, cutoff: int, parse: string -> Option<ParsedDate>) {
    DateText(job) != "" && SurvivesCutoff(DateText(job), cutoff, parse)
  }

  /** The tracker: the tracked postings and the number of times they were
      written back to the tracking file. */
  class JobTracker {
    var trackedJobs: seq<Job>
    var saves: nat

    /** Starts from the postings read from the tracking file. */
    constructor (loaded: seq<Job>)
      ensures trackedJobs == loaded && saves == 0
    {
      trackedJobs := loaded;
      saves := 0;
    }

    /** `track_new_jobs(...)` from line 22 on. The search is not modelled:
      `scraped` is what it returned, or `None` when the login failed. The
      postings whose URL is not yet tracked are appended and returned; the
      file is saved only when there is at least one. */
    method TrackNewJobs(scraped: Option<seq<Job>>) returns (trulyNew: seq<Job>)
      modifies this
      ensures scraped.None? ==> trulyNew == [] && trackedJobs == old(trackedJobs) && saves == old(saves)
      ensures scraped.Some? ==> trulyNew == Unseen(old(trackedJobs), scraped.value)
      ensures trackedJobs == old(trackedJobs) + trulyNew
      ensures saves == old(saves) + if trulyNew == [] then 0 else 1
    {
      if scraped.None? {
        return [];
      }
      trulyNew := Unseen(trackedJobs, scraped.value);
      if trulyNew != [] {
        trackedJobs := trackedJobs + trulyNew;
        saves := saves + 1;
      }
    }

    /** `get_jobs_by_keyword(keyword)`: the tracked postings, in order, whose
      title or description contains the keyword, ignoring case. */
    function GetJobsByKeyword(keyword: string): (found: seq<Job>)
      reads this
      ensures |found| <= |trackedJobs|
      ensures forall i :: 0 <= i < |found| ==> found[i] in trackedJobs && MentionsKeyword(found[i], Lower(keyword))
      ensures forall i :: 0 <= i < |trackedJobs| && MentionsKeyword(trackedJobs[i], Lower(keyword)) ==> trackedJobs[i] in found
    {
      var keywordLower := Lower(keyword);
      Filter(trackedJobs, (j: Job) => MentionsKeyword(j, keywordLower))
    }

    /** `get_recent_jobs(days)`, with `cutoff` the instant `days` before now
      and `parse` standing for `datetime.fromisoformat`. */
    method GetRecentJobs(cutoff: int, parse: string -> Option<ParsedDate>) returns (recent: seq<Job>)
      ensures recent == Filter(trackedJobs, (j: Job) => ListedAsRecent(j, cutoff, parse))
    {
      recent := [];
      var i := 0;
      while i < |trackedJobs|
        invariant 0 <= i <= |trackedJobs|
        invariant recent == Filter(trackedJobs[..i], (j: Job) => ListedAsRecent(j, cutoff, parse))
      {
        var job := trackedJobs[i];
        assert trackedJobs[..i + 1] == trackedJobs[..i] + [job];
        FilterConcat(trackedJobs[..i], [job], (j: Job) => ListedAsRecent(j, cutoff, parse));
        var jobDate := DateText(job);
        if jobDate != "" {
          match parse(Normalized(jobDate)) {
            case None =>
              recent := recent + [job];
            case Some(d) =>
              if d.hasOffset || d.instant >= cutoff {
                recent := recent + [job];
              }
          }
        }
        i := i + 1;
      }
      assert trackedJobs[..i] == trackedJobs;
    }

    /** `clear_old_jobs(days)`: keeps the postings `_is_job_recent` accepts,
      in order; returns how many were dropped and saves only if some were. */
    method ClearOldJobs(cutoff: int, parse: string -> Option<ParsedDate>) returns (removed: nat)
      modifies this
      ensures trackedJobs == Filter(old(trackedJobs), (j: Job) => IsJobRecent(j, cutoff, parse))
      ensures removed == |old(trackedJobs)| - |trackedJobs|
      ensures saves == old(saves) + if removed > 0 then 1 else 0
    {
      var initialCount := |trackedJobs|;
      trackedJobs := Filter(trackedJobs, (j: Job) => IsJobRecent(j, cutoff, parse));
      removed := initialCount - |trackedJobs|;
      if removed > 0 {
        saves := saves + 1;
      }
    }
  }

  /** Tracking the same batch again finds nothing new: every URL returned is
      now tracked. */
  lemma {:induction false} TrackingIsIdempotent(tracked: seq<Job>, scraped: seq<Job>)
    ensures Unseen(tracked + Unseen(tracked, scraped), scraped) == []
  {
    var after := tracked + Unseen(tracked, scraped);
    assert forall j :: j in scraped ==> UrlOf(j) in TrackedUrls(after) by {
      forall j | j in scraped
        ensures UrlOf(j) in TrackedUrls(after)
      {
        if UrlOf(j) !in TrackedUrls(tracked) {
          assert j in after;
        }
      }
    }
    var urls := TrackedUrls(after);
    FilterDropsAll(scraped, (j: Job) => UrlOf(j) !in urls);
  }

  /** Duplicates within one batch are not collapsed: both copies of an
      untracked posting are returned. */
  lemma BatchDuplicatesKept(tracked: seq<Job>, job: Job)
    requires UrlOf(job) !in TrackedUrls(tracked)
    ensures Unseen(tracked, [job, job]) == [job, job]
  {
    var urls := TrackedUrls(tracked);
    FilterKeepsAll([job, job], (j: Job) => UrlOf(j) !in urls);
  }

  /** Once one tracked posting lacks a URL, every scraped posting without a
      URL is dropped as already seen. */
  lemma UrllessDropped(tracked: seq<Job>, scraped: seq<Job>)
    requires exists t :: t in tracked && UrlOf(t) == ""
    ensures forall i :: 0 <= i < |Unseen(tracked, scraped)| ==> UrlOf(Unseen(tracked, scraped)[i]) != ""
  {
    assert "" in TrackedUrls(tracked);
  }

  /** The two date filters differ on undated postings only: `get_recent_jobs`
      leaves them out, `clear_old_jobs` keeps them. */
  lemma RecentVersusKept(job: Job, cutoff: int, parse: string -> Option<ParsedDate>)
    ensures ListedAsRecent(job, cutoff, parse) <==> IsJobRecent(job, cutoff, parse) && DateText(job) != ""
    ensures DateText(job) == "" ==> IsJobRecent(job, cutoff, parse) && !ListedAsRecent(job, cutoff, parse)
  {
  }

  /** Only a date that parses, has no offset, and lies before the cutoff gets
      a posting cleared; a date with an offset (such as one ending in `Z`)
      never does, however old. */
  lemma ClearedOnlyWhenDatedBefore(job: Job, cutoff: int, parse: string -> Option<ParsedDate>)
    ensures !IsJobRecent(job, cutoff, parse) <==>
      DateText(job) != "" && parse(Normalized(DateText(job))).Some?
      && !parse(Normalized(DateText(job))).value.hasOffset
      && parse(Normalized(DateText(job))).value.instant < cutoff
  {
  }
}
