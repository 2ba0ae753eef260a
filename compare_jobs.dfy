/** Snapshot comparison and the rolling history of snapshots (compare_jobs.py). */
module CompareJobs {
  import opened Wrappers
  import opened Jobs

  /** `get_job_signature`: the url when it is non-empty, otherwise
      title, company and source joined by underscores (absent fields read as ""). */
  function Signature(job: Job): (sig: string)
    ensures Truthy(job.url) ==> sig == job.url.value
  {
    if Truthy(job.url) then job.url.value
    else job.title.GetOr("") + "_" + job.company.GetOr("") + "_" + job.source.GetOr("")
  }

  /** A job with a non-empty url is identified by its url alone: any other
      field may drift between scrapes without changing its identity. */
  lemma UrlSignatureIgnoresOtherFields(a: Job, b: Job)
    requires Truthy(a.url) && a.url == b.url
    ensures Signature(a) == Signature(b)
  {
  }

  /** Without a url, the signature is title, company and source joined by "_",
      and two url-less postings with the same three fields are one entity. */
  lemma FallbackSignature(a: Job, b: Job)
    requires !Truthy(a.url) && !Truthy(b.url)
    ensures Signature(a) == a.title.GetOr("") + "_" + a.company.GetOr("") + "_" + a.source.GetOr("")
    ensures a.title == b.title && a.company == b.company && a.source == b.source ==> Signature(a) == Signature(b)
  {
  }

  /** The url space and the fallback space overlap: a posting whose url is
      "a_b_c" collides with a url-less posting titled "a" at company "b" on source "c". */
  lemma UrlAndFallbackCanCollide()
    ensures Signature(Job(None, None, None, None, Some("a_b_c"), None, None, None, None))
         == Signature(Job(Some("a"), Some("b"), None, Some("c"), None, Some("2024-01-01"), None, None, None))
  {
  }

  /** The set of signatures of a list of postings. */
  function Signatures(jobs: seq<Job>): set<string> {
    set j | j in jobs :: Signature(j)
  }

  lemma SignaturesAppend(jobs: seq<Job>, job: Job)
    ensures Signatures(jobs + [job]) == Signatures(jobs) + {Signature(job)}
  {
    forall sig | sig in Signatures(jobs + [job]) ensures sig in Signatures(jobs) + {Signature(job)} {
      var j :| j in jobs + [job] && Signature(j) == sig;
      if j != job { assert j in jobs; }
    }
    forall sig | sig in Signatures(jobs) ensures sig in Signatures(jobs + [job]) {
      var j :| j in jobs && Signature(j) == sig;
      assert j in jobs + [job];
    }
    assert job in jobs + [job];
  }

  /** No two postings of the list share a signature. */
  predicate DistinctSignatures(jobs: seq<Job>) {
    forall i, k :: 0 <= i < k < |jobs| ==> Signature(jobs[i]) != Signature(jobs[k])
  }

  /** `job` is the last posting of `jobs` with its signature. */
  ghost predicate IsLastWithSignature(jobs: seq<Job>, job: Job) {
    exists i :: 0 <= i < |jobs| && jobs[i] == job
      && forall k :: i < k < |jobs| ==> Signature(jobs[k]) != Signature(job)
  }

  /** `{get_job_signature(job): job for job in jobs}`: a later posting
      overwrites an earlier one with the same signature. */
  function Index(jobs: seq<Job>): map<string, Job> {
    if jobs == [] then map[]
    else Index(jobs[..|jobs| - 1])[Signature(jobs[|jobs| - 1]) := jobs[|jobs| - 1]]
  }

  /** The index has one entry per signature of the list. */
  lemma {:induction false} IndexKeys(jobs: seq<Job>)
    ensures Index(jobs).Keys == Signatures(jobs)
  {
    if jobs != [] {
      var init, last := jobs[..|jobs| - 1], jobs[|jobs| - 1];
      IndexKeys(init);
      assert jobs == init + [last];
      SignaturesAppend(init, last);
    }
  }

  /** Each signature of the index maps to a posting with that signature, the
      last one in the list. */
  lemma IndexKeepsLast(jobs: seq<Job>)
    ensures forall sig :: sig in Index(jobs) ==> Signature(Index(jobs)[sig]) == sig && IsLastWithSignature(jobs, Index(jobs)[sig])
  {
    forall sig | sig in Index(jobs) ensures Signature(Index(jobs)[sig]) == sig && IsLastWithSignature(jobs, Index(jobs)[sig]) {
      IndexKeepsLastAt(jobs, sig);
    }
  }

  lemma {:induction false} IndexKeepsLastAt(jobs: seq<Job>, sig: string)
    requires sig in Index(jobs)
    ensures Signature(Index(jobs)[sig]) == sig && IsLastWithSignature(jobs, Index(jobs)[sig])
  {
    var init, last := jobs[..|jobs| - 1], jobs[|jobs| - 1];
    if sig == Signature(last) {
      IndexOfLast(jobs);
    } else {
      IndexKeepsLastAt(init, sig);
      assert jobs == init + [last];
      IndexAppend(init, last);
      LastStaysLast(init, last, Index(init)[sig]);
    }
  }

  /** The signature of the last posting maps to it. */
  lemma IndexOfLast(jobs: seq<Job>)
    requires jobs != []
    ensures Signature(jobs[|jobs| - 1]) in Index(jobs)
    ensures Index(jobs)[Signature(jobs[|jobs| - 1])] == jobs[|jobs| - 1]
    ensures IsLastWithSignature(jobs, jobs[|jobs| - 1])
  {
  }

  /** Appending a posting overwrites its signature's entry and no other. */
  lemma IndexAppend(init: seq<Job>, last: Job)
    ensures Index(init + [last]) == Index(init)[Signature(last) := last]
  {
    assert (init + [last])[..|init|] == init;
  }

  /** Appending a posting with another signature keeps a posting the last
      with its own. */
  lemma LastStaysLast(init: seq<Job>, last: Job, job: Job)
    requires IsLastWithSignature(init, job) && Signature(last) != Signature(job)
    ensures IsLastWithSignature(init + [last], job)
  {
    var jobs := init + [last];
    var i :| 0 <= i < |init| && init[i] == job
      && forall k :: i < k < |init| ==> Signature(init[k]) != Signature(job);
    assert jobs[i] == job;
    assert forall k :: i < k < |jobs| ==> Signature(jobs[k]) != Signature(job) by {
      forall k | i < k < |jobs| ensures Signature(jobs[k]) != Signature(job) {
        if k < |init| { assert jobs[k] == init[k]; }
      }
    }
  }

  /** A posting with a signature not yet in the list keeps the signatures distinct. */
  lemma AppendKeepsDistinct(jobs: seq<Job>, job: Job)
    requires DistinctSignatures(jobs) && Signature(job) !in Signatures(jobs)
    ensures DistinctSignatures(jobs + [job])
  {
    forall i | 0 <= i < |jobs| ensures Signature(jobs[i]) != Signature(job) {
      assert jobs[i] in jobs;
    }
  }

  /** The loop state of `ListBySignature`: `jobs` lists, once each, the
      postings of `index` under the signatures of `sigs` not in `rest`. */
  predicate ListedSoFar(index: map<string, Job>, sigs: set<string>, rest: set<string>, jobs: seq<Job>) {
    && rest <= sigs
    && Signatures(jobs) == sigs - rest
    && DistinctSignatures(jobs)
    && |jobs| + |rest| == |sigs|
    && (forall j :: j in jobs ==> Signature(j) in index && index[Signature(j)] == j)
  }

  /** Listing the posting under one more signature keeps the loop state. */
  lemma ListOneMore(index: map<string, Job>, sigs: set<string>, rest: set<string>, jobs: seq<Job>, sig: string)
    requires sigs <= index.Keys
    requires forall s :: s in index ==> Signature(index[s]) == s
    requires ListedSoFar(index, sigs, rest, jobs) && sig in rest
    ensures ListedSoFar(index, sigs, rest - {sig}, jobs + [index[sig]])
  {
    var job := index[sig];
    AppendKeepsDistinct(jobs, job);
    SignaturesAppend(jobs, job);
  }

  /** Lists the postings of `index` under the signatures in `sigs`, in the
      unspecified order in which Python iterates over a set. */
  method ListBySignature(index: map<string, Job>, sigs: set<string>) returns (jobs: seq<Job>)
    requires sigs <= index.Keys
    requires forall sig :: sig in index ==> Signature(index[sig]) == sig
    ensures Signatures(jobs) == sigs
    ensures DistinctSignatures(jobs)
    ensures |jobs| == |sigs|
    ensures forall j :: j in jobs ==> Signature(j) in index && index[Signature(j)] == j
  {
    jobs := [];
    var rest := sigs;
    while rest != {}
      invariant ListedSoFar(index, sigs, rest, jobs)
      decreases |rest|
    {
      var sig :| sig in rest;
      ListOneMore(index, sigs, rest, jobs, sig);
      jobs := jobs + [index[sig]];
      rest := rest - {sig};
    }
  }

  /** `compare_jobs(old_jobs, new_jobs)`: the postings whose signature is
      only in the new list, and those whose signature is only in the old list,
      one record per signature (the last one with it). */
  method Compare(oldJobs: seq<Job>, newJobs: seq<Job>) returns (added: seq<Job>, removed: seq<Job>)
    ensures Signatures(added) == Signatures(newJobs) - Signatures(oldJobs)
    ensures Signatures(removed) == Signatures(oldJobs) - Signatures(newJobs)
    ensures DistinctSignatures(added) && DistinctSignatures(removed)
    ensures forall j :: j in added ==> IsLastWithSignature(newJobs, j)
    ensures forall j :: j in removed ==> IsLastWithSignature(oldJobs, j)
    ensures Signatures(added) !! Signatures(removed)
    ensures oldJobs == newJobs ==> added == [] && removed == []
  {
    var oldIndex := Index(oldJobs);
    var newIndex := Index(newJobs);
    IndexKeys(oldJobs);
    IndexKeys(newJobs);
    IndexKeepsLast(oldJobs);
    IndexKeepsLast(newJobs);
    added := ListBySignature(newIndex, newIndex.Keys - oldIndex.Keys);
    removed := ListBySignature(oldIndex, oldIndex.Keys - newIndex.Keys);
  }

  /** The number of snapshots the history keeps. */
  const MaxHistory: nat := 30

  /** One history record: `{'timestamp', 'total_jobs', 'jobs'}`. */
  datatype HistoryEntry = HistoryEntry(timestamp: string, totalJobs: nat, jobs: seq<Job>)

  /** `history[-30:]` when the history is longer than 30: the newest entries,
      in their order. */
  function Retained(history: seq<HistoryEntry>): (r: seq<HistoryEntry>)
    ensures |r| == if |history| > MaxHistory then MaxHistory else |history|
    ensures r == history[|history| - |r|..]
  {
    if |history| > MaxHistory then history[|history| - MaxHistory..] else history
  }

  /** Appending to a full history evicts exactly the oldest entry; below the
      cap nothing is evicted; the new entry is always the last one. */
  lemma HistoryAppend(history: seq<HistoryEntry>, entry: HistoryEntry)
    requires |history| <= MaxHistory
    ensures |Retained(history + [entry])| == if |history| == MaxHistory then MaxHistory else |history| + 1
    ensures Retained(history + [entry]) == if |history| == MaxHistory then history[1..] + [entry] else history + [entry]
  {
    if |history| == MaxHistory {
      assert (history + [entry])[1..] == history[1..] + [entry];
    }
  }

  /** The files of the data directory that the comparison reads and writes:
      the current snapshot, the previous one (`None` when the file is absent)
      and the history (an absent file reads as empty). */
  class JobStore {
    var current: Option<seq<Job>>
    var previous: Option<seq<Job>>
    var history: seq<HistoryEntry>

    constructor (current: Option<seq<Job>>, previous: Option<seq<Job>>, history: seq<HistoryEntry>)
      ensures this.current == current && this.previous == previous && this.history == history
    {
      this.current := current;
      this.previous := previous;
      this.history := history;
    }

    /** `save_jobs_history(jobs)` with the clock reading `now`. */
    method SaveJobsHistory(jobs: seq<Job>, now: string)
      modifies this`history
      ensures history == Retained(old(history) + [HistoryEntry(now, |jobs|, jobs)])
      ensures |history| == if |old(history)| + 1 > MaxHistory then MaxHistory else |old(history)| + 1
      ensures history[|history| - 1] == HistoryEntry(now, |jobs|, jobs)
    {
      history := history + [HistoryEntry(now, |jobs|, jobs)];
      if |history| > MaxHistory {
        history := history[|history| - MaxHistory..];
      }
    }

    /** `get_new_jobs()`: returns the new postings and all current postings. */
    method GetNewJobs(now: string) returns (newJobs: seq<Job>, allJobs: seq<Job>)
      modifies this`previous, this`history
      ensures current.None? ==>
        newJobs == [] && allJobs == [] && previous == old(previous) && history == old(history)
      ensures current.Some? && old(previous).None? ==>
        newJobs == current.value && allJobs == current.value
        && previous == current && history == old(history)
      ensures current.Some? && old(previous).Some? ==>
        && allJobs == current.value
        && Signatures(newJobs) == Signatures(current.value) - Signatures(old(previous).value)
        && DistinctSignatures(newJobs)
        && (forall j :: j in newJobs ==> IsLastWithSignature(current.value, j))
        && previous == current
        && history == Retained(old(history) + [HistoryEntry(now, |current.value|, current.value)])
    {
      if current.None? {
        return [], [];
      }
      var currentJobs := current.value;
      if previous.None? {
        previous := current;
        return currentJobs, currentJobs;
      }
      var removed;
      newJobs, removed := Compare(previous.value, currentJobs);
      previous := current;
      SaveJobsHistory(currentJobs, now);
      allJobs := currentJobs;
    }
  }
}
