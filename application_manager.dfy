/** The record of prepared and sent applications, keyed by the posting's URL
    (application_manager.py). */
module Applications {
  import opened Wrappers
  import opened Seqs
  import opened Jobs
  import opened Counters

  /** One application, as stored in the applications file. Optional fields are
      keys that a stored record may lack (or, for the three copied from the
      posting, keys the posting lacked). */
  datatype Application = Application(
    jobTitle: Option<string>,
    company: Option<string>,
    location: Option<string>,
    jobUrl: Option<string>,
    source: string,
    coverLetterPath: string,
    cvPath: Option<string>,
    status: Option<string>,
    preparedAt: string,
    sentAt: Option<string>,
    notes: Option<string>)

  /** `app.get('job_url') == job_url` */
  predicate IsFor(app: Application, url: string) {
    app.jobUrl == Some(url)
  }

  /** The position of the first application for `url`, or -1 when there is none. */
  function FindApplication(apps: seq<Application>, url: string): (r: int)
    ensures -1 <= r < |apps|
    ensures r == -1 <==> forall i :: 0 <= i < |apps| ==> !IsFor(apps[i], url)
    ensures r >= 0 ==> IsFor(apps[r], url) && forall j :: 0 <= j < r ==> !IsFor(apps[j], url)
  {
    if apps == [] then -1
    else if IsFor(apps[0], url) then 0
    else
      var r := FindApplication(apps[1..], url);
      assert forall i :: 1 <= i < |apps| ==> apps[i] == apps[1..][i - 1];
      if r == -1 then -1 else r + 1
  }

  /** `has_applied(job_url)` over a list of applications. */
  function Applied(apps: seq<Application>, url: string): (b: bool)
    ensures b <==> url != "" && FindApplication(apps, url) >= 0
  {
    url != "" && exists i :: 0 <= i < |apps| && IsFor(apps[i], url)
  }

  /** The record `prepare_application` appends for a posting. */
  function NewApplication(job: Job, letterPath: string, cvPath: Option<string>, now: string): (app: Application)
    ensures app.jobUrl == Some(UrlOf(job)) && app.status == Some("prepared")
    ensures app.sentAt.None? && app.notes == Some("") && app.preparedAt == now
  {
    Application(job.title, job.company, job.location, Some(UrlOf(job)), job.source.GetOr("LinkedIn"),
                letterPath, cvPath, Some("prepared"), now, None, Some(""))
  }

  /** The record after `mark_as_sent`: sent, at the given time when it is a
      non-empty string and at the current time otherwise. */
  function MarkedSent(app: Application, sentAt: Option<string>, now: string): (r: Application)
    ensures r.status == Some("sent")
    ensures r.sentAt == Some(if Truthy(sentAt) then sentAt.value else now)
    ensures r == app.(status := r.status, sentAt := r.sentAt)
  {
    app.(status := Some("sent"), sentAt := Some(if Truthy(sentAt) then sentAt.value else now))
  }

  /** The record after `update_application_status`: any status is accepted; a
      record becoming 'sent' without a sending time gets the current time; the
      notes are replaced only when given. */
  function WithStatus(app: Application, newStatus: string, notes: Option<string>, now: string): (r: Application)
    ensures r.status == Some(newStatus)
    ensures r.sentAt == if newStatus == "sent" && !Truthy(app.sentAt) then Some(now) else app.sentAt
    ensures r.notes == if notes.Some? then notes else app.notes
    ensures r == app.(status := r.status, sentAt := r.sentAt, notes := r.notes)
  {
    var stamped := if newStatus == "sent" && !Truthy(app.sentAt) then Some(now) else app.sentAt;
    app.(status := Some(newStatus), sentAt := stamped, notes := if notes.Some? then notes else app.notes)
  }

  /** The status an application is counted under: 'prepared' when it has none. */
  function StatusKey(app: Application): string {
    app.status.GetOr("prepared")
  }

  function StatusKeys(apps: seq<Application>): (ks: seq<string>)
    ensures |ks| == |apps| && forall i :: 0 <= i < |apps| ==> ks[i] == StatusKey(apps[i])
  {
    seq(|apps|, i requires 0 <= i < |apps| => StatusKey(apps[i]))
  }

  /** One more application adds its status to the running count. */
  lemma StatusKeysStep(apps: seq<Application>, i: nat)
    requires i < |apps|
    ensures AddAll(EmptyCounter, StatusKeys(apps[..i + 1])) == Add(AddAll(EmptyCounter, StatusKeys(apps[..i])), StatusKey(apps[i]))
  {
    assert StatusKeys(apps[..i + 1]) == StatusKeys(apps[..i]) + [StatusKey(apps[i])];
    AddAllOne(EmptyCounter, StatusKeys(apps[..i]), StatusKey(apps[i]), true);
  }

  /** Counting a run of statuses from scratch gives each status its number of
      occurrences, and the counts sum to the length of the run. */
  lemma StatusCounts(ks: seq<string>)
    ensures forall s :: Get(AddAll(EmptyCounter, ks), s) == Count(ks, s)
    ensures Total(Items(AddAll(EmptyCounter, ks))) == |ks|
  {
    forall s ensures Get(AddAll(EmptyCounter, ks), s) == Count(ks, s) {
      AddAllGet(EmptyCounter, ks, s);
    }
    TotalAddAll(EmptyCounter, ks);
  }

  /** The summary of `get_statistics`. */
  datatype ApplicationStats = ApplicationStats(
    total: nat, byStatus: Counter, prepared: nat, sent: nat, accepted: nat, rejected: nat)

  /** The application manager: the list of applications and the number of
      times it has been written back to the applications file. */
  class ApplicationManager {
    var applications: seq<Application>
    var saves: nat

    /** Starts from the applications read from the file (empty when there is none). */
    constructor (loaded: seq<Application>)
      ensures applications == loaded && saves == 0
    {
      applications := loaded;
      saves := 0;
    }

    /** `has_applied(job_url)`: never for an empty URL; otherwise whether some
      application is for that URL. */
    predicate HasApplied(url: string)
      reads this
    {
      Applied(applications, url)
    }

    /** `prepare_application(job, personal_info, cv_path)`. The letter generator
      is not modelled: `letterPath` is the path of the saved letter, or `None`
      when generating or saving it raised. A posting already applied for, or a
      failed letter, yields `None` and changes nothing; otherwise one record is
      appended and saved. */
    method PrepareApplication(job: Job, cvPath: Option<string>, letterPath: Option<string>, now: string)
      returns (r: Option<Application>)
      modifies this
      ensures old(HasApplied(UrlOf(job))) || letterPath.None? ==>
                r.None? && applications == old(applications) && saves == old(saves)
      ensures !old(HasApplied(UrlOf(job))) && letterPath.Some? ==>
                r == Some(NewApplication(job, letterPath.value, cvPath, now))
                && applications == old(applications) + [r.value] && saves == old(saves) + 1
    {
      var jobUrl := UrlOf(job);
      if HasApplied(jobUrl) {
        return None;
      }
      if letterPath.None? {
        return None;
      }
      var application := NewApplication(job, letterPath.value, cvPath, now);
      applications := applications + [application];
      saves := saves + 1;
      return Some(application);
    }

    /** `mark_as_sent(job_url, sent_at)`: only the first application for the
      URL changes; with none, nothing changes and the result is false. */
    method MarkAsSent(url: string, sentAt: Option<string>, now: string) returns (found: bool)
      modifies this
      ensures found == (FindApplication(old(applications), url) >= 0)
      ensures found ==> var i := FindApplication(old(applications), url);
                applications == old(applications)[i := MarkedSent(old(applications)[i], sentAt, now)]
                && saves == old(saves) + 1
      ensures !found ==> applications == old(applications) && saves == old(saves)
    {
      var i := 0;
      while i < |applications|
        invariant 0 <= i <= |applications|
        invariant applications == old(applications) && saves == old(saves)
        invariant forall j :: 0 <= j < i ==> !IsFor(applications[j], url)
      {
        if IsFor(applications[i], url) {
          applications := applications[i := MarkedSent(applications[i], sentAt, now)];
          saves := saves + 1;
          return true;
        }
        i := i + 1;
      }
      return false;
    }

    /** `update_application_status(job_url, new_status, notes)`: only the first
      application for the URL changes, with no check of the transition. */
    method UpdateApplicationStatus(url: string, newStatus: string, notes: Option<string>, now: string)
      returns (found: bool)
      modifies this
      ensures found == (FindApplication(old(applications), url) >= 0)
      ensures found ==> var i := FindApplication(old(applications), url);
                applications == old(applications)[i := WithStatus(old(applications)[i], newStatus, notes, now)]
                && saves == old(saves) + 1
      ensures !found ==> applications == old(applications) && saves == old(saves)
    {
      var i := 0;
      while i < |applications|
        invariant 0 <= i <= |applications|
        invariant applications == old(applications) && saves == old(saves)
        invariant forall j :: 0 <= j < i ==> !IsFor(applications[j], url)
      {
        if IsFor(applications[i], url) {
          applications := applications[i := WithStatus(applications[i], newStatus, notes, now)];
          saves := saves + 1;
          return true;
        }
        i := i + 1;
      }
      return false;
    }

    /** `update_notes(job_url, notes)`: only the notes of the first application
      for the URL change. */
    method UpdateNotes(url: string, notes: string) returns (found: bool)
      modifies this
      ensures found == (FindApplication(old(applications), url) >= 0)
      ensures found ==> var i := FindApplication(old(applications), url);
                applications == old(applications)[i := old(applications)[i].(notes := Some(notes))]
                && saves == old(saves) + 1
      ensures !found ==> applications == old(applications) && saves == old(saves)
    {
      var i := 0;
      while i < |applications|
        invariant 0 <= i <= |applications|
        invariant applications == old(applications) && saves == old(saves)
        invariant forall j :: 0 <= j < i ==> !IsFor(applications[j], url)
      {
        if IsFor(applications[i], url) {
          applications := applications[i := applications[i].(notes := Some(notes))];
          saves := saves + 1;
          return true;
        }
        i := i + 1;
      }
      return false;
    }

    /** `delete_application(job_url)`: drops every application for the URL,
      keeping the others in order; saves and answers true only when one was dropped. */
    method DeleteApplication(url: string) returns (deleted: bool)
      modifies this
      ensures applications == Filter(old(applications), (a: Application) => !IsFor(a, url))
      ensures deleted == (|applications| < |old(applications)|)
      ensures saves == old(saves) + if deleted then 1 else 0
    {
      var initialCount := |applications|;
      applications := Filter(applications, (a: Application) => !IsFor(a, url));
      if |applications| < initialCount {
        saves := saves + 1;
        return true;
      }
      return false;
    }

    /** `get_applications_by_status(status)`: the applications whose status is
      the one given, in order; all of them when no status (or an empty one) is given. */
    function GetApplicationsByStatus(status: Option<string>): (r: seq<Application>)
      reads this
      ensures !Truthy(status) ==> r == applications
      ensures Truthy(status) ==> |r| <= |applications|
      ensures Truthy(status) ==> forall i :: 0 <= i < |r| ==> r[i] in applications && r[i].status == status
      ensures Truthy(status) ==> forall i :: 0 <= i < |applications| && applications[i].status == status ==> applications[i] in r
    {
      if Truthy(status) then Filter(applications, (a: Application) => a.status == status) else applications
    }

    /** `get_statistics()`: the number of applications, their count per status
      in order of first appearance (a missing status counting as 'prepared'),
      and the counts of the four usual statuses, zero when absent. */
    method GetStatistics() returns (stats: ApplicationStats)
      ensures stats.total == |applications|
      ensures stats.byStatus == AddAll(EmptyCounter, StatusKeys(applications))
      ensures forall s :: Get(stats.byStatus, s) == Count(StatusKeys(applications), s)
      ensures Total(Items(stats.byStatus)) == stats.total
      ensures stats.prepared == Get(stats.byStatus, "prepared") && stats.sent == Get(stats.byStatus, "sent")
      ensures stats.accepted == Get(stats.byStatus, "accepted") && stats.rejected == Get(stats.byStatus, "rejected")
    {
      var total := |applications|;
      var byStatus := EmptyCounter;
      var i := 0;
      while i < |applications|
        invariant 0 <= i <= |applications|
        invariant byStatus == AddAll(EmptyCounter, StatusKeys(applications[..i]))
      {
        StatusKeysStep(applications, i);
        byStatus := Add(byStatus, StatusKey(applications[i]));
        i := i + 1;
      }
      assert applications[..i] == applications;
      StatusCounts(StatusKeys(applications));
      stats := ApplicationStats(total, byStatus, Get(byStatus, "prepared"), Get(byStatus, "sent"),
                                Get(byStatus, "accepted"), Get(byStatus, "rejected"));
    }
  }

  /** After a successful preparation the posting counts as applied for, so a
      second preparation is refused, unless its URL is empty: postings without
      a URL can be prepared again and again, each adding a record. */
  lemma PrepareGuardsDuplicates(apps: seq<Application>, job: Job, letterPath: string, cvPath: Option<string>, now: string)
    ensures UrlOf(job) != "" ==> Applied(apps + [NewApplication(job, letterPath, cvPath, now)], UrlOf(job))
    ensures UrlOf(job) == "" ==> !Applied(apps + [NewApplication(job, letterPath, cvPath, now)], UrlOf(job))
  {
    var extended := apps + [NewApplication(job, letterPath, cvPath, now)];
    assert IsFor(extended[|apps|], UrlOf(job));
  }

  /** Deleting drops every application for the URL and nothing else: the
      length falls exactly when there was one, and afterwards there is none. */
  lemma DeleteRemovesAll(apps: seq<Application>, url: string)
    ensures var kept := Filter(apps, (a: Application) => !IsFor(a, url));
      && (|kept| < |apps| <==> FindApplication(apps, url) >= 0)
      && FindApplication(kept, url) == -1
      && (forall i :: 0 <= i < |apps| && !IsFor(apps[i], url) ==> apps[i] in kept)
  {
    FilterKeepsAll(apps, (a: Application) => !IsFor(a, url));
  }

  /** A status update finds the same record again: the URL is not changed. */
  lemma UpdateKeepsPosition(apps: seq<Application>, url: string, newStatus: string, notes: Option<string>, now: string)
    requires FindApplication(apps, url) >= 0
    ensures var i := FindApplication(apps, url);
      FindApplication(apps[i := WithStatus(apps[i], newStatus, notes, now)], url) == i
  {
    var i := FindApplication(apps, url);
    var updated := apps[i := WithStatus(apps[i], newStatus, notes, now)];
    assert IsFor(updated[i], url);
    assert forall j :: 0 <= j < i ==> updated[j] == apps[j];
  }
}
