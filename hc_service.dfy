/** The HC checker of `internal/services/hc/hc.go`: one scrape per
    (health centre, specialty) pair, one notification per scrape that
    produced a message, and the group's error at the end. */
module HcService {
  import opened Wrappers
  import opened Browser
  import opened HcScraper
  import Jobs

  /** The insurer and the group every scrape selects. */
  const InsuranceID: string := "3"
  const GroupID: string := "4"

  /** What the job for `job` = (centre, specialty) reports: `scrap` on a
      fresh browser session, whose page answers as `browse` says. */
  function JobResult(baseURL: string, browse: (string, string) -> PageAnswers, job: (string, string))
    : Result<string, string>
  {
    ScrapResult(browse(job.0, job.1), baseURL, job.0, InsuranceID, GroupID, job.1)
  }

  /** What every job reports, in submission order. */
  function JobResults(baseURL: string, browse: (string, string) -> PageAnswers, jobs: seq<(string, string)>)
    : seq<Result<string, string>>
  {
    Jobs.Outcomes(jobs, (job: (string, string)) => JobResult(baseURL, browse, job))
  }

  /** The notifications the jobs send: one per scrape that succeeded. */
  function Notified(baseURL: string, browse: (string, string) -> PageAnswers, jobs: seq<(string, string)>)
    : seq<string>
  {
    Jobs.Succeeded(JobResults(baseURL, browse, jobs))
  }

  /** The error `Wait` returns, the jobs taken in submission order. */
  function GroupError(baseURL: string, browse: (string, string) -> PageAnswers, jobs: seq<(string, string)>)
    : Option<string>
  {
    Jobs.FirstFailure(JobResults(baseURL, browse, jobs))
  }

  lemma JobResultsAt(baseURL: string, browse: (string, string) -> PageAnswers, jobs: seq<(string, string)>, i: nat)
    requires i < |jobs|
    ensures JobResults(baseURL, browse, jobs)[i] == JobResult(baseURL, browse, jobs[i])
  {
    Jobs.OutcomesAt(jobs, (job: (string, string)) => JobResult(baseURL, browse, job), i);
  }

  lemma JobResultsSnoc(baseURL: string, browse: (string, string) -> PageAnswers, jobs: seq<(string, string)>,
                       job: (string, string))
    ensures JobResults(baseURL, browse, jobs + [job])
         == JobResults(baseURL, browse, jobs) + [JobResult(baseURL, browse, job)]
  {
    Jobs.OutcomesSnoc(jobs, job, (job: (string, string)) => JobResult(baseURL, browse, job));
  }

  /** What one more job adds to the notifications, the scraped jobs and the
      group's error. */
  lemma LogsSnoc(baseURL: string, browse: (string, string) -> PageAnswers, notified: seq<string>,
                 scraped: seq<(string, string)>, done: seq<(string, string)>, job: (string, string))
    ensures var r := JobResult(baseURL, browse, job);
      && notified + Notified(baseURL, browse, done + [job])
         == (notified + Notified(baseURL, browse, done)) + (if r.Success? then [r.value] else [])
      && scraped + (done + [job]) == (scraped + done) + [job]
      && GroupError(baseURL, browse, done + [job])
         == if GroupError(baseURL, browse, done).Some? then GroupError(baseURL, browse, done)
            else if r.Failure? then Some(r.error) else None
  {
    var rs, r := JobResults(baseURL, browse, done), JobResult(baseURL, browse, job);
    JobResultsSnoc(baseURL, browse, done, job);
    Jobs.SucceededSnoc(rs, r);
    Jobs.FirstFailureSnoc(rs, r);
    Jobs.AppendAssoc(notified, Notified(baseURL, browse, done), if r.Success? then [r.value] else []);
    Jobs.AppendAssoc(scraped, done, [job]);
  }

  lemma JobResultsAppend(baseURL: string, browse: (string, string) -> PageAnswers, jobs: seq<(string, string)>,
                         more: seq<(string, string)>)
    ensures JobResults(baseURL, browse, jobs + more)
         == JobResults(baseURL, browse, jobs) + JobResults(baseURL, browse, more)
  {
    Jobs.OutcomesAppend(jobs, more, (job: (string, string)) => JobResult(baseURL, browse, job));
  }

  /** A message is sent exactly when some job's scrape produced it. */
  lemma NotifiedIff(baseURL: string, browse: (string, string) -> PageAnswers, jobs: seq<(string, string)>,
                    m: string)
    ensures m in Notified(baseURL, browse, jobs) <==>
      exists i :: 0 <= i < |jobs| && JobResult(baseURL, browse, jobs[i]) == Success(m)
  {
    var rs := JobResults(baseURL, browse, jobs);
    Jobs.SucceededMembership(rs, m);
    forall i | 0 <= i < |jobs| ensures rs[i] == JobResult(baseURL, browse, jobs[i]) {
      JobResultsAt(baseURL, browse, jobs, i);
    }
  }

  /** The run fails exactly when some scrape failed, and then with the
      error of the first failed scrape in submission order. */
  lemma GroupErrorIff(baseURL: string, browse: (string, string) -> PageAnswers, jobs: seq<(string, string)>,
                      e: string)
    ensures GroupError(baseURL, browse, jobs).None? <==>
      forall i :: 0 <= i < |jobs| ==> JobResult(baseURL, browse, jobs[i]).Success?
    ensures GroupError(baseURL, browse, jobs) == Some(e) <==>
      exists i :: 0 <= i < |jobs| && JobResult(baseURL, browse, jobs[i]) == Failure(e)
        && forall k :: 0 <= k < i ==> JobResult(baseURL, browse, jobs[k]).Success?
  {
    var rs := JobResults(baseURL, browse, jobs);
    forall i | 0 <= i < |jobs| ensures rs[i] == JobResult(baseURL, browse, jobs[i]) {
      JobResultsAt(baseURL, browse, jobs, i);
    }
    Jobs.FirstFailureNone(rs);
    Jobs.FirstFailureIff(rs, e);
    assert GroupError(baseURL, browse, jobs) == Jobs.FirstFailure(rs);
  }

  /** Every scrape of a run fills the form with the job's centre and
      specialty and with the fixed insurer "3" and group "4". */
  lemma FixedInsurerAndGroup(baseURL: string, job: (string, string))
    ensures Assignments(FormScript(baseURL, job.0, InsuranceID, GroupID, job.1))
         == [("#centro", job.0), ("#aseguradora", "3"), ("#colectivo", "4"), ("#especialidad", job.1),
             ("#concepto", "61")]
  {
    FormScriptOrder(baseURL, job.0, InsuranceID, GroupID, job.1);
  }

  class HC {
    const baseURL: string
    /** Fixed by `New`, whatever the configuration. */
    const insuranceID: string := InsuranceID
    const groupID: string := GroupID
    /** The messages handed to the notifier, in order. */
    var notifications: seq<string>
    /** The (centre, specialty) pairs scraped, in submission order. */
    var scraped: seq<(string, string)>

    /** `New`. */
    constructor (baseURL: string)
      ensures this.baseURL == baseURL && notifications == [] && scraped == []
    {
      this.baseURL := baseURL;
      notifications, scraped := [], [];
    }

    /** The job `Run` submits for one pair: scrape it in a fresh browser
        session, and notify its message when it produced one. */
    method RunJob(job: (string, string), browse: (string, string) -> PageAnswers) returns (r: Result<string, string>)
      modifies this
      ensures r == JobResult(baseURL, browse, job)
      ensures notifications == old(notifications) + if r.Success? then [r.value] else []
      ensures scraped == old(scraped) + [job]
    {
      var page := new Page(browse(job.0, job.1));
      r := Scrap(page, baseURL, job.0, insuranceID, groupID, job.1);
      scraped := scraped + [job];
      if r.Success? {
        notifications := notifications + [r.value];
      }
    }

    /** One pass of `Run`'s inner loop: every specialty for one centre. */
    method RunRow(centerID: string, specialties: seq<string>, browse: (string, string) -> PageAnswers)
      returns (err: Option<string>)
      modifies this
      ensures var jobs := Jobs.Row(centerID, specialties);
        && notifications == old(notifications) + Notified(baseURL, browse, jobs)
        && scraped == old(scraped) + jobs
        && err == GroupError(baseURL, browse, jobs)
    {
      ghost var before, scrapedBefore := notifications, scraped;
      ghost var done: seq<(string, string)> := [];
      err := None;
      for j := 0 to |specialties|
        invariant done == Jobs.Row(centerID, specialties[..j])
        invariant notifications == before + Notified(baseURL, browse, done)
        invariant scraped == scrapedBefore + done
        invariant err == GroupError(baseURL, browse, done)
      {
        var job := (centerID, specialties[j]);
        var r := RunJob(job, browse);
        if r.Failure? && err.None? {
          err := Some(r.error);
        }
        Jobs.RowSnoc(centerID, specialties, j);
        LogsSnoc(baseURL, browse, before, scrapedBefore, done, job);
        done := done + [job];
      }
      assert specialties[..|specialties|] == specialties;
    }

    /** `Run`: nothing without a base URL; otherwise one scrape per
        (centre, specialty) pair, centres outside, a notification for each
        scrape that produced a message, and the first failure as the error. */
    method Run(healthCentres: seq<string>, specialties: seq<string>, browse: (string, string) -> PageAnswers)
      returns (err: Option<string>)
      modifies this
      ensures baseURL == "" ==> err.None? && notifications == old(notifications) && scraped == old(scraped)
      ensures baseURL != "" ==>
        var jobs := Jobs.Product(healthCentres, specialties);
        && notifications == old(notifications) + Notified(baseURL, browse, jobs)
        && scraped == old(scraped) + jobs
        && err == GroupError(baseURL, browse, jobs)
    {
      if baseURL == "" {
        return None;
      }
      ghost var before, scrapedBefore := notifications, scraped;
      ghost var done: seq<(string, string)> := [];
      err := None;
      for i := 0 to |healthCentres|
        invariant done == Jobs.Product(healthCentres[..i], specialties)
        invariant notifications == before + Notified(baseURL, browse, done)
        invariant scraped == scrapedBefore + done
        invariant err == GroupError(baseURL, browse, done)
      {
        ghost var row := Jobs.Row(healthCentres[i], specialties);
        var rowErr := RunRow(healthCentres[i], specialties, browse);
        if err.None? {
          err := rowErr;
        }
        assert Jobs.Product(healthCentres[..i + 1], specialties) == done + row by {
          Jobs.ProductRow(healthCentres, specialties, i);
          assert specialties[..|specialties|] == specialties;
        }
        JobResultsAppend(baseURL, browse, done, row);
        Jobs.SucceededAppend(JobResults(baseURL, browse, done), JobResults(baseURL, browse, row));
        Jobs.FirstFailureAppend(JobResults(baseURL, browse, done), JobResults(baseURL, browse, row));
        Jobs.AppendAssoc(before, Notified(baseURL, browse, done), Notified(baseURL, browse, row));
        Jobs.AppendAssoc(scrapedBefore, done, row);
        done := done + row;
      }
      assert healthCentres[..|healthCentres|] == healthCentres;
    }
  }
}
