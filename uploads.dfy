/** The client side of the web service: every routine turns its recordings
    into upload jobs and posts them one after another, stopping at the first
    failure.

    A job for test `name` and kind `kind` posts the file as `<name>.csv` to
    `<URL without trailing '/'>/process/<kind>` and, when the service answers,
    writes the body to `/tmp/<name>_result.png`. The network and the local
    disk are an oracle that says, per job, whether the recording could not be
    opened (no post is made; "Failed to save results"), whether the request
    failed (`raise_for_status` or a connection error: "Failed to process
    data"), whether the result could not be written ("Failed to save
    results"), or whether everything went through. */
module Uploads {

  import opened Common
  import opened Text
  import opened Machines

  datatype Delivery = Delivered | ReadFailed(reason: string) | RequestFailed(reason: string) | WriteFailed(reason: string)

  datatype UploadJob = UploadJob(testName: string, endpoint: string, fileName: string, resultPath: string)

  /** The trace a routine adds, and the error it ends with, if any. */
  datatype Run = Run(events: seq<Event>, failure: Option<RoutineError>)

  /** `webservice_url.rstrip('/')`. */
  function BaseUrl(url: string): (base: string)
    ensures base == [] || base[|base| - 1] != '/'
    ensures exists k :: 0 <= k <= |url| && url == base + url[k..] && forall i :: k <= i < |url| ==> url[i] == '/'
  {
    var base := RStrip(url, '/');
    assert url == base + url[|base|..];
    base
  }

  function Job(base: string, kind: string, testName: string): UploadJob {
    UploadJob(testName, base + "/process/" + kind, testName + ".csv", "/tmp/" + testName + "_result.png")
  }

  function Jobs(base: string, kind: string, names: seq<string>): (jobs: seq<UploadJob>)
    ensures |jobs| == |names|
    ensures forall i :: 0 <= i < |names| ==> jobs[i] == Job(base, kind, names[i])
  {
    if names == [] then [] else [Job(base, kind, names[0])] + Jobs(base, kind, names[1..])
  }

  function Attempt(job: UploadJob, transport: (string, string) -> Delivery): Delivery {
    transport(job.endpoint, job.fileName)
  }

  /** The jobs in order until one fails; the failing job is posted but writes no result. */
  function UploadAll(jobs: seq<UploadJob>, transport: (string, string) -> Delivery): Run
  {
    if jobs == [] then Run([], None)
    else
      var job := jobs[0];
      var post := Post(job.endpoint, job.fileName);
      match Attempt(job, transport)
      case Delivered =>
        var rest := UploadAll(jobs[1..], transport);
        Run([post, SaveResult(job.resultPath)] + rest.events, rest.failure)
      case ReadFailed(why) => Run([], Some(SaveFailed(why)))
      case RequestFailed(why) => Run([post], Some(ProcessFailed(why)))
      case WriteFailed(why) => Run([post], Some(SaveFailed(why)))
  }

  /** The upload `for` loop with its `try`/`raise gcmd.error`. */
  method RunUploads(jobs: seq<UploadJob>, transport: (string, string) -> Delivery) returns (r: Run)
    ensures r == UploadAll(jobs, transport)
  {
    var events: seq<Event> := [];
    var i := 0;
    while i < |jobs|
      invariant 0 <= i <= |jobs|
      invariant UploadAll(jobs, transport) == Run(events + UploadAll(jobs[i..], transport).events,
                                                  UploadAll(jobs[i..], transport).failure)
    {
      var job := jobs[i];
      assert jobs[i..][1..] == jobs[i + 1..];
      var post := Post(job.endpoint, job.fileName);
      var delivery := transport(job.endpoint, job.fileName);
      match delivery
      case Delivered =>
        events := events + [post, SaveResult(job.resultPath)];
        i := i + 1;
      case ReadFailed(why) =>
        assert events + [] == events;
        return Run(events, Some(SaveFailed(why)));
      case RequestFailed(why) =>
        return Run(events + [post], Some(ProcessFailed(why)));
      case WriteFailed(why) =>
        return Run(events + [post], Some(SaveFailed(why)));
    }
    assert jobs[i..] == [];
    assert events + [] == events;
    r := Run(events, None);
  }

  /** How many jobs from the front go through. */
  function DeliveredCount(jobs: seq<UploadJob>, transport: (string, string) -> Delivery): (n: nat)
    ensures n <= |jobs|
    ensures forall i :: 0 <= i < n ==> Attempt(jobs[i], transport).Delivered?
    ensures n < |jobs| ==> !Attempt(jobs[n], transport).Delivered?
  {
    if jobs == [] || !Attempt(jobs[0], transport).Delivered? then 0
    else 1 + DeliveredCount(jobs[1..], transport)
  }

  function FileNames(jobs: seq<UploadJob>): (r: seq<string>)
    ensures |r| == |jobs| && forall i :: 0 <= i < |jobs| ==> r[i] == jobs[i].fileName
  {
    if jobs == [] then [] else [jobs[0].fileName] + FileNames(jobs[1..])
  }

  function ResultPaths(jobs: seq<UploadJob>): (r: seq<string>)
    ensures |r| == |jobs| && forall i :: 0 <= i < |jobs| ==> r[i] == jobs[i].resultPath
  {
    if jobs == [] then [] else [jobs[0].resultPath] + ResultPaths(jobs[1..])
  }

  /** The events one delivered job adds in front of the rest. */
  lemma DeliveredPick<T>(job: UploadJob, rest: seq<Event>, f: Event -> Option<T>)
    ensures Pick([Post(job.endpoint, job.fileName), SaveResult(job.resultPath)] + rest, f)
            == Pick([Post(job.endpoint, job.fileName)], f) + Pick([SaveResult(job.resultPath)], f) + Pick(rest, f)
  {
    var post := Post(job.endpoint, job.fileName);
    var save := SaveResult(job.resultPath);
    assert [post, save] == [post] + [save];
    PickConcat([post, save], rest, f);
    PickConcat([post], [save], f);
  }

  /** Fail-fast, results: exactly the jobs in front of the first failure write
      their results, in order. */
  lemma {:induction false} UploadSaved(jobs: seq<UploadJob>, transport: (string, string) -> Delivery)
    ensures Pick(UploadAll(jobs, transport).events, SavedPath) == ResultPaths(jobs[..DeliveredCount(jobs, transport)])
  {
    var n := DeliveredCount(jobs, transport);
    if jobs == [] {
      assert jobs[..0] == [];
    } else {
      var job := jobs[0];
      var post := Post(job.endpoint, job.fileName);
      PickSingle(post, SavedPath);
      if Attempt(job, transport).Delivered? {
        var rest := UploadAll(jobs[1..], transport);
        UploadSaved(jobs[1..], transport);
        DeliveredPick(job, rest.events, SavedPath);
        PickSingle(SaveResult(job.resultPath), SavedPath);
        assert jobs[..n][1..] == jobs[1..][..n - 1];
      } else {
        assert jobs[..0] == [];
      }
    }
  }

  /** The number of jobs that are posted: those that go through and the first
      that does not, unless its recording could not even be opened. */
  function PostedCount(jobs: seq<UploadJob>, transport: (string, string) -> Delivery): nat {
    var n := DeliveredCount(jobs, transport);
    if n < |jobs| && !Attempt(jobs[n], transport).ReadFailed? then n + 1 else n
  }

  /** Fail-fast, posts: the jobs in front of the first failure and the failing
      one (when its recording could be read) are posted, in order, and no job
      after it. */
  lemma {:induction false} UploadPosted(jobs: seq<UploadJob>, transport: (string, string) -> Delivery)
    ensures PostedCount(jobs, transport) <= |jobs|
    ensures Pick(UploadAll(jobs, transport).events, PostedFile) == FileNames(jobs[..PostedCount(jobs, transport)])
  {
    var k := PostedCount(jobs, transport);
    if jobs == [] {
      assert jobs[..0] == [];
    } else {
      var job := jobs[0];
      var post := Post(job.endpoint, job.fileName);
      PickSingle(post, PostedFile);
      if Attempt(job, transport).Delivered? {
        var rest := UploadAll(jobs[1..], transport);
        UploadPosted(jobs[1..], transport);
        var n' := DeliveredCount(jobs[1..], transport);
        if n' < |jobs| - 1 {
          assert jobs[1..][n'] == jobs[n' + 1];
        }
        assert k == PostedCount(jobs[1..], transport) + 1;
        DeliveredPick(job, rest.events, PostedFile);
        PickSingle(SaveResult(job.resultPath), PostedFile);
        assert jobs[..k][1..] == jobs[1..][..k - 1];
      } else if Attempt(job, transport).ReadFailed? {
        assert jobs[..0] == [];
      } else {
        assert jobs[..1] == [job];
      }
    }
  }

  /** Fail-fast, outcome: the uploads fail exactly when some job does not go
      through, and then with the error of the first such job. */
  lemma {:induction false} UploadFailure(jobs: seq<UploadJob>, transport: (string, string) -> Delivery)
    ensures var r := UploadAll(jobs, transport);
            var n := DeliveredCount(jobs, transport);
            (r.failure.None? <==> n == |jobs|)
            && (n < |jobs| && Attempt(jobs[n], transport).RequestFailed? ==>
                  r.failure == Some(ProcessFailed(Attempt(jobs[n], transport).reason)))
            && (n < |jobs| && !Attempt(jobs[n], transport).RequestFailed? ==>
                  r.failure == Some(SaveFailed(Attempt(jobs[n], transport).reason)))
  {
    if jobs != [] && Attempt(jobs[0], transport).Delivered? {
      UploadFailure(jobs[1..], transport);
      var n' := DeliveredCount(jobs[1..], transport);
      if n' < |jobs| - 1 {
        assert jobs[1..][n'] == jobs[n' + 1];
      }
    }
  }

  /** Every upload event is one the machine state does not see. */
  lemma {:induction false} UploadsInert(jobs: seq<UploadJob>, transport: (string, string) -> Delivery)
    ensures forall e | e in UploadAll(jobs, transport).events :: Inert(e) && (e.Post? || e.SaveResult?)
  {
    if jobs != [] && Attempt(jobs[0], transport).Delivered? {
      UploadsInert(jobs[1..], transport);
    }
  }

  /** Every post of a routine's jobs goes to the one endpoint of its kind. */
  lemma {:induction false} UploadsEndpoint(base: string, kind: string, names: seq<string>, transport: (string, string) -> Delivery)
    ensures forall e | e in UploadAll(Jobs(base, kind, names), transport).events && e.Post? ::
              e.endpoint == base + "/process/" + kind
  {
    var jobs := Jobs(base, kind, names);
    if names != [] && Attempt(jobs[0], transport).Delivered? {
      assert jobs[1..] == Jobs(base, kind, names[1..]);
      UploadsEndpoint(base, kind, names[1..], transport);
    }
  }

  /** Nothing of the upload side. */
  predicate Offline(es: seq<Event>) {
    forall e | e in es :: !e.Post? && !e.SaveResult?
  }

  /** What a routine that ends with its uploads has posted and saved. */
  lemma UploadsAfter(pre: seq<Event>, jobs: seq<UploadJob>, transport: (string, string) -> Delivery)
    requires Offline(pre)
    ensures Pick(pre + UploadAll(jobs, transport).events, SavedPath) == ResultPaths(jobs[..DeliveredCount(jobs, transport)])
    ensures PostedCount(jobs, transport) <= |jobs|
    ensures Pick(pre + UploadAll(jobs, transport).events, PostedFile) == FileNames(jobs[..PostedCount(jobs, transport)])
  {
    var up := UploadAll(jobs, transport).events;
    PickConcat(pre, up, SavedPath);
    PickConcat(pre, up, PostedFile);
    PickNone(pre, SavedPath);
    PickNone(pre, PostedFile);
    UploadSaved(jobs, transport);
    UploadPosted(jobs, transport);
  }

}
