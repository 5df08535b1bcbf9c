/** One pass of the Download control loop over the abstract cluster, the
    properties of a single pass, and what repeated passes for one key do. */
module Reconciler {
  import opened Wrappers
  import opened ApiTypes
  import opened YtDlpArgs
  import opened DownloadJob
  import opened ClusterState

  /** The controller's scheduling answer: whether to run again right away. */
  datatype CtrlResult = CtrlResult(requeue: bool)

  const Empty := CtrlResult(false)

  /** How a pass ends: a result and an optional error, or a nil-pointer panic
      when the job is built for a Download with no S3 destination. */
  datatype Outcome = Returned(result: CtrlResult, err: Option<ApiError>) | Panicked

  /** A pass's outcome together with the cluster it leaves behind. */
  datatype Step = Step(outcome: Outcome, cluster: Cluster)

  /** The worker job's key: the Download's name with "-worker", in its namespace. */
  function WorkerKey(download: Download): ObjectKey
  {
    ObjectKey(download.namespace, download.name + "-worker")
  }

  /** The job a successful pass stores for the Download: built, then owned. */
  function OwnedWorkerJob(download: Download): Job
    requires download.spec.output.s3.Some?
  {
    NewDownloadJob(download, WorkerKey(download).name).job.(owner := Some(ControllerRef(download)))
  }

  /** One reconcile pass for the Download at `req`. */
  function Reconcile(c: Cluster, faults: Faults, req: ObjectKey): (s: Step)
    // Downloads are never touched
    ensures s.cluster.downloads == c.downloads
    // a missing Download is not an error
    ensures faults.getDownload.None? && req !in c.downloads ==> s == Step(Returned(Empty, None), c)
    // a failed Download read is reported and changes nothing
    ensures faults.getDownload.Some? ==>
              s == Step(Returned(Empty, Some(ServerError(faults.getDownload.value))), c)
    // an existing worker job means there is nothing to do
    ensures (faults.getDownload.None? && req in c.downloads && faults.getJob.None?
             && WorkerKey(c.downloads[req]) in c.jobs) ==> s == Step(Returned(Empty, None), c)
    // a failed Job read is reported and changes nothing
    ensures faults.getDownload.None? && req in c.downloads && faults.getJob.Some? ==>
              s == Step(Returned(Empty, Some(ServerError(faults.getJob.value))), c)
    // with the worker job absent, a Download without S3 output crashes the pass
    ensures s.outcome.Panicked? <==>
              (faults.getDownload.None? && faults.getJob.None? && req in c.downloads
               && WorkerKey(c.downloads[req]) !in c.jobs && c.downloads[req].spec.output.s3.None?)
    ensures s.outcome.Panicked? ==> s.cluster == c
    // with the worker job absent and every call succeeding, exactly that job is created, owned, and a requeue asked for
    ensures (faults == NoFaults && req in c.downloads && WorkerKey(c.downloads[req]) !in c.jobs
             && c.downloads[req].spec.output.s3.Some?) ==>
              var d := c.downloads[req];
              s == Step(Returned(CtrlResult(true), None), c.(jobs := c.jobs[WorkerKey(d) := OwnedWorkerJob(d)]))
    // with the worker job absent and S3 present, a failed owner reference or create is reported and changes nothing
    ensures (faults.getDownload.None? && faults.getJob.None? && req in c.downloads
             && WorkerKey(c.downloads[req]) !in c.jobs && c.downloads[req].spec.output.s3.Some?
             && faults.setOwner.Some?) ==>
              s == Step(Returned(Empty, Some(OwnerRefError(faults.setOwner.value))), c)
    ensures (faults.getDownload.None? && faults.getJob.None? && req in c.downloads
             && WorkerKey(c.downloads[req]) !in c.jobs && c.downloads[req].spec.output.s3.Some?
             && faults.setOwner.None? && faults.createJob.Some?) ==>
              s == Step(Returned(Empty, Some(ServerError(faults.createJob.value))), c)
    // only job creation asks for a requeue, and only it changes the cluster
    ensures s.cluster != c ==> faults.setOwner.None? && faults.createJob.None?
    ensures s.outcome.Returned? && s.outcome.result.requeue <==> s.cluster != c
    ensures s.outcome.Returned? && s.outcome.result.requeue ==> s.outcome.err.None?
    ensures s.cluster != c ==>
              && req in c.downloads
              && var d := c.downloads[req];
              && WorkerKey(d) !in c.jobs
              && d.spec.output.s3.Some?
              && s.cluster.jobs == c.jobs[WorkerKey(d) := OwnedWorkerJob(d)]
  {
    match GetDownload(c, faults.getDownload, req)
    case NotFound => Step(Returned(Empty, None), c)
    case Failed(e) => Step(Returned(Empty, Some(e)), c)
    case Found(download) =>
      var jobKey := WorkerKey(download);
      match GetJob(c, faults.getJob, jobKey)
      case Found(_) => Step(Returned(Empty, None), c)
      case Failed(e) => Step(Returned(Empty, Some(e)), c)
      case NotFound =>
        if download.spec.output.s3.None? then Step(Panicked, c)
        else
          var job := NewDownloadJob(download, jobKey.name).job;
          match SetControllerReference(download, job, faults.setOwner)
          case Failure(e) => Step(Returned(Empty, Some(e)), c)
          case Success(owned) =>
            var (c', err) := CreateJob(c, faults.createJob, owned);
            if err.Some? then Step(Returned(Empty, err), c)
            else Step(Returned(CtrlResult(true), None), c')
  }

  /** Idempotence: after a pass that returned without error, a second pass
      for the same key, with no change in between, changes nothing whatever
      its calls meet, and asks for no requeue when its reads succeed. */
  lemma ReconcileIdempotent(c: Cluster, first: Faults, second: Faults, req: ObjectKey)
    requires Reconcile(c, first, req).outcome.Returned? && Reconcile(c, first, req).outcome.err.None?
    ensures Reconcile(Reconcile(c, first, req).cluster, second, req).cluster == Reconcile(c, first, req).cluster
    ensures second.getDownload.None? && second.getJob.None? ==>
              Reconcile(Reconcile(c, first, req).cluster, second, req).outcome == Returned(Empty, None)
  {
  }

  /** Every job controlled by a Download carries that Download's worker name. */
  ghost predicate OwnedJobsAreWorkers(c: Cluster)
  {
    forall k :: k in c.jobs && c.jobs[k].owner.Some? && c.jobs[k].owner.value.kind == "Download" ==>
      k.name == c.jobs[k].owner.value.name + "-worker"
  }

  /** The keys of the jobs in `namespace` controlled by the Download named `owner`. */
  function JobsOwnedBy(c: Cluster, namespace: string, owner: string): set<ObjectKey>
  {
    set k | k in c.jobs && k.namespace == namespace && c.jobs[k].owner == Some(OwnerRef("Download", owner, true))
  }

  /** A pass keeps every controlled job under its owner's worker name. */
  lemma ReconcilePreservesOwnership(c: Cluster, faults: Faults, req: ObjectKey)
    requires OwnedJobsAreWorkers(c)
    ensures OwnedJobsAreWorkers(Reconcile(c, faults, req).cluster)
  {
  }

  /** At most one worker job: while controlled jobs carry their owner's
      worker name, a Download controls at most one job in its namespace. */
  lemma AtMostOneOwnedJob(c: Cluster, namespace: string, owner: string)
    requires OwnedJobsAreWorkers(c)
    ensures JobsOwnedBy(c, namespace, owner) <= {ObjectKey(namespace, owner + "-worker")}
    ensures |JobsOwnedBy(c, namespace, owner)| <= 1
  {
    var owned := JobsOwnedBy(c, namespace, owner);
    var worker := ObjectKey(namespace, owner + "-worker");
    forall k | k in owned
      ensures k == worker
    {
      assert c.jobs[k].owner.value.name == owner;
    }
    if worker in owned {
      assert owned == {worker};
    } else {
      assert owned == {};
    }
  }

  /** The job keys a run of passes for `req` may add: the worker key of the
      Download stored there, if any. */
  function CreatableKeys(c: Cluster, req: ObjectKey): set<ObjectKey>
  {
    if req in c.downloads then {WorkerKey(c.downloads[req])} else {}
  }

  /** Passes for one key under a sequence of per-pass faults, as the work
      queue would run them with nothing else changing in between. Across any
      number of passes the Downloads stay as they are, no existing job is
      touched, and the only job that can appear is the worker job. */
  function ReconcileRun(c: Cluster, runs: seq<Faults>, req: ObjectKey): (c': Cluster)
    ensures c'.downloads == c.downloads
    ensures c'.jobs.Keys <= c.jobs.Keys + CreatableKeys(c, req)
    ensures forall k :: k in c.jobs ==> k in c'.jobs && c'.jobs[k] == c.jobs[k]
    ensures |c'.jobs| <= |c.jobs| + 1
    decreases |runs|
  {
    if runs == [] then c
    else
      var next := Reconcile(c, runs[0], req).cluster;
      var c' := ReconcileRun(next, runs[1..], req);
      assert CreatableKeys(next, req) == CreatableKeys(c, req);
      CardinalityBound(c.jobs.Keys, c'.jobs.Keys, CreatableKeys(c, req));
      c'
  }

  /** A set inside another plus at most one key grows by at most one. */
  lemma CardinalityBound(a: set<ObjectKey>, b: set<ObjectKey>, extra: set<ObjectKey>)
    requires b <= a + extra
    requires |extra| <= 1
    ensures |b| <= |a| + 1
  {
    calc {
      |b|;
      <= { SubsetCardinality(b, a + extra); }
      |a + extra|;
      <= |a| + |extra|;
    }
  }

  lemma SubsetCardinality(x: set<ObjectKey>, y: set<ObjectKey>)
    requires x <= y
    ensures |x| <= |y|
  {
    assert y == x + (y - x);
  }

  /** Convergence: one pass in which every call succeeds leaves the Download
      with its worker job, controlled by it and decoding to its spec's view
      and secret. */
  lemma ReconcileConverges(c: Cluster, req: ObjectKey)
    requires req in c.downloads && c.downloads[req].spec.output.s3.Some?
    ensures var d := c.downloads[req];
            var c' := Reconcile(c, NoFaults, req).cluster;
            && WorkerKey(d) in c'.jobs
            && (WorkerKey(d) !in c.jobs ==>
                  && c'.jobs[WorkerKey(d)].owner == Some(ControllerRef(d))
                  && DecodeWorkerJob(c'.jobs[WorkerKey(d)])
                     == Some(WorkerView(View(d.spec), d.spec.output.s3.value.secretRef)))
  {
    var d := c.downloads[req];
    NewDownloadJobDecodes(d, WorkerKey(d).name);
  }

  /** The controller test's Download: a URL and an S3 destination only. */
  const BasicDownload := Download("test-download-basic", "default",
    DownloadSpec("https://example.com/video", "", None,
                 OutputConfig(Some(S3Output("test-bucket", "video.mp4", "s3-creds")))))

  /** The controller test's scenario: one pass over a cluster holding only
      the basic Download creates `test-download-basic-worker`, controlled by
      it, running yt-dlp with the upload directives just before the URL and
      the credentials from `s3-creds`. */
  lemma BasicDownloadScenario()
    ensures var key := ObjectKey("default", "test-download-basic");
            var s := Reconcile(Cluster(map[key := BasicDownload], map[]), NoFaults, key);
            var jobKey := ObjectKey("default", "test-download-basic-worker");
            && s.outcome == Returned(CtrlResult(true), None)
            && s.cluster.jobs.Keys == {jobKey}
            && s.cluster.jobs[jobKey].owner == Some(OwnerRef("Download", "test-download-basic", true))
            && s.cluster.jobs[jobKey].template.containers[0].args
               == ["yt-dlp", "--no-mtime", "--ignore-errors", "-o", "/data/%(title)s.%(ext)s",
                   "--upload-to", "s3-generic", "--s3-bucket", "test-bucket", "https://example.com/video"]
            && s.cluster.jobs[jobKey].template.containers[0].env == CredentialEnv("s3-creds")
  {
    var key := ObjectKey("default", "test-download-basic");
    var jobKey := ObjectKey("default", "test-download-basic-worker");
    assert WorkerKey(BasicDownload) == jobKey;
  }

  /** The same Download asking for mp3 extraction: the extraction flags come
      after the preamble and before the upload directives and the URL. */
  lemma AudioExtractionScenario()
    ensures BuildYtDlpArgs(BasicDownload.spec.(postProcessing := Some(PostProcessingConfig(true, "mp3"))))
         == ["yt-dlp", "--no-mtime", "--ignore-errors", "-o", "/data/%(title)s.%(ext)s",
             "--extract-audio", "--audio-format", "mp3",
             "--upload-to", "s3-generic", "--s3-bucket", "test-bucket", "https://example.com/video"]
  {
  }
}

