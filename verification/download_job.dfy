/** The worker Job the controller creates for a Download: a single yt-dlp
    container with the command line from YtDlpArgs and the S3 credentials
    injected from the referenced secret. */
module DownloadJob {
  import opened Wrappers
  import opened ApiTypes
  import opened YtDlpArgs

  /** A reference to one key of a named secret. */
  datatype SecretKeyRef = SecretKeyRef(secretName: string, key: string)

  /** An environment variable whose value is read from a secret key. */
  datatype EnvVar = EnvVar(name: string, valueFrom: SecretKeyRef)

  datatype Container = Container(name: string, image: string, args: seq<string>, env: seq<EnvVar>)

  datatype RestartPolicy = Always | OnFailure | Never

  datatype PodSpec = PodSpec(
    restartPolicy: RestartPolicy,
    terminationGracePeriodSeconds: int,
    containers: seq<Container>)

  /** The controlling owner of an object: the owner's kind and name (same namespace). */
  datatype OwnerRef = OwnerRef(kind: string, name: string, controller: bool)

  /** A Job: identity, optional controller reference and the pod template. */
  datatype Job = Job(name: string, namespace: string, owner: Option<OwnerRef>, template: PodSpec)

  /** The error channel of job construction; the builder never uses it. */
  datatype BuildError = BuildError(reason: string)

  /** What job construction hands back: the job and an error that is always absent. */
  datatype JobBuild = JobBuild(job: Job, err: Option<BuildError>)

  const WorkerContainerName := "yt-dlp-worker"
  const WorkerImage := "yt-dlp/yt-dlp:latest"
  const GracePeriodSeconds := 60

  /** The two credential entries, both read from the named secret. */
  function CredentialEnv(secretRef: string): seq<EnvVar>
  {
    [ EnvVar("AWS_ACCESS_KEY_ID", SecretKeyRef(secretRef, "accessKeyID")),
      EnvVar("AWS_SECRET_ACCESS_KEY", SecretKeyRef(secretRef, "secretAccessKey")) ]
  }

  /** Builds the worker Job named `jobName` in the Download's namespace. The
      S3 destination is read unconditionally, so it must be present. */
  function NewDownloadJob(download: Download, jobName: string): (r: JobBuild)
    requires download.spec.output.s3.Some?
    ensures r.err.None?
    ensures r.job.name == jobName && r.job.namespace == download.namespace
    ensures r.job.owner.None?
    ensures r.job.template.restartPolicy == OnFailure
    ensures r.job.template.terminationGracePeriodSeconds == 60
    ensures |r.job.template.containers| == 1
    ensures r.job.template.containers[0].name == WorkerContainerName
    ensures r.job.template.containers[0].image == WorkerImage
    ensures r.job.template.containers[0].args == BuildYtDlpArgs(download.spec)
    ensures r.job.template.containers[0].env ==
              [ EnvVar("AWS_ACCESS_KEY_ID", SecretKeyRef(download.spec.output.s3.value.secretRef, "accessKeyID")),
                EnvVar("AWS_SECRET_ACCESS_KEY", SecretKeyRef(download.spec.output.s3.value.secretRef, "secretAccessKey")) ]
  {
    var secretRef := download.spec.output.s3.value.secretRef;
    var container := Container(WorkerContainerName, WorkerImage, BuildYtDlpArgs(download.spec), CredentialEnv(secretRef));
    var job := Job(jobName, download.namespace, None,
                   PodSpec(OnFailure, GracePeriodSeconds, [container]));
    JobBuild(job, None)
  }

  /** What a worker job says about its Download: the command-line view and
      the credential secret. */
  datatype WorkerView = WorkerView(args: ArgView, secretRef: string)

  /** Reads a job of the worker shape back: one yt-dlp container, the two
      credential entries from one secret, restart-on-failure and the 60-second
      grace period. None for any other job. */
  function DecodeWorkerJob(job: Job): Option<WorkerView>
  {
    var pod := job.template;
    if pod.restartPolicy != OnFailure || pod.terminationGracePeriodSeconds != GracePeriodSeconds
       || |pod.containers| != 1 then None
    else
      var c := pod.containers[0];
      if c.name != WorkerContainerName || c.image != WorkerImage || |c.env| != 2 then None
      else
        var secretRef := c.env[0].valueFrom.secretName;
        if c.env != CredentialEnv(secretRef) then None
        else
          match ParseArgs(c.args)
          case None => None
          case Some(v) => Some(WorkerView(v, secretRef))
  }

  /** Round trip: the built job decodes to the spec's command-line view and
      the S3 secret reference, so it has exactly the worker shape. */
  lemma NewDownloadJobDecodes(download: Download, jobName: string)
    requires download.spec.output.s3.Some?
    ensures DecodeWorkerJob(NewDownloadJob(download, jobName).job)
         == Some(WorkerView(View(download.spec), download.spec.output.s3.value.secretRef))
  {
    ParseBuildRoundTrip(download.spec);
  }

  /** The job is a function of the Download's namespace, the spec's view and
      the secret reference: in particular the S3 object key plays no part. */
  lemma NewDownloadJobIgnoresS3Key(download: Download, jobName: string, key: string)
    requires download.spec.output.s3.Some?
    ensures NewDownloadJob(download.(spec := WithS3Key(download.spec, key)), jobName)
         == NewDownloadJob(download, jobName)
  {
  }
}
