/** An abstract Kubernetes API as the controller sees it: Downloads and Jobs
    stored by namespaced name, reads that answer Found, NotFound or an error,
    and a create that fails if the name is taken. Errors the server or the
    scheme would report on a given pass come in as a Faults value. */
module ClusterState {
  import opened Wrappers
  import opened ApiTypes
  import opened DownloadJob

  /** A namespaced name. */
  datatype ObjectKey = ObjectKey(namespace: string, name: string)

  /** The stored objects. */
  datatype Cluster = Cluster(downloads: map<ObjectKey, Download>, jobs: map<ObjectKey, Job>)

  /** Errors the API and the owner-reference helper report. */
  datatype ApiError =
    | ServerError(reason: string)
    | AlreadyExists(key: ObjectKey)
    | OwnerRefError(reason: string)

  /** The answer to a read. */
  datatype Lookup<+T> = Found(value: T) | NotFound | Failed(error: ApiError)

  /** The error, if any, each client call of one reconcile pass meets. */
  datatype Faults = Faults(
    getDownload: Option<string>,
    getJob: Option<string>,
    setOwner: Option<string>,
    createJob: Option<string>)

  /** A pass on which every call succeeds. */
  const NoFaults := Faults(None, None, None, None)

  function KeyOfJob(job: Job): ObjectKey
  {
    ObjectKey(job.namespace, job.name)
  }

  /** Reads a Download by key. */
  function GetDownload(c: Cluster, fault: Option<string>, key: ObjectKey): (r: Lookup<Download>)
    ensures r.Found? <==> fault.None? && key in c.downloads
    ensures r.Found? ==> r.value == c.downloads[key]
    ensures r.NotFound? <==> fault.None? && key !in c.downloads
  {
    if fault.Some? then Failed(ServerError(fault.value))
    else if key in c.downloads then Found(c.downloads[key])
    else NotFound
  }

  /** Reads a Job by key. */
  function GetJob(c: Cluster, fault: Option<string>, key: ObjectKey): (r: Lookup<Job>)
    ensures r.Found? <==> fault.None? && key in c.jobs
    ensures r.Found? ==> r.value == c.jobs[key]
    ensures r.NotFound? <==> fault.None? && key !in c.jobs
  {
    if fault.Some? then Failed(ServerError(fault.value))
    else if key in c.jobs then Found(c.jobs[key])
    else NotFound
  }

  /** The controller reference a Download places on what it owns. */
  function ControllerRef(owner: Download): OwnerRef
  {
    OwnerRef("Download", owner.name, true)
  }

  /** Marks the job as controlled by the Download; fails when the helper reports an error. */
  function SetControllerReference(owner: Download, job: Job, fault: Option<string>): (r: Result<Job, ApiError>)
    ensures r.Success? <==> fault.None?
    ensures r.Success? ==> r.value.owner == Some(ControllerRef(owner))
    ensures r.Success? ==> r.value.(owner := job.owner) == job
  {
    if fault.Some? then Failure(OwnerRefError(fault.value))
    else Success(job.(owner := Some(ControllerRef(owner))))
  }

  /** Stores a new job; fails, changing nothing, on a server error or when the name is taken. */
  function CreateJob(c: Cluster, fault: Option<string>, job: Job): (r: (Cluster, Option<ApiError>))
    ensures r.1.None? <==> fault.None? && KeyOfJob(job) !in c.jobs
    ensures r.1.Some? ==> r.0 == c
    ensures r.1.None? ==> r.0.downloads == c.downloads && r.0.jobs == c.jobs[KeyOfJob(job) := job]
    ensures r.1.None? ==> |r.0.jobs| == |c.jobs| + 1
  {
    if fault.Some? then (c, Some(ServerError(fault.value)))
    else if KeyOfJob(job) in c.jobs then (c, Some(AlreadyExists(KeyOfJob(job))))
    else (c.(jobs := c.jobs[KeyOfJob(job) := job]), None)
  }
}
