# ytdlp-operator controller, modelled in Dafny

This project models the core of the ytdlp-operator Kubernetes controller: the
reconcile loop for `Download` resources. A `Download` declares a URL to fetch
with yt-dlp, an optional format selection, optional audio extraction and an
S3 destination. The controller materialises one worker Job per Download. The
Job runs yt-dlp with a command line derived from the spec and gets the S3
credentials from a named secret.

Modules, one per concern of `internal/controller/download_controller.go` and
the schema in `api/v1/download_types.go`:

- `Wrappers` (wrappers.dfy): `Option` and `Result`.
- `ApiTypes` (api_types.dfy): `DownloadSpec`, `PostProcessingConfig`,
  `OutputConfig` with its optional `S3Output`, and `Download` (name, namespace,
  spec). A nil pointer in the schema is `None`.
- `YtDlpArgs` (ytdlp_args.dfy): `buildYtDlpArgs`, plus a parser `ParseArgs`
  that reads a command line of the builder's shape back into an `ArgView`.
  The view holds the format, whether audio is extracted, the audio codec, the
  bucket and the URL. The round trip `ParseArgs(BuildYtDlpArgs(s)) == Some(View(s))`
  is the builder's inverse.
- `DownloadJob` (download_job.dfy): the Job description and `newDownloadJob`,
  with `DecodeWorkerJob` as its inverse on worker-shaped jobs.
- `ClusterState` (cluster_state.dfy): an abstract API server. Downloads and
  Jobs are stored in maps keyed by namespaced name. Reads answer `Found`,
  `NotFound` or `Failed`, and a create fails when the name is taken. The errors
  the server returns on one pass come in as a `Faults` value, one optional
  error per client call. `SetControllerReference` sets the Job's owner field.
- `Reconciler` (reconciler.dfy): `Reconcile` as a pure step from a cluster to
  an outcome and a new cluster. It also has lemmas for idempotence, ownership
  and at most one worker job, `ReconcileRun` for any number of passes, and
  the controller test's scenario.

`newDownloadJob` reads `Output.S3` without a nil check, so it is modelled with
the precondition that S3 is present. `buildYtDlpArgs` works without S3, and
the model keeps that difference. When `Reconcile` reaches job construction for
a Download whose output has no S3 block, the Go code dereferences a nil
pointer. The model ends that pass with the distinct outcome `Panicked` and
leaves the cluster unchanged. The schema allows such a Download, because
`S3` is marked optional.

The schema comments (api/v1/download_types.go:57-59) name Pending, Running,
Completed and Failed phases, but the controller never sets a phase and does
not monitor the job. When the worker job exists, the pass returns at once with
an empty result (internal/controller/download_controller.go:155-161). An
existing job with the worker name is never inspected for its owner, so there
is no ownership-conflict error.

## Model

| member | source | states |
|---|---|---|
| YtDlpArgs.BuildYtDlpArgs | internal/controller/download_controller.go:35-64 | The list starts with the five-element preamble and ends with the URL. Its length is 6 + 2·[format set] + [extract] + 2·[codec passed] + 4·[S3 present]. `--format` and the selection sit at positions 5-6 when set. `--extract-audio` comes right after the format part, followed by `--audio-format` and the codec when one is given. With S3, the four upload directives sit immediately before the URL; without S3, nothing sits between the post-processing flags and the URL. |
| YtDlpArgs.ParseBuildRoundTrip | internal/controller/download_controller.go:35-64 | Parsing the built command line recovers exactly the spec's view: format, extraction flag, codec, bucket and URL. So each conditional block is present exactly when its field asks for it, in the fixed order. |
| YtDlpArgs.ArgsDetermineView | internal/controller/download_controller.go:35-64 | Two specs yield the same argument list if and only if they have the same view. The builder is deterministic and loses nothing of the view. |
| YtDlpArgs.ArgsIgnoreS3Key | internal/controller/download_controller.go:53-59 | Changing the S3 object key never changes the arguments: the key is not passed to yt-dlp. |
| YtDlpArgs.FlagPresence | internal/controller/download_controller.go:38-59 | If no user value is itself a flag string, then each flag is in the list exactly when its field asks for it. `--format` needs a non-empty selection. `--extract-audio` needs extraction. `--audio-format` needs extraction and a codec. `--upload-to` and `--s3-bucket` need S3. |
| YtDlpArgs.AudioFormatFollowsExtract | internal/controller/download_controller.go:43-51 | Under the same condition, every `--audio-format` comes directly after `--extract-audio`. |
| DownloadJob.NewDownloadJob | internal/controller/download_controller.go:67-118 | S3 must be present. The error is always nil. The Job has the given name and the Download's namespace, and no owner yet. The restart policy is OnFailure and the grace period is 60 seconds. There is one container, named `yt-dlp-worker` with image `yt-dlp/yt-dlp:latest`, whose args are the builder's list. Its env is exactly AWS_ACCESS_KEY_ID from (secretRef, accessKeyID) and AWS_SECRET_ACCESS_KEY from (secretRef, secretAccessKey). |
| DownloadJob.NewDownloadJobDecodes | internal/controller/download_controller.go:67-118 | The built Job decodes, as a worker-shaped Job, to the spec's command-line view and the S3 secret reference. |
| DownloadJob.NewDownloadJobIgnoresS3Key | internal/controller/download_controller.go:67-117 | The built Job does not depend on the S3 object key. |
| ClusterState.GetDownload | internal/controller/download_controller.go:143-147 | A read finds the stored Download exactly when there is no server error and the key is stored. It answers NotFound exactly when there is no error and the key is absent. |
| ClusterState.GetJob | internal/controller/download_controller.go:152-153 | The same, for Jobs. |
| ClusterState.SetControllerReference | internal/controller/download_controller.go:176-180 | On success, the Job is unchanged except that its owner is the Download's controller reference. It fails exactly when the helper reports an error. |
| ClusterState.CreateJob | internal/controller/download_controller.go:182-187 | A create succeeds exactly when there is no server error and the name is free. On success it adds exactly that Job and the job count grows by one. On failure nothing changes. |
| Reconciler.Reconcile | internal/controller/download_controller.go:139-191 | Downloads are never changed. A missing Download gives an empty result with no error. A failed Download read or Job read returns its error and changes nothing. An existing `<name>-worker` job gives an empty result, no requeue and no change. A missing S3 block panics without change. A failed owner reference returns `OwnerRefError` and a failed create returns its server error, both with no change. Otherwise, with every call succeeding, exactly the owned worker job is added and `Requeue: true` is returned. Only that path asks for a requeue or changes the cluster, and it needs the owner-reference and create calls to succeed. |
| Reconciler.ReconcileIdempotent | internal/controller/download_controller.go:149-161 | After a pass that returned without error, a second pass for the same key leaves the cluster as it was, whatever errors its calls meet. When its reads succeed, it also returns an empty result with no error. |
| Reconciler.ReconcilePreservesOwnership | internal/controller/download_controller.go:169-190 | If every Download-controlled Job is named `<owner>-worker` before a pass, the same holds after it. |
| Reconciler.AtMostOneOwnedJob | internal/controller/download_controller.go:151-153 | Under that invariant, the Jobs a Download controls in a namespace are at most its single worker Job. |
| Reconciler.ReconcileRun | internal/controller/download_controller.go:139-191 | Over any number of passes for one key: Downloads stay the same and no existing Job is changed or removed. The only Job that can appear is the stored Download's worker Job, so the job count grows by at most one. |
| Reconciler.ReconcileConverges | internal/controller/download_controller.go:169-190 | One pass with every call succeeding leaves the worker Job in place. If that pass created it, the Job is controlled by the Download and decodes to the spec's view and secret. |
| Reconciler.BasicDownloadScenario | internal/controller/download_controller_test.go:53-114 | For the test's Download (URL and S3 only), one pass creates `test-download-basic-worker` and only that Job. The Job is owned by the Download and has the expected arguments, and its env is exactly the two credential entries read from `s3-creds`. The pass returns `Requeue: true`. |
| Reconciler.AudioExtractionScenario | internal/controller/download_controller.go:43-62 | With mp3 extraction added, `--extract-audio --audio-format mp3` come after the preamble and before the upload directives and the URL. |

## Left out

- Status: the code never reads or writes `DownloadStatus` (phase, rate, completion time, error message, conditions), so it is not modelled.
- Job monitoring: where the worker job exists, the code stops with a TODO, so there is nothing to model.
- Client calls, logging, RBAC markers and `SetupWithManager` (lines 193-200) are not modelled. The network client is replaced by maps plus a `Faults` parameter that supplies each call's error.
- Concurrency, optimistic-concurrency conflicts, work-queue scheduling and cascade deletion belong to Kubernetes and controller-runtime. `ReconcileRun` only models passes for one key with nothing changing in between.
- Each pass reads the previous pass's writes directly: there is no informer-cache lag. `ReconcileIdempotent`'s empty result on the second pass depends on this. With a stale cache, the second pass could read NotFound and get `AlreadyExists` from the create; `CreateJob` models that error, so no duplicate job is created in that case either.
- Owner references carry kind, name and the controller flag. UIDs, API versions and `BlockOwnerDeletion` are left out, and a Download is identified by name within its namespace.
- SetControllerReference's own validity checks (scheme lookup, cross-namespace owners, an existing controller) are not modelled. Its failure comes only from the `Faults` parameter.
- The error branch after `newDownloadJob` (lines 171-174) is left out: that function always returns a nil error, as `NewDownloadJob`'s contract states.
- Recovery from the nil-pointer panic is left to the controller runtime. The model stops at the `Panicked` outcome.
- YtDlpArgs.FlagPresence: the claim that a flag is present exactly when its field asks for it assumes that no user value (format, codec, bucket, URL) is itself one of the five conditional flag strings, because otherwise the string can occur as a value. The positional facts in `BuildYtDlpArgs` and the round trip hold for every spec.
- YtDlpArgs.AudioFormatFollowsExtract: same assumption as `FlagPresence`, for the same reason.
- Go's int64 grace period is the constant 60, so its width does not matter.
