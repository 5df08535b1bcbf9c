/** The desired state of a Download resource, as declared by its schema.
    Only the fields the controller reads are kept; the status block is never
    read or written by the controller and is not part of this model. */
module ApiTypes {
  import opened Wrappers

  /** Post-download directives: audio extraction and the target audio codec. */
  datatype PostProcessingConfig = PostProcessingConfig(extractAudio: bool, audioFormat: string)

  /** An S3-compatible destination: bucket, object key and the name of the
      secret holding the credentials (a name only, never secret material). */
  datatype S3Output = S3Output(bucket: string, key: string, secretRef: string)

  /** Where the result goes; S3 is the only destination today and is optional. */
  datatype OutputConfig = OutputConfig(s3: Option<S3Output>)

  /** The user's declaration: what to fetch, how to select formats, how to
      post-process and where to upload. An empty format selection means "not set". */
  datatype DownloadSpec = DownloadSpec(
    inputURL: string,
    formatSelection: string,
    postProcessing: Option<PostProcessingConfig>,
    output: OutputConfig)

  /** A Download object: its identity (name and namespace) and its spec. */
  datatype Download = Download(name: string, namespace: string, spec: DownloadSpec)

  /** Audio extraction is requested only by a present config with the flag set. */
  predicate ExtractsAudio(spec: DownloadSpec)
  {
    spec.postProcessing.Some? && spec.postProcessing.value.extractAudio
  }

  /** The spec with its S3 object key replaced; the key plays no part in the worker invocation. */
  function WithS3Key(spec: DownloadSpec, key: string): DownloadSpec
  {
    match spec.output.s3
    case None => spec
    case Some(s3) => spec.(output := OutputConfig(Some(s3.(key := key))))
  }
}
