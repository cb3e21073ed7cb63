/**
 * The blur worker's decision rule: read the image locator from the input
 * data, reject a missing or empty one, run the (opaque) decode, blur and
 * write steps, and report success or failure.
 *
 * The image work itself is not modelled: its outcome is a parameter, either
 * the locator of the file written or a throw.
 */
module Workers {
  import opened Wrappers
  import opened Work

  /** What the decode, blur and write steps did: wrote `file`, or threw. */
  datatype BlurIo = Written(file: Uri) | Throws

  /** The input holds a non-empty image locator. */
  predicate HasImageUri(inputData: Data) {
    !IsNullOrEmpty(GetString(inputData, KEY_IMAGE_URI))
  }

  /**
   * `BlurWorker.doWork` as written: on success the output data carries the
   * locator that came IN, not the file the blur was written to.
   */
  function DoWork(inputData: Data, io: BlurIo): (r: WorkResult)
    ensures !r.Retry?
    ensures r.Success? <==> HasImageUri(inputData) && io.Written?
    ensures r.Failure? ==> r.outputData == map[]
    ensures r.Success? ==> r.outputData.Keys == {KEY_IMAGE_URI} && r.outputData[KEY_IMAGE_URI] == inputData[KEY_IMAGE_URI]
  {
    var outputUri := GetString(inputData, KEY_IMAGE_URI);
    if IsNullOrEmpty(outputUri) then
      Failure(map[])
    else
      match io
      case Throws => Failure(map[])
      case Written(outputuri) => Success(WorkDataOf(KEY_IMAGE_URI, outputUri.value))
  }

  /** The locator written by the blur never reaches the output data. */
  lemma OutputIgnoresWrittenFile(inputData: Data, file1: Uri, file2: Uri)
    ensures DoWork(inputData, Written(file1)) == DoWork(inputData, Written(file2))
  {
  }

  /** A successful blur's output, fed to another blur that succeeds, comes back unchanged. */
  lemma SuccessOutputIsFixedPoint(inputData: Data, io: BlurIo, file: Uri)
    requires DoWork(inputData, io).Success?
    ensures DoWork(DoWork(inputData, io).outputData, Written(file)) == DoWork(inputData, io)
  {
  }

  /** A concrete run of the worker as written: the blurred file is not reported. */
  lemma AsWrittenReportsInputNotBlurredFile()
    ensures var r := DoWork(map[KEY_IMAGE_URI := "content://media/1"], Written(Uri("file:///blur-output-1.png")));
      r.Success? && r.outputData[KEY_IMAGE_URI] == "content://media/1"
      && r.outputData[KEY_IMAGE_URI] != "file:///blur-output-1.png"
  {
  }

  /**
   * `doWork` as evidently intended: the same checks, but the output data
   * carries the locator of the blurred file just written.
   */
  function DoWorkIntended(inputData: Data, io: BlurIo): (r: WorkResult)
    ensures !r.Retry?
    ensures r.Success? <==> HasImageUri(inputData) && io.Written?
    ensures r.Failure? ==> r.outputData == map[]
    ensures r.Success? ==> r.outputData.Keys == {KEY_IMAGE_URI} && r.outputData[KEY_IMAGE_URI] == io.file.ToString()
  {
    var inputUri := GetString(inputData, KEY_IMAGE_URI);
    if IsNullOrEmpty(inputUri) then
      Failure(map[])
    else
      match io
      case Throws => Failure(map[])
      case Written(outputUri) => Success(WorkDataOf(KEY_IMAGE_URI, outputUri.ToString()))
  }
}
