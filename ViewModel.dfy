/**
 * The blur screen's view model: it remembers the image the user picked and
 * the saved output, builds the unique chain "cleanup, blur x N, save" and
 * hands it to the job-scheduling library, and cancels that chain by name.
 *
 * The library is seen only through the calls made into it, which the view
 * model records in order (`workManagerCalls`).
 */
module ViewModel {
  import opened Wrappers
  import opened Work

  /** `uriOrNull`: parses the text unless it is null or empty. */
  function UriOrNull(uriString: Option<string>): (r: Option<Uri>)
    ensures r.None? <==> IsNullOrEmpty(uriString)
    ensures r.Some? ==> r.value.ToString() == uriString.value
  {
    if !IsNullOrEmpty(uriString) then Some(Parse(uriString.value)) else None
  }

  /** The data every blur chain starts from: the image locator, if one is set. */
  function InputData(imageUri: Option<Uri>): (d: Data)
    ensures KEY_IMAGE_URI in d <==> imageUri.Some?
    ensures d.Keys <= {KEY_IMAGE_URI}
    ensures imageUri.Some? ==> d[KEY_IMAGE_URI] == imageUri.value.ToString()
  {
    if imageUri.Some? then map[KEY_IMAGE_URI := imageUri.value.ToString()] else map[]
  }

  /** The blur request the loop builds at index `i`: explicit input on the first only. */
  function BlurStep(i: nat, input: Data): Request {
    var blurBuilder := OneTimeRequest(Blur);
    if i == 0 then blurBuilder.(input := Some(input)) else blurBuilder
  }

  /** The blur requests of a chain of `blurLevel` blurs, in loop order. */
  function BlurRequests(blurLevel: int, input: Data): (rs: seq<Request>)
    decreases blurLevel
    ensures |rs| == if blurLevel <= 0 then 0 else blurLevel
    ensures forall i :: 0 <= i < |rs| ==>
      && rs[i].kind == Blur
      && rs[i].input == (if i == 0 then Some(input) else None)
      && rs[i].constraints == NoConstraints
      && rs[i].backoff.None?
      && rs[i].tags == {}
  {
    if blurLevel <= 0 then [] else BlurRequests(blurLevel - 1, input) + [BlurStep(blurLevel - 1, input)]
  }

  /** The request that saves the result: charging only, linear backoff, observable by tag. */
  const SaveImage: Request :=
    OneTimeRequest(Save).(constraints := Constraints(true), backoff := Some(Linear), tags := {TAG_OUTPUT})

  /** The chain `applyBlur(blurLevel)` enqueues while `imageUri` is the picked image. */
  function BlurChain(blurLevel: int, imageUri: Option<Uri>): (c: Continuation)
    ensures c.name == IMAGE_MANIPULATION_WORK_NAME && c.policy == Replace
    ensures |c.requests| == (if blurLevel <= 0 then 0 else blurLevel) + 2
    ensures c.requests[0] == OneTimeRequest(Cleanup)
    ensures forall i :: 1 <= i < |c.requests| - 1 ==>
      c.requests[i].kind == Blur && c.requests[i].input.None? == (i != 1)
    ensures 1 < |c.requests| - 1 ==> c.requests[1].input == Some(InputData(imageUri))
    ensures c.requests[|c.requests| - 1] == SaveImage
  {
    var cleanup := BeginUniqueWork(IMAGE_MANIPULATION_WORK_NAME, Replace, OneTimeRequest(Cleanup));
    cleanup.(requests := cleanup.requests + BlurRequests(blurLevel, InputData(imageUri)) + [SaveImage])
  }

  /** Number of requests in `rs` that run a `kind` worker. */
  function CountKind(rs: seq<Request>, kind: WorkerKind): nat {
    if rs == [] then 0 else CountKind(rs[..|rs| - 1], kind) + (if rs[|rs| - 1].kind == kind then 1 else 0)
  }

  lemma {:induction false} CountKindAppend(rs: seq<Request>, ts: seq<Request>, kind: WorkerKind)
    ensures CountKind(rs + ts, kind) == CountKind(rs, kind) + CountKind(ts, kind)
    decreases |ts|
  {
    if ts == [] {
      assert rs + ts == rs;
    } else {
      var n := |ts| - 1;
      assert (rs + ts)[..|rs + ts| - 1] == rs + ts[..n];
      CountKindAppend(rs, ts[..n], kind);
    }
  }

  lemma {:induction false} CountKindAll(rs: seq<Request>, kind: WorkerKind)
    requires forall i :: 0 <= i < |rs| ==> rs[i].kind == kind
    ensures CountKind(rs, kind) == |rs|
    ensures forall other :: other != kind ==> CountKind(rs, other) == 0
    decreases |rs|
  {
    if rs != [] {
      CountKindAll(rs[..|rs| - 1], kind);
    }
  }

  /**
   * The chain holds exactly one cleanup, `max(blurLevel, 0)` blurs and one
   * save: the standalone blur request built before the loop is never added.
   */
  lemma ChainKindCounts(blurLevel: int, imageUri: Option<Uri>)
    ensures var rs := BlurChain(blurLevel, imageUri).requests;
      && CountKind(rs, Cleanup) == 1
      && CountKind(rs, Blur) == (if blurLevel <= 0 then 0 else blurLevel)
      && CountKind(rs, Save) == 1
  {
    var blurs := BlurRequests(blurLevel, InputData(imageUri));
    var rs := BlurChain(blurLevel, imageUri).requests;
    assert rs == [OneTimeRequest(Cleanup)] + blurs + [SaveImage];
    CountKindAll([OneTimeRequest(Cleanup)], Cleanup);
    CountKindAll(blurs, Blur);
    CountKindAll([SaveImage], Save);
    CountKindAppend([OneTimeRequest(Cleanup)], blurs, Cleanup);
    CountKindAppend([OneTimeRequest(Cleanup)] + blurs, [SaveImage], Cleanup);
    CountKindAppend([OneTimeRequest(Cleanup)], blurs, Blur);
    CountKindAppend([OneTimeRequest(Cleanup)] + blurs, [SaveImage], Blur);
    CountKindAppend([OneTimeRequest(Cleanup)], blurs, Save);
    CountKindAppend([OneTimeRequest(Cleanup)] + blurs, [SaveImage], Save);
  }

  /** Only the first blur carries explicit input; every other request has none. */
  lemma ExplicitInputOnlyOnFirstBlur(blurLevel: int, imageUri: Option<Uri>, i: int)
    requires 0 <= i < |BlurChain(blurLevel, imageUri).requests|
    ensures BlurChain(blurLevel, imageUri).requests[i].input.Some? <==> (i == 1 && blurLevel >= 1)
  {
  }

  /**
   * The save request is the last one, and the only one that waits for
   * charging, sets a backoff policy or carries the output tag.
   */
  lemma SaveIsOnlyOutputRequest(blurLevel: int, imageUri: Option<Uri>, i: int)
    requires 0 <= i < |BlurChain(blurLevel, imageUri).requests|
    ensures var r := BlurChain(blurLevel, imageUri).requests[i];
      (r.constraints.requiresCharging || r.backoff.Some? || TAG_OUTPUT in r.tags)
        <==> i == |BlurChain(blurLevel, imageUri).requests| - 1
  {
  }

  /** A set image or output locator is never one with empty text. */
  predicate UriValid(u: Option<Uri>) {
    u.Some? ==> u.value.ToString() != ""
  }

  class BlurViewModel {
    var imageUri: Option<Uri>
    var outputUri: Option<Uri>

    /** The calls made into the job-scheduling library so far, oldest first. */
    var workManagerCalls: seq<WorkCall>

    /** The gate of the save request: the device must be charging. */
    const constraints: Constraints

    ghost predicate Valid()
      reads this
    {
      UriValid(imageUri) && UriValid(outputUri) && constraints == SaveImage.constraints
    }

    constructor ()
      ensures Valid()
      ensures imageUri.None? && outputUri.None? && workManagerCalls == []
    {
      imageUri := None;
      outputUri := None;
      workManagerCalls := [];
      constraints := Constraints(true);
    }

    method SetImageUri(uri: Option<string>)
      requires Valid()
      modifies this`imageUri
      ensures Valid()
      ensures imageUri == UriOrNull(uri)
    {
      imageUri := UriOrNull(uri);
    }

    method SetOutputUri(outputImageUri: Option<string>)
      requires Valid()
      modifies this`outputUri
      ensures Valid()
      ensures outputUri == UriOrNull(outputImageUri)
    {
      outputUri := UriOrNull(outputImageUri);
    }

    /** Builds the blur chain and enqueues it as unique work. */
    method ApplyBlur(blurLevel: int)
      requires Valid()
      modifies this`workManagerCalls
      ensures Valid()
      ensures workManagerCalls == old(workManagerCalls) + [Enqueue(BlurChain(blurLevel, imageUri))]
    {
      var inputDataBuilder: Data := map[];
      if imageUri.Some? {
        inputDataBuilder := inputDataBuilder[KEY_IMAGE_URI := imageUri.value.ToString()];
      }
      var inputImageUri := inputDataBuilder;
      assert inputImageUri == InputData(imageUri);

      var continuation := BeginUniqueWork(IMAGE_MANIPULATION_WORK_NAME, Replace, OneTimeRequest(Cleanup));

      // Built and never added to the chain.
      var blurRequest := OneTimeRequest(Blur).(input := Some(inputImageUri));

      var i := 0;
      while i < blurLevel
        invariant 0 <= i <= if blurLevel <= 0 then 0 else blurLevel
        invariant continuation.name == IMAGE_MANIPULATION_WORK_NAME && continuation.policy == Replace
        invariant continuation.requests == [OneTimeRequest(Cleanup)] + BlurRequests(i, InputData(imageUri))
      {
        var blurBuilder := OneTimeRequest(Blur);
        if i == 0 {
          blurBuilder := blurBuilder.(input := Some(inputImageUri));
        }
        continuation := Then(continuation, blurBuilder);
        i := i + 1;
      }

      assert continuation.requests == [OneTimeRequest(Cleanup)] + BlurRequests(blurLevel, InputData(imageUri));
      var saveImage := OneTimeRequest(Save).(constraints := constraints, backoff := Some(Linear), tags := {TAG_OUTPUT});
      continuation := Then(continuation, saveImage);

      workManagerCalls := workManagerCalls + [Enqueue(continuation)];
    }

    /** Cancels every request of the blur chain by its unique name. */
    method CancelWork()
      requires Valid()
      modifies this`workManagerCalls
      ensures Valid()
      ensures workManagerCalls == old(workManagerCalls) + [CancelUniqueWork(IMAGE_MANIPULATION_WORK_NAME)]
    {
      workManagerCalls := workManagerCalls + [CancelUniqueWork(IMAGE_MANIPULATION_WORK_NAME)];
    }
  }

  /**
   * A client that applies a blur and then cancels: the cancel names exactly
   * the chain that was just enqueued.
   */
  method ApplyThenCancel(vm: BlurViewModel, blurLevel: int)
    requires vm.Valid()
    modifies vm
    ensures vm.Valid()
    ensures |vm.workManagerCalls| >= 2
    ensures var n := |vm.workManagerCalls|;
      && vm.workManagerCalls[n - 2].Enqueue?
      && vm.workManagerCalls[n - 1].CancelUniqueWork?
      && vm.workManagerCalls[n - 1].name == vm.workManagerCalls[n - 2].chain.name
  {
    vm.ApplyBlur(blurLevel);
    vm.CancelWork();
  }
}
