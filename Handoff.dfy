/**
 * Running the blur steps of a chain under the hand-off the view model relies
 * on: a blur request with explicit input reads that input, every other one
 * reads the output of the step before it. The first failure stops the chain.
 *
 * What comes out is what the save request would start from: `Success(d)`
 * hands it `d`; a failure means it never runs. The worker is a parameter so
 * that the same run serves the worker as written and as intended.
 */
module Handoff {
  import opened Wrappers
  import opened Work
  import opened ViewModel
  import opened Workers

  /** The blur requests of a chain: everything between the cleanup and the save. */
  function BlursOf(c: Continuation): seq<Request>
    requires |c.requests| >= 2
  {
    c.requests[1..|c.requests| - 1]
  }

  /** Runs `blurs` in order; `carried` is the output of the step before them, `ios[k]` blur k's I/O. */
  function RunBlurs(worker: (Data, BlurIo) -> WorkResult, blurs: seq<Request>, carried: Data, ios: seq<BlurIo>): WorkResult
    requires |ios| == |blurs|
    decreases |blurs|
  {
    if blurs == [] then
      Success(carried)
    else
      var input := if blurs[0].input.Some? then blurs[0].input.value else carried;
      match worker(input, ios[0])
      case Success(out) => RunBlurs(worker, blurs[1..], out, ios[1..])
      case stopped => stopped
  }

  predicate AllWritten(ios: seq<BlurIo>) {
    forall k :: 0 <= k < |ios| ==> ios[k].Written?
  }

  predicate NoExplicitInput(blurs: seq<Request>) {
    forall k :: 0 <= k < |blurs| ==> blurs[k].input.None?
  }

  /**
   * Blurs fed only by their predecessors, starting from `d`: they all succeed
   * and hand on `d`'s locator exactly when `d` has one and no step throws.
   */
  lemma {:induction false} RunFromPredecessor(blurs: seq<Request>, d: Data, ios: seq<BlurIo>)
    requires |ios| == |blurs| >= 1
    requires NoExplicitInput(blurs)
    ensures RunBlurs(DoWork, blurs, d, ios) ==
      if HasImageUri(d) && AllWritten(ios) then Success(WorkDataOf(KEY_IMAGE_URI, d[KEY_IMAGE_URI]))
      else Failure(map[])
    decreases |blurs|
  {
    var first := DoWork(d, ios[0]);
    if first.Success? && |blurs| > 1 {
      RunFromPredecessor(blurs[1..], first.outputData, ios[1..]);
      assert AllWritten(ios) <==> ios[0].Written? && AllWritten(ios[1..]) by {
        if ios[0].Written? && AllWritten(ios[1..]) {
          forall k | 0 <= k < |ios| ensures ios[k].Written? {
            if k > 0 { assert ios[k] == ios[1..][k - 1]; }
          }
        }
      }
    } else if !first.Success? {
      assert !ios[0].Written? || !HasImageUri(d);
    }
  }

  /**
   * End to end, for the worker as written: the save request of
   * `BlurChain(blurLevel, imageUri)` starts from
   * - the cleanup's own output when there is no blur at all;
   * - otherwise the ORIGINAL image locator, unchanged, when an image with a
   *   non-empty locator is set and no blur throws; and the chain fails in
   *   every other case.
   */
  lemma ChainHandsOriginalUriToSave(blurLevel: int, imageUri: Option<Uri>, cleanupOut: Data, ios: seq<BlurIo>)
    requires |ios| == (if blurLevel <= 0 then 0 else blurLevel)
    ensures |BlurChain(blurLevel, imageUri).requests| >= 2
    ensures RunBlurs(DoWork, BlursOf(BlurChain(blurLevel, imageUri)), cleanupOut, ios) ==
      if blurLevel <= 0 then Success(cleanupOut)
      else if UriValid(imageUri) && imageUri.Some? && AllWritten(ios) then
        Success(WorkDataOf(KEY_IMAGE_URI, imageUri.value.ToString()))
      else Failure(map[])
  {
    var blurs := BlursOf(BlurChain(blurLevel, imageUri));
    if blurLevel > 0 {
      var input := InputData(imageUri);
      assert blurs[0].input == Some(input);
      var first := DoWork(input, ios[0]);
      if first.Success? && |blurs| > 1 {
        assert NoExplicitInput(blurs[1..]) by {
          forall k | 0 <= k < |blurs[1..]| ensures blurs[1..][k].input.None? {
            assert blurs[1..][k] == BlurChain(blurLevel, imageUri).requests[k + 2];
          }
        }
        RunFromPredecessor(blurs[1..], first.outputData, ios[1..]);
        assert AllWritten(ios) <==> ios[0].Written? && AllWritten(ios[1..]) by {
          if ios[0].Written? && AllWritten(ios[1..]) {
            forall k | 0 <= k < |ios| ensures ios[k].Written? {
              if k > 0 { assert ios[k] == ios[1..][k - 1]; }
            }
          }
        }
      }
    }
  }

  /** Every blur but the last wrote a file whose locator the next blur can accept. */
  predicate HandsOnWrittenFiles(ios: seq<BlurIo>) {
    forall k :: 0 <= k < |ios| - 1 ==> ios[k].Written? && ios[k].file.ToString() != ""
  }

  /**
   * Blurs fed only by their predecessors, with the worker as intended: they
   * all succeed exactly when `d` has a locator, none throws and every file
   * handed on has a non-empty locator, and then the LAST blurred file comes
   * out; otherwise the run fails with empty data.
   */
  lemma {:induction false} RunIntendedFromPredecessor(blurs: seq<Request>, d: Data, ios: seq<BlurIo>)
    requires |ios| == |blurs| >= 1
    requires NoExplicitInput(blurs)
    ensures RunBlurs(DoWorkIntended, blurs, d, ios) ==
      if HasImageUri(d) && AllWritten(ios) && HandsOnWrittenFiles(ios) then
        Success(WorkDataOf(KEY_IMAGE_URI, ios[|ios| - 1].file.ToString()))
      else Failure(map[])
    decreases |blurs|
  {
    var first := DoWorkIntended(d, ios[0]);
    if first.Success? && |blurs| > 1 {
      RunIntendedFromPredecessor(blurs[1..], first.outputData, ios[1..]);
      assert AllWritten(ios) <==> ios[0].Written? && AllWritten(ios[1..]) by {
        if ios[0].Written? && AllWritten(ios[1..]) {
          forall k | 0 <= k < |ios| ensures ios[k].Written? {
            if k > 0 { assert ios[k] == ios[1..][k - 1]; }
          }
        }
      }
      assert HandsOnWrittenFiles(ios) <==>
        (ios[0].Written? && ios[0].file.ToString() != "" && HandsOnWrittenFiles(ios[1..])) by {
        if ios[0].Written? && ios[0].file.ToString() != "" && HandsOnWrittenFiles(ios[1..]) {
          forall k | 0 <= k < |ios| - 1 ensures ios[k].Written? && ios[k].file.ToString() != "" {
            if k > 0 { assert ios[k] == ios[1..][k - 1]; }
          }
        }
      }
    } else if !first.Success? {
      assert !ios[0].Written? || !HasImageUri(d);
    }
  }

  /**
   * End to end, for the worker as intended: with no blurs the save request
   * starts from the cleanup's output; otherwise it starts from the file the
   * LAST blur wrote when an image with a non-empty locator is set, no blur
   * throws and every file handed on has a non-empty locator, and the chain
   * fails in every other case.
   */
  lemma ChainHandsLastBlurredFileToSave(blurLevel: int, imageUri: Option<Uri>, cleanupOut: Data, ios: seq<BlurIo>)
    requires |ios| == (if blurLevel <= 0 then 0 else blurLevel)
    ensures |BlurChain(blurLevel, imageUri).requests| >= 2
    ensures RunBlurs(DoWorkIntended, BlursOf(BlurChain(blurLevel, imageUri)), cleanupOut, ios) ==
      if blurLevel <= 0 then Success(cleanupOut)
      else if UriValid(imageUri) && imageUri.Some? && AllWritten(ios) && HandsOnWrittenFiles(ios) then
        Success(WorkDataOf(KEY_IMAGE_URI, ios[blurLevel - 1].file.ToString()))
      else Failure(map[])
  {
    var blurs := BlursOf(BlurChain(blurLevel, imageUri));
    if blurLevel > 0 {
      var input := InputData(imageUri);
      assert blurs[0].input == Some(input);
      var first := DoWorkIntended(input, ios[0]);
      if first.Success? && |blurs| > 1 {
        assert NoExplicitInput(blurs[1..]) by {
          forall k | 0 <= k < |blurs[1..]| ensures blurs[1..][k].input.None? {
            assert blurs[1..][k] == BlurChain(blurLevel, imageUri).requests[k + 2];
          }
        }
        RunIntendedFromPredecessor(blurs[1..], first.outputData, ios[1..]);
        assert AllWritten(ios) <==> ios[0].Written? && AllWritten(ios[1..]) by {
          if ios[0].Written? && AllWritten(ios[1..]) {
            forall k | 0 <= k < |ios| ensures ios[k].Written? {
              if k > 0 { assert ios[k] == ios[1..][k - 1]; }
            }
          }
        }
        assert HandsOnWrittenFiles(ios) <==>
          (ios[0].Written? && ios[0].file.ToString() != "" && HandsOnWrittenFiles(ios[1..])) by {
          if ios[0].Written? && ios[0].file.ToString() != "" && HandsOnWrittenFiles(ios[1..]) {
            forall k | 0 <= k < |ios| - 1 ensures ios[k].Written? && ios[k].file.ToString() != "" {
              if k > 0 { assert ios[k] == ios[1..][k - 1]; }
            }
          }
        }
      }
    }
  }
}
