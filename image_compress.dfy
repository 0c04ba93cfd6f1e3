/**
 * The asynchronous image compression service's bookkeeping: the
 * service-wide counters, the per-batch result and the loop that collects
 * the batch's outcomes.
 *
 * Compressing one file is a foreign call; its outcome is an input: the
 * original and compressed sizes, or None when it throws. The virtual-thread
 * futures are left out: the outcomes are collected in file order, as the
 * source's second loop does.
 */
module ImageCompress {
  import opened Common

  /** What compressing one image reports. */
  datatype CompressResult = CompressResult(originalSize: int, compressedSize: int)

  /** The service-wide counters at one moment. */
  datatype CompressStats = CompressStats(totalProcessed: int, totalSaved: int, totalErrors: int)

  /** One batch's tally. */
  class BatchCompressResult {
    var successCount: int
    var skippedCount: int
    var errorCount: int
    var totalOriginalSize: int
    var totalCompressedSize: int
    var processingTime: int

    constructor ()
      ensures successCount == 0 && skippedCount == 0 && errorCount == 0
      ensures totalOriginalSize == 0 && totalCompressedSize == 0 && processingTime == 0
    {
      successCount, skippedCount, errorCount := 0, 0, 0;
      totalOriginalSize, totalCompressedSize, processingTime := 0, 0, 0;
    }

    /** addSuccess: one more success, and the result's sizes added to the totals. */
    method AddSuccess(result: CompressResult)
      modifies this
      ensures successCount == old(successCount) + 1
      ensures totalOriginalSize == old(totalOriginalSize) + result.originalSize
      ensures totalCompressedSize == old(totalCompressedSize) + result.compressedSize
      ensures skippedCount == old(skippedCount) && errorCount == old(errorCount) && processingTime == old(processingTime)
    {
      successCount := successCount + 1;
      totalOriginalSize := totalOriginalSize + result.originalSize;
      totalCompressedSize := totalCompressedSize + result.compressedSize;
    }

    /** addSkipped: only the skipped count moves. */
    method AddSkipped(filename: string, reason: string)
      modifies this
      ensures skippedCount == old(skippedCount) + 1
      ensures successCount == old(successCount) && errorCount == old(errorCount)
      ensures totalOriginalSize == old(totalOriginalSize) && totalCompressedSize == old(totalCompressedSize)
      ensures processingTime == old(processingTime)
    {
      skippedCount := skippedCount + 1;
    }

    /** addError: only the error count moves. */
    method AddError(filename: string, error: string)
      modifies this
      ensures errorCount == old(errorCount) + 1
      ensures successCount == old(successCount) && skippedCount == old(skippedCount)
      ensures totalOriginalSize == old(totalOriginalSize) && totalCompressedSize == old(totalCompressedSize)
      ensures processingTime == old(processingTime)
    {
      errorCount := errorCount + 1;
    }

    method SetProcessingTime(t: int)
      modifies this
      ensures processingTime == t
      ensures successCount == old(successCount) && skippedCount == old(skippedCount) && errorCount == old(errorCount)
      ensures totalOriginalSize == old(totalOriginalSize) && totalCompressedSize == old(totalCompressedSize)
    {
      processingTime := t;
    }

    /** getTotalSavedBytes. */
    function TotalSavedBytes(): int
      reads this
    {
      totalOriginalSize - totalCompressedSize
    }
  }

  /** Outcomes that succeeded. */
  function Successes(outcomes: seq<Option<CompressResult>>): nat
  {
    CountWhere(outcomes, (o: Option<CompressResult>) => o.Some?)
  }

  /** Outcomes that failed. */
  function Errors(outcomes: seq<Option<CompressResult>>): nat
  {
    CountWhere(outcomes, (o: Option<CompressResult>) => o.None?)
  }

  function OriginalOf(o: Option<CompressResult>): int
  {
    if o.Some? then o.value.originalSize else 0
  }

  function CompressedOf(o: Option<CompressResult>): int
  {
    if o.Some? then o.value.compressedSize else 0
  }

  function SavedOf(o: Option<CompressResult>): int
  {
    if o.Some? then o.value.originalSize - o.value.compressedSize else 0
  }

  /** Sum of `f` over the outcomes. */
  function Sum(outcomes: seq<Option<CompressResult>>, f: Option<CompressResult> -> int): int
  {
    if outcomes == [] then 0 else Sum(outcomes[..|outcomes| - 1], f) + f(outcomes[|outcomes| - 1])
  }

  lemma {:induction false} CountWhereLast<T>(s: seq<T>, p: T -> bool)
    requires s != []
    ensures CountWhere(s, p) == CountWhere(s[..|s| - 1], p) + (if p(s[|s| - 1]) then 1 else 0)
  {
    CountWhereAppend(s[..|s| - 1], [s[|s| - 1]], p);
    assert s == s[..|s| - 1] + [s[|s| - 1]];
  }

  /** Every file is either a success or an error. */
  lemma {:induction false} SuccessesPlusErrors(outcomes: seq<Option<CompressResult>>)
    ensures Successes(outcomes) + Errors(outcomes) == |outcomes|
  {
    if outcomes != [] {
      SuccessesPlusErrors(outcomes[1..]);
    }
  }

  /** The batch's saved bytes are the sum of each success's saving. */
  lemma {:induction false} SavedIsSumOfSavings(outcomes: seq<Option<CompressResult>>)
    ensures Sum(outcomes, OriginalOf) - Sum(outcomes, CompressedOf) == Sum(outcomes, SavedOf)
  {
    if outcomes != [] {
      SavedIsSumOfSavings(outcomes[..|outcomes| - 1]);
    }
  }

  /** Some file of the batch failed to compress. */
  predicate AnyFailed(outcomes: seq<Option<CompressResult>>)
  {
    None in outcomes
  }

  /** A file failed exactly when the per-file tally counts an error. */
  lemma {:induction false} AnyFailedIffErrors(outcomes: seq<Option<CompressResult>>)
    ensures AnyFailed(outcomes) <==> Errors(outcomes) > 0
  {
    if outcomes != [] {
      AnyFailedIffErrors(outcomes[1..]);
      assert outcomes == [outcomes[0]] + outcomes[1..];
    }
  }

  /**
   * Two files, the second failing: the per-file tally is one success and one
   * error, yet the join before the collecting loop fails the whole batch.
   */
  lemma OneFailureFailsTheBatch()
    ensures var outcomes := [Some(CompressResult(100, 40)), None];
      AnyFailed(outcomes) && Successes(outcomes) == 1 && Errors(outcomes) == 1
  {
    var outcomes := [Some(CompressResult(100, 40)), None];
    assert outcomes[1..] == [None];
    assert outcomes[1..][1..] == [];
  }

  /** The compression service with its three counters. */
  class AsyncImageCompressService {
    var totalProcessed: int
    var totalSaved: int
    var totalErrors: int

    constructor ()
      ensures totalProcessed == 0 && totalSaved == 0 && totalErrors == 0
    {
      totalProcessed, totalSaved, totalErrors := 0, 0, 0;
    }

    /**
     * compressImageAsync (either overload): a success counts one more
     * processed image and adds its saving; a failure counts one more error
     * and is rethrown (None).
     */
    method CompressImage(outcome: Option<CompressResult>) returns (r: Option<CompressResult>)
      modifies this
      ensures r == outcome
      ensures outcome.Some? ==>
        && totalProcessed == old(totalProcessed) + 1
        && totalSaved == old(totalSaved) + outcome.value.originalSize - outcome.value.compressedSize
        && totalErrors == old(totalErrors)
      ensures outcome.None? ==>
        && totalErrors == old(totalErrors) + 1
        && totalProcessed == old(totalProcessed) && totalSaved == old(totalSaved)
    {
      if outcome.Some? {
        totalProcessed := totalProcessed + 1;
        totalSaved := totalSaved + (outcome.value.originalSize - outcome.value.compressedSize);
      } else {
        totalErrors := totalErrors + 1;
      }
      r := outcome;
    }

    /** getCompressStats. */
    function Stats(): CompressStats
      reads this
    {
      CompressStats(totalProcessed, totalSaved, totalErrors)
    }

    /** resetStats: all three counters back to 0. */
    method ResetStats()
      modifies this
      ensures Stats() == CompressStats(0, 0, 0)
    {
      totalProcessed, totalSaved, totalErrors := 0, 0, 0;
    }

    /**
     * batchCompressAsync as written: CompletableFuture.allOf(...).join()
     * rethrows the first compression failure, so a batch with a failed file
     * fails as a whole (null) and the per-file error branch of the collecting
     * loop is never reached; a batch without failures is all successes.
     */
    method BatchCompressAsWritten(outcomes: seq<Option<CompressResult>>, duration: int)
      returns (batch: BatchCompressResult?)
      ensures batch == null <==> AnyFailed(outcomes)
      ensures batch != null ==> fresh(batch)
      ensures batch != null ==> batch.successCount == |outcomes| && batch.errorCount == 0 && batch.skippedCount == 0
      ensures batch != null ==> batch.totalOriginalSize == Sum(outcomes, OriginalOf)
      ensures batch != null ==> batch.totalCompressedSize == Sum(outcomes, CompressedOf)
      ensures batch != null ==> batch.processingTime == duration
    {
      if None in outcomes {
        return null;
      }
      batch := BatchCompress(outcomes, duration);
      AnyFailedIffErrors(outcomes);
    }

    /**
     * batchCompressAsync as intended: one success or one error per file, in
     * file order, the sizes summed over the successes. The service-wide counters are not
     * touched by a batch.
     */
    method BatchCompress(outcomes: seq<Option<CompressResult>>, duration: int) returns (batch: BatchCompressResult)
      ensures fresh(batch)
      ensures batch.successCount == Successes(outcomes) && batch.errorCount == Errors(outcomes)
      ensures batch.successCount + batch.errorCount == |outcomes| && batch.skippedCount == 0
      ensures batch.totalOriginalSize == Sum(outcomes, OriginalOf)
      ensures batch.totalCompressedSize == Sum(outcomes, CompressedOf)
      ensures batch.TotalSavedBytes() == Sum(outcomes, SavedOf)
      ensures batch.processingTime == duration
    {
      batch := new BatchCompressResult();
      var i := 0;
      while i < |outcomes|
        invariant 0 <= i <= |outcomes|
        invariant batch.successCount == Successes(outcomes[..i]) && batch.errorCount == Errors(outcomes[..i])
        invariant batch.skippedCount == 0
        invariant batch.totalOriginalSize == Sum(outcomes[..i], OriginalOf)
        invariant batch.totalCompressedSize == Sum(outcomes[..i], CompressedOf)
      {
        assert outcomes[..i + 1][..i] == outcomes[..i];
        CountWhereLast(outcomes[..i + 1], (o: Option<CompressResult>) => o.Some?);
        CountWhereLast(outcomes[..i + 1], (o: Option<CompressResult>) => o.None?);
        if outcomes[i].Some? {
          batch.AddSuccess(outcomes[i].value);
        } else {
          batch.AddError("", "");
        }
        i := i + 1;
      }
      assert outcomes[..i] == outcomes;
      batch.SetProcessingTime(duration);
      SuccessesPlusErrors(outcomes);
      SavedIsSumOfSavings(outcomes);
    }
  }
}
