/**
 The chain of completion receipts: the walk back from the newest digest, and what it
 returns on a journal directory, however many operation files are already gone.
 */
module ReceiptChain {
  import opened Wrappers
  import opened SnapshotRules
  import opened JournalRecords
  import opened JournalReaders
  import opened JournalLayout
  import opened JournalMachine
  import opened JournalSafety

  /** The digest a receipt names as its predecessor's, when it stands at index `k`. */
  function Link(receipts: seq<CompletionReceipt>, k: nat): Option<Digest>
    requires k <= |receipts|
  {
    if k == 0 then None else Some(ReceiptDigest(receipts[k - 1]))
  }

  /** `receipts`, oldest first, is a chain of `count` receipts whose digest is `tip`. */
  ghost predicate IsChain(b: Binding, receipts: seq<CompletionReceipt>, tip: Digest, count: nat) {
    && |receipts| == count
    && (forall k | 0 <= k < count ::
          && receipts[k].binding == b && receipts[k].ordinal == k + 1
          && receipts[k].previousReceipt == Link(receipts, k))
    && (count == 0 ==> tip == Sha256(EmptyChain(b)))
    && (count > 0 ==> Link(receipts, count) == Some(tip))
  }

  ghost predicate Installed(completions: set<CompletionReceipt>, receipts: seq<CompletionReceipt>) {
    forall k | 0 <= k < |receipts| :: receipts[k] in completions
  }

  lemma ChainAt(b: Binding, receipts: seq<CompletionReceipt>, tip: Digest, count: nat, k: nat)
    requires IsChain(b, receipts, tip, count) && k < count
    ensures |receipts| == count && receipts[k].binding == b && receipts[k].ordinal == k + 1
    ensures receipts[k].previousReceipt == Link(receipts, k)
    ensures Link(receipts, k + 1) == Some(ReceiptDigest(receipts[k]))
    ensures k + 1 == count ==> Link(receipts, k + 1) == Some(tip)
  {
  }

  lemma DigestsDiffer(x: CompletionReceipt, y: CompletionReceipt)
    ensures ReceiptDigest(x) == ReceiptDigest(y) ==> x == y
  {
  }

  /** Counted from the newest receipt, two chains with one digest and count agree. */
  lemma {:induction false} ChainsAgreeAt(b: Binding, xs: seq<CompletionReceipt>, ys: seq<CompletionReceipt>,
                                         tip: Digest, count: nat, k: nat)
    requires IsChain(b, xs, tip, count) && IsChain(b, ys, tip, count) && k < count
    ensures |xs| == count == |ys| && xs[k] == ys[k]
    decreases count - k
  {
    hide IsChain, ReceiptDigest, Link;
    ChainAt(b, xs, tip, count, k);
    ChainAt(b, ys, tip, count, k);
    if k + 1 < count {
      ChainAt(b, xs, tip, count, k + 1);
      ChainAt(b, ys, tip, count, k + 1);
      ChainsAgreeAt(b, xs, ys, tip, count, k + 1);
    }
    DigestsDiffer(xs[k], ys[k]);
  }

  /** Digest and count determine the whole list. */
  lemma ChainIsUnique(b: Binding, xs: seq<CompletionReceipt>, ys: seq<CompletionReceipt>, tip: Digest, count: nat)
    requires IsChain(b, xs, tip, count) && IsChain(b, ys, tip, count)
    ensures xs == ys
  {
    hide IsChain;
    assert |xs| == count == |ys| by { Lengths(b, xs, tip, count); Lengths(b, ys, tip, count); }
    forall k | 0 <= k < count ensures xs[k] == ys[k] {
      ChainsAgreeAt(b, xs, ys, tip, count, k);
    }
  }

  lemma Lengths(b: Binding, xs: seq<CompletionReceipt>, tip: Digest, count: nat)
    requires IsChain(b, xs, tip, count)
    ensures |xs| == count
  {
  }

  /** What is left of the operation journals agrees with the receipts of the same ordinals. */
  ghost predicate OperationsAgree(operations: seq<seq<OperationRecord>>, b: Binding, receipts: seq<CompletionReceipt>) {
    && ReadableOperations(operations)
    && var first := if operations == [] then |receipts| + 1 else Current(operations[0]).plan.ordinal;
       && 1 <= first <= |receipts| + 1
       && |operations| == |receipts| - first + 1
       && forall i | 0 <= i < |operations| :: RecordAgrees(Current(operations[i]), b, first + i, receipts[first + i - 1])
  }

  ghost predicate RecordAgrees(record: OperationRecord, b: Binding, ordinal: nat, receipt: CompletionReceipt) {
    && record.phase == ReceiptInstalled
    && record.plan.ordinal == ordinal
    && record.plan.binding == b
    && record.receipt == Some(receipt)
    && Sha256(PlanBody(record.plan)) == receipt.planDigest
    && record.plan.operation == receipt.operation
  }

  /** The last checks of `fullArtifactCleanupContext`: the operations that are left against the receipts. */
  method AgreeOperations(operations: seq<seq<OperationRecord>>, b: Binding, receipts: seq<CompletionReceipt>) returns (ok: bool)
    ensures ok <==> OperationsAgree(operations, b, receipts)
  {
    hide ReadableOperations;
    ok := ReadOperations(operations);
    if !ok { return; }
    assert forall i | 0 <= i < |operations| :: operations[i] != [] by { ReadableIsThere(operations); }
    var first := if operations == [] then |receipts| + 1 else Current(operations[0]).plan.ordinal;
    if first < 1 || first > |receipts| + 1 || |operations| != |receipts| - first + 1 { return false; }
    for index := 0 to |operations|
      invariant forall i | 0 <= i < index :: RecordAgrees(Current(operations[i]), b, first + i, receipts[first + i - 1])
    {
      var record, receipt := Current(operations[index]), receipts[first + index - 1];
      if record.phase != ReceiptInstalled || record.plan.ordinal != first + index || record.plan.binding != b
         || Sha256(PlanBody(record.plan)) != receipt.planDigest || record.plan.operation != receipt.operation
         || record.receipt != Some(receipt)
      {
        assert !RecordAgrees(record, b, first + index, receipt);
        return false;
      }
    }
    ok := true;
  }

  lemma ReadableIsThere(operations: seq<seq<OperationRecord>>)
    requires ReadableOperations(operations)
    ensures forall i | 0 <= i < |operations| :: operations[i] != []
  {
    hide FollowsOn;
  }

  function ReadCompletion(completions: set<CompletionReceipt>, digest: Digest): (found: Option<CompletionReceipt>)
    ensures found.Some? ==> found.value in completions && ReceiptDigest(found.value) == digest
    ensures found.None? ==> forall receipt | receipt in completions :: ReceiptDigest(receipt) != digest
  {
    match digest.body
    case CompletionBody(receipt) => if receipt in completions then Some(receipt) else None
    case _ => None
  }

  /** What the artifact cleanup needs: one installed chain for digest and count, agreeing with what is left. */
  ghost predicate IsContext(dir: Directory, b: Binding, tip: Digest, count: nat, receipts: seq<CompletionReceipt>) {
    && count <= MAX_OPERATION_RECEIPTS
    && IsChain(b, receipts, tip, count)
    && Installed(dir.completions, receipts)
    && OperationsAgree(dir.operations, b, receipts)
  }

  /** The receipts read so far, newest first. */
  ghost predicate IsWalk(completions: set<CompletionReceipt>, b: Binding, tip: Digest, count: nat, walked: seq<CompletionReceipt>) {
    && |walked| <= count
    && forall i | 0 <= i < |walked| ::
         && walked[i] in completions
         && walked[i].binding == b && walked[i].ordinal == count - i
         && Wanted(tip, count, walked, i) == Some(ReceiptDigest(walked[i]))
  }

  /** The digest to read after the first `i` receipts of a walk. */
  function Wanted(tip: Digest, count: nat, walked: seq<CompletionReceipt>, i: nat): Option<Digest>
    requires i <= |walked|
  {
    if i > 0 then walked[i - 1].previousReceipt else if count == 0 then None else Some(tip)
  }

  lemma WalkLength(completions: set<CompletionReceipt>, b: Binding, tip: Digest, count: nat, walked: seq<CompletionReceipt>)
    requires IsWalk(completions, b, tip, count, walked)
    ensures |walked| <= count
  {
  }

  lemma WalkAt(completions: set<CompletionReceipt>, b: Binding, tip: Digest, count: nat, walked: seq<CompletionReceipt>, i: nat)
    requires IsWalk(completions, b, tip, count, walked) && i < |walked|
    ensures Wanted(tip, count, walked, i) == Some(ReceiptDigest(walked[i]))
  {
  }

  lemma ChainEnds(b: Binding, receipts: seq<CompletionReceipt>, tip: Digest, count: nat)
    requires IsChain(b, receipts, tip, count)
    ensures |receipts| == count && Link(receipts, count) == if count == 0 then None else Some(tip)
  {
  }

  /** A walk follows every chain that ends in the digest it started from. */
  lemma {:induction false} WalkFollows(completions: set<CompletionReceipt>, b: Binding, tip: Digest, count: nat,
                                       walked: seq<CompletionReceipt>, receipts: seq<CompletionReceipt>, i: nat)
    requires IsWalk(completions, b, tip, count, walked) && IsChain(b, receipts, tip, count) && i <= |walked|
    ensures Wanted(tip, count, walked, i) == Link(receipts, count - i)
    ensures i > 0 ==> walked[i - 1] == receipts[count - i]
  {
    hide IsChain, IsWalk, ReceiptDigest, Link;
    Lengths(b, receipts, tip, count);
    WalkLength(completions, b, tip, count, walked);
    if i > 0 {
      WalkFollows(completions, b, tip, count, walked, receipts, i - 1);
      WalkAt(completions, b, tip, count, walked, i - 1);
      ChainAt(b, receipts, tip, count, count - i);
      DigestsDiffer(walked[i - 1], receipts[count - i]);
    } else {
      ChainEnds(b, receipts, tip, count);
    }
  }

  lemma WantedEnds(tip: Digest, count: nat, walked: seq<CompletionReceipt>)
    ensures Wanted(tip, count, walked, 0) == if count == 0 then None else Some(tip)
  {
  }

  lemma WantedNext(tip: Digest, count: nat, walked: seq<CompletionReceipt>, i: nat)
    requires 0 < i <= |walked|
    ensures Wanted(tip, count, walked, i) == walked[i - 1].previousReceipt
  {
  }

  /** A complete walk, read backwards, is a chain. */
  lemma WalkIsChain(completions: set<CompletionReceipt>, b: Binding, tip: Digest, count: nat,
                    walked: seq<CompletionReceipt>, receipts: seq<CompletionReceipt>)
    requires IsWalk(completions, b, tip, count, walked) && |walked| == count == |receipts|
    requires Wanted(tip, count, walked, count) == None && (count == 0 ==> tip == Sha256(EmptyChain(b)))
    requires forall k | 0 <= k < count :: receipts[k] == walked[count - 1 - k]
    ensures IsChain(b, receipts, tip, count) && Installed(completions, receipts)
  {
    hide ReceiptDigest, Wanted;
    forall k | 0 < k <= count ensures Link(receipts, k) == Wanted(tip, count, walked, count - k) {
      assert receipts[k - 1] == walked[count - k];
      WalkAt(completions, b, tip, count, walked, count - k);
    }
    WantedEnds(tip, count, walked);
    forall k | 0 <= k < count ensures receipts[k].previousReceipt == Link(receipts, k) {
      WantedNext(tip, count, walked, count - k);
    }
  }

  /** `fullArtifactCleanupContext`: walks the receipts newest first, and fails only when there is no such context. */
  method FullArtifactCleanupContext(dir: Directory, b: Binding, tip: Digest, count: nat)
    returns (context: Option<seq<CompletionReceipt>>)
    ensures context.Some? ==> IsContext(dir, b, tip, count, context.value)
    ensures context.None? ==> forall receipts :: !IsContext(dir, b, tip, count, receipts)
  {
    hide OperationsAgree, IsChain, ReceiptDigest;
    if count > MAX_OPERATION_RECEIPTS { return None; }
    var next := if count == 0 then None else Some(tip);
    var walked: seq<CompletionReceipt> := [];
    for ordinal := count downto 0
      invariant |walked| == count - ordinal && IsWalk(dir.completions, b, tip, count, walked)
      invariant next == Wanted(tip, count, walked, |walked|)
    {
      var receipt := if next.None? then None else ReadCompletion(dir.completions, next.value);
      if receipt.None? || receipt.value.binding != b || receipt.value.ordinal != ordinal + 1 {
        forall receipts | IsContext(dir, b, tip, count, receipts) ensures false {
          WalkFollows(dir.completions, b, tip, count, walked, receipts, |walked|);
          ChainAt(b, receipts, tip, count, ordinal);
          assert receipts[ordinal] in dir.completions;
          if receipt.Some? { DigestsDiffer(receipt.value, receipts[ordinal]); }
        }
        return None;
      }
      walked := walked + [receipt.value];
      next := receipt.value.previousReceipt;
    }
    if next != None || (count == 0 && tip != Sha256(EmptyChain(b))) {
      forall receipts | IsContext(dir, b, tip, count, receipts) ensures false {
        WalkFollows(dir.completions, b, tip, count, walked, receipts, count);
        EmptyTip(b, receipts, tip, count);
      }
      return None;
    }
    var receipts := seq(count, k requires 0 <= k < count => walked[count - 1 - k]);
    WalkIsChain(dir.completions, b, tip, count, walked, receipts);
    var agree := AgreeOperations(dir.operations, b, receipts);
    if !agree {
      forall others | IsContext(dir, b, tip, count, others) ensures false {
        ChainIsUnique(b, receipts, others, tip, count);
      }
      return None;
    }
    return Some(receipts);
  }

  lemma EmptyTip(b: Binding, receipts: seq<CompletionReceipt>, tip: Digest, count: nat)
    requires IsChain(b, receipts, tip, count)
    ensures Link(receipts, 0) == None && (count == 0 ==> tip == Sha256(EmptyChain(b)))
  {
  }
}
