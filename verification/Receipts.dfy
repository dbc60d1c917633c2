/**
  Receipts, and what a context's receipt holds after everything that was posted to it
  (libraries/chain/system_calls.cpp: apply_block starts a new block receipt before it
  checks its caller, apply_transaction adds a receipt even when it refuses its caller).
*/
module Receipts {
  import opened Int64
  import opened MeterObjects

  datatype Intent = ReadOnly | BlockApplication | TransactionApplication

  datatype Receipt = Receipt(id: string, reverted: bool, maxPayerRc: u64, rcLimit: u64, rcUsed: u64,
                             disk: u64, network: u64, compute: u64, events: seq<Event>)

  function BlankReceipt(id: string, rcLimit: u64): Receipt {
    Receipt(id, false, 0, rcLimit, 0, 0, 0, 0, [])
  }

  /** What execution_context::receipt() holds. */
  datatype Held = Nothing | OfBlock(receipts: seq<Receipt>) | OfTransaction(receipt: Receipt)

  /** `own`: by the block's own application of a transaction, not by a contract's call. */
  datatype ReceiptOp = Reset | Post(own: bool, receipt: Receipt)

  /** Only a block receipt can take the receipts of a block's transactions. */
  predicate CanPost(intent: Intent, h: Held) {
    intent.BlockApplication? ==> h.OfBlock?
  }

  function Posted(intent: Intent, h: Held, op: ReceiptOp): Held {
    match op
    case Reset => OfBlock([])
    case Post(_, r) =>
      if intent.BlockApplication? && h.OfBlock? then OfBlock(h.receipts + [r])
      else if intent.TransactionApplication? then OfTransaction(r)
      else h
  }

  function Holds(intent: Intent, ops: seq<ReceiptOp>): Held {
    if ops == [] then Nothing
    else Posted(intent, Holds(intent, ops[..|ops| - 1]), ops[|ops| - 1])
  }

  lemma HoldsSnoc(intent: Intent, ops: seq<ReceiptOp>, op: ReceiptOp)
    ensures Holds(intent, ops + [op]) == Posted(intent, Holds(intent, ops), op)
  {
    assert (ops + [op])[..|ops|] == ops;
  }

  predicate Own(op: ReceiptOp) {
    op.Post? && op.own
  }

  /** Everything a contract may add to the log: calls of apply_block and apply_transaction that were refused. */
  ghost predicate Intrudes(ops: seq<ReceiptOp>, ops': seq<ReceiptOp>) {
    ops <= ops' && forall i {:trigger ops'[i]} :: |ops| <= i < |ops'| ==> !Own(ops'[i])
  }

  lemma IntrudesTrans(ops: seq<ReceiptOp>, ops': seq<ReceiptOp>, ops'': seq<ReceiptOp>)
    requires Intrudes(ops, ops') && Intrudes(ops', ops'')
    ensures Intrudes(ops, ops'')
  {
    forall i | |ops| <= i < |ops''|
      ensures !Own(ops''[i])
    {
      if i < |ops'| {
        assert ops''[i] == ops'[i];
      }
    }
  }

  /* ---- what a block receipt lists ---- */

  /** What was posted since the last reset. */
  function Listed(ops: seq<ReceiptOp>): seq<ReceiptOp> {
    if ops == [] || ops[|ops| - 1].Reset? then []
    else Listed(ops[..|ops| - 1]) + [ops[|ops| - 1]]
  }

  /** The receipts the block itself posted. */
  function Owned(ops: seq<ReceiptOp>): seq<ReceiptOp> {
    if ops == [] then []
    else Owned(ops[..|ops| - 1]) + if Own(ops[|ops| - 1]) then [ops[|ops| - 1]] else []
  }

  function Values(ops: seq<ReceiptOp>): (r: seq<Receipt>)
    requires forall i :: 0 <= i < |ops| ==> ops[i].Post?
    ensures |r| == |ops|
  {
    seq(|ops|, i requires 0 <= i < |ops| => ops[i].receipt)
  }

  lemma {:induction false} ListedArePosts(ops: seq<ReceiptOp>)
    ensures forall i :: 0 <= i < |Listed(ops)| ==> Listed(ops)[i].Post?
  {
    if ops != [] {
      ListedArePosts(ops[..|ops| - 1]);
    }
  }

  /** The receipt of a block that was begun by a reset lists exactly what was posted since the last one. */
  lemma {:induction false} BlockHolds(before: seq<ReceiptOp>, ops: seq<ReceiptOp>)
    ensures forall i :: 0 <= i < |Listed(ops)| ==> Listed(ops)[i].Post?
    ensures Holds(BlockApplication, before + [Reset] + ops) == OfBlock(Values(Listed(ops)))
  {
    ListedArePosts(ops);
    if ops == [] {
      assert before + [Reset] + ops == before + [Reset];
      HoldsSnoc(BlockApplication, before, Reset);
    } else {
      var front, last := ops[..|ops| - 1], ops[|ops| - 1];
      BlockHolds(before, front);
      assert before + [Reset] + ops == before + [Reset] + front + [last];
      HoldsSnoc(BlockApplication, before + [Reset] + front, last);
    }
  }

  /** The first `k` entries are intrusions that end in a reset, or there are none; the rest is the block's own. */
  ghost predicate OwnAfter(ops: seq<ReceiptOp>, k: nat) {
    && k <= |ops| && (k > 0 ==> ops[k - 1].Reset?)
    && (forall i :: 0 <= i < k ==> !Own(ops[i]))
    && (forall i :: k <= i < |ops| ==> Own(ops[i]))
  }

  lemma {:induction false} OwnedAreOwn(ops: seq<ReceiptOp>)
    ensures forall i :: 0 <= i < |Owned(ops)| ==> Own(Owned(ops)[i])
    ensures Owned(ops) == [] <==> forall i :: 0 <= i < |ops| ==> !Own(ops[i])
  {
    if ops != [] {
      OwnedAreOwn(ops[..|ops| - 1]);
    }
  }

  /**
    A block's receipt lists its transactions' own receipts, one each and in order, if
    and only if no contract called apply_block or apply_transaction, unless all such
    calls came before the first receipt and the last of them was apply_block.
  */
  lemma {:induction false} ReceiptsGenuineExactly(ops: seq<ReceiptOp>)
    ensures Listed(ops) == Owned(ops) <==> exists k :: OwnAfter(ops, k)
  {
    if ops == [] {
      assert OwnAfter(ops, 0);
    } else {
      var n := |ops| - 1;
      var front, last := ops[..n], ops[n];
      ReceiptsGenuineExactly(front);
      OwnedAreOwn(ops);
      if last.Reset? {
        assert Owned(ops) == [] <==> OwnAfter(ops, |ops|);
        assert forall k :: OwnAfter(ops, k) ==> k == |ops|;
      } else if Own(last) {
        forall k: nat
          ensures k <= n ==> OwnAfter(front, k) == OwnAfter(ops, k)
          ensures k > n ==> !OwnAfter(ops, k)
        {
          assert forall i :: 0 <= i < n ==> front[i] == ops[i];
        }
        OwnSnoc(front, last);
      } else {
        assert Listed(ops)[|Listed(ops)| - 1] == last;
        assert forall k :: !OwnAfter(ops, k);
      }
    }
  }

  lemma OwnSnoc(front: seq<ReceiptOp>, last: ReceiptOp)
    requires Own(last)
    ensures Listed(front + [last]) == Listed(front) + [last] && Owned(front + [last]) == Owned(front) + [last]
    ensures Listed(front + [last]) == Owned(front + [last]) <==> Listed(front) == Owned(front)
  {
    var ops := front + [last];
    assert ops[..|front|] == front;
    var l, o := Listed(front) + [last], Owned(front) + [last];
    assert l[..|l| - 1] == Listed(front) && o[..|o| - 1] == Owned(front);
  }

  /** `ops` continues with intrusions, and then the receipt of a transaction. */
  ghost predicate PostsOwn(ops: seq<ReceiptOp>, ops': seq<ReceiptOp>, r: Receipt) {
    |ops'| > |ops| && Intrudes(ops, ops'[..|ops'| - 1]) && ops'[|ops'| - 1] == Post(true, r)
  }

  /** No intrusion takes the block receipt away, though one may empty it. */
  lemma {:induction false} IntrusionsKeepBlock(ops: seq<ReceiptOp>, ops': seq<ReceiptOp>)
    requires Intrudes(ops, ops') && Holds(BlockApplication, ops).OfBlock?
    ensures Holds(BlockApplication, ops').OfBlock?
    decreases |ops'|
  {
    if |ops'| == |ops| {
      assert ops == ops';
    } else {
      IntrusionsKeepBlock(ops, ops'[..|ops'| - 1]);
    }
  }

  /** A run of intrusions adds nothing to what is the block's own. */
  lemma {:induction false} IntrusionsAreNotOwned(ops: seq<ReceiptOp>, ops': seq<ReceiptOp>)
    requires Intrudes(ops, ops')
    ensures Owned(ops') == Owned(ops)
    decreases |ops'|
  {
    if |ops'| == |ops| {
      assert ops == ops';
    } else {
      IntrusionsAreNotOwned(ops, ops'[..|ops'| - 1]);
    }
  }

  /** A contract that calls apply_transaction leaves a receipt more than there are transactions. */
  lemma ForgedReceipt(a: Receipt, forged: Receipt, b: Receipt)
    ensures Listed([Post(true, a), Post(false, forged), Post(true, b)])
         == [Post(true, a), Post(false, forged), Post(true, b)]
  {
    var one, two, ops := [Post(true, a)], [Post(true, a), Post(false, forged)], [Post(true, a), Post(false, forged), Post(true, b)];
    assert one[..0] == [] && two[..1] == one && ops[..2] == two;
    assert Listed(one) == one;
    assert Listed(two) == two;
  }

  /** A contract that calls apply_block wipes the receipts of the transactions before its own. */
  lemma WipedReceipts(a: Receipt, b: Receipt)
    ensures Listed([Post(true, a), Reset, Post(true, b)]) == [Post(true, b)]
  {
    var ops := [Post(true, a), Reset, Post(true, b)];
    assert ops[..2] == [Post(true, a), Reset];
  }
}
