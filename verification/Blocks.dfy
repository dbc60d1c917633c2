/**
  Block application (libraries/chain/system_calls.cpp, apply_block): the transactions
  of a block in order, what their receipts add up to, and what the block receipt lists.
*/
module Blocks {
  import opened Int64
  import opened Metering
  import opened MeterObjects
  import opened Journal
  import opened Receipts
  import opened State
  import opened Context
  import opened Execution
  import opened Verdicts
  import opened Apply

  datatype Block = Block(height: nat, timestamp: nat, signer: Id, headerSize: i64, transactions: seq<Trx>)

  /** What an accepted transaction adds to its block: its receipt, and where in the journal its session opened. */
  datatype Part = Part(own: Receipt, from: nat)

  ghost predicate TrxDone(a: Ctx, b: Ctx, trx: Trx, p: Part) {
    && SameBlock(a, b) && Grows(a, b) && PostsOwn(a.posts, b.posts, p.own)
    && LeftBy(a, b, p.own.reverted)
    && |a.journal| <= p.from && SessionAt(b.journal, p.from, trx.rcLimit)
    && AtOpen(b.journal, p.from).emitted == |a.events| && AtOpen(b.journal, p.from).meter.limits == a.meter.limits
    && Reports(b.journal, p.from, b.events, trx, p.own)
    && LedgerOf(b).all == LedgerOf(a).all.Plus(AtClose(b.journal, p.from).ledger.cur)
    && LedgerOf(a).sys.network <= LedgerOf(b).sys.network
    && (!p.own.reverted ==> trx.size <= p.own.network)
    && (forall i :: |a.events| <= i < |b.events| ==> b.events[i].trx == Some(trx.id))
    && Calm(a, b, TrxKeys(trx)) && Safe(a, b, UserTrx(trx))
    && (UserOnly(a, b) ==>
          && Leaves(a.node, b.node, trx, p.own.reverted)
          && (!p.own.reverted ==> OpsRan(trx.operations, b, |a.launched|, |a.journal|))
          && AtClose(b.journal, p.from).emitted == |b.events|)
  }

  /**
    The system call a block applies a transaction through. Without a price in the
    compute registry it reverts before the thunk is entered, and leaves no receipt. However
    it ends, that is the verdict on the transaction.
  */
  method CallApplyTransaction(c: ExecutionContext, trx: Trx) returns (o: Outcome, ghost p: Part)
    requires c.Valid() && Ready(c.Abs()) && |c.stack| < STACK_LIMIT - 2 && !c.intent.ReadOnly?
    requires CanPost(c.intent, c.receipt)
    modifies c
    ensures c.stack == old(c.stack) && (!o.Reentered? ==> c.Valid())
    ensures ApplyTransactionId !in c.priced ==> o == Thrown(REVERSION) && c.Abs() == old(c.Abs())
    ensures ApplyTransactionId in c.priced && GoesOn(o) ==> TrxDone(old(c.Abs()), c.Abs(), trx, p)
    ensures o.Reentered? ==> !(UserTrx(trx) && UserWorld(old(c.Abs())))
    ensures Outcomes(c.verdicts) == Outcomes(old(c.verdicts)) + [Verdict(Transaction(trx.id), o)]
  {
    hide Inv, Applied, TrxDone, UserOnly, UserWorld, UserTrx, OnlyMetered, PostsOwn, ChargedOnce, Told, Outcomes, Denies;
    ghost var s0 := c.Abs();
    var f := Frame("", Some(ApplyTransactionId), Kernel, 0);
    var _ := c.PushFrame(f);
    RestackKeepsInv(s0, c.stack);
    p := Part(EmptyReceipt(trx), 0);
    ghost var s1 := c.Abs();
    o := c.ChargeThunk(ApplyTransactionId);
    ghost var s2 := c.Abs();
    MeteredShape(s1, s2);
    if o.Returned? {
      assert CallerFrame(c.stack) == Top(s0.stack);
      var end: End, receipt: Receipt;
      ghost var story: Story;
      o, end, receipt, story := ApplyTransaction(c, trx);
      p := Part(receipt, |s2.journal|);
      if GoesOn(o) {
        PartOfBlock(s0, s1, s2, c.Abs(), trx, receipt);
      }
      if o.Reentered? {
        SameWorld(s0, s2);
      }
    } else {
      OutcomesSnoc(c.verdicts, Verdict(Transaction(trx.id), o));
      c.Record(Transaction(trx.id), o);
    }
    PopUndoesPush(s0.stack, f);
    if !o.Reentered? {
      RestackKeepsInv(c.Abs(), s0.stack);
    }
    var _ := c.PopFrame();
  }

  lemma SameWorld(a: Ctx, b: Ctx)
    requires b.node == a.node && b.parent == a.parent
    ensures UserWorld(a) == UserWorld(b)
  {
  }

  lemma MeteredShape(a: Ctx, b: Ctx)
    requires OnlyMetered(a, b)
    ensures b == a.(meter := b.meter, journal := b.journal) && a.journal <= b.journal
    ensures b.meter.limits == a.meter.limits && b.meter.session.Some? == a.meter.session.Some?
  {
  }

  lemma PartOfBlock(s0: Ctx, s1: Ctx, s2: Ctx, b: Ctx, trx: Trx, receipt: Receipt)
    requires Inv(s1) && Inv(s2) && s1 == s0.(stack := s1.stack) && OnlyMetered(s1, s2) && s1.meter.session.None?
    requires Applied(s2, b, trx, receipt) && PostsOwn(s2.posts, b.posts, receipt) && s0.trx.None?
    ensures TrxDone(s0, b.(stack := s0.stack), trx, Part(receipt, |s2.journal|))
  {
    hide CacheOk, Holds, Calm, Grows, Safe, Audit, Reports, Leaves, TrxKeys, UserTrx, PostsOwn, Replay, SessionAt, TrxDeeds, Left, OpsRan, Signed;
    MeteredShape(s1, s2);
    ContinuationKeepsSession(s1.journal, s2.journal);
    ContinuesNoLimits(s1.journal, s2.journal);
    Alike(s2, b, s0, b.(stack := s0.stack), TrxKeys(trx), UserTrx(trx));
    assert b.journal[..|s2.journal|] == s2.journal;
    assert NoLimits(b.journal, |s0.journal|) by {
      assert forall i :: 0 <= i < |s2.journal| ==> b.journal[i] == s2.journal[i];
    }
    if UserOnly(s2, b) && !receipt.reverted {
      OpsRanStay(trx.operations, b, b.(stack := s0.stack), |s2.launched|, |s2.journal|, |s0.launched|, |s0.journal|);
    }
  }

  /* ---- all transactions of a block ---- */

  /** The parts of a block; the number of events and journal entries, and the node, before each part and after the last. */
  datatype Trace = Trace(parts: seq<Part>, bounds: seq<nat>, places: seq<nat>, nodes: seq<Node>)

  /** What the session of a part used. */
  function UseOf(j: seq<MeterOp>, p: Part): Usage
    requires p.from <= |j|
  {
    AtClose(j, p.from).ledger.cur
  }

  ghost predicate Placed(j: seq<MeterOp>, parts: seq<Part>) {
    forall i :: 0 <= i < |parts| ==> parts[i].from <= |j|
  }

  function Total(j: seq<MeterOp>, parts: seq<Part>): Usage
    requires Placed(j, parts)
  {
    if parts == [] then NoUse else Total(j, parts[..|parts| - 1]).Plus(UseOf(j, parts[|parts| - 1]))
  }

  function OwnPosts(parts: seq<Part>): seq<ReceiptOp> {
    seq(|parts|, i requires 0 <= i < |parts| => Post(true, parts[i].own))
  }

  function OwnReceipts(parts: seq<Part>): seq<Receipt> {
    seq(|parts|, i requires 0 <= i < |parts| => parts[i].own)
  }

  ghost predicate Traced(a: Ctx, b: Ctx, trxs: seq<Trx>, t: Trace) {
    && |t.parts| == |trxs| && |t.bounds| == |t.places| == |t.nodes| == |trxs| + 1
    && t.bounds[0] == |a.events| && t.bounds[|trxs|] == |b.events|
    && t.places[0] == |a.journal| && t.places[|trxs|] == |b.journal|
    && t.nodes[0] == a.node && t.nodes[|trxs|] == b.node
    && b.meter.limits == a.meter.limits
    && a.posts <= b.posts && Owned(b.posts[|a.posts|..]) == OwnPosts(t.parts)
    && (forall j :: 0 <= j < |trxs| ==> TrxTraced(a.meter.limits, b.journal, b.events, trxs[j], t, j))
    && Placed(b.journal, t.parts)
    && LedgerOf(b).all == LedgerOf(a).all.Plus(Total(b.journal, t.parts))
  }

  /** One part of a trace: its session lies between its neighbours', and its receipt reports it. */
  ghost predicate TrxTraced(limits: Limits, journal: seq<MeterOp>, events: seq<Entry>, trx: Trx, t: Trace, j: nat)
    requires j < |t.parts| && j + 1 < |t.bounds| && j + 1 < |t.places|
  {
    var p := t.parts[j];
    && SessionAt(journal, p.from, trx.rcLimit)
    && t.places[j] <= p.from && CloseOf(journal, p.from) < t.places[j + 1] <= |journal|
    && AtOpen(journal, p.from).emitted == t.bounds[j] && AtOpen(journal, p.from).meter.limits == limits
    && Reports(journal, p.from, events, trx, p.own)
    && t.bounds[j] <= AtClose(journal, p.from).emitted <= t.bounds[j + 1] <= |events|
    && forall i :: t.bounds[j] <= i < t.bounds[j + 1] ==> events[i].trx == Some(trx.id)
  }

  /** Where the events of a part's session end. */
  ghost function StopOf(journal: seq<MeterOp>, p: Part): nat
    requires p.from <= |journal|
  {
    AtClose(journal, p.from).emitted
  }

  lemma SuffixIntrudes(base: seq<ReceiptOp>, ops: seq<ReceiptOp>, ops': seq<ReceiptOp>)
    requires base <= ops && Intrudes(ops, ops')
    ensures Intrudes(ops[|base|..], ops'[|base|..])
  {
    var s, s' := ops[|base|..], ops'[|base|..];
    assert s == s'[..|s|];
    forall i | |s| <= i < |s'|
      ensures !Own(s'[i])
    {
      assert s'[i] == ops'[|base| + i];
    }
  }

  /** One more own receipt, whatever intruded before it. */
  lemma OwnsExtend(base: seq<ReceiptOp>, ops: seq<ReceiptOp>, ops': seq<ReceiptOp>, r: Receipt)
    requires base <= ops && PostsOwn(ops, ops', r)
    ensures base <= ops' && Owned(ops'[|base|..]) == Owned(ops[|base|..]) + [Post(true, r)]
  {
    hide Owned, Listed, Own;
    var front := ops'[..|ops'| - 1];
    SuffixIntrudes(base, ops, front);
    IntrusionsAreNotOwned(ops[|base|..], front[|base|..]);
    OwnPostIsOwn(r);
    OwnSnoc(front[|base|..], Post(true, r));
    hide Intrudes;
    assert ops'[|base|..] == front[|base|..] + [Post(true, r)];
  }

  lemma OwnPostIsOwn(r: Receipt)
    ensures Own(Post(true, r))
  {
  }

  /** A part stays what it is when the block goes on. */
  lemma PartStays(limits: Limits, a: Ctx, b: Ctx, trx: Trx, t: Trace, t': Trace, j: nat)
    requires j < |t.parts| && j + 1 < |t.bounds| && j + 1 < |t.places|
    requires j < |t'.parts| && j + 1 < |t'.bounds| && j + 1 < |t'.places|
    requires t'.parts[j] == t.parts[j] && t'.bounds[j] == t.bounds[j] && t'.bounds[j + 1] == t.bounds[j + 1]
    requires t'.places[j] == t.places[j] && t'.places[j + 1] == t.places[j + 1]
    requires TrxTraced(limits, a.journal, a.events, trx, t, j) && a.journal <= b.journal && a.events <= b.events
    ensures TrxTraced(limits, b.journal, b.events, trx, t', j)
    ensures UseOf(b.journal, t.parts[j]) == UseOf(a.journal, t.parts[j])
  {
    hide Audit;
    var p := t.parts[j];
    SessionStays(a.journal, b.journal, p.from, trx.rcLimit);
    hide SessionAt;
    ReportsStay(a.journal, b.journal, p.from, a.events, b.events, trx, p.own);
    hide Reports;
  }

  lemma {:induction false} TotalStays(j: seq<MeterOp>, j': seq<MeterOp>, parts: seq<Part>)
    requires Placed(j, parts) && |j| <= |j'| && forall i :: 0 <= i < |parts| ==> UseOf(j', parts[i]) == UseOf(j, parts[i])
    ensures Placed(j', parts) && Total(j', parts) == Total(j, parts)
  {
    hide UseOf;
    if parts != [] {
      TotalStays(j, j', parts[..|parts| - 1]);
    }
  }

  ghost function Extended(t: Trace, p: Part, c: Ctx): Trace {
    Trace(t.parts + [p], t.bounds + [|c.events|], t.places + [|c.journal|], t.nodes + [c.node])
  }

  lemma TraceExtend(a: Ctx, b: Ctx, c: Ctx, trxs: seq<Trx>, t: Trace, trx: Trx, p: Part)
    requires Traced(a, b, trxs, t) && TrxDone(b, c, trx, p)
    ensures Traced(a, c, trxs + [trx], Extended(t, p, c))
  {
    hide TrxDone, LedgerOf, Owned, Audit, TrxTraced;
    var t', trxs' := Extended(t, p, c), trxs + [trx];
    DoneShape(b, c, trx, p);
    assert t'.parts[..|t.parts|] == t.parts;
    OwnsExtend(a.posts, b.posts, c.posts, p.own);
    assert OwnPosts(t'.parts) == OwnPosts(t.parts) + [Post(true, p.own)];
    forall j | 0 <= j < |trxs|
      ensures TrxTraced(a.meter.limits, c.journal, c.events, trxs'[j], t', j)
      ensures UseOf(c.journal, t.parts[j]) == UseOf(b.journal, t.parts[j])
    {
      PartStays(a.meter.limits, b, c, trxs[j], t, t', j);
    }
    LastPart(b, c, trx, p);
    LastTraced(b, c, trx, p, t', |trxs|);
    TotalStays(b.journal, c.journal, t.parts);
    hide UseOf;
    assert Placed(c.journal, t'.parts);
    assert Total(c.journal, t'.parts) == Total(c.journal, t.parts).Plus(UseOf(c.journal, p));
    LedgerAdds(a, b, c, Total(c.journal, t.parts), UseOf(c.journal, p));
  }

  lemma DoneShape(b: Ctx, c: Ctx, trx: Trx, p: Part)
    requires TrxDone(b, c, trx, p)
    ensures b.journal <= c.journal && b.events <= c.events && c.meter.limits == b.meter.limits
    ensures PostsOwn(b.posts, c.posts, p.own)
  {
  }

  lemma LastTraced(b: Ctx, c: Ctx, trx: Trx, p: Part, t: Trace, n: nat)
    requires TrxDone(b, c, trx, p) && n < |t.parts| && n + 1 < |t.bounds| && n + 1 < |t.places| && t.parts[n] == p
    requires t.bounds[n] == |b.events| && t.bounds[n + 1] == |c.events|
    requires t.places[n] == |b.journal| && t.places[n + 1] == |c.journal|
    ensures TrxTraced(b.meter.limits, c.journal, c.events, trx, t, n)
  {
    hide Audit, Calm, Safe, Grows, UserOnly, Leaves, LeftBy, OpsRan, Reports, LedgerOf;
    LastPart(b, c, trx, p);
  }

  lemma LedgerAdds(a: Ctx, b: Ctx, c: Ctx, u: Usage, v: Usage)
    requires LedgerOf(b).all == LedgerOf(a).all.Plus(u) && LedgerOf(c).all == LedgerOf(b).all.Plus(v)
    ensures LedgerOf(c).all == LedgerOf(a).all.Plus(u.Plus(v))
  {
    hide LedgerOf;
  }

  lemma LastPart(b: Ctx, c: Ctx, trx: Trx, p: Part)
    requires TrxDone(b, c, trx, p)
    ensures CloseOf(c.journal, p.from) < |c.journal| && p.from <= |c.journal|
    ensures |b.events| <= AtClose(c.journal, p.from).emitted <= |c.events|
    ensures LedgerOf(c).all == LedgerOf(b).all.Plus(UseOf(c.journal, p))
  {
    hide Audit, Calm, Safe, Grows, UserOnly, Leaves, LeftBy;
    SessionUse(c.journal, p.from, trx.rcLimit);
  }

  /**
    The parts of a whole block, by the journal and the events of the context after it;
    what was emitted before the first and after the last belongs to no transaction.
  */
  ghost predicate BlockTraced(a: Ctx, c: Ctx, trxs: seq<Trx>, t: Trace) {
    var n := |trxs|;
    && |t.parts| == n && |t.bounds| == |t.places| == |t.nodes| == n + 1
    && a.events <= c.events && |a.events| <= t.bounds[0] <= t.bounds[n] <= |c.events|
    && |a.journal| <= t.places[0] && t.places[n] <= |c.journal|
    && (forall j :: 0 <= j < n ==> TrxTraced(c.meter.limits, c.journal, c.events, trxs[j], t, j))
    && (forall e :: |a.events| <= e < t.bounds[0] ==> c.events[e].trx == None)
    && (forall e :: t.bounds[n] <= e < |c.events| ==> c.events[e].trx == None)
  }

  lemma {:induction false} BoundsRise(a: Ctx, c: Ctx, trxs: seq<Trx>, t: Trace, j: nat, k: nat)
    requires BlockTraced(a, c, trxs, t) && j <= k <= |trxs|
    ensures t.bounds[j] <= t.bounds[k]
    decreases k - j
  {
    hide Reports, Audit, SessionAt;
    if j < k {
      assert TrxTraced(c.meter.limits, c.journal, c.events, trxs[j], t, j);
      BoundsRise(a, c, trxs, t, j + 1, k);
    }
  }

  /** The receipt of transaction j lists event e: it was emitted before the transaction's session closed. */
  ghost predicate Lists(journal: seq<MeterOp>, t: Trace, j: nat, e: nat) {
    && j < |t.parts| && j < |t.bounds| && t.parts[j].from <= |journal|
    && !t.parts[j].own.reverted && t.bounds[j] <= e < StopOf(journal, t.parts[j])
  }

  lemma ListsWithin(a: Ctx, c: Ctx, trxs: seq<Trx>, t: Trace, j: nat, e: nat)
    requires BlockTraced(a, c, trxs, t) && Lists(c.journal, t, j, e)
    ensures t.bounds[0] <= t.bounds[j] <= e < t.bounds[j + 1] <= t.bounds[|trxs|]
  {
    hide Reports, Audit, SessionAt;
    assert TrxTraced(c.meter.limits, c.journal, c.events, trxs[j], t, j);
    BoundsRise(a, c, trxs, t, 0, j);
    BoundsRise(a, c, trxs, t, j + 1, |trxs|);
  }

  /**
    Every event emitted in a block belongs to no transaction and no receipt, or to one
    transaction; then at most that one's receipt lists it, at its own position, unless
    the transaction reverted or the event came after its session closed.
  */
  lemma {:induction false} EventsPartition(a: Ctx, c: Ctx, trxs: seq<Trx>, t: Trace, e: nat)
    returns (owner: nat)
    requires BlockTraced(a, c, trxs, t) && |a.events| <= e < |c.events|
    ensures !(t.bounds[0] <= e < t.bounds[|trxs|]) ==> c.events[e].trx == None
    ensures forall j: nat :: Lists(c.journal, t, j, e) ==> t.bounds[0] <= e < t.bounds[|trxs|]
    ensures t.bounds[0] <= e < t.bounds[|trxs|] ==>
              && owner < |trxs| && t.bounds[owner] <= e < t.bounds[owner + 1] && t.parts[owner].from <= |c.journal|
              && c.events[e].trx == Some(trxs[owner].id)
              && (forall j: nat :: Lists(c.journal, t, j, e) ==> j == owner)
              && (Lists(c.journal, t, owner, e) ==>
                    && e - t.bounds[owner] < |t.parts[owner].own.events|
                    && t.parts[owner].own.events[e - t.bounds[owner]] == c.events[e].event)
              && (!Lists(c.journal, t, owner, e) ==>
                    t.parts[owner].own.reverted || e >= StopOf(c.journal, t.parts[owner]))
  {
    hide Audit, SessionAt, RcCost;
    owner := 0;
    forall j: nat | Lists(c.journal, t, j, e)
      ensures t.bounds[0] <= e < t.bounds[|trxs|]
    {
      ListsWithin(a, c, trxs, t, j, e);
    }
    if t.bounds[0] <= e < t.bounds[|trxs|] {
      while t.bounds[owner + 1] <= e
        invariant owner < |trxs| && t.bounds[owner] <= e
        decreases |trxs| - owner
      {
        owner := owner + 1;
      }
      assert TrxTraced(c.meter.limits, c.journal, c.events, trxs[owner], t, owner);
      forall j: nat | Lists(c.journal, t, j, e)
        ensures j == owner
      {
        ListsWithin(a, c, trxs, t, j, e);
        if j < owner {
          BoundsRise(a, c, trxs, t, j + 1, owner);
        } else if owner < j {
          BoundsRise(a, c, trxs, t, owner + 1, j);
        }
      }
    }
  }

  /** From node to node, each transaction's account steps to the transaction's nonce. */
  ghost predicate NonceRun(nodes: seq<Node>, trxs: seq<Trx>) {
    && |nodes| == |trxs| + 1
    && forall j :: 0 <= j < |trxs| ==> NonceStep(nodes[j], nodes[j + 1], NonceAccount(trxs[j]), trxs[j].nonce)
  }

  /** All system objects the transactions of a block may change. */
  ghost predicate NamedBy(trxs: seq<Trx>, k: Key) {
    exists j :: 0 <= j < |trxs| && k in TrxKeys(trxs[j])
  }

  ghost function TrxsKeys(trxs: seq<Trx>): iset<Key> {
    iset k: Key | NamedBy(trxs, k)
  }

  predicate UserTrxs(trxs: seq<Trx>) {
    forall i :: 0 <= i < |trxs| ==> UserTrx(trxs[i])
  }

  /** Every event of the first transactions lies before the close of its own session. */
  ghost predicate AllListed(journal: seq<MeterOp>, t: Trace) {
    && Placed(journal, t.parts) && |t.bounds| == |t.parts| + 1
    && forall j {:trigger t.parts[j]} :: 0 <= j < |t.parts| ==> StopOf(journal, t.parts[j]) == t.bounds[j + 1]
  }

  /** What the transactions of a block have done so far. */
  ghost predicate Progress(a: Ctx, b: Ctx, trxs: seq<Trx>, done: nat, t: Trace)
    requires done <= |trxs|
  {
    && SameBlock(a, b) && Grows(a, b)
    && Traced(a, b, trxs[..done], t)
    && LedgerOf(a).sys.network <= LedgerOf(b).sys.network
    && Calm(a, b, TrxsKeys(trxs)) && Safe(a, b, UserTrxs(trxs))
    && (UserOnly(a, b) ==> NonceRun(t.nodes, trxs[..done]) && AllListed(b.journal, t))
  }

  lemma ProgressStarts(a: Ctx, trxs: seq<Trx>)
    requires Inv(a) && a.meter.session.None?
    ensures Progress(a, a, trxs, 0, Trace([], [|a.events|], [|a.journal|], [a.node]))
  {
    hide Audit, Holds, Replay;
    assert a.posts[|a.posts|..] == [];
  }

  lemma ProgressStep(a: Ctx, b: Ctx, c: Ctx, trxs: seq<Trx>, done: nat, t: Trace, p: Part)
    requires done < |trxs| && Progress(a, b, trxs, done, t) && TrxDone(b, c, trxs[done], p)
    ensures Progress(a, c, trxs, done + 1, Extended(t, p, c))
  {
    hide Calm, Grows, UserOnly, UserWorld, Traced, LedgerOf, UserTrx, TrxKeys, Reports, PostsOwn, Safe, LeftBy, SessionAt, Audit;
    var trx := trxs[done];
    TraceExtend(a, b, c, trxs[..done], t, trx, p);
    assert trxs[..done + 1] == trxs[..done] + [trx];
    GrowsTrans(a, b, c);
    assert TrxKeys(trx) <= TrxsKeys(trxs) by {
      assert forall k :: k in TrxKeys(trx) ==> NamedBy(trxs, k);
    }
    CalmTrans(a, b, c, TrxsKeys(trxs), TrxKeys(trx), TrxsKeys(trxs));
    UserOnlySplit(a, b, c);
    SafeTrans(a, b, c, UserTrxs(trxs), UserTrx(trx), UserTrxs(trxs));
    TracedNodes(a, b, trxs[..done], t);
    TracedNodes(a, c, trxs[..done + 1], Extended(t, p, c));
    assert NoLimits(c.journal, |a.journal|) by {
      assert forall i :: 0 <= i < |b.journal| ==> c.journal[i] == b.journal[i];
    }
    if UserOnly(a, c) {
      ListedExtend(a, b, c, trxs[..done], t, p);
      NonceRunExtend(t.nodes, trxs[..done], b, c, trx);
    }
  }

  lemma NonceRunExtend(nodes: seq<Node>, trxs: seq<Trx>, b: Ctx, c: Ctx, trx: Trx)
    requires NonceRun(nodes, trxs) && nodes[|trxs|] == b.node && NonceStep(b.node, c.node, NonceAccount(trx), trx.nonce)
    ensures NonceRun(nodes + [c.node], trxs + [trx])
  {
    hide NonceStep;
  }

  lemma ListedExtend(a: Ctx, b: Ctx, c: Ctx, trxs: seq<Trx>, t: Trace, p: Part)
    requires Traced(a, b, trxs, t) && AllListed(b.journal, t) && b.journal <= c.journal
    requires p.from <= |c.journal| && AtClose(c.journal, p.from).emitted == |c.events|
    ensures AllListed(c.journal, Extended(t, p, c))
  {
    hide LedgerOf, Owned, Audit, Reports;
    var t' := Extended(t, p, c);
    forall j | 0 <= j < |t'.parts|
      ensures t'.parts[j].from <= |c.journal| && StopOf(c.journal, t'.parts[j]) == t'.bounds[j + 1]
    {
      if j < |t.parts| {
        assert TrxTraced(a.meter.limits, b.journal, b.events, trxs[j], t, j);
        SessionStays(b.journal, c.journal, t.parts[j].from, trxs[j].rcLimit);
      }
    }
  }

  lemma TracedNodes(a: Ctx, b: Ctx, trxs: seq<Trx>, t: Trace)
    requires Traced(a, b, trxs, t)
    ensures |t.nodes| == |trxs| + 1 && t.nodes[|trxs|] == b.node && t.nodes[0] == a.node
    ensures |t.parts| == |trxs| && Placed(b.journal, t.parts)
  {
  }

  function Ids(trxs: seq<Trx>): (r: seq<string>)
    ensures |r| == |trxs| && forall i :: 0 <= i < |trxs| ==> r[i] == trxs[i].id
  {
    seq(|trxs|, i requires 0 <= i < |trxs| => trxs[i].id)
  }

  /** The verdicts on transactions since `base`. */
  ghost predicate Tries(base: seq<Verdict>, vs: seq<Verdict>, trxs: seq<Trx>, o: Outcome) {
    Outcomes(base) <= Outcomes(vs) && Swallows(Ids(trxs), Outcomes(vs)[|Outcomes(base)|..], o)
  }

  /** A reverted transaction is swallowed, anything worse ends the block. */
  method ApplyTransactions(c: ExecutionContext, trxs: seq<Trx>) returns (o: Outcome, ghost t: Trace)
    requires c.Valid() && Ready(c.Abs()) && |c.stack| < STACK_LIMIT - 2 && !c.intent.ReadOnly?
    requires CanPost(c.intent, c.receipt)
    modifies c
    ensures c.stack == old(c.stack) && (!o.Reentered? ==> c.Valid())
    ensures o.Thrown? ==> o.code <= 0
    ensures o.Returned? && (ApplyTransactionId in c.priced || trxs == []) ==>
              Progress(old(c.Abs()), c.Abs(), trxs, |trxs|, t)
    ensures o.Returned? && ApplyTransactionId !in c.priced ==> c.Abs() == old(c.Abs())
    ensures o.Reentered? ==> !(UserTrxs(trxs) && UserWorld(old(c.Abs())))
    ensures Tries(old(c.verdicts), c.verdicts, trxs, o)
  {
    hide Inv, TrxDone, Progress, UserOnly, UserWorld, Ready, CanPost, Outcomes, Swallows;
    ghost var s0 := c.Abs();
    ghost var ids, base, tried := Ids(trxs), Outcomes(c.verdicts), [];
    NoneTried(ids);
    ghost var priced := ApplyTransactionId in c.priced;
    o, t := Done, Trace([], [|c.events|], [|c.journal|], [c.node]);
    ReadyShape(s0);
    ProgressStarts(s0, trxs);
    var i := 0;
    while i < |trxs| && o.Returned?
      invariant 0 <= i <= |trxs|
      invariant c.stack == s0.stack && (!o.Reentered? ==> c.Valid())
      invariant o.Thrown? ==> o.code <= 0
      invariant o.Returned? ==> Ready(c.Abs()) && CanPost(c.intent, c.receipt)
      invariant o.Returned? && (priced || i == 0) ==> Progress(s0, c.Abs(), trxs, i, t)
      invariant !priced ==> o.Returned? && c.Abs() == s0
      invariant o.Reentered? ==> !(UserTrxs(trxs) && UserWorld(s0))
      invariant o.Returned? ==> o == Done
      invariant Outcomes(c.verdicts) == base + tried && Swallows(ids[..i], tried, o)
    {
      ghost var s1 := c.Abs();
      ghost var p: Part;
      o, p := CallApplyTransaction(c, trxs[i]);
      ghost var verdict := Outcomes(c.verdicts)[|base + tried|];
      if priced && o.Reentered? {
        ProgressWorld(s0, s1, trxs, i, t);
      }
      if GoesOn(o) {
        o := Done;
        if priced {
          DoneStays(s1, c.Abs(), trxs[i], p);
          ProgressStep(s0, s1, c.Abs(), trxs, i, t, p);
          t := Extended(t, p, c.Abs());
        }
      }
      SwallowsNext(ids, i, tried, verdict, o);
      tried := tried + [verdict];
      i := i + 1;
    }
    SwallowsAll(ids, i, tried, o);
  }

  lemma NoneTried(ids: seq<string>)
    ensures Swallows(ids[..0], [], Done)
  {
  }

  lemma ReadyShape(c: Ctx)
    requires Ready(c)
    ensures c.meter.session.None? && c.trx.None? && InThunk(c.stack) && c.parent.Some?
  {
  }

  lemma ProgressWorld(a: Ctx, b: Ctx, trxs: seq<Trx>, done: nat, t: Trace)
    requires done < |trxs| && Progress(a, b, trxs, done, t)
    ensures UserTrxs(trxs) && UserWorld(a) ==> UserTrx(trxs[done]) && UserWorld(b)
  {
    hide Calm, Grows, Traced, UserOnly, UserWorld, UserTrx, Safe;
    if UserTrxs(trxs) && UserWorld(a) {
      UserWorldIsUserOnly(a, b, true);
    }
  }

  lemma DoneStays(a: Ctx, b: Ctx, trx: Trx, p: Part)
    requires Inv(a) && Inv(b) && Ready(a) && CanPost(a.intent, a.receipt) && TrxDone(a, b, trx, p)
    ensures Ready(b) && CanPost(b.intent, b.receipt)
  {
    hide Audit, Replay, CacheOk, EventsOk, Calm, Safe, Grows, Reports, UserOnly, LeftBy, SessionAt;
    ReadyStays(a, b);
    if a.intent.BlockApplication? {
      var n := |b.posts| - 1;
      IntrusionsKeepBlock(a.posts, b.posts[..n]);
    }
  }

  /* ---- conservation ---- */

  function SumCompute(parts: seq<Part>): int {
    if parts == [] then 0 else SumCompute(parts[..|parts| - 1]) + parts[|parts| - 1].own.compute
  }

  function SumNetwork(parts: seq<Part>): int {
    if parts == [] then 0 else SumNetwork(parts[..|parts| - 1]) + parts[|parts| - 1].own.network
  }

  function SumDisk(parts: seq<Part>): int {
    if parts == [] then 0 else SumDisk(parts[..|parts| - 1]) + parts[|parts| - 1].own.disk
  }

  function SumClamp(j: seq<MeterOp>, parts: seq<Part>): int
    requires Placed(j, parts)
  {
    if parts == [] then 0 else SumClamp(j, parts[..|parts| - 1]) + Clamp(j, parts[|parts| - 1].from)
  }

  ghost predicate Figures(j: seq<MeterOp>, p: Part)
    requires p.from <= |j|
  {
    var use := UseOf(j, p);
    p.own.compute == use.compute && p.own.network == use.network && p.own.disk == ToU64(use.disk + Clamp(j, p.from))
  }

  /** The receipts' figures add up to the uses; disk modulo 2^64 and but for the clamping. */
  lemma {:induction false} ReceiptsTotal(j: seq<MeterOp>, parts: seq<Part>)
    requires Placed(j, parts) && forall i :: 0 <= i < |parts| ==> Figures(j, parts[i])
    ensures SumCompute(parts) == Total(j, parts).compute && SumNetwork(parts) == Total(j, parts).network
    ensures ToU64(SumDisk(parts)) == ToU64(Total(j, parts).disk + SumClamp(j, parts))
  {
    hide UseOf, Clamp;
    if parts != [] {
      var n := |parts| - 1;
      var front, p := parts[..n], parts[n];
      ReceiptsTotal(j, front);
      hide ToU64;
      assert Figures(j, p);
      WrapSum(SumDisk(front), Total(j, front).disk + SumClamp(j, front), UseOf(j, p).disk + Clamp(j, p.from));
    }
  }

  lemma WrapSum(x: int, y: int, z: int)
    requires ToU64(x) == ToU64(y)
    ensures ToU64(x + ToU64(z)) == ToU64(y + z)
  {
    ModShift(y + z, x / U64_SIZE - y / U64_SIZE - z / U64_SIZE);
    assert x + ToU64(z) == y + z + (x / U64_SIZE - y / U64_SIZE - z / U64_SIZE) * U64_SIZE;
  }

  /**
    Conservation over a block: what left each counter since the limits were set is
    what the system used and what the transactions' receipts report, reverted ones
    included. Disk, which can be refunded, is modulo 2^64; its receipts add up exactly
    if the clamping of their readings does.
  */
  ghost predicate Conserved(c: Ctx, parts: seq<Part>) {
    var sys := LedgerOf(c).sys;
    && Placed(c.journal, parts)
    && c.meter.limits.compute - c.meter.compute == sys.compute + SumCompute(parts)
    && c.meter.limits.network - c.meter.network == sys.network + SumNetwork(parts)
    && (c.meter.disk == ToU64(c.meter.limits.disk - sys.disk - SumDisk(parts)) <==> ToU64(SumClamp(c.journal, parts)) == 0)
    && ((forall j :: 0 <= j < |parts| ==> Clamp(c.journal, parts[j].from) == 0) ==>
          c.meter.disk == ToU64(c.meter.limits.disk - sys.disk - SumDisk(parts)))
    && (c.meter.limits.compute <= I64_MAX ==> c.meter.sysCompute == sys.compute)
    && (c.meter.limits.network <= I64_MAX ==> c.meter.sysNetwork == sys.network)
  }

  lemma {:induction false} NoClampNoSum(j: seq<MeterOp>, parts: seq<Part>)
    requires Placed(j, parts) && forall i :: 0 <= i < |parts| ==> Clamp(j, parts[i].from) == 0
    ensures SumClamp(j, parts) == 0
  {
    hide Clamp;
    if parts != [] {
      NoClampNoSum(j, parts[..|parts| - 1]);
    }
  }

  /** Of numbers congruent modulo 2^64: subtracting the one or the other, and a remainder that must vanish. */
  lemma WrapDisk(x: int, total: int, sum: int, clamp: int)
    requires ToU64(sum) == ToU64(total + clamp)
    ensures ToU64(x - total) == ToU64(x - sum) <==> ToU64(clamp) == 0
  {
    var k := sum / U64_SIZE - (total + clamp) / U64_SIZE;
    assert sum == total + clamp + k * U64_SIZE;
    ModShift(x - total - clamp, -k);
    assert x - sum == x - total - clamp + (-k) * U64_SIZE;
    WrapZero(x - total, clamp);
  }

  lemma WrapZero(y: int, clamp: int)
    ensures ToU64(y) == ToU64(y - clamp) <==> ToU64(clamp) == 0
  {
    var k := clamp / U64_SIZE;
    if ToU64(clamp) == 0 {
      ModShift(y, -k);
      assert y - clamp == y + (-k) * U64_SIZE;
    } else if ToU64(y) == ToU64(y - clamp) {
      var q := y / U64_SIZE - (y - clamp) / U64_SIZE;
      assert clamp == q * U64_SIZE;
      ModShift(0, q);
    }
  }

  lemma BlockConserves(a: Ctx, b: Ctx, c: Ctx, trxs: seq<Trx>, t: Trace)
    requires Inv(c) && Traced(a, b, trxs, t) && LedgerOf(a).all == NoUse && LedgerOf(c).all == LedgerOf(b).all
    requires b.journal <= c.journal && b.events <= c.events
    ensures Conserved(c, t.parts)
  {
    hide Audit, CacheOk, EventsOk, Replay, Holds, SessionBalanced, Traced, Figures, ToU64, ToI64, Clamp, UseOf;
    PartsStay(a, b, c, trxs, t);
    ReceiptsTotal(c.journal, t.parts);
    AuditIsSound(c.journal);
    var sys, total := LedgerOf(c).sys, Total(c.journal, t.parts);
    assert LedgerOf(c).all == total;
    WrapDisk(c.meter.limits.disk - sys.disk, total.disk, SumDisk(t.parts), SumClamp(c.journal, t.parts));
    if forall j :: 0 <= j < |t.parts| ==> Clamp(c.journal, t.parts[j].from) == 0 {
      NoClampNoSum(c.journal, t.parts);
      ZeroWraps();
    }
    SystemFigures(c);
  }

  lemma PartsStay(a: Ctx, b: Ctx, c: Ctx, trxs: seq<Trx>, t: Trace)
    requires Traced(a, b, trxs, t) && b.journal <= c.journal && b.events <= c.events
    ensures Placed(c.journal, t.parts) && forall i :: 0 <= i < |t.parts| ==> Figures(c.journal, t.parts[i])
    ensures LedgerOf(b).all == LedgerOf(a).all.Plus(Total(c.journal, t.parts))
  {
    hide Audit, Owned, SessionAt, LedgerOf;
    forall j | 0 <= j < |t.parts|
      ensures t.parts[j].from <= |c.journal| && Figures(c.journal, t.parts[j])
      ensures UseOf(c.journal, t.parts[j]) == UseOf(b.journal, t.parts[j])
    {
      PartStays(a.meter.limits, b, c, trxs[j], t, t, j);
    }
    TotalStays(b.journal, c.journal, t.parts);
  }

  lemma ZeroWraps()
    ensures ToU64(0) == 0
  {
  }

  /** The meter's own record of system use is right while it cannot wrap. */
  lemma SystemFigures(c: Ctx)
    requires Balanced(c.meter, LedgerOf(c))
    ensures c.meter.limits.compute <= I64_MAX ==> c.meter.sysCompute == LedgerOf(c).sys.compute
    ensures c.meter.limits.network <= I64_MAX ==> c.meter.sysNetwork == LedgerOf(c).sys.network
  {
    hide Audit, SessionBalanced;
  }

  /* ---- one block ---- */

  /** The limits of the block are read and set; from here on its accounts run. */
  method SetBlockLimits(c: ExecutionContext) returns (o: Outcome)
    requires c.Valid() && Ready(c.Abs())
    modifies c
    ensures c.stack == old(c.stack) && (!o.Reentered? ==> c.Valid())
    ensures o.Reentered? ==> !UserWorld(old(c.Abs()))
    ensures o.Returned? ==>
              && SameBlockState(old(c.Abs()), c.Abs()) && LedgerOf(c.Abs()) == EmptyLedger
              && Grows(old(c.Abs()), c.Abs()) && Calm(old(c.Abs()), c.Abs(), iset{}) && Safe(old(c.Abs()), c.Abs(), true)
              && Intrudes(old(c.posts), c.posts)
              && Unlabelled(old(c.Abs()), c.Abs()) && |old(c.journal)| <= |c.journal|
    ensures Trail(old(c.verdicts), c.verdicts, [Asked(HelperId(6))], o)
  {
    hide Inv, Went, Calm, Grows, Safe, UserOnly, UserWorld, Audit, Trail;
    ghost var s0 := c.Abs();
    ReadyShape(s0);
    o := Ask(c, Asked(HelperId(6)), HelperId(6), NoArgs);  // get_resource_limits
    TrailOne(old(c.verdicts), Verdict(Asked(HelperId(6)), o), o);
    ghost var s1 := c.Abs();
    WentStrode(s0, s1, iset{}, true, o.Reentered?);
    if o.Reentered? {
      NotKept(s0, s0, s1, iset{}, true);
    } else {
      StrodeParts(s0, s1, iset{}, true);
      FlowShape(s0, s1);
      FlowUnlabelled(s0, s1);
      WentSteps(s0, s1, iset{}, true);
      StepKeepsShape(s0, s1);
    }
    if o.Returned? {
      var limits: Limits := *;
      SetsLedger(s1, limits);
      c.SetLimits(limits);
      Alike(s0, s1, s0, c.Abs(), iset{}, true);
    }
  }

  lemma SetsLedger(c: Ctx, limits: Limits)
    requires Inv(c) && c.meter.session.None?
    ensures Audit(c.journal + [Limited(limits)]).ledger == EmptyLedger
    ensures Audit(c.journal + [Limited(limits)]).meter.session.None?
  {
    hide Replay, Holds, CacheOk, EventsOk, Audit;
    AuditSnoc(c.journal, Limited(limits));
  }

  /** What does not change between the parts of a block's application. */
  ghost predicate SameBlockState(a: Ctx, b: Ctx) {
    && b.stack == a.stack && b.parent == a.parent && b.trx == a.trx && b.origin == a.origin
    && b.intent == a.intent && b.priced == a.priced && b.meter.session.None?
    && b.node.Over? && a.node.Over? && b.node.parent == a.node.parent
  }

  ghost predicate SameNonces(a: Node, b: Node) {
    forall account: Id :: Get(b, NonceKey(account)) == Get(a, NonceKey(account))
  }

  lemma {:induction false} RunKeepsHead(nodes: seq<Node>, trxs: seq<Trx>)
    requires NonceRun(nodes, trxs)
    ensures Get(nodes[|trxs|], HEAD_BLOCK) == Get(nodes[0], HEAD_BLOCK)
  {
    var n := |trxs|;
    if n > 0 {
      RunKeepsHead(nodes[..n], trxs[..n - 1]);
      assert NonceStep(nodes[n - 1], nodes[n], NonceAccount(trxs[n - 1]), trxs[n - 1].nonce);
      assert Reserved(HEAD_BLOCK);
    }
  }

  lemma CalmKeepsNonces(a: Ctx, b: Ctx, direct: iset<Key>)
    requires Grows(a, b) && Calm(a, b, direct) && UserOnly(a, b)
    requires forall k :: k in direct ==> k == HEAD_BLOCK
    ensures SameNonces(a.node, b.node)
    ensures HEAD_BLOCK !in direct ==> Get(b.node, HEAD_BLOCK) == Get(a.node, HEAD_BLOCK)
  {
    hide Grows, UserOnly, Get, Calm;
    forall account: Id
      ensures Get(b.node, NonceKey(account)) == Get(a.node, NonceKey(account))
    {
      ZoneIsolation(a, b, direct, NonceKey(account));
    }
    ZoneIsolation(a, b, direct, HEAD_BLOCK);
  }

  /** The steps of a block before its transactions, once its limits are set. */
  function HeaderPlan(block: Block): seq<Stage> {
    [Assisted, Charged(block.headerSize)] + [Assisted, Checked]
  }

  /** Header checks, the header's network use, the signature, and the block stored as its own head block. */
  method Prepare(c: ExecutionContext, block: Block) returns (o: Outcome)
    requires c.Valid() && InThunk(c.stack) && !c.intent.ReadOnly?
    modifies c
    ensures c.stack == old(c.stack) && (!o.Reentered? ==> c.Valid())
    ensures Went(old(c.Abs()), c.Abs(), iset{HEAD_BLOCK}, true, o.Reentered?)
    ensures o.Returned? ==> Get(c.node, HEAD_BLOCK) == Some(HeadBlock(block.height, block.timestamp))
    ensures o.Returned? ==> c.meter.network <= old(c.meter.network) - block.headerSize
    ensures Trail(old(c.verdicts), c.verdicts, HeaderPlan(block), o)
  {
    hide Inv, Went, UserOnly, UserWorld, Trail;
    ghost var s0, v0, key := c.Abs(), c.verdicts, iset{HEAD_BLOCK};
    o := ChargeHeader(c, block);
    ghost var s1, v1, o1 := c.Abs(), c.verdicts, o;
    WentMore(s0, s1, iset{}, key, true, true, o.Reentered?);
    if o.Returned? {
      o := CheckHeader(c);
      WentThen(s0, s1, c.Abs(), key, iset{}, key, true, true, true, o.Reentered?);
      TrailThen(v0, v1, c.verdicts, [Assisted, Charged(block.headerSize)], [Assisted, Checked], o1, o);
      if o.Returned? {
        ghost var s2 := c.Abs();
        NetworkFalls(s1, s2, iset{}, true);
        SameIntent(s0, s2, key);
        c.PutDirect(HEAD_BLOCK, HeadBlock(block.height, block.timestamp));
        WentThen(s0, s2, c.Abs(), key, key, key, true, true, true, false);
      }
    } else {
      TrailStops(v0, v1, [Assisted, Charged(block.headerSize)], [Assisted, Checked], o);
    }
  }

  /** Block id and transaction Merkle root, and the size of the block without its transactions. */
  method ChargeHeader(c: ExecutionContext, block: Block) returns (o: Outcome)
    requires c.Valid() && InThunk(c.stack)
    modifies c
    ensures c.stack == old(c.stack) && (!o.Reentered? ==> c.Valid())
    ensures Went(old(c.Abs()), c.Abs(), iset{}, true, o.Reentered?)
    ensures o.Returned? ==> c.meter.network <= old(c.meter.network) - block.headerSize
    ensures Trail(old(c.verdicts), c.verdicts, [Assisted, Charged(block.headerSize)], o)
  {
    hide Inv, Went, UserOnly, UserWorld, OnlyMetered, Trail, Denies;
    ghost var s0, v0, first, second := c.Abs(), c.verdicts, [Assisted], [Charged(block.headerSize)];
    assert [Assisted, Charged(block.headerSize)] == first + second;
    o := Assist(c);
    ghost var s1, v1, o1 := c.Abs(), c.verdicts, o;
    if o.Returned? {
      NetworkFalls(s0, s1, iset{}, true);
      o := ChargeSize(c, block.headerSize);
      MeteredWent(s1, c.Abs(), iset{}, true);
      MeteredShape(s1, c.Abs());
      WentThen(s0, s1, c.Abs(), iset{}, iset{}, iset{}, true, true, true, false);
      TrailThen(v0, v1, c.verdicts, first, second, o1, o);
    } else {
      TrailStops(v0, v1, first, second, o);
    }
  }

  /** process_block_signature and pre_block_callback. */
  method CheckHeader(c: ExecutionContext) returns (o: Outcome)
    requires c.Valid() && InThunk(c.stack)
    modifies c
    ensures c.stack == old(c.stack) && (!o.Reentered? ==> c.Valid())
    ensures Went(old(c.Abs()), c.Abs(), iset{}, true, o.Reentered?)
    ensures Trail(old(c.verdicts), c.verdicts, [Assisted, Checked], o)
  {
    hide Inv, Went, Trail;
    ghost var v0 := c.verdicts;
    o := Assist(c);
    ghost var v1, o1 := c.verdicts, o;
    assert [Assisted, Checked] == [Assisted] + [Checked];
    if o.Returned? {
      o := Check(c);
      TrailThen(v0, v1, c.verdicts, [Assisted], [Checked], o1, o);
    } else {
      TrailStops(v0, v1, [Assisted], [Checked], o);
    }
  }

  lemma SameIntent(a: Ctx, b: Ctx, d: iset<Key>)
    requires Went(a, b, d, true, false)
    ensures b.intent == a.intent
  {
  }

  /** The steps of a block after its transactions. */
  const ClosingPlan: seq<Stage> := [Asked(HelperId(4)), Agreed(ConsumeAccountRcId, REVERSION), Agreed(HelperId(5), FAILURE)]

  /** The block callback, the producer's RC for what the system used, and the block's resources. */
  method Finish(c: ExecutionContext, block: Block) returns (o: Outcome)
    requires c.Valid() && InThunk(c.stack)
    modifies c
    ensures c.stack == old(c.stack) && (!o.Reentered? ==> c.Valid())
    ensures Went(old(c.Abs()), c.Abs(), iset{}, true, o.Reentered?)
    ensures Trail(old(c.verdicts), c.verdicts, ClosingPlan, o)
  {
    hide Inv, Went, UserOnly, UserWorld, Trail, Answers, Settles;
    ghost var s0, v0 := c.Abs(), c.verdicts;
    ghost var p1, p2, p3 := [Asked(HelperId(4))], [Agreed(ConsumeAccountRcId, REVERSION)], [Agreed(HelperId(5), FAILURE)];
    assert ClosingPlan == p1 + p2 + p3;
    o := Ask(c, Asked(HelperId(4)), HelperId(4), NoArgs);  // post_block_callback
    ghost var s1, v1, o1 := c.Abs(), c.verdicts, o;
    TrailOne(v0, Verdict(Asked(HelperId(4)), o), o);
    if o.Returned? {
      o := Demand(c, ConsumeAccountRcId, NoArgs.(id := block.signer), REVERSION);
      WentThen(s0, s1, c.Abs(), iset{}, iset{}, iset{}, true, true, true, o.Reentered?);
      TrailThen(v0, v1, c.verdicts, p1, p2, o1, o);
    } else {
      TrailStops(v0, v1, p1, p2, o);
    }
    ghost var s2, v2, o2 := c.Abs(), c.verdicts, o;
    if o.Returned? {
      o := Demand(c, HelperId(5), NoArgs, FAILURE);  // consume_block_resources
      WentThen(s0, s2, c.Abs(), iset{}, iset{}, iset{}, true, true, true, o.Reentered?);
      TrailThen(v0, v2, c.verdicts, p1 + p2, p3, o2, o);
    } else {
      TrailStops(v0, v2, p1 + p2, p3, o);
    }
  }

  /** All system objects a block may change. */
  ghost function BlockKeys(block: Block): iset<Key> {
    TrxsKeys(block.transactions) + iset{HEAD_BLOCK}
  }

  /**
    What the block receipt lists: what was posted since its last reset. The parts' own
    receipts were all posted, in order; they are what is listed, one each and in order,
    if and only if no contract called apply_block or apply_transaction, unless all such
    calls came before the first receipt and the last of them was apply_block.
  */
  ghost predicate ListsReceipts(before: seq<ReceiptOp>, c: Ctx, parts: seq<Part>) {
    && before <= c.posts
    && var ops := c.posts[|before|..];
       && (forall i :: 0 <= i < |Listed(ops)| ==> Listed(ops)[i].Post?)
       && c.receipt == OfBlock(Values(Listed(ops)))
       && Owned(ops) == OwnPosts(parts)
       && (Listed(ops) == OwnPosts(parts) <==> exists k :: OwnAfter(ops, k))
       && ((forall i :: 0 <= i < |ops| ==> Own(ops[i])) ==> c.receipt == OfBlock(OwnReceipts(parts)))
  }

  lemma ReceiptsListed(before: seq<ReceiptOp>, c: Ctx, parts: seq<Part>)
    requires Inv(c) && c.intent.BlockApplication? && |before| > 0 && before[|before| - 1].Reset? && before <= c.posts
    requires Owned(c.posts[|before|..]) == OwnPosts(parts)
    ensures ListsReceipts(before, c, parts)
  {
    hide Audit, Replay, CacheOk, EventsOk, Holds, Listed, Owned;
    var ops, first := c.posts[|before|..], before[..|before| - 1];
    assert first + [Reset] == before && first + [Reset] + ops == c.posts;
    BlockHolds(first, ops);
    ReceiptsGenuineExactly(ops);
    if forall i :: 0 <= i < |ops| ==> Own(ops[i]) {
      assert OwnAfter(ops, 0);
      assert Values(Listed(ops)) == OwnReceipts(parts);
    }
  }

  /** What a block that succeeds has done. */
  ghost predicate BlockDone(a: Ctx, c: Ctx, block: Block, t: Trace) {
    && BlockTraced(a, c, block.transactions, t)
    && Conserved(c, t.parts)
    && block.headerSize <= LedgerOf(c).sys.network
    && ListsReceipts(a.posts + [Reset], c, t.parts)
    && Grows(a, c) && Calm(a, c, BlockKeys(block)) && Safe(a, c, UserTrxs(block.transactions))
    && (UserOnly(a, c) ==>
          && Get(c.node, HEAD_BLOCK) == Some(HeadBlock(block.height, block.timestamp))
          && NonceRun(t.nodes, block.transactions) && AllListed(c.journal, t)
          && SameNonces(a.node, t.nodes[0]) && SameNonces(t.nodes[|block.transactions|], c.node))
  }

  /** Where a block stands once it is prepared. */
  ghost predicate Begun(r0: Ctx, start: Ctx) {
    && SameBlockState(r0, start) && Ready(start) && CanPost(start.intent, start.receipt)
    && Grows(r0, start) && Calm(r0, start, iset{HEAD_BLOCK}) && Safe(r0, start, true)
    && Intrudes(r0.posts, start.posts)
    && LedgerOf(start).all == NoUse
    && Unlabelled(r0, start) && |r0.journal| <= |start.journal|
  }

  /** Events emitted in between belong to no transaction. */
  ghost predicate Unlabelled(a: Ctx, b: Ctx) {
    a.events <= b.events && forall e :: |a.events| <= e < |b.events| ==> b.events[e].trx == None
  }

  lemma UnlabelledTrans(a: Ctx, b: Ctx, c: Ctx)
    requires Unlabelled(a, b) && Unlabelled(b, c)
    ensures Unlabelled(a, c)
  {
    assert forall e :: 0 <= e < |b.events| ==> b.events[e] == c.events[e];
  }

  lemma FlowUnlabelled(a: Ctx, b: Ctx)
    requires Flow(a, b) && a.trx.None?
    ensures Unlabelled(a, b)
  {
  }

  lemma Prepared(r0: Ctx, s1: Ctx, start: Ctx)
    requires Inv(r0) && Inv(s1) && Inv(start) && Ready(r0) && r0.intent.BlockApplication? && r0.receipt.OfBlock?
    requires SameBlockState(r0, s1) && LedgerOf(s1) == EmptyLedger && Intrudes(r0.posts, s1.posts)
    requires Grows(r0, s1) && Calm(r0, s1, iset{}) && Safe(r0, s1, true)
    requires Unlabelled(r0, s1) && |r0.journal| <= |s1.journal|
    requires Went(s1, start, iset{HEAD_BLOCK}, true, false)
    ensures Begun(r0, start)
  {
    hide Inv, Calm, Grows, UserOnly, UserWorld, Ready, CanPost, Audit, Safe, Flow;
    WentStrode(s1, start, iset{HEAD_BLOCK}, true, false);
    StrodeParts(s1, start, iset{HEAD_BLOCK}, true);
    WentSteps(s1, start, iset{HEAD_BLOCK}, true);
    FlowShape(s1, start);
    ReadyShape(r0);
    FlowUnlabelled(s1, start);
    UnlabelledTrans(r0, s1, start);
    StepKeepsShape(s1, start);
    hide Step, Went, Strode, Unlabelled;
    GrowsTrans(r0, s1, start);
    CalmTrans(r0, s1, start, iset{}, iset{HEAD_BLOCK}, iset{HEAD_BLOCK});
    UserOnlySplit(r0, s1, start);
    SafeTrans(r0, s1, start, true, true, true);
    IntrudesTrans(r0.posts, s1.posts, start.posts);
    ReadyStays(r0, start);
    Postable(r0);
    KeepsPostable(r0, start);
    MeterIsAudit(s1);
    ContinuationKeepsSession(s1.journal, start.journal);
  }

  lemma MeterIsAudit(c: Ctx)
    requires Inv(c)
    ensures BooksOf(c).meter == c.meter
  {
  }

  lemma Postable(c: Ctx)
    requires c.receipt.OfBlock?
    ensures CanPost(c.intent, c.receipt)
  {
  }

  lemma ReadyAgain(a: Ctx, b: Ctx)
    requires Ready(a) && b == a.(receipt := b.receipt, posts := b.posts)
    ensures Ready(b)
  {
  }

  lemma {:induction false} OwnedConcat(x: seq<ReceiptOp>, y: seq<ReceiptOp>)
    ensures Owned(x + y) == Owned(x) + Owned(y)
  {
    if y == [] {
      assert x + y == x;
    } else {
      var n := |y| - 1;
      OwnedConcat(x, y[..n]);
      assert (x + y)[..|x + y| - 1] == x + y[..n];
    }
  }

  lemma IntrusionsOwnNothing(ops: seq<ReceiptOp>, ops': seq<ReceiptOp>)
    requires Intrudes(ops, ops')
    ensures Owned(ops'[|ops|..]) == []
  {
    OwnedAreOwn(ops'[|ops|..]);
  }

  /** Between intrusions before and after, the transactions' receipts are the block's own. */
  lemma OwnedByBlock(base: seq<ReceiptOp>, start: seq<ReceiptOp>, after: seq<ReceiptOp>, end: seq<ReceiptOp>)
    requires Intrudes(base, start) && start <= after && Intrudes(after, end)
    ensures base <= end && Owned(end[|base|..]) == Owned(after[|start|..])
  {
    var x, y, z := start[|base|..], after[|start|..], end[|after|..];
    assert end[|base|..] == x + y + z;
    IntrusionsOwnNothing(base, start);
    IntrusionsOwnNothing(after, end);
    OwnedConcat(x + y, z);
    OwnedConcat(x, y);
  }

  /** A block whose transactions have no price lists no receipt of its own. */
  lemma FinishedUnpriced(s0: Ctx, r0: Ctx, start: Ctx, c: Ctx)
    requires Inv(c) && r0.posts == s0.posts + [Reset] && r0.intent.BlockApplication? && Begun(r0, start)
    requires Went(start, c, iset{}, true, false)
    ensures ListsReceipts(s0.posts + [Reset], c, [])
  {
    hide Calm, Grows, UserOnly, UserWorld, Ready, CanPost, Audit, Owned, ListsReceipts, Core;
    WentSteps(start, c, iset{}, true);
    StepShape(start, c);
    hide Step, Inv;
    assert start.posts[|start.posts|..] == [];
    OwnedByBlock(r0.posts, start.posts, start.posts, c.posts);
    EmptyOwned();
    ReceiptsListed(r0.posts, c, []);
  }

  lemma EmptyOwned()
    ensures Owned([]) == [] == OwnPosts([])
  {
  }

  lemma Finished(s0: Ctx, r0: Ctx, start: Ctx, after: Ctx, c: Ctx, block: Block, t: Trace)
    requires Inv(s0) && Inv(after) && Inv(c) && r0 == s0.(receipt := r0.receipt, posts := s0.posts + [Reset])
    requires r0.intent.BlockApplication? && Begun(r0, start)
    requires Get(start.node, HEAD_BLOCK) == Some(HeadBlock(block.height, block.timestamp))
    requires block.headerSize <= LedgerOf(start).sys.network
    requires Progress(start, after, block.transactions, |block.transactions|, t) && Inv(start)
    requires Went(after, c, iset{}, true, false)
    ensures BlockDone(s0, c, block, t)
  {
    hide Core, Flow, Unlabelled, BlockTraced, AllListed, Calm, Grows, UserOnly, UserWorld, Ready, CanPost, Audit, Owned, ListsReceipts, Traced, Conserved, NonceRun, Get, UserTrxs, Safe;
    var trxs, keys := block.transactions, BlockKeys(block);
    assert trxs[..|trxs|] == trxs;
    WentSteps(after, c, iset{}, true);
    StepShape(after, c);
    StepGrows(after, c);
    MeterIsAudit(after);
    ContinuationKeepsSession(after.journal, c.journal);
    BlockConserves(start, after, c, trxs, t);
    ReadyShape(start);
    FlowUnlabelled(after, c);
    TracedBlock(r0, start, after, c, trxs, t);
    TracedAlike(r0, s0, c, trxs, t);
    hide Step;
    TracedPosts(start, after, trxs, t);
    OwnedByBlock(r0.posts, start.posts, after.posts, c.posts);
    ReceiptsListed(r0.posts, c, t.parts);
    GrowsTrans(r0, start, after);
    CalmTrans(r0, start, after, iset{HEAD_BLOCK}, TrxsKeys(trxs), keys);
    UserOnlySplit(r0, start, after);
    SafeTrans(r0, start, after, true, UserTrxs(trxs), UserTrxs(trxs));
    SafeTrans(r0, after, c, UserTrxs(trxs), true, UserTrxs(trxs));
    GrowsTrans(r0, after, c);
    CalmTrans(r0, after, c, keys, iset{}, keys);
    UserOnlySplit(r0, after, c);
    Alike(r0, c, s0, c, keys, UserTrxs(trxs));
    if UserOnly(s0, c) {
      BlockKeepsMetadata(r0, start, after, c, block, t.nodes);
      TracedNodes(start, after, trxs, t);
      ListedStay(start, after, c, trxs, t);
    }
  }

  lemma TracedAlike(r0: Ctx, s0: Ctx, c: Ctx, trxs: seq<Trx>, t: Trace)
    requires BlockTraced(r0, c, trxs, t) && s0.events == r0.events && s0.journal == r0.journal
    ensures BlockTraced(s0, c, trxs, t)
  {
    hide TrxTraced;
  }

  /** A block's trace, seen from its end. */
  lemma TracedBlock(r0: Ctx, start: Ctx, after: Ctx, c: Ctx, trxs: seq<Trx>, t: Trace)
    requires Unlabelled(r0, start) && Traced(start, after, trxs, t) && start.events <= after.events && Unlabelled(after, c)
    requires |r0.journal| <= |start.journal| && after.journal <= c.journal && c.meter.limits == after.meter.limits
    ensures BlockTraced(r0, c, trxs, t)
  {
    hide Audit, SessionAt, Reports, LedgerOf, Owned;
    forall j | 0 <= j < |trxs|
      ensures TrxTraced(c.meter.limits, c.journal, c.events, trxs[j], t, j)
    {
      PartStays(start.meter.limits, after, c, trxs[j], t, t, j);
    }
    hide TrxTraced;
    forall e | |r0.events| <= e < t.bounds[0]
      ensures c.events[e].trx == None
    {
      assert c.events[e] == after.events[e] == start.events[e];
    }
  }

  lemma ListedStay(a: Ctx, b: Ctx, c: Ctx, trxs: seq<Trx>, t: Trace)
    requires Traced(a, b, trxs, t) && AllListed(b.journal, t) && b.journal <= c.journal
    ensures AllListed(c.journal, t)
  {
    hide LedgerOf, Owned, Audit, Reports;
    forall j | 0 <= j < |t.parts|
      ensures t.parts[j].from <= |c.journal| && StopOf(c.journal, t.parts[j]) == t.bounds[j + 1]
    {
      assert TrxTraced(a.meter.limits, b.journal, b.events, trxs[j], t, j);
      SessionStays(b.journal, c.journal, t.parts[j].from, trxs[j].rcLimit);
    }
  }

  lemma TracedPosts(a: Ctx, b: Ctx, trxs: seq<Trx>, t: Trace)
    requires Traced(a, b, trxs, t)
    ensures a.posts <= b.posts && Owned(b.posts[|a.posts|..]) == OwnPosts(t.parts)
    ensures t.nodes[0] == a.node && t.nodes[|trxs|] == b.node
  {
  }

  lemma BlockKeepsMetadata(r0: Ctx, start: Ctx, after: Ctx, end: Ctx, block: Block, nodes: seq<Node>)
    requires Grows(r0, start) && Calm(r0, start, iset{HEAD_BLOCK}) && UserOnly(r0, start)
    requires Grows(after, end) && Calm(after, end, iset{}) && UserOnly(after, end)
    requires NonceRun(nodes, block.transactions)
    requires nodes[0] == start.node && nodes[|block.transactions|] == after.node
    requires Get(start.node, HEAD_BLOCK) == Some(HeadBlock(block.height, block.timestamp))
    ensures SameNonces(r0.node, start.node) && SameNonces(after.node, end.node)
    ensures Get(end.node, HEAD_BLOCK) == Some(HeadBlock(block.height, block.timestamp))
  {
    hide Grows, Calm, UserOnly, NonceRun, Get;
    CalmKeepsNonces(r0, start, iset{HEAD_BLOCK});
    CalmKeepsNonces(after, end, iset{});
    RunKeepsHead(nodes, block.transactions);
  }

  /**
    One block; `t` says where its transactions lie in its journal and among its events.
    The block receipt is begun before the caller is checked. If transactions have no
    price, none is applied and none leaves a receipt.
  */
  method ApplyBlock(c: ExecutionContext, block: Block)
    returns (o: Outcome, ghost t: Trace, ghost tale: Tale)
    requires c.Valid() && Ready(c.Abs()) && |c.stack| < STACK_LIMIT - 2
    modifies c
    ensures c.stack == old(c.stack) && (!o.Reentered? ==> c.Valid())
    ensures c.intent != BlockApplication || old(c.CallerPrivilege()) != Kernel ==>
              && o == Thrown(REVERSION)
              && c.Abs() == old(c.Abs()).(receipt := OfBlock([]), posts := old(c.posts) + [Reset])
    ensures o.Returned? && (ApplyTransactionId in c.priced || block.transactions == []) ==>
              BlockDone(old(c.Abs()), c.Abs(), block, t)
    ensures o.Returned? && ApplyTransactionId !in c.priced ==>
              ListsReceipts(old(c.posts) + [Reset], c.Abs(), [])
    ensures o.Reentered? ==> !(UserTrxs(block.transactions) && UserWorld(old(c.Abs())))
    ensures c.intent == BlockApplication && old(c.CallerPrivilege()) == Kernel ==>
              BlockTold(old(c.verdicts), c.verdicts, block, tale, o)
  {
    hide Trail, Tries, LedgerOf;
    hide Inv, Went, Progress, BlockDone, Begun, ListsReceipts, UserOnly, UserWorld, Calm, Grows, Ready, UserTrxs, CanPost;
    hide Intrudes, Get;
    ghost var s0 := c.Abs();
    t := Trace([], [|c.events|], [|c.journal|], [c.node]);
    tale := Tale(Done, c.verdicts, Done, c.verdicts);
    ReadyShape(s0);
    c.ResetReceipt();
    ghost var r0 := c.Abs();
    ReadyAgain(s0, r0);
    SameWorld(s0, r0);
    if c.intent != BlockApplication || c.CallerPrivilege() != Kernel {
      o := Thrown(REVERSION);
    } else {
      ghost var start: Ctx;
      o, start := Begin(c, block);
      tale := tale.(started := o, opening := c.verdicts);
      if o.Returned? {
        BegunShape(r0, start);
        o, t := ApplyTransactions(c, block.transactions);
        tale := tale.(tried := o, middle := c.verdicts);
        ghost var after := c.Abs();
        if o.Returned? {
          o := Finish(c, block);
          if o.Reentered? {
            FinishLost(r0, start, after, c.Abs(), block, t, after == start);
          } else {
            if ApplyTransactionId in c.priced || block.transactions == [] {
              Finished(s0, r0, start, after, c.Abs(), block, t);
            }
            if ApplyTransactionId !in c.priced {
              FinishedUnpriced(s0, r0, start, c.Abs());
            }
          }
        }
      }
    }
  }

  /** The steps of a block before its transactions. */
  function OpeningPlan(block: Block): seq<Stage> {
    [Asked(HelperId(6))] + HeaderPlan(block)
  }

  /** How the opening of a block, and its transactions, came out, and how far the log was then. */
  datatype Tale = Tale(started: Outcome, opening: seq<Verdict>, tried: Outcome, middle: seq<Verdict>)

  /** How a block ends, by the steps it took: its opening, its transactions, and its closing. */
  ghost predicate BlockTold(a: seq<Verdict>, b: seq<Verdict>, block: Block, s: Tale, o: Outcome) {
    && Trail(a, s.opening, OpeningPlan(block), s.started)
    && if !s.started.Returned? then b == s.opening && o == s.started
       else && Tries(s.opening, s.middle, block.transactions, s.tried)
            && if s.tried.Returned? then Trail(s.middle, b, ClosingPlan, o) else b == s.middle && o == s.tried
  }

  /** Limits and header, up to the first transaction. */
  method Begin(c: ExecutionContext, block: Block) returns (o: Outcome, ghost start: Ctx)
    requires c.Valid() && Ready(c.Abs()) && c.intent.BlockApplication? && c.receipt.OfBlock?
    modifies c
    ensures c.stack == old(c.stack) && (!o.Reentered? ==> c.Valid()) && start == c.Abs()
    ensures o.Reentered? ==> !UserWorld(old(c.Abs()))
    ensures o.Returned? ==> Begun(old(c.Abs()), start)
    ensures o.Returned? ==> Get(c.node, HEAD_BLOCK) == Some(HeadBlock(block.height, block.timestamp))
    ensures o.Returned? ==> block.headerSize <= LedgerOf(start).sys.network
    ensures Trail(old(c.verdicts), c.verdicts, OpeningPlan(block), o)
  {
    hide Inv, Went, Begun, UserOnly, UserWorld, Calm, Grows, Ready, Intrudes, Get, Trail, HeaderPlan;
    ghost var r0, v0 := c.Abs(), c.verdicts;
    ReadyShape(r0);
    o := SetBlockLimits(c);
    ghost var v1, o1 := c.verdicts, o;
    if !o.Returned? {
      TrailStops(v0, v1, [Asked(HelperId(6))], HeaderPlan(block), o);
    } else {
      ghost var s1 := c.Abs();
      o := Prepare(c, block);
      TrailThen(v0, v1, c.verdicts, [Asked(HelperId(6))], HeaderPlan(block), o1, o);
      if o.Reentered? {
        WentStrode(s1, c.Abs(), iset{HEAD_BLOCK}, true, true);
        NotKept(s1, s1, c.Abs(), iset{HEAD_BLOCK}, true);
        if UserWorld(r0) {
          UserWorldIsUserOnly(r0, s1, true);
        }
      } else {
        Prepared(r0, s1, c.Abs());
        if o.Returned? {
          BegunLedger(r0, c.Abs());
          HeaderCharged(s1, c.Abs(), block.headerSize);
        }
      }
    }
    start := c.Abs();
  }

  lemma BegunLedger(r0: Ctx, start: Ctx)
    requires Begun(r0, start)
    ensures LedgerOf(start).all == NoUse
  {
  }

  /** What left the network counter before the first transaction is the system's use. */
  lemma HeaderCharged(a: Ctx, b: Ctx, size: i64)
    requires Inv(a) && Inv(b) && LedgerOf(a) == EmptyLedger && LedgerOf(b).all == NoUse
    requires Went(a, b, iset{HEAD_BLOCK}, true, false) && b.meter.network <= a.meter.network - size
    ensures size <= LedgerOf(b).sys.network
  {
    hide CacheOk, EventsOk, Replay, Holds, Audit, SessionBalanced, Calm, Safe, Intrudes, Continues;
    AuditIsSound(a.journal);
    AuditIsSound(b.journal);
  }

  lemma BegunShape(r0: Ctx, start: Ctx)
    requires Begun(r0, start)
    ensures Ready(start) && CanPost(start.intent, start.receipt) && start.intent == r0.intent && start.priced == r0.priced
    ensures UserWorld(r0) ==> UserWorld(start)
  {
    hide Ready, CanPost, Calm, Grows, UserWorld, UserOnly, Safe;
    if UserWorld(r0) {
      UserWorldIsUserOnly(r0, start, true);
    }
  }

  lemma FinishLost(r0: Ctx, start: Ctx, after: Ctx, b: Ctx, block: Block, t: Trace, same: bool)
    requires Begun(r0, start) && Went(after, b, iset{}, true, true)
    requires same ==> after == start
    requires !same ==> Progress(start, after, block.transactions, |block.transactions|, t)
    ensures !(UserTrxs(block.transactions) && UserWorld(r0))
  {
    hide Ready, CanPost, Calm, Grows, UserWorld, UserOnly, UserTrxs, Traced, Safe;
    NotKept(after, after, b, iset{}, true);
    if UserTrxs(block.transactions) && UserWorld(r0) {
      UserWorldIsUserOnly(r0, start, true);
      if !same {
        UserWorldIsUserOnly(start, after, true);
      }
    }
  }
}
