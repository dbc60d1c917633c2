/**
  Transaction application (libraries/chain/system_calls.cpp, apply_transaction) as a
  rollback machine over an execution context.
*/
module Apply {
  import opened Int64
  import opened Metering
  import opened MeterObjects
  import opened Journal
  import opened Receipts
  import opened State
  import opened Context
  import opened Execution
  import opened Verdicts

  datatype Operation = Operation(sid: Sid, args: Args)

  datatype Trx = Trx(id: string, payer: Id, payee: Id, nonce: Val, rcLimit: u64, size: i64,
                     operations: seq<Operation>)

  function EmptyReceipt(trx: Trx): Receipt {
    BlankReceipt(trx.id, trx.rcLimit)
  }

  /** The payee's nonce counts when a payee other than the payer is set. */
  function NonceAccount(trx: Trx): Id {
    if trx.payee != "" && trx.payee != trx.payer then trx.payee else trx.payer
  }

  predicate IsOperation(sid: Sid) {
    sid == UploadContractId || sid == CallContractId || sid == SetSystemCallId || sid == SetSystemContractId
  }

  /** The system objects an operation is about. */
  ghost function KeysOf(op: Operation): iset<Key> {
    if IsOperation(op.sid) then Direct(op.sid, op.args) else iset{}
  }

  ghost predicate Names(trx: Trx, k: Key) {
    exists i :: 0 <= i < |trx.operations| && k in KeysOf(trx.operations[i])
  }

  ghost function OpKeys(trx: Trx): iset<Key> {
    iset k: Key | Names(trx, k)
  }

  /** All system objects a transaction may change. */
  ghost function TrxKeys(trx: Trx): iset<Key> {
    OpKeys(trx) + iset{NonceKey(NonceAccount(trx))}
  }

  /** An operation that makes no contract a system contract. */
  predicate UserOp(op: Operation) {
    op.sid == SetSystemContractId ==> !op.args.flag
  }

  predicate UserTrx(trx: Trx) {
    forall i :: 0 <= i < |trx.operations| ==> UserOp(trx.operations[i])
  }

  /** How a transaction ended: all but Failed, and Committed, are reversions to the caller. */
  datatype End =
    | Committed  // operations applied, RC consumed
    | Reverted   // operations rolled back, RC consumed
    | Unsettled  // consuming the RC itself reverted
    | Refused    // not called by kernel code, or read only: nothing but a receipt
    | Failed     // the block dies with the transaction
    | Reentry    // kernel code re-entered; the model follows the run no further

  predicate Accepted(end: End) {
    end.Committed? || end.Reverted? || end.Unsettled?
  }

  /** The two system spaces no operation writes: nonces and chain metadata. */
  predicate Reserved(k: Key) {
    k.space == TRANSACTION_NONCE || k.space == METADATA
  }

  lemma OperationsAreNotReserved(trx: Trx, k: Key)
    requires Reserved(k)
    ensures k !in OpKeys(trx) && k.space.system
  {
    forall i | 0 <= i < |trx.operations|
      ensures k !in KeysOf(trx.operations[i])
    {
    }
  }

  /* ---- steps ---- */

  function SignedPlan(trx: Trx): seq<Stage> {
    [Assisted, Checked, Agreed(CheckAuthorityId, FAILURE)]
    + if trx.payee != "" && trx.payee != trx.payer then [Agreed(CheckAuthorityId, FAILURE)] else []
  }

  const NoncePlan: seq<Stage> := [Agreed(VerifyAccountNonceId, FAILURE), Asked(SetAccountNonceId)]

  /** The steps before the overlay exists. */
  function PreamblePlan(trx: Trx): seq<Stage> {
    [Covers(GetAccountRcId, trx.rcLimit)] + SignedPlan(trx) + NoncePlan
  }

  function OperationSteps(n: nat): seq<Stage> {
    seq(n, i requires 0 <= i < n => Performed(i))
  }

  /** The steps on the overlay. */
  function OperationsPlan(trx: Trx): seq<Stage> {
    [Asked(HelperId(2)), Charged(trx.size)] + OperationSteps(|trx.operations|) + [Asked(HelperId(3))]
  }

  /** A system call that is recorded as a step. */
  method Ask(c: ExecutionContext, ghost stage: Stage, sid: Sid, args: Args) returns (o: Outcome)
    requires c.Valid()
    modifies c
    ensures c.stack == old(c.stack) && (!o.Reentered? ==> c.Valid())
    ensures Served(old(c.Abs()), c.Abs(), Top(old(c.stack)), sid, args, o)
    ensures !o.Reentered? && UserOnly(old(c.Abs()), c.Abs()) && |c.stack| < STACK_LIMIT ==> Settles(old(c.Abs()), sid, o)
    ensures c.verdicts == old(c.verdicts) + [Verdict(stage, o)]
  {
    hide Inv, Served, Settles, UserOnly, Routed, ChargedOnce;
    o := c.SystemCall(sid, args);
    c.Record(stage, o);
  }

  /** The system calls of native helpers, as one step. */
  method Assist(c: ExecutionContext) returns (o: Outcome)
    requires c.Valid() && InThunk(c.stack)
    modifies c
    ensures c.stack == old(c.stack) && (!o.Reentered? ==> c.Valid())
    ensures Went(old(c.Abs()), c.Abs(), iset{}, true, o.Reentered?)
    ensures Trail(old(c.verdicts), c.verdicts, [Assisted], o)
  {
    hide Inv, Went, Trail;
    o := c.AnyHelpers();
    TrailOne(c.verdicts, Verdict(Assisted, o), o);
    c.Record(Assisted, o);
  }

  /** A comparison that fails the transaction or the block. */
  method Check(c: ExecutionContext) returns (o: Outcome)
    modifies c`verdicts
    ensures c.Abs() == old(c.Abs()) && (o == Done || o == Thrown(FAILURE))
    ensures Trail(old(c.verdicts), c.verdicts, [Checked], o)
  {
    hide Trail;
    var wellFormed: bool := *;
    o := if wellFormed then Done else Thrown(FAILURE);
    TrailOne(c.verdicts, Verdict(Checked, o), o);
    c.Record(Checked, o);
  }

  /** Network bandwidth, as a step. */
  method ChargeSize(c: ExecutionContext, bytes: i64) returns (o: Outcome)
    requires c.Valid()
    modifies c`meter, c`journal, c`verdicts
    ensures c.Valid() && OnlyMetered(old(c.Abs()), c.Abs()) && !o.Reentered?
    ensures o.Returned? ==> bytes >= 0 && c.meter.network == old(c.meter.network) - bytes
    ensures o.Thrown? ==> Denies(c.journal, |old(c.journal)|, o)
    ensures Trail(old(c.verdicts), c.verdicts, [Charged(bytes)], o)
  {
    hide Inv, Trail, OnlyMetered, Denies;
    o := c.ChargeNetwork(bytes);
    TrailOne(c.verdicts, Verdict(Charged(bytes), o), o);
    c.Record(Charged(bytes), o);
  }

  /** A system call that must answer yes, or else `code` is thrown. */
  method Demand(c: ExecutionContext, sid: Sid, args: Args, code: int) returns (o: Outcome)
    requires c.Valid()
    modifies c
    ensures c.stack == old(c.stack) && (!o.Reentered? ==> c.Valid())
    ensures o.Returned? ==> o.flag
    ensures Went(old(c.Abs()), c.Abs(), DirectOf(Top(old(c.stack)), sid, args), Keeps(old(c.node), Top(old(c.stack)), sid, args), o.Reentered?)
    ensures o.Returned? ==> Served(old(c.Abs()), c.Abs(), Top(old(c.stack)), sid, args, o)
    ensures !o.Reentered? && UserOnly(old(c.Abs()), c.Abs()) && |c.stack| < STACK_LIMIT && code == FAILURE ==>
              Settles(old(c.Abs()), sid, o)
    ensures !o.Reentered? && UserOnly(old(c.Abs()), c.Abs()) && Top(old(c.stack)).privilege == Kernel ==>
              Silent(old(c.Abs()), c.Abs(), sid)
    ensures Trail(old(c.verdicts), c.verdicts, [Agreed(sid, code)], o)
  {
    hide Inv, Went, UserOnly, Trail, DirectOf, Keeps, Answers;
    ghost var v := c.verdicts;
    o := Ask(c, Agreed(sid, code), sid, args);
    ghost var asked := o;
    if o.Returned? && !o.flag {
      o := Thrown(code);
    }
    TrailOne(v, Verdict(Agreed(sid, code), asked), o);
  }

  /* ---- the preamble ---- */

  /**
    Everything checked before the overlay exists. A reversion here is turned into a
    failure by the caller; what it wrote, the new nonce included, stays.
  */
  method Preamble(c: ExecutionContext, trx: Trx) returns (o: Outcome, payerRc: u64)
    requires c.Valid() && InThunk(c.stack)
    modifies c
    ensures c.stack == old(c.stack) && (!o.Reentered? ==> c.Valid())
    ensures Went(old(c.Abs()), c.Abs(), iset{NonceKey(NonceAccount(trx))}, true, o.Reentered?)
    ensures Trail(old(c.verdicts), c.verdicts, PreamblePlan(trx), o)
    ensures o.Returned? ==> payerRc >= trx.rcLimit
    ensures o.Returned? && UserOnly(old(c.Abs()), c.Abs()) ==>
              && Get(old(c.node), MAX_ACCOUNT_RESOURCES) == Some(MaxResources(payerRc))
              && Signed(trx, c.journal, |old(c.journal)|)
              && NonceFollows(old(c.node), NonceAccount(trx), trx.nonce)
              && Get(c.node, NonceKey(NonceAccount(trx))) == Some(trx.nonce)
  {
    hide Inv, Went, UserOnly, UserWorld, Get, Signed, Trail, SignedPlan, NoncePlan;
    ghost var s0, v0 := c.Abs(), c.verdicts;
    ghost var plan := [Covers(GetAccountRcId, trx.rcLimit)] + SignedPlan(trx);
    ghost var account := NonceAccount(trx);
    ghost var key := iset{NonceKey(account)};
    o, payerRc := CheckTransaction(c, trx);
    if o.Returned? {
      ghost var s1, v1 := c.Abs(), c.verdicts;
      ghost var o1 := o;
      o := AdvanceNonce(c, NonceAccount(trx), trx.nonce);
      TrailThen(v0, v1, c.verdicts, plan, NoncePlan, o1, o);
      WentThen(s0, s1, c.Abs(), iset{}, key, key, true, true, true, o.Reentered?);
      if UserOnly(s0, s1) {
        SystemFrame(s0, s1, iset{}, true, NonceKey(account));
        if !o.Reentered? {
          WentJournal(s1, c.Abs(), key, true);
          SignedStays(trx, s1.journal, c.journal, |s0.journal|, |s0.journal|);
        }
      }
    } else {
      WentMore(s0, c.Abs(), iset{}, key, true, true, o.Reentered?);
      TrailStops(v0, c.verdicts, plan, NoncePlan, o);
    }
  }

  /** The payer authorized the transaction, and so did a payee other than the payer. */
  ghost predicate Signed(trx: Trx, j: seq<MeterOp>, from: nat) {
    && Vouched(j, from, trx.payer, 1)
    && (trx.payee != "" && trx.payee != trx.payer ==> Vouched(j, from, trx.payee, 1))
  }

  lemma SignedStays(trx: Trx, j: seq<MeterOp>, j': seq<MeterOp>, from: nat, from': nat)
    requires Signed(trx, j, from) && j <= j' && from' <= from
    ensures Signed(trx, j', from')
  {
    hide Vouched;
    VouchedStays(j, j', from, from', trx.payer, 1);
    if trx.payee != "" && trx.payee != trx.payer {
      VouchedStays(j, j', from, from', trx.payee, 1);
    }
  }

  method CheckTransaction(c: ExecutionContext, trx: Trx) returns (o: Outcome, payerRc: u64)
    requires c.Valid() && InThunk(c.stack)
    modifies c
    ensures c.stack == old(c.stack) && (!o.Reentered? ==> c.Valid())
    ensures Went(old(c.Abs()), c.Abs(), iset{}, true, o.Reentered?)
    ensures Trail(old(c.verdicts), c.verdicts, [Covers(GetAccountRcId, trx.rcLimit)] + SignedPlan(trx), o)
    ensures o.Returned? ==> payerRc >= trx.rcLimit
    ensures o.Returned? && UserOnly(old(c.Abs()), c.Abs()) ==>
              && Get(old(c.node), MAX_ACCOUNT_RESOURCES) == Some(MaxResources(payerRc))
              && Signed(trx, c.journal, |old(c.journal)|)
  {
    hide Inv, Went, UserOnly, UserWorld, Get, Signed, Trail, SignedPlan;
    ghost var s0, v0 := c.Abs(), c.verdicts;
    ghost var first := [Covers(GetAccountRcId, trx.rcLimit)];
    payerRc := 0;
    o := Ask(c, Covers(GetAccountRcId, trx.rcLimit), GetAccountRcId, NoArgs.(id := trx.payer));
    ghost var s1, v1, asked := c.Abs(), c.verdicts, o;
    if o.Returned? {
      payerRc := o.number;
      if payerRc < trx.rcLimit {
        o := Thrown(FAILURE);
      }
    }
    TrailOne(v0, Verdict(Covers(GetAccountRcId, trx.rcLimit), asked), o);
    ghost var o1 := o;
    if o.Returned? {
      o := CheckSigned(c, trx);
      TrailThen(v0, v1, c.verdicts, first, SignedPlan(trx), o1, o);
      WentThen(s0, s1, c.Abs(), iset{}, iset{}, iset{}, true, true, true, o.Reentered?);
      if o.Returned? && UserOnly(s0, c.Abs()) {
        WentJournal(s0, s1, iset{}, true);
        SignedStays(trx, c.journal, c.journal, |s1.journal|, |s0.journal|);
      }
    } else {
      TrailStops(v0, v1, first, SignedPlan(trx), o);
    }
  }

  /** Chain id, transaction id, operation Merkle root and the authority of payer and payee. */
  method CheckSigned(c: ExecutionContext, trx: Trx) returns (o: Outcome)
    requires c.Valid() && InThunk(c.stack)
    modifies c
    ensures c.stack == old(c.stack) && (!o.Reentered? ==> c.Valid())
    ensures Went(old(c.Abs()), c.Abs(), iset{}, true, o.Reentered?)
    ensures Trail(old(c.verdicts), c.verdicts, SignedPlan(trx), o)
    ensures o.Returned? && UserOnly(old(c.Abs()), c.Abs()) ==> Signed(trx, c.journal, |old(c.journal)|)
  {
    hide Inv, Went, UserOnly, UserWorld, Signed, Trail;
    ghost var s0, v0 := c.Abs(), c.verdicts;
    o := Assist(c);
    ghost var s1, v1, o1 := c.Abs(), c.verdicts, o;
    if o.Returned? {
      o := Check(c);
      TrailThen(v0, v1, c.verdicts, [Assisted], [Checked], o1, o);
    } else {
      TrailStops(v0, v1, [Assisted], [Checked], o);
    }
    ghost var v2, o2 := c.verdicts, o;
    ghost var rest := SignedPlan(trx)[2..];
    assert SignedPlan(trx) == [Assisted] + [Checked] + rest;
    if o.Returned? {
      o := CheckAuthorities(c, trx);
      TrailThen(v0, v2, c.verdicts, [Assisted] + [Checked], rest, o2, o);
      WentThen(s0, s1, c.Abs(), iset{}, iset{}, iset{}, true, true, true, o.Reentered?);
      if o.Returned? && UserOnly(s0, c.Abs()) {
        WentJournal(s0, s1, iset{}, true);
        SignedStays(trx, c.journal, c.journal, |s1.journal|, |s0.journal|);
      }
    } else {
      TrailStops(v0, v2, [Assisted] + [Checked], rest, o);
    }
  }

  /** The payer's authority, and the payee's if its nonce counts. */
  method CheckAuthorities(c: ExecutionContext, trx: Trx) returns (o: Outcome)
    requires c.Valid() && InThunk(c.stack)
    modifies c
    ensures c.stack == old(c.stack) && (!o.Reentered? ==> c.Valid())
    ensures Went(old(c.Abs()), c.Abs(), iset{}, true, o.Reentered?)
    ensures Trail(old(c.verdicts), c.verdicts, SignedPlan(trx)[2..], o)
    ensures o.Returned? && UserOnly(old(c.Abs()), c.Abs()) ==> Signed(trx, c.journal, |old(c.journal)|)
  {
    hide Inv, Went, UserOnly, UserWorld, Vouched, Trail;
    ghost var s0, v0, one := c.Abs(), c.verdicts, [Agreed(CheckAuthorityId, FAILURE)];
    o := RequireAuthority(c, trx.payer);
    ghost var s1, v1, o1 := c.Abs(), c.verdicts, o;
    if NonceAccount(trx) != trx.payer {
      assert SignedPlan(trx)[2..] == one + one;
      if o.Returned? {
        o := RequireAuthority(c, trx.payee);
        TrailThen(v0, v1, c.verdicts, one, one, o1, o);
        WentThen(s0, s1, c.Abs(), iset{}, iset{}, iset{}, true, true, true, o.Reentered?);
        if o.Returned? && UserOnly(s0, c.Abs()) {
          WentJournal(s0, s1, iset{}, true);
          WentJournal(s1, c.Abs(), iset{}, true);
          VouchedStays(s1.journal, c.journal, |s0.journal|, |s0.journal|, trx.payer, 1);
          VouchedStays(c.journal, c.journal, |s1.journal|, |s0.journal|, trx.payee, 1);
        }
      } else {
        TrailStops(v0, v1, one, one, o);
      }
    } else {
      assert SignedPlan(trx)[2..] == one;
    }
  }

  method RequireAuthority(c: ExecutionContext, account: Id) returns (o: Outcome)
    requires c.Valid() && InThunk(c.stack)
    modifies c
    ensures c.stack == old(c.stack) && (!o.Reentered? ==> c.Valid())
    ensures Went(old(c.Abs()), c.Abs(), iset{}, true, o.Reentered?)
    ensures Trail(old(c.verdicts), c.verdicts, [Agreed(CheckAuthorityId, FAILURE)], o)
    ensures o.Returned? && UserOnly(old(c.Abs()), c.Abs()) ==> Vouched(c.journal, |old(c.journal)|, account, 1)
  {
    hide Inv, Went, UserOnly, Vouched, Trail;
    o := Demand(c, CheckAuthorityId, NoArgs.(id := account, entryPoint := 1), FAILURE);
  }

  method AdvanceNonce(c: ExecutionContext, account: Id, nonce: Val) returns (o: Outcome)
    requires c.Valid() && InThunk(c.stack)
    modifies c
    ensures c.stack == old(c.stack) && (!o.Reentered? ==> c.Valid())
    ensures Went(old(c.Abs()), c.Abs(), iset{NonceKey(account)}, true, o.Reentered?)
    ensures Trail(old(c.verdicts), c.verdicts, NoncePlan, o)
    ensures o.Returned? && UserOnly(old(c.Abs()), c.Abs()) ==>
              NonceFollows(old(c.node), account, nonce) && Get(c.node, NonceKey(account)) == Some(nonce)
  {
    hide Inv, Went, UserOnly, UserWorld, Get, Trail;
    ghost var s0, v0 := c.Abs(), c.verdicts;
    ghost var key := iset{NonceKey(account)};
    ghost var first, second := [Agreed(VerifyAccountNonceId, FAILURE)], [Asked(SetAccountNonceId)];
    assert NoncePlan == first + second;
    o := Demand(c, VerifyAccountNonceId, NoArgs.(id := account, value := nonce), FAILURE);
    ghost var v1, o1 := c.verdicts, o;
    if o.Returned? {
      ghost var s1 := c.Abs();
      o := Ask(c, Asked(SetAccountNonceId), SetAccountNonceId, NoArgs.(id := account, value := nonce));
      WentThen(s0, s1, c.Abs(), iset{}, key, key, true, true, true, o.Reentered?);
      TrailOne(v1, Verdict(Asked(SetAccountNonceId), o), o);
      TrailThen(v0, v1, c.verdicts, first, second, o1, o);
    } else {
      WentMore(s0, c.Abs(), iset{}, key, true, true, o.Reentered?);
      TrailStops(v0, v1, first, second, o);
    }
  }

  /* ---- the operations ---- */

  /** What an operation that was applied has left in the state. */
  predicate OpShown(op: Operation, n: Node) {
    match op.sid
    case UploadContractId => Get(n, BytecodeKey(op.args.id)) == Some(op.args.value)
    case SetSystemCallId => Get(n, DispatchKey(op.args.sid)) == Some(CallTarget(op.args.target))
    case SetSystemContractId => System(n, op.args.id) == op.args.flag
    case _ => true
  }

  /**
    The contracts of the call operations were launched at their entry points, in order,
    each as the first thing its operation launched, among the launches since `from`.
  */
  ghost predicate CallsRan(ops: seq<Operation>, launched: seq<Launch>, from: nat)
    decreases |ops|
  {
    if ops == [] then from <= |launched|
    else
      var op := ops[|ops| - 1];
      exists k: nat ::
        && k <= |launched| && CallsRan(ops[..|ops| - 1], launched[..k], from)
        && (op.sid == CallContractId ==>
              k < |launched| && launched[k] == Program(op.args.id, User, op.args.entryPoint))
  }

  /** Later launches change nothing. */
  lemma CallsStay(ops: seq<Operation>, launched: seq<Launch>, launched': seq<Launch>, from: nat)
    requires CallsRan(ops, launched, from) && launched <= launched'
    ensures CallsRan(ops, launched', from)
  {
    if ops != [] {
      var op := ops[|ops| - 1];
      var k: nat :| k <= |launched| && CallsRan(ops[..|ops| - 1], launched[..k], from)
        && (op.sid == CallContractId ==>
              k < |launched| && launched[k] == Program(op.args.id, User, op.args.entryPoint));
      assert launched'[..k] == launched[..k];
    }
  }

  /** One more operation. */
  lemma OneMoreCall(ops: seq<Operation>, op: Operation, a: Ctx, b: Ctx, from: nat)
    requires CallsRan(ops, a.launched, from) && a.launched <= b.launched
    requires op.sid == CallContractId ==> RanFirst(a, b, op.args.id, op.args.entryPoint)
    ensures CallsRan(ops + [op], b.launched, from)
  {
    assert (ops + [op])[..|ops|] == ops;
    assert b.launched[..|a.launched|] == a.launched;
  }

  /** An upload needs the contract's authority, a change to the system the genesis key's. */
  ghost predicate Warranted(op: Operation, j: seq<MeterOp>, from: nat) {
    match op.sid
    case UploadContractId => Vouched(j, from, op.args.id, 2)
    case SetSystemCallId | SetSystemContractId => Vouched(j, from, KERNEL_ZONE, SYSTEM_AUTHORITY)
    case _ => true
  }

  /** Since these lengths of the logs, the contracts of call operations ran, and the others were authorized. */
  ghost predicate OpsRan(ops: seq<Operation>, c: Ctx, launched: nat, journal: nat) {
    && CallsRan(ops, c.launched, launched)
    && forall i :: 0 <= i < |ops| ==> Warranted(ops[i], c.journal, journal)
  }

  lemma OpsRanStay(ops: seq<Operation>, b: Ctx, c: Ctx, l': nat, j': nat, l: nat, j: nat)
    requires OpsRan(ops, b, l', j') && b.launched <= c.launched && b.journal <= c.journal && l <= l' && j <= j'
    ensures OpsRan(ops, c, l, j)
  {
    hide CallsRan, Warranted;
    CallsStay(ops, b.launched, c.launched, l');
    CallsSince(ops, c.launched, l, l');
    forall i | 0 <= i < |ops|
      ensures Warranted(ops[i], c.journal, j)
    {
      WarrantedStays(ops[i], b.journal, c.journal, j', j);
    }
  }

  lemma WarrantedStays(op: Operation, j: seq<MeterOp>, j': seq<MeterOp>, from: nat, from': nat)
    requires Warranted(op, j, from) && j <= j' && from' <= from
    ensures Warranted(op, j', from')
  {
    hide Vouched;
    if op.sid == UploadContractId {
      VouchedStays(j, j', from, from', op.args.id, 2);
    } else if op.sid == SetSystemCallId || op.sid == SetSystemContractId {
      VouchedStays(j, j', from, from', KERNEL_ZONE, SYSTEM_AUTHORITY);
    }
  }

  /** One more operation. */
  lemma OneMoreRan(ops: seq<Operation>, op: Operation, a: Ctx, b: Ctx, launched: nat, journal: nat)
    requires OpsRan(ops, a, launched, journal) && a.launched <= b.launched && a.journal <= b.journal
    requires op.sid == CallContractId ==> RanFirst(a, b, op.args.id, op.args.entryPoint)
    requires Warranted(op, b.journal, |a.journal|) && journal <= |a.journal|
    ensures OpsRan(ops + [op], b, launched, journal)
  {
    hide CallsRan, Warranted;
    OneMoreCall(ops, op, a, b, launched);
    WarrantedStays(op, b.journal, b.journal, |a.journal|, journal);
    forall i | 0 <= i < |ops|
      ensures Warranted(ops[i], b.journal, journal)
    {
      WarrantedStays(ops[i], a.journal, b.journal, journal, journal);
    }
  }

  ghost predicate Apart(a: Operation, b: Operation) {
    forall k :: k in KeysOf(a) ==> k !in KeysOf(b)
  }

  /** No operation among the first `n` after the i-th is about the same objects. */
  ghost predicate Unshadowed(trx: Trx, i: nat, n: nat)
    requires i < n <= |trx.operations|
  {
    forall j {:trigger trx.operations[j]} :: i < j < n ==> Apart(trx.operations[i], trx.operations[j])
  }

  /** Each of the first `n` operations shows in the state, unless a later one is about the same objects. */
  ghost predicate Shown(trx: Trx, n: nat, node: Node)
    requires n <= |trx.operations|
  {
    forall i: nat {:trigger Unshadowed(trx, i, n)} :: i < n && Unshadowed(trx, i, n) ==> OpShown(trx.operations[i], node)
  }

  lemma OpShownFrame(op: Operation, n: Node, n': Node)
    requires OpShown(op, n) && forall k :: k in KeysOf(op) ==> Get(n', k) == Get(n, k)
    ensures OpShown(op, n')
  {
    assert op.sid == UploadContractId ==> BytecodeKey(op.args.id) in KeysOf(op);
    assert op.sid == SetSystemCallId ==> DispatchKey(op.args.sid) in KeysOf(op);
    assert op.sid == SetSystemContractId ==> MetaKey(op.args.id) in KeysOf(op);
    hide Get;
  }

  lemma OpKeysAreSystem(op: Operation, k: Key)
    requires k in KeysOf(op)
    ensures k.space.system
  {
  }

  /** What the operations left stays if system objects do. */
  lemma ShownFrame(trx: Trx, n: nat, node: Node, node': Node)
    requires n <= |trx.operations| && Shown(trx, n, node)
    requires forall k: Key :: k.space.system ==> Get(node', k) == Get(node, k)
    ensures Shown(trx, n, node')
  {
    hide Get, Unshadowed, OpShown;
    forall i: nat | i < n && Unshadowed(trx, i, n)
      ensures OpShown(trx.operations[i], node')
    {
      forall k | k in KeysOf(trx.operations[i])
        ensures Get(node', k) == Get(node, k)
      {
        OpKeysAreSystem(trx.operations[i], k);
      }
      OpShownFrame(trx.operations[i], node, node');
    }
  }

  /** Everything the operations of a transaction have done, callbacks included. */
  ghost predicate OpsDone(a: Ctx, b: Ctx, trx: Trx) {
    Shown(trx, |trx.operations|, b.node) && OpsRan(trx.operations, b, |a.launched|, |a.journal|)
  }

  method Operations(c: ExecutionContext, trx: Trx) returns (o: Outcome)
    requires c.Valid() && InThunk(c.stack)
    modifies c
    ensures c.stack == old(c.stack) && (!o.Reentered? ==> c.Valid())
    ensures Went(old(c.Abs()), c.Abs(), OpKeys(trx), UserTrx(trx), o.Reentered?)
    ensures Trail(old(c.verdicts), c.verdicts, OperationsPlan(trx), o)
    ensures o.Returned? ==> c.meter.network <= old(c.meter.network) - trx.size
    ensures o.Returned? && UserOnly(old(c.Abs()), c.Abs()) ==> OpsDone(old(c.Abs()), c.Abs(), trx)
  {
    hide Inv, Went, UserOnly, UserWorld, OnlyMetered, OpKeys, UserTrx, OpsDone, Trail, Denies, OperationSteps;
    ghost var s0, keys, user := c.Abs(), OpKeys(trx), UserTrx(trx);
    ghost var v0, first, rest := c.verdicts, [Asked(HelperId(2)), Charged(trx.size)], OperationSteps(|trx.operations|) + [Asked(HelperId(3))];
    assert OperationsPlan(trx) == first + rest;
    o := BeforeOperations(c, trx);
    WentMore(s0, c.Abs(), iset{}, keys, true, user, o.Reentered?);
    ghost var s1, v1, o1 := c.Abs(), c.verdicts, o;
    if o.Returned? {
      o := ApplyAll(c, trx);
      ghost var s2, v2, o2 := c.Abs(), c.verdicts, o;
      WentThen(s0, s1, s2, keys, keys, keys, user, user, user, o.Reentered?);
      if o.Returned? {
        o := Ask(c, Asked(HelperId(3)), HelperId(3), NoArgs);  // post_transaction_callback
        TrailOne(v2, Verdict(Asked(HelperId(3)), o), o);
        TrailThen(v1, v2, c.verdicts, OperationSteps(|trx.operations|), [Asked(HelperId(3))], o2, o);
        WentThen(s0, s2, c.Abs(), keys, iset{}, keys, user, true, user, o.Reentered?);
        if o.Returned? {
          NetworkFalls(s1, s2, keys, user);
          NetworkFalls(s2, c.Abs(), iset{}, true);
          if UserOnly(s0, c.Abs()) {
            OpsStayDone(s0, s1, s2, c.Abs(), trx);
          }
        }
      } else {
        TrailStops(v1, v2, OperationSteps(|trx.operations|), [Asked(HelperId(3))], o);
      }
      TrailThen(v0, v1, c.verdicts, first, rest, o1, o);
    } else {
      TrailStops(v0, v1, first, rest, o);
    }
  }

  lemma NetworkFalls(a: Ctx, b: Ctx, d: iset<Key>, k: bool)
    requires Went(a, b, d, k, false)
    ensures b.meter.network <= a.meter.network
  {
    hide Inv, Calm, Safe, Continues, Intrudes;
  }

  /** The callbacks run no operation and change no system object. */
  lemma OpsStayDone(a: Ctx, b: Ctx, c: Ctx, d: Ctx, trx: Trx)
    requires Inv(b) && Inv(c) && Went(a, b, iset{}, true, false) && OpsDone(b, c, trx)
    requires Went(c, d, iset{}, true, false) && UserOnly(c, d)
    ensures OpsDone(a, d, trx)
  {
    hide Inv, Went, UserOnly, Get, Shown, OpsRan;
    WentLaunches(a, b, iset{}, true);
    WentLaunches(c, d, iset{}, true);
    WentJournal(a, b, iset{}, true);
    WentJournal(c, d, iset{}, true);
    QuietKeepsSystem(c, d);
    ShownFrame(trx, |trx.operations|, c.node, d.node);
    OpsRanStay(trx.operations, c, d, |b.launched|, |b.journal|, |a.launched|, |a.journal|);
  }

  lemma {:induction false} CallsSince(ops: seq<Operation>, launched: seq<Launch>, from: nat, from': nat)
    requires CallsRan(ops, launched, from') && from <= from'
    ensures CallsRan(ops, launched, from)
    decreases |ops|
  {
    if ops != [] {
      var op := ops[|ops| - 1];
      var k: nat :| k <= |launched| && CallsRan(ops[..|ops| - 1], launched[..k], from')
        && (op.sid == CallContractId ==>
              k < |launched| && launched[k] == Program(op.args.id, User, op.args.entryPoint));
      CallsSince(ops[..|ops| - 1], launched[..k], from, from');
    }
  }

  /** The transaction callback, and the transaction's size as network bandwidth. */
  method BeforeOperations(c: ExecutionContext, trx: Trx) returns (o: Outcome)
    requires c.Valid() && InThunk(c.stack)
    modifies c
    ensures c.stack == old(c.stack) && (!o.Reentered? ==> c.Valid())
    ensures Went(old(c.Abs()), c.Abs(), iset{}, true, o.Reentered?)
    ensures Trail(old(c.verdicts), c.verdicts, [Asked(HelperId(2)), Charged(trx.size)], o)
    ensures o.Returned? ==> c.meter.network <= old(c.meter.network) - trx.size
  {
    hide Inv, Went, UserOnly, UserWorld, OnlyMetered, Trail, Denies;
    ghost var s0, v0, first, second := c.Abs(), c.verdicts, [Asked(HelperId(2))], [Charged(trx.size)];
    assert [Asked(HelperId(2)), Charged(trx.size)] == first + second;
    o := Ask(c, Asked(HelperId(2)), HelperId(2), NoArgs);  // pre_transaction_callback
    ghost var s1, v1, o1 := c.Abs(), c.verdicts, o;
    TrailOne(v0, Verdict(Asked(HelperId(2)), o), o);
    if o.Returned? {
      NetworkFalls(s0, s1, iset{}, true);
      o := ChargeSize(c, trx.size);
      MeteredWent(s1, c.Abs(), iset{}, true);
      MeteredIsStep(s1, c.Abs());
      StepShape(s1, c.Abs());
      WentThen(s0, s1, c.Abs(), iset{}, iset{}, iset{}, true, true, true, false);
      TrailThen(v0, v1, c.verdicts, first, second, o1, o);
    } else {
      TrailStops(v0, v1, first, second, o);
    }
  }

  /** User-only execution that names no system object changes none. */
  lemma QuietKeepsSystem(a: Ctx, b: Ctx)
    requires Inv(a) && Went(a, b, iset{}, true, false) && UserOnly(a, b)
    ensures forall k: Key :: k.space.system ==> Get(b.node, k) == Get(a.node, k)
  {
    hide Inv, Went, UserOnly, Get;
    forall k: Key | k.space.system
      ensures Get(b.node, k) == Get(a.node, k)
    {
      SystemFrame(a, b, iset{}, true, k);
    }
  }

  method ApplyAll(c: ExecutionContext, trx: Trx) returns (o: Outcome)
    requires c.Valid() && InThunk(c.stack)
    modifies c
    ensures c.stack == old(c.stack) && (!o.Reentered? ==> c.Valid())
    ensures Went(old(c.Abs()), c.Abs(), OpKeys(trx), UserTrx(trx), o.Reentered?)
    ensures Trail(old(c.verdicts), c.verdicts, OperationSteps(|trx.operations|), o)
    ensures o.Returned? && UserOnly(old(c.Abs()), c.Abs()) ==> OpsDone(old(c.Abs()), c.Abs(), trx)
  {
    hide Inv, Went, Step, UserOnly, UserWorld, Shown, OpShown, OpsRan, Warranted, Trail, OpKeys, UserTrx, OperationSteps;
    ghost var s0, keys, user, v0 := c.Abs(), OpKeys(trx), UserTrx(trx), c.verdicts;
    StepRefl(s0);
    IdleWent(s0, s0, keys, user);
    NothingShown(trx, c.node);
    NothingCalled(s0);
    o := Done;
    NoTrail(v0, o);
    NoSteps();
    var i := 0;
    while i < |trx.operations| && o.Returned?
      invariant 0 <= i <= |trx.operations|
      invariant c.stack == s0.stack && (!o.Reentered? ==> c.Valid())
      invariant Went(s0, c.Abs(), keys, user, o.Reentered?)
      invariant Trail(v0, c.verdicts, OperationSteps(i), o)
      invariant o.Returned? && UserOnly(s0, c.Abs()) ==>
                  Shown(trx, i, c.node) && OpsRan(trx.operations[..i], c.Abs(), |s0.launched|, |s0.journal|)
    {
      ghost var s1, op, v1, o1 := c.Abs(), trx.operations[i], c.verdicts, o;
      o := ApplyOperation(c, trx.operations[i], i);
      OperationNamed(trx, i);
      WentThen(s0, s1, c.Abs(), keys, KeysOf(op), keys, user, UserOp(op), user, o.Reentered?);
      TrailThen(v0, v1, c.verdicts, OperationSteps(i), [Performed(i)], o1, o);
      OneMoreStep(i);
      if o.Returned? && UserOnly(s0, c.Abs()) {
        OneMoreShown(trx, i, s1, c.Abs());
        WentLaunches(s1, c.Abs(), KeysOf(op), UserOp(op));
        WentJournal(s0, s1, keys, user);
        WentJournal(s1, c.Abs(), KeysOf(op), UserOp(op));
        OneMoreRan(trx.operations[..i], op, s1, c.Abs(), |s0.launched|, |s0.journal|);
        assert trx.operations[..i] + [op] == trx.operations[..i + 1];
      }
      i := i + 1;
    }
    if o.Returned? {
      assert trx.operations[..i] == trx.operations;
    } else {
      StepsSplit(i, |trx.operations|);
      TrailStops(v0, c.verdicts, OperationSteps(i), OperationSteps(|trx.operations|)[i..], o);
    }
  }

  lemma NoSteps()
    ensures OperationSteps(0) == []
  {
  }

  lemma OneMoreStep(i: nat)
    ensures OperationSteps(i) + [Performed(i)] == OperationSteps(i + 1)
  {
  }

  lemma StepsSplit(i: nat, n: nat)
    requires i <= n
    ensures |OperationSteps(n)| == n && OperationSteps(i) + OperationSteps(n)[i..] == OperationSteps(n)
  {
  }

  lemma OperationNamed(trx: Trx, i: nat)
    requires i < |trx.operations|
    ensures KeysOf(trx.operations[i]) <= OpKeys(trx) && (UserTrx(trx) ==> UserOp(trx.operations[i]))
  {
    hide KeysOf;
    assert forall k :: k in KeysOf(trx.operations[i]) ==> Names(trx, k);
  }

  lemma NothingCalled(c: Ctx)
    ensures OpsRan([], c, |c.launched|, |c.journal|)
  {
  }

  lemma NothingShown(trx: Trx, n: Node)
    ensures Shown(trx, 0, n)
  {
  }

  lemma OneMoreShown(trx: Trx, i: nat, a: Ctx, b: Ctx)
    requires i < |trx.operations| && Inv(a) && Shown(trx, i, a.node) && OpShown(trx.operations[i], b.node)
    requires Went(a, b, KeysOf(trx.operations[i]), UserOp(trx.operations[i]), false) && UserOnly(a, b)
    ensures Shown(trx, i + 1, b.node)
  {
    hide Inv, Went, UserOnly, Get, OpShown;
    var op := trx.operations[i];
    forall j: nat | j < i + 1 && Unshadowed(trx, j, i + 1)
      ensures OpShown(trx.operations[j], b.node)
    {
      if j < i {
        assert Unshadowed(trx, j, i);
        assert Apart(trx.operations[j], op);
        forall k | k in KeysOf(trx.operations[j])
          ensures Get(b.node, k) == Get(a.node, k)
        {
          OpKeysAreSystem(trx.operations[j], k);
          SystemFrame(a, b, KeysOf(op), UserOp(op), k);
        }
        OpShownFrame(trx.operations[j], a.node, b.node);
      }
    }
  }

  /** The i-th operation. A call operation that returns has run its contract, and the contract ended well. */
  method ApplyOperation(c: ExecutionContext, op: Operation, ghost i: nat) returns (o: Outcome)
    requires c.Valid() && InThunk(c.stack)
    modifies c
    ensures c.stack == old(c.stack) && (!o.Reentered? ==> c.Valid())
    ensures Went(old(c.Abs()), c.Abs(), KeysOf(op), UserOp(op), o.Reentered?)
    ensures Trail(old(c.verdicts), c.verdicts, [Performed(i)], o)
    ensures o.Returned? && UserOnly(old(c.Abs()), c.Abs()) ==> OpShown(op, c.node)
    ensures o.Returned? && UserOnly(old(c.Abs()), c.Abs()) && op.sid == CallContractId ==>
              RanFirst(old(c.Abs()), c.Abs(), op.args.id, op.args.entryPoint) && EndedWell(c.journal)
    ensures o.Returned? && UserOnly(old(c.Abs()), c.Abs()) ==> Warranted(op, c.journal, |old(c.journal)|)
    ensures o.Thrown? && UserOnly(old(c.Abs()), c.Abs()) && old(c.parent).Some? && op.sid == CallContractId ==>
              Excused(CallContractId, op.args, old(c.Abs()), c.Abs(), Top(c.stack), o)
    ensures !IsOperation(op.sid) ==> o == Thrown(REVERSION) && c.Abs() == old(c.Abs())
  {
    hide Inv, Went, Step, UserOnly, Get, Trail, RanFirst, EndedWell, Vouched, Excused;
    ghost var s0, v0 := c.Abs(), c.verdicts;
    if IsOperation(op.sid) {
      o := Ask(c, Performed(i), op.sid, op.args);
    } else {
      o := Thrown(REVERSION);
      StepRefl(s0);
      IdleWent(s0, s0, iset{}, UserOp(op));
      c.Record(Performed(i), o);
    }
    TrailOne(v0, Verdict(Performed(i), o), o);
  }

  /* ---- the overlay ---- */

  /** A fork, writes, and its end. */
  ghost predicate Overlaid(h: seq<Deed>, h': seq<Deed>, reverted: bool) {
    var n := |h'| - 1;
    && |h| < n && h <= h' && h'[|h|] == Forked && h'[n] == (if reverted then Dropped else Merged)
    && forall i {:trigger h'[i]} :: |h| < i < n ==> h'[i].Wrote?
  }

  /**
    The operations run on an anonymous node over the block node, which is merged or
    dropped; either way execution continues on the block node. A failure leaves the
    context on the anonymous node.
  */
  method RunOverlay(c: ExecutionContext, trx: Trx) returns (o: Outcome)
    requires c.Valid() && InThunk(c.stack) && !c.intent.ReadOnly?
    requires c.node.Over? && c.parent == ParentOf(c.node)
    modifies c
    ensures c.stack == old(c.stack) && (!o.Reentered? ==> c.Valid())
    ensures o.Reentered? || GoesOn(o) ==> Strode(old(c.Abs()), c.Abs(), OpKeys(trx), UserTrx(trx), o.Reentered?)
    ensures GoesOn(o) ==> Overlaid(old(c.history), c.history, o.Thrown?)
    ensures GoesOn(o) && o.Thrown? ==> c.node == old(c.node)
    ensures !o.Reentered? ==> Intrudes(old(c.posts), c.posts)
    ensures Trail(old(c.verdicts), c.verdicts, OperationsPlan(trx), o)
    ensures o.Returned? ==> c.meter.network <= old(c.meter.network) - trx.size
    ensures o.Returned? && UserOnly(old(c.Abs()), c.Abs()) ==> OpsDone(old(c.Abs()), c.Abs(), trx)
  {
    hide Inv, Went, Strode, UserWorld, UserOnly, OpKeys, UserTrx, Commit, Shown, OpsRan, Overlaid, Step, Get, Trail, Intrudes;
    ghost var s0, keys, user := c.Abs(), OpKeys(trx), UserTrx(trx);
    var block := c.node;
    ghost var s1 := Turned(s0, Anonymous(block), Forked);
    AnonymousIsSame(block);
    TurnStrode(s0, s1.node, Forked, keys, user);
    StrodeParts(s0, s1, keys, user);
    c.SetStateNode(Anonymous(block), ParentOf(block), Forked);
    o := Operations(c, trx);
    ghost var s2 := c.Abs();
    WentStrode(s1, s2, keys, user, o.Reentered?);
    StrodeThen(s0, s1, s2, keys, keys, keys, user, user, user, o.Reentered?);
    if !o.Reentered? {
      WentSteps(s1, s2, keys, user);
      ForkShape(s0, s2);
      StepShape(s1, s2);
    }
    if o.Returned? {
      CommitIsSame(s2.node);
      TurnStrode(s2, Commit(s2.node), Merged, keys, user);
      StrodeThen(s0, s2, Turned(s2, Commit(s2.node), Merged), keys, keys, keys, user, user, user, false);
      OverlayEnds(s0.history, s2.history, false);
      if UserOnly(s1, s2) {
        ShownFrame(trx, |trx.operations|, s2.node, Commit(s2.node));
        OpsRanStay(trx.operations, s2, Turned(s2, Commit(s2.node), Merged), |s0.launched|, |s0.journal|, |s0.launched|, |s0.journal|);
      }
      CommitParent(s2.node);
      c.SetStateNode(Commit(c.node), None, Merged);
      StrodeParts(s0, c.Abs(), keys, user);
    } else if o.Thrown? && o.code > 0 {
      DropStrode(s0, s2, keys, user);
      OverlayEnds(s0.history, s2.history, true);
      c.SetStateNode(block, None, Dropped);
      StrodeParts(s0, c.Abs(), keys, user);
    }
  }

  lemma AnonymousIsSame(n: Node)
    ensures forall k :: Get(Anonymous(n), k) == Get(n, k)
  {
  }

  lemma CommitIsSame(n: Node)
    requires n.Over? && n.parent.Over?
    ensures forall k :: Get(Commit(n), k) == Get(n, k)
    ensures Commit(n) == Redo(n, Merged)
  {
  }

  lemma CommitParent(n: Node)
    requires n.Over? && n.parent.Over?
    ensures ParentOf(Commit(n)) == ParentOf(n.parent)
  {
  }

  lemma OverlayEnds(h: seq<Deed>, h': seq<Deed>, reverted: bool)
    requires h + [Forked] <= h' && OnlyWrote(h', |h| + 1)
    ensures Overlaid(h, h' + [if reverted then Dropped else Merged], reverted)
  {
    assert (h + [Forked])[|h|] == Forked;
  }

  /** The nonce of the transaction's account advanced to the transaction's; no other nonce or metadata moved. */
  ghost predicate NonceStep(a: Node, b: Node, account: Id, nonce: Val) {
    && NonceFollows(a, account, nonce)
    && Get(b, NonceKey(account)) == Some(nonce)
    && forall k: Key :: Reserved(k) && k != NonceKey(account) ==> Get(b, k) == Get(a, k)
  }

  /** Of the system objects only the nonce was written. */
  ghost predicate OnlyNonce(a: Node, b: Node, account: Id) {
    forall k: Key :: k.space.system && k != NonceKey(account) ==> Get(b, k) == Get(a, k)
  }

  /**
    What user-only execution of a transaction leaves in the state: the next nonce; no
    trace of the operations in any system object if it was reverted, and every trace of
    them if it was not.
  */
  ghost predicate Leaves(a: Node, b: Node, trx: Trx, reverted: bool) {
    && NonceStep(a, b, if trx.payee != "" && trx.payee != trx.payer then trx.payee else trx.payer, trx.nonce)
    && if reverted then OnlyNonce(a, b, NonceAccount(trx)) else Shown(trx, |trx.operations|, b)
  }

  /** How the preamble came out and how far the log was then, the same of the operations, and how RC consumption did. */
  datatype Story = Story(checked: Outcome, checks: seq<Verdict>, applied: Outcome, steps: seq<Verdict>, paid: Outcome)

  /** The operations follow a preamble that passes; of one that does not, a reversion becomes a failure. */
  ghost predicate Tried(a: seq<Verdict>, trx: Trx, s: Story) {
    && Trail(a, s.checks, PreamblePlan(trx), s.checked)
    && if s.checked.Returned? then Trail(s.checks, s.steps, OperationsPlan(trx), s.applied)
       else s.steps == s.checks && s.applied == if s.checked.Thrown? && s.checked.code > 0 then Thrown(FAILURE) else s.checked
  }

  /** Preamble and operations, while the payer's session is live. A reversion in the preamble is a failure. */
  method UnderSession(c: ExecutionContext, trx: Trx) returns (o: Outcome, payerRc: u64, ghost story: Story)
    requires c.Valid() && InThunk(c.stack) && !c.intent.ReadOnly?
    requires c.node.Over? && c.parent == ParentOf(c.node)
    modifies c
    ensures c.stack == old(c.stack) && (!o.Reentered? ==> c.Valid())
    ensures o.Reentered? || GoesOn(o) ==> Strode(old(c.Abs()), c.Abs(), TrxKeys(trx), UserTrx(trx), o.Reentered?)
    ensures GoesOn(o) ==> TrxDeeds(c.history, |old(c.history)|, o.Thrown?) && payerRc >= trx.rcLimit
    ensures Tried(old(c.verdicts), trx, story) && story.applied == o && story.steps == c.verdicts
    ensures !o.Reentered? ==> Intrudes(old(c.posts), c.posts)
    ensures o.Returned? ==> c.meter.network <= old(c.meter.network) - trx.size
    ensures o.Returned? && UserOnly(old(c.Abs()), c.Abs()) ==>
              OpsRan(trx.operations, c.Abs(), |old(c.launched)|, |old(c.journal)|)
    ensures GoesOn(o) && UserOnly(old(c.Abs()), c.Abs()) ==>
              && Signed(trx, c.journal, |old(c.journal)|)
              && Leaves(old(c.node), c.node, trx, o.Thrown?)
              && Get(old(c.node), MAX_ACCOUNT_RESOURCES) == Some(MaxResources(payerRc))
  {
    hide Inv, Went, Strode, Step, UserOnly, UserWorld, OpKeys, UserTrx, Leaves, TrxDeeds, Overlaid, OpsDone, OpsRan, Get, Signed;
    hide Trail, PreamblePlan, OperationsPlan, Intrudes;
    ghost var s0, key, user := c.Abs(), iset{NonceKey(NonceAccount(trx))}, UserTrx(trx);
    o, payerRc := Preamble(c, trx);
    ghost var pre, checked, checks := c.Abs(), o, c.verdicts;
    WentStrode(s0, pre, key, true, o.Reentered?);
    if !o.Reentered? {
      WentPosts(s0, pre, key);
    }
    if !o.Returned? {
      StrodeMore(s0, pre, key, TrxKeys(trx), true, user, o.Reentered?);
      o := if o.Thrown? && o.code > 0 then Thrown(FAILURE) else o;
    } else {
      PreambleShape(s0, pre, key);
      o := RunOverlay(c, trx);
      if !o.Reentered? {
        IntrudesTrans(s0.posts, pre.posts, c.posts);
      }
      if o.Reentered? || GoesOn(o) {
        StrodeThen(s0, pre, c.Abs(), key, OpKeys(trx), TrxKeys(trx), true, user, user, o.Reentered?);
        if GoesOn(o) {
          DeedsOfTrx(s0, pre, c.Abs(), key, o.Thrown?);
          if UserOnly(s0, c.Abs()) {
            TrxIsLeft(s0, pre, c.Abs(), trx, user, o.Thrown?);
            StrodeJournal(pre, c.Abs(), OpKeys(trx), user);
            SignedStays(trx, pre.journal, c.journal, |s0.journal|, |s0.journal|);
          }
        }
      }
    }
    story := Story(checked, checks, o, c.verdicts, Done);
  }

  lemma WentPosts(a: Ctx, b: Ctx, d: iset<Key>)
    requires Went(a, b, d, true, false)
    ensures Intrudes(a.posts, b.posts) && b.meter.network <= a.meter.network && a.launched <= b.launched
  {
    hide Inv, Calm, Safe, Intrudes;
  }

  lemma StrodeJournal(a: Ctx, b: Ctx, d: iset<Key>, k: bool)
    requires Strode(a, b, d, k, false)
    ensures a.journal <= b.journal
  {
    hide Inv, Calm, Grows, Safe;
  }

  lemma PreambleShape(a: Ctx, b: Ctx, key: iset<Key>)
    requires Inv(a) && Went(a, b, key, true, false) && a.node.Over? && a.parent == ParentOf(a.node)
    ensures b.node.Over? && b.parent == ParentOf(b.node) && b.intent == a.intent
  {
    hide Audit, Holds, CacheOk, EventsOk, Calm, Safe;
    var w := b.history[|a.history|..];
    assert b.history == a.history + w && OnlyWrote(w, 0);
    ReplayConcat(a.origin, a.history, w);
    WritesKeepShape(a.node, w);
  }

  lemma DeedsOfTrx(a: Ctx, pre: Ctx, b: Ctx, key: iset<Key>, reverted: bool)
    requires Went(a, pre, key, true, false) && Overlaid(pre.history, b.history, reverted)
    ensures TrxDeeds(b.history, |a.history|, reverted)
  {
    hide Inv, Calm, Safe;
    var h, f, m := b.history, |pre.history|, |b.history| - 1;
    assert forall i :: 0 <= i < f ==> h[i] == pre.history[i];
    TurnsMakeTrx(h, |a.history|, f, m, reverted);
  }

  /** Writes after the fork's end belong to the same transaction. */
  lemma DeedsExtend(h: seq<Deed>, h': seq<Deed>, from: nat, reverted: bool)
    requires TrxDeeds(h, from, reverted) && h <= h' && OnlyWrote(h', |h|)
    ensures TrxDeeds(h', from, reverted)
  {
    hide TrxDeeds, FirstTurn;
    TurnsOfTrx(h, from, reverted);
    var f := FirstTurn(h, from);
    var m := FirstTurn(h, f + 1);
    assert TurnsAt(h', from, f, m, reverted);
    TurnsMakeTrx(h', from, f, m, reverted);
  }

  lemma TrxIsLeft(a: Ctx, pre: Ctx, b: Ctx, trx: Trx, user: bool, reverted: bool)
    requires Inv(a) && Went(a, pre, iset{NonceKey(NonceAccount(trx))}, true, false) && Inv(pre)
    requires Strode(pre, b, OpKeys(trx), user, false) && UserOnly(a, pre) && UserOnly(pre, b)
    requires NonceFollows(a.node, NonceAccount(trx), trx.nonce)
    requires Get(pre.node, NonceKey(NonceAccount(trx))) == Some(trx.nonce)
    requires if reverted then b.node == pre.node else OpsDone(pre, b, trx)
    ensures Leaves(a.node, b.node, trx, reverted)
    ensures !reverted ==> OpsRan(trx.operations, b, |a.launched|, |a.journal|)
  {
    hide Inv, Went, Shown, OpsRan, UserOnly, Get;
    WentPosts(a, pre, iset{NonceKey(NonceAccount(trx))});
    if !reverted {
      WentJournal(a, pre, iset{NonceKey(NonceAccount(trx))}, true);
      OpsRanStay(trx.operations, b, b, |pre.launched|, |pre.journal|, |a.launched|, |a.journal|);
    }
    NonceAdvances(a, pre, b, trx, user);
    if reverted {
      var key := NonceKey(NonceAccount(trx));
      forall k: Key | k.space.system && k != key
        ensures Get(b.node, k) == Get(a.node, k)
      {
        SystemFrame(a, pre, iset{key}, true, k);
      }
    }
  }

  lemma NonceAdvances(a: Ctx, pre: Ctx, b: Ctx, trx: Trx, user: bool)
    requires Inv(a) && Went(a, pre, iset{NonceKey(NonceAccount(trx))}, true, false)
    requires Strode(pre, b, OpKeys(trx), user, false) && UserOnly(a, pre) && UserOnly(pre, b)
    requires NonceFollows(a.node, NonceAccount(trx), trx.nonce)
    requires Get(pre.node, NonceKey(NonceAccount(trx))) == Some(trx.nonce)
    ensures NonceStep(a.node, b.node, NonceAccount(trx), trx.nonce)
  {
    hide Inv, Went, UserOnly, Get, Calm, Grows;
    var key := NonceKey(NonceAccount(trx));
    StrodeParts(pre, b, OpKeys(trx), user);
    forall k: Key | Reserved(k)
      ensures Get(b.node, k) == Get(pre.node, k)
      ensures k != key ==> Get(pre.node, k) == Get(a.node, k)
    {
      OperationsAreNotReserved(trx, k);
      ZoneIsolation(pre, b, OpKeys(trx), k);
      if k != key {
        SystemFrame(a, pre, iset{key}, true, k);
      }
    }
  }

  /* ---- the receipt ---- */

  function LedgerOf(c: Ctx): Ledger {
    BooksOf(c).ledger
  }

  /** By how much refunds have lifted the disk counter above its limit. */
  function Excess(m: Meter): nat {
    Max(m.disk - m.limits.disk, 0)
  }

  /** What a receipt's disk figure misses because the readings at open and close clamp at zero. */
  function Clamp(j: seq<MeterOp>, from: nat): int
    requires from <= |j|
  {
    Excess(AtClose(j, from).meter) - Excess(AtOpen(j, from).meter)
  }

  /** A receipt lists the events emitted under the session, or none after a reversion. */
  ghost predicate ReportsEvents(from: nat, to: nat, events: seq<Entry>, receipt: Receipt) {
    && from <= to <= |events|
    && if receipt.reverted then receipt.events == []
       else |receipt.events| == to - from
            && forall i :: 0 <= i < to - from ==> receipt.events[i] == events[from + i].event
  }

  /**
    The receipt of the transaction whose session was opened at `from` of the journal: it
    reports what was charged while that session was live, disk exactly if both readings
    clamp alike; the price of that within the limit the payer can cover, as long as the
    session counter is exact; and the events emitted until the session closed.
  */
  ghost predicate Reports(j: seq<MeterOp>, from: nat, events: seq<Entry>, trx: Trx, r: Receipt)
    requires from <= |j|
  {
    var x, y := AtOpen(j, from), AtClose(j, from);
    var use := y.ledger.cur;
    && r.id == trx.id && r.rcLimit == trx.rcLimit <= r.maxPayerRc
    && r.compute == use.compute && r.network == use.network
    && r.disk == ToU64(use.disk + Clamp(j, from)) && (r.disk == ToU64(use.disk) <==> Clamp(j, from) == 0)
    && (y.ledger.exact ==> r.rcUsed == Max(0, RcCost(y.meter.limits, use)) <= trx.rcLimit)
    && ReportsEvents(x.emitted, y.emitted, events, r)
  }

  /** The RC of a receipt is its three figures times their costs, when nothing clamps and disk was not refunded on balance. */
  lemma RcIsFigures(j: seq<MeterOp>, from: nat, events: seq<Entry>, trx: Trx, r: Receipt)
    requires from <= |j| && Reports(j, from, events, trx, r) && SessionAt(j, from, trx.rcLimit)
    requires AtClose(j, from).ledger.exact && Clamp(j, from) == 0 && 0 <= AtClose(j, from).ledger.cur.disk < U64_SIZE
    ensures var limits := AtClose(j, from).meter.limits;
            r.rcUsed == r.disk * limits.diskCost + r.network * limits.networkCost + r.compute * limits.computeCost <= trx.rcLimit
  {
    hide Audit, ReportsEvents, Clamp, Balanced;
    var y := AtClose(j, from);
    assert r.disk == y.ledger.cur.disk;
    Product(r.disk, y.meter.limits.diskCost);
    Product(r.network, y.meter.limits.networkCost);
    Product(r.compute, y.meter.limits.computeCost);
  }

  /** The context right after the transaction's session opened, and right after one closed. */
  ghost function SessionOpened(c: Ctx, trx: Trx): Ctx {
    c.(trx := Some(trx.id), sessionEvents := [],
       meter := c.meter.(session := Some(RcSession(ToI64(trx.rcLimit), ToI64(trx.rcLimit)))),
       journal := c.journal + [Opened(trx.rcLimit)])
  }

  ghost function SessionClosed(c: Ctx): Ctx {
    c.(meter := c.meter.(session := None), journal := c.journal + [Closed])
  }

  /** Where the session of a transaction is in the journal, and the books there. */
  lemma SessionPlace(s0: Ctx, trx: Trx, c: Ctx)
    requires Flow(SessionOpened(s0, trx), c)
    ensures var j, from := c.journal + [Closed], |s0.journal|;
            && SessionAt(j, from, trx.rcLimit)
            && AtOpen(j, from) == BooksOf(s0) && AtClose(j, from) == BooksOf(c)
            && j[..CloseOf(j, from) + 1] == j && s0.journal <= j
  {
    var j, from := c.journal + [Closed], |s0.journal|;
    var o := s0.journal + [Opened(trx.rcLimit)];
    assert o <= c.journal && j[..from + 1] == o && j[..|c.journal|] == c.journal && j[..from] == s0.journal;
    assert forall i :: |o| <= i < |c.journal| ==> j[i] == c.journal[i] && !SessionOp(c.journal[i]);
    assert j[from] == Opened(trx.rcLimit);
    CloseOfIs(j, from, |c.journal|);
  }

  /** The end of the session: read everything the receipt needs, then close. */
  method Tally(c: ExecutionContext, trx: Trx, payerRc: u64, reverted: bool, ghost s0: Ctx, startMeter: Meter)
    returns (receipt: Receipt)
    requires c.Valid() && Inv(s0) && s0.meter == startMeter && Flow(SessionOpened(s0, trx), c.Abs())
    requires payerRc >= trx.rcLimit && c.meter.session.Some?
    modifies c`meter, c`journal
    ensures c.Valid() && c.Abs() == SessionClosed(old(c.Abs()))
    ensures receipt.reverted == reverted && receipt.maxPayerRc == payerRc
    ensures |s0.journal| <= |c.journal| && SessionAt(c.journal, |s0.journal|, trx.rcLimit)
    ensures Reports(c.journal, |s0.journal|, c.events, trx, receipt)
  {
    hide Inv, Audit, UsedRc, DiskUsed, NetworkUsed, ComputeUsed, Flow, Reports, SessionAt, ToU64;
    var m := c.meter;
    ghost var s1 := c.Abs();
    receipt := Receipt(trx.id, reverted, payerRc, trx.rcLimit, UsedRc(m.session.value),
                       ToU64(DiskUsed(m) - DiskUsed(startMeter)),
                       ToU64(NetworkUsed(m) - NetworkUsed(startMeter)),
                       ToU64(ComputeUsed(m) - ComputeUsed(startMeter)),
                       if reverted then [] else c.sessionEvents);
    SessionPlace(s0, trx, s1);
    TallyIsTrue(s0, trx, s1, receipt);
    c.CloseSession();
  }

  /** What the meter, the session and the chronicler show at the end of a session is what the receipt should report. */
  lemma TallyIsTrue(s0: Ctx, trx: Trx, c: Ctx, r: Receipt)
    requires Inv(s0) && Inv(c) && Flow(SessionOpened(s0, trx), c) && c.meter.session.Some?
    requires r.id == trx.id && r.rcLimit == trx.rcLimit <= r.maxPayerRc
    requires r.rcUsed == UsedRc(c.meter.session.value) && r.disk == ToU64(DiskUsed(c.meter) - DiskUsed(s0.meter))
    requires r.network == ToU64(NetworkUsed(c.meter) - NetworkUsed(s0.meter))
    requires r.compute == ToU64(ComputeUsed(c.meter) - ComputeUsed(s0.meter))
    requires r.events == if r.reverted then [] else c.sessionEvents
    ensures |s0.journal| <= |c.journal| + 1 && Reports(c.journal + [Closed], |s0.journal|, c.events, trx, r)
  {
    hide Audit, Balanced, Inv, Flow, ReportsEvents, RcCost, UsedRc, DiskUsed, NetworkUsed, ComputeUsed, Excess, SessionAt, ToI64, ToU64;
    var j, from := c.journal + [Closed], |s0.journal|;
    SessionPlace(s0, trx, c);
    SessionUse(j, from, trx.rcLimit);
    EventsTally(s0, trx, c, r);
    FiguresAreUse(s0.meter, LedgerOf(s0), c.meter, LedgerOf(c));
    if LedgerOf(c).exact {
      RcIsPrice(c.meter, LedgerOf(c));
      LimitIsBegin(trx.rcLimit);
    }
    hide BooksOf, CloseOf;
  }

  /** The session has seen the events since it opened, and the books count them. */
  lemma EventsTally(s0: Ctx, trx: Trx, c: Ctx, r: Receipt)
    requires Inv(s0) && Inv(c) && Flow(SessionOpened(s0, trx), c) && c.meter.session.Some?
    requires r.events == if r.reverted then [] else c.sessionEvents
    ensures BooksOf(s0).meter == s0.meter && BooksOf(c).meter == c.meter
    ensures ReportsEvents(BooksOf(s0).emitted, BooksOf(c).emitted, c.events, r)
  {
    hide Audit, CacheOk, Replay, Holds, SameLedger, ToI64;
    SessionPlace(s0, trx, c);
    SessionUse(c.journal + [Closed], |s0.journal|, trx.rcLimit);
    hide SessionAt, CloseOf, Balanced;
  }

  lemma LimitIsBegin(rc: u64)
    requires rc <= I64_MAX
    ensures ToI64(rc) == rc
  {
  }

  lemma RcIsPrice(m: Meter, l: Ledger)
    requires Balanced(m, l) && m.session.Some? && l.exact
    ensures UsedRc(m.session.value) == Max(0, RcCost(m.limits, l.cur)) <= m.session.value.begin
  {
    hide RcCost;
    UsedRcIsPrice(m.session.value, RcCost(m.limits, l.cur));
  }

  /**
    Differences of meter readings are differences of ledgers. The disk reading clamps
    at zero, so its difference is off by how much more the second clamps than the
    first, and right exactly if both clamp by the same excess.
  */
  lemma FiguresAreUse(m0: Meter, l0: Ledger, m: Meter, l: Ledger)
    requires Balanced(m0, l0) && Balanced(m, l) && m.limits == m0.limits
    requires l.sys == l0.sys && l.all == l0.all.Plus(l.cur)
    ensures ToU64(ComputeUsed(m) - ComputeUsed(m0)) == l.cur.compute
    ensures ToU64(NetworkUsed(m) - NetworkUsed(m0)) == l.cur.network
    ensures ToU64(DiskUsed(m) - DiskUsed(m0)) == ToU64(l.cur.disk + Excess(m) - Excess(m0))
    ensures ToU64(l.cur.disk + Excess(m) - Excess(m0)) == ToU64(l.cur.disk) <==> Excess(m) == Excess(m0)
  {
    hide SessionBalanced, ToU64, ToI64;
    Figure(m.limits.compute, m0.compute, m.compute, l.cur.compute);
    Figure(m.limits.network, m0.network, m.network, l.cur.network);
    var x, e := m.limits.disk - l0.sys.disk - l0.all.disk, Excess(m) - Excess(m0);
    assert m.disk == ToU64(x - l.cur.disk);
    ModDifference(x, l.cur.disk, e);
    assert DiskUsed(m) - DiskUsed(m0) == ToU64(x) - ToU64(x - l.cur.disk) + e;
    ModApart(l.cur.disk, e);
  }

  lemma Figure(limit: u64, before: u64, after: u64, used: int)
    requires before <= limit && after <= limit && 0 <= used == before - after
    ensures ToU64(ToU64(limit - after) - ToU64(limit - before)) == used
  {
  }

  lemma ModDifference(x: int, d: int, e: int)
    ensures ToU64(ToU64(x) - ToU64(x - d) + e) == ToU64(d + e)
  {
    var k := (x - d) / U64_SIZE - x / U64_SIZE;
    assert ToU64(x) - ToU64(x - d) == d + k * U64_SIZE;
    ModShift(d + e, k);
  }

  lemma ModApart(d: int, e: int)
    requires -U64_SIZE < e < U64_SIZE
    ensures ToU64(d + e) == ToU64(d) <==> e == 0
  {
    var q, r := d / U64_SIZE, d % U64_SIZE;
    ModShift(r + e, q);
    assert d + e == r + e + q * U64_SIZE;
    if 0 <= r + e < U64_SIZE {
    } else if r + e < 0 {
      ModShift(r + e + U64_SIZE, -1);
    } else {
      ModShift(r + e - U64_SIZE, 1);
    }
  }

  /* ---- one transaction ---- */

  /** Where a transaction may be applied: on a block node, outside any session. */
  ghost predicate Ready(c: Ctx) {
    && 2 <= |c.stack| < STACK_LIMIT - 1 && Top(c.stack).privilege == Kernel
    && c.node.Over? && c.parent == ParentOf(c.node)
    && c.meter.session.None? && c.trx.None?
  }

  /** What stays put however a transaction ends, as long as the block goes on. */
  ghost predicate SameBlock(a: Ctx, b: Ctx) {
    && b.stack == a.stack && b.intent == a.intent && b.parent == a.parent && b.priced == a.priced
    && b.origin == a.origin && b.trx == a.trx
    && a.history <= b.history && a.events <= b.events && a.launched <= b.launched
    && a.journal <= b.journal && NoLimits(b.journal, |a.journal|)
    && b.meter.limits == a.meter.limits && b.meter.session.None?
    && b.node.Over? == a.node.Over? && (a.node.Over? ==> b.node.parent == a.node.parent)
  }

  /** The invariant a context has between transactions. */
  lemma ReadyStays(a: Ctx, b: Ctx)
    requires Ready(a) && b.stack == a.stack && b.parent == a.parent && b.trx == a.trx
    requires b.meter.session.None? && b.node.Over? && b.node.parent == a.node.parent
    ensures Ready(b)
  {
  }

  /** Writes alone leave a node over the same parent. */
  lemma StepKeepsShape(a: Ctx, b: Ctx)
    requires Inv(a) && Inv(b) && Step(a, b)
    ensures b.node.Over? == a.node.Over? && (a.node.Over? ==> b.node.parent == a.node.parent)
  {
    hide Audit, Holds, CacheOk, EventsOk;
    var w := b.history[|a.history|..];
    assert b.history == a.history + w && OnlyWrote(w, 0);
    ReplayConcat(a.origin, a.history, w);
    WritesKeepShape(a.node, w);
  }

  /** The block node is what the transaction's part of the history leaves of its writes, and nothing else. */
  ghost predicate LeftBy(a: Ctx, b: Ctx, reverted: bool) {
    && a.history <= b.history
    && var part := b.history[|a.history|..];
       TrxDeeds(part, 0, reverted) && b.node == Replay(a.node, Left(part, reverted))
  }

  lemma NodeOfTrx(a: Ctx, b: Ctx, reverted: bool)
    requires Inv(a) && Inv(b) && b.origin == a.origin && a.history <= b.history && a.node.Over?
    requires TrxDeeds(b.history, |a.history|, reverted)
    ensures LeftBy(a, b, reverted) && b.node.Over? && b.node.parent == a.node.parent
  {
    hide Audit, Holds, CacheOk, EventsOk;
    var w := b.history[|a.history|..];
    assert b.history == a.history + w;
    ReplayConcat(a.origin, a.history, w);
    DeedsShift(b.history, |a.history|, reverted);
    TrxLeaves(a.node, w, reverted);
    hide Replay, TrxDeeds;
  }

  lemma DeedsShift(h: seq<Deed>, from: nat, reverted: bool)
    requires TrxDeeds(h, from, reverted)
    ensures TrxDeeds(h[from..], 0, reverted)
  {
    hide TrxDeeds, FirstTurn;
    TurnsOfTrx(h, from, reverted);
    var f := FirstTurn(h, from);
    var m := FirstTurn(h, f + 1);
    assert TurnsAt(h[from..], 0, f - from, m - from, reverted);
    TurnsMakeTrx(h[from..], 0, f - from, m - from, reverted);
  }

  const ConsumptionPlan: seq<Stage> := [Agreed(ConsumeAccountRcId, FAILURE)]

  /** How a transaction ends whose operations were applied or rolled back, by how the consumption of its RC came out. */
  predicate Ended(o: Outcome, end: End, applied: Outcome, paid: Outcome) {
    match paid
    case Reentered => o.Reentered? && end.Reentry?
    case Thrown(code) => o == paid && end == if code > 0 then Unsettled else Failed
    case Returned(_, _, _) => o == applied && end == if applied.Thrown? then Reverted else Committed
  }

  /** How a transaction ends, by the steps it took. */
  ghost predicate Told(a: seq<Verdict>, b: seq<Verdict>, trx: Trx, s: Story, o: Outcome, end: End) {
    && Tried(a, trx, s)
    && if GoesOn(s.applied) then Trail(s.steps, b, ConsumptionPlan, s.paid) && Ended(o, end, s.applied, s.paid)
       else b == s.steps && o == s.applied && end == if o.Reentered? then Reentry else Failed
  }

  /** Closes the session, then has the payer's RC consumed; `s0` is before the session opened. */
  method Settle(c: ExecutionContext, trx: Trx, payerRc: u64, applied: Outcome, ghost s0: Ctx, startMeter: Meter)
    returns (o: Outcome, end: End, receipt: Receipt, ghost paid: Outcome)
    requires c.Valid() && Inv(s0) && s0.meter == startMeter && Flow(SessionOpened(s0, trx), c.Abs())
    requires GoesOn(applied) && payerRc >= trx.rcLimit && c.meter.session.Some?
    requires InThunk(c.stack) && |c.stack| < STACK_LIMIT && c.parent.Some?
    modifies c
    ensures c.stack == old(c.stack) && (!o.Reentered? ==> c.Valid())
    ensures receipt.reverted == applied.Thrown? && receipt.maxPayerRc == payerRc && receipt.id == trx.id
    ensures Trail(old(c.verdicts), c.verdicts, ConsumptionPlan, paid) && Ended(o, end, applied, paid)
    ensures Inv(SessionClosed(old(c.Abs()))) && Went(SessionClosed(old(c.Abs())), c.Abs(), iset{}, true, o.Reentered?)
    ensures !o.Reentered? && UserOnly(SessionClosed(old(c.Abs())), c.Abs()) ==>
              && c.events == old(c.events)
              && (ConsumeAccountRcId in c.priced ==> !end.Unsettled?)
              && (end.Committed? || end.Reverted? ==>
                    c.journal != [] && c.journal[|c.journal| - 1] == Consumed(trx.payer, receipt.rcUsed))
    ensures var j := old(c.journal) + [Closed];
            && |s0.journal| <= |j| && SessionAt(j, |s0.journal|, trx.rcLimit)
            && Reports(j, |s0.journal|, old(c.events), trx, receipt)
  {
    hide Inv, Went, Flow, Reports, UserOnly, SessionAt, Trail;
    receipt := Tally(c, trx, payerRc, applied.Thrown?, s0, startMeter);
    ReportIds(c.journal, |s0.journal|, c.events, trx, receipt);
    o := Demand(c, ConsumeAccountRcId, NoArgs.(id := trx.payer, amount := receipt.rcUsed), FAILURE);
    paid := o;
    if o.Reentered? {
      end := Reentry;
    } else if o.Thrown? {
      end := if o.code > 0 then Unsettled else Failed;
    } else {
      o, end := applied, if applied.Thrown? then Reverted else Committed;
    }
  }

  lemma ReportIds(j: seq<MeterOp>, from: nat, events: seq<Entry>, trx: Trx, r: Receipt)
    requires from <= |j| && Reports(j, from, events, trx, r)
    ensures r.id == trx.id
  {
  }

  ghost predicate SameState(a: Ctx, b: Ctx) {
    b.node == a.node && b.parent == a.parent && b.history == a.history && b.launched == a.launched
  }

  /** What was written, by whom, does not depend on meters, stacks or receipts. */
  lemma Alike(a: Ctx, b: Ctx, a': Ctx, b': Ctx, d: iset<Key>, k: bool)
    requires SameState(a, a') && SameState(b, b')
    ensures Calm(a, b, d) ==> Calm(a', b', d)
    ensures Safe(a, b, k) ==> Safe(a', b', k)
    ensures UserOnly(a, b) == UserOnly(a', b')
    ensures Grows(a, b) ==> Grows(a', b')
  {
    assert UserOnly(a, b) == UserOnly(a', b');
    assert forall id :: RanIn(a, b, id) == RanIn(a', b', id);
    assert forall i: nat :: FirstOther(a, b, i) == FirstOther(a', b', i);
    hide RanIn, FirstOther;
    if Calm(a, b, d) && UserOnly(a, b) {
      forall i | |a'.history| <= i < |b'.history| && b'.history[i].Wrote?
        ensures MayWrite(a', b', d, b'.history[i].key)
      {
        assert MayWrite(a, b, d, b.history[i].key);
      }
    }
  }

  /** Confinement of a whole transaction, from its two parts. */
  lemma TransactionIsCalm(s0: Ctx, s1: Ctx, s2: Ctx, mid: Ctx, b: Ctx, d: iset<Key>, k: bool)
    requires Strode(s1, s2, d, k, false) && Inv(mid) && Went(mid, b, iset{}, true, false)
    requires SameState(s0, s1) && SameState(s2, mid)
    ensures Calm(s0, b, d) && Safe(s0, b, k) && Grows(s0, b)
    ensures UserOnly(s0, b) <==> UserOnly(s1, s2) && UserOnly(mid, b)
  {
    hide Core, Flow, Step, Calm, UserOnly, UserWorld, Grows, Safe;
    StrodeParts(s1, s2, d, k);
    WentSteps(mid, b, iset{}, true);
    StepGrows(mid, b);
    Alike(s1, s2, s0, mid, d, k);
    CalmTrans(s0, mid, b, d, iset{}, d);
    UserOnlySplit(s0, mid, b);
    GrowsTrans(s0, mid, b);
    SafeTrans(s0, mid, b, k, true, k);
  }

  /** From `s0`, through a session that opened and closed, to `b` and the transaction cleared. */
  lemma TransactionFrame(s0: Ctx, trx: Trx, s2: Ctx, b: Ctx)
    requires Flow(SessionOpened(s0, trx), s2) && Step(SessionClosed(s2), b) && s0.trx.None?
    requires b.node.Over? == s0.node.Over? && (s0.node.Over? ==> b.node.parent == s0.node.parent)
    ensures SameBlock(s0, b.(trx := None)) && Intrudes(s0.posts, b.posts)
    ensures forall i :: |s0.events| <= i < |b.events| ==> b.events[i].trx == Some(trx.id)
    ensures Continues(s2.journal + [Closed], b.journal)
  {
    var mid := SessionClosed(s2);
    IntrudesTrans(s0.posts, s2.posts, b.posts);
    hide Intrudes;
    var o := s0.journal + [Opened(trx.rcLimit)];
    assert o <= s2.journal && s2.journal <= mid.journal <= b.journal;
    forall i | |s0.journal| <= i < |b.journal|
      ensures !b.journal[i].Limited?
    {
      if i < |s2.journal| {
        assert b.journal[i] == s2.journal[i] && (i < |o| ==> s2.journal[i] == o[i]);
      } else if i == |s2.journal| {
        assert b.journal[i] == mid.journal[i];
      }
    }
    forall i | |s0.events| <= i < |b.events|
      ensures b.events[i].trx == Some(trx.id)
    {
      if i < |mid.events| {
        assert b.events[i] == s2.events[i];
      }
    }
  }

  /** What an accepted transaction has done to its block by the time its receipt is posted. */
  ghost predicate Applied(a: Ctx, b: Ctx, trx: Trx, receipt: Receipt) {
    && SameBlock(a, b) && Grows(a, b)
    && LeftBy(a, b, receipt.reverted)
    && Calm(a, b, TrxKeys(trx)) && Safe(a, b, UserTrx(trx))
    && SessionAt(b.journal, |a.journal|, trx.rcLimit)
    && Continues(b.journal[..CloseOf(b.journal, |a.journal|) + 1], b.journal)
    && Reports(b.journal, |a.journal|, b.events, trx, receipt)
    && LedgerOf(b).all == LedgerOf(a).all.Plus(AtClose(b.journal, |a.journal|).ledger.cur)
    && LedgerOf(a).sys.network <= LedgerOf(b).sys.network
    && (!receipt.reverted ==> trx.size <= receipt.network)
    && (forall i :: |a.events| <= i < |b.events| ==> b.events[i].trx == Some(trx.id))
    && (UserOnly(a, b) ==>
          && Signed(trx, b.journal, |a.journal|)
          && (!receipt.reverted ==> OpsRan(trx.operations, b, |a.launched|, |a.journal|))
          && Leaves(a.node, b.node, trx, receipt.reverted)
          && Get(a.node, MAX_ACCOUNT_RESOURCES) == Some(MaxResources(receipt.maxPayerRc))
          && AtClose(b.journal, |a.journal|).emitted == |b.events|)
  }

  /** RC was consumed, and in what amount. */
  predicate ConsumedLast(j: seq<MeterOp>, trx: Trx, receipt: Receipt) {
    j != [] && j[|j| - 1] == Consumed(trx.payer, receipt.rcUsed)
  }

  /**
    One transaction. Its part of the history is the preamble's writes, a fork, the
    operations' writes, a merge if it is committed and a drop if it is reverted, and the
    writes of RC consumption. Its part of the journal begins with a session that is
    closed once; the receipt reports what was charged and emitted in between. The
    receipt is added however the transaction ends.
  */
  method ApplyTransaction(c: ExecutionContext, trx: Trx)
    returns (o: Outcome, end: End, receipt: Receipt, ghost story: Story)
    requires c.Valid() && Ready(c.Abs()) && CanPost(c.intent, c.receipt)
    modifies c
    ensures c.stack == old(c.stack) && (!o.Reentered? ==> c.Valid()) && receipt.id == trx.id
    ensures end.Refused? <==> c.intent.ReadOnly? || old(c.CallerPrivilege()) != Kernel
    ensures end.Refused? && c.intent.ReadOnly? ==> o == Thrown(REVERSION) && c.Abs() == old(c.Abs())
    ensures end.Refused? && !c.intent.ReadOnly? ==>
              && o == Thrown(REVERSION) && receipt == EmptyReceipt(trx)
              && c.Abs() == old(c.Abs()).(receipt := c.receipt, posts := old(c.posts) + [Post(true, receipt)])
    ensures end.Committed? <==> o.Returned?
    ensures end.Failed? <==> o.Thrown? && o.code <= 0
    ensures end.Reentry? <==> o.Reentered?
    ensures end.Reentry? ==> !(UserTrx(trx) && UserWorld(old(c.Abs())))
    ensures end.Committed? ==> !receipt.reverted
    ensures end.Reverted? ==> receipt.reverted
    ensures !o.Reentered? && !c.intent.ReadOnly? ==> PostsOwn(old(c.posts), c.posts, receipt)
    ensures Accepted(end) ==>
              Applied(old(c.Abs()), c.Abs(), trx, receipt) && ChargedOnce(old(c.Abs()), c.Abs())
    ensures Accepted(end) && UserOnly(old(c.Abs()), c.Abs()) ==>
              && (ConsumeAccountRcId in c.priced ==> !end.Unsettled?)
              && (!end.Unsettled? ==> ConsumedLast(c.journal, trx, receipt))
    ensures |c.verdicts| > |old(c.verdicts)| && c.verdicts[|c.verdicts| - 1] == Verdict(Transaction(trx.id), o)
    ensures if end.Refused? then |c.verdicts| == |old(c.verdicts)| + 1
            else Told(old(c.verdicts), c.verdicts[..|c.verdicts| - 1], trx, story, o, end)
    ensures Outcomes(c.verdicts) == Outcomes(old(c.verdicts)) + [Verdict(Transaction(trx.id), o)]
  {
    hide Inv, Applied, PostsOwn, ChargedOnce, UserOnly, UserWorld, Ready, UserTrx, Told, Outcomes;
    ghost var s0, v0 := c.Abs(), c.verdicts;
    story := Story(Done, v0, Done, v0, Done);
    if c.intent.ReadOnly? || c.CallerPrivilege() != Kernel {
      o, end, receipt := Thrown(REVERSION), Refused, EmptyReceipt(trx);
      NothingIntrudes(s0.posts);
    } else {
      o, end, receipt, story := Conduct(c, trx);
      ToldOutcomes(v0, c.verdicts, trx, story, o, end);
    }
    if !o.Reentered? && !c.intent.ReadOnly? {
      ghost var s1 := c.Abs();
      var ok := c.AddReceipt(receipt);
      PostIsOwn(s0.posts, s1.posts, receipt);
      if Accepted(end) {
        StillApplied(s0, s1, c.Abs(), trx, receipt);
      }
      o, end := if ok then o else Thrown(FAILURE), if ok then end else Failed;
    }
    ghost var v1 := c.verdicts;
    c.Record(Transaction(trx.id), o);
    assert c.verdicts[..|c.verdicts| - 1] == v1;
    OutcomesSnoc(v1, Verdict(Transaction(trx.id), o));
  }

  lemma NothingIntrudes(posts: seq<ReceiptOp>)
    ensures Intrudes(posts, posts)
  {
  }

  lemma PostIsOwn(posts: seq<ReceiptOp>, posts': seq<ReceiptOp>, r: Receipt)
    requires Intrudes(posts, posts')
    ensures PostsOwn(posts, posts' + [Post(true, r)], r)
  {
    assert (posts' + [Post(true, r)])[..|posts'|] == posts';
  }

  /** No step of a transaction is the verdict on one. */
  lemma ToldOutcomes(a: seq<Verdict>, b: seq<Verdict>, trx: Trx, s: Story, o: Outcome, end: End)
    requires Told(a, b, trx, s, o, end)
    ensures a <= b && Outcomes(b) == Outcomes(a)
  {
    hide Outcomes, Passes;
    PlansAreSteps(trx);
    TrailKeepsOutcomes(a, s.checks, PreamblePlan(trx), s.checked);
    if s.checked.Returned? {
      TrailKeepsOutcomes(s.checks, s.steps, OperationsPlan(trx), s.applied);
    }
    if GoesOn(s.applied) {
      TrailKeepsOutcomes(s.steps, b, ConsumptionPlan, s.paid);
    }
    hide PreamblePlan, OperationsPlan, ConsumptionPlan;
  }

  lemma PlansAreSteps(trx: Trx)
    ensures NoTransactions(PreamblePlan(trx)) && NoTransactions(OperationsPlan(trx)) && NoTransactions(ConsumptionPlan)
  {
  }

  /** The receipt is the last thing that happens. */
  lemma StillApplied(a: Ctx, b: Ctx, c: Ctx, trx: Trx, receipt: Receipt)
    requires Inv(a) && Inv(c) && Applied(a, b, trx, receipt)
    requires c == b.(receipt := c.receipt, posts := b.posts + [Post(true, receipt)])
    ensures Applied(a, c, trx, receipt) && ChargedOnce(a, c)
    ensures UserOnly(a, c) <==> UserOnly(a, b)
  {
    hide Inv, ChargedOnce, Reports, Leaves, Calm, Grows, UserWorld, Safe, SessionAt, TrxDeeds, Left, Replay, Signed, CallsRan, Warranted;
    Alike(a, b, a, c, TrxKeys(trx), UserTrx(trx));
    JournalChargesOnce(a, c);
  }

  /** The transaction itself, once the caller and the intent are right. */
  method Conduct(c: ExecutionContext, trx: Trx)
    returns (o: Outcome, end: End, receipt: Receipt, ghost story: Story)
    requires c.Valid() && Ready(c.Abs()) && !c.intent.ReadOnly? && CanPost(c.intent, c.receipt)
    modifies c
    ensures c.stack == old(c.stack) && (!o.Reentered? ==> c.Valid()) && receipt.id == trx.id && !end.Refused?
    ensures end.Committed? <==> o.Returned?
    ensures end.Failed? <==> o.Thrown? && o.code <= 0
    ensures end.Reentry? <==> o.Reentered?
    ensures end.Reentry? ==> !(UserTrx(trx) && UserWorld(old(c.Abs())))
    ensures end.Committed? ==> !receipt.reverted
    ensures end.Reverted? ==> receipt.reverted
    ensures !o.Reentered? ==> Intrudes(old(c.posts), c.posts) && CanPost(c.intent, c.receipt)
    ensures Told(old(c.verdicts), c.verdicts, trx, story, o, end)
    ensures Accepted(end) ==> Applied(old(c.Abs()), c.Abs(), trx, receipt)
    ensures Accepted(end) && UserOnly(old(c.Abs()), c.Abs()) ==>
              && (ConsumeAccountRcId in c.priced ==> !end.Unsettled?)
              && (!end.Unsettled? ==> ConsumedLast(c.journal, trx, receipt))
  {
    hide Inv, Went, Strode, Flow, Step, Applied, UserOnly, UserWorld, UserTrx, OpKeys, TrxKeys, Leaves, TrxDeeds, Get;
    hide Reports, SessionAt, CanPost, ToI64, Signed, OpsRan, Tried, Told, Trail, Intrudes;
    ghost var s0, v0 := c.Abs(), c.verdicts;
    receipt := EmptyReceipt(trx);
    var start := c.meter;
    c.SetTransaction(Some(trx.id));
    c.OpenSession(trx.rcLimit);
    ghost var s1 := c.Abs();
    assert s1 == SessionOpened(s0, trx);
    var payerRc: u64;
    o, payerRc, story := UnderSession(c, trx);
    if o.Reentered? {
      end := Reentry;
      NotKept(s0, s1, c.Abs(), TrxKeys(trx), UserTrx(trx));
      ToldEarly(v0, c.verdicts, trx, story, o, end);
    } else if !GoesOn(o) {
      end := Failed;
      receipt := receipt.(maxPayerRc := payerRc);
      c.CloseSession();
      c.SetTransaction(None);
      KeepsPostable(s0, c.Abs());
      ToldEarly(v0, c.verdicts, trx, story, o, end);
    } else {
      ghost var paid: Outcome;
      o, end, receipt, paid := Conclude(c, trx, payerRc, o, s0, start);
      ToldBySteps(v0, c.verdicts, trx, story, paid, o, end);
      story := story.(paid := paid);
    }
  }

  /** The end of a transaction whose operations were applied or rolled back; `s0` is before its session opened. */
  method Conclude(c: ExecutionContext, trx: Trx, payerRc: u64, applied: Outcome, ghost s0: Ctx, startMeter: Meter)
    returns (o: Outcome, end: End, receipt: Receipt, ghost paid: Outcome)
    requires c.Valid() && Inv(s0) && s0.meter == startMeter && Ready(s0) && CanPost(s0.intent, s0.receipt)
    requires GoesOn(applied) && payerRc >= trx.rcLimit
    requires Strode(SessionOpened(s0, trx), c.Abs(), TrxKeys(trx), UserTrx(trx), false)
    requires TrxDeeds(c.history, |s0.history|, applied.Thrown?)
    requires applied.Returned? ==> c.meter.network <= s0.meter.network - trx.size
    requires UserOnly(SessionOpened(s0, trx), c.Abs()) ==>
               && Signed(trx, c.journal, |s0.journal| + 1)
               && (applied.Returned? ==> OpsRan(trx.operations, c.Abs(), |s0.launched|, |s0.journal| + 1))
               && Leaves(s0.node, c.node, trx, applied.Thrown?)
               && Get(s0.node, MAX_ACCOUNT_RESOURCES) == Some(MaxResources(payerRc))
    modifies c
    ensures c.stack == old(c.stack) && (!o.Reentered? ==> c.Valid())
    ensures receipt.reverted == applied.Thrown? && receipt.id == trx.id
    ensures Trail(old(c.verdicts), c.verdicts, ConsumptionPlan, paid) && Ended(o, end, applied, paid)
    ensures o.Reentered? ==> !(UserTrx(trx) && UserWorld(s0))
    ensures !o.Reentered? ==>
              Applied(s0, c.Abs(), trx, receipt) && Intrudes(s0.posts, c.posts) && CanPost(c.intent, c.receipt)
    ensures !o.Reentered? && UserOnly(s0, c.Abs()) ==>
              && (ConsumeAccountRcId in c.priced ==> !end.Unsettled?)
              && (end.Committed? || end.Reverted? ==> ConsumedLast(c.journal, trx, receipt))
  {
    hide Inv, Went, Strode, Flow, Step, Applied, UserOnly, UserWorld, UserTrx, OpKeys, TrxKeys, Leaves, TrxDeeds, Get;
    hide Reports, SessionAt, CanPost, ToI64, Signed, OpsRan, Trail, Intrudes;
    ghost var s1, s2 := SessionOpened(s0, trx), c.Abs();
    StrodeParts(s1, s2, TrxKeys(trx), UserTrx(trx));
    FlowShape(s1, s2);
    o, end, receipt, paid := Settle(c, trx, payerRc, applied, s0, startMeter);
    if o.Reentered? {
      ConsumptionReenters(s0, s1, s2, SessionClosed(s2), c.Abs(), TrxKeys(trx), UserTrx(trx));
    } else {
      ghost var s4 := c.Abs();
      c.SetTransaction(None);
      Concluded(s0, trx, s2, s4, receipt);
      KeepsPostable(s0, s4);
    }
  }

  lemma ToldBySteps(a: seq<Verdict>, b: seq<Verdict>, trx: Trx, s: Story, paid: Outcome, o: Outcome, end: End)
    requires Tried(a, trx, s) && GoesOn(s.applied) && Trail(s.steps, b, ConsumptionPlan, paid)
    requires Ended(o, end, s.applied, paid)
    ensures Told(a, b, trx, s.(paid := paid), o, end)
  {
    hide Trail, PreamblePlan, OperationsPlan, ConsumptionPlan;
  }

  lemma ToldEarly(a: seq<Verdict>, b: seq<Verdict>, trx: Trx, s: Story, o: Outcome, end: End)
    requires Tried(a, trx, s) && !GoesOn(s.applied) && b == s.steps && o == s.applied
    requires end == if o.Reentered? then Reentry else Failed
    ensures Told(a, b, trx, s, o, end)
  {
    hide Tried;
  }

  lemma NotKept(s0: Ctx, s1: Ctx, b: Ctx, d: iset<Key>, k: bool)
    requires SameState(s0, s1) && Strode(s1, b, d, k, true)
    ensures !(k && UserWorld(s0))
  {
  }

  /** From a user world the consumption of RC is not re-entered either. */
  lemma ConsumptionReenters(s0: Ctx, s1: Ctx, s2: Ctx, mid: Ctx, b: Ctx, d: iset<Key>, k: bool)
    requires Strode(s1, s2, d, k, false) && Went(mid, b, iset{}, true, true)
    requires SameState(s0, s1) && SameState(s2, mid)
    ensures !(k && UserWorld(s0))
  {
    hide Core, Step, Flow, Calm, Safe, Grows;
    assert UserWorld(s0) ==> UserWorld(s1);
    assert UserWorld(s2) ==> UserWorld(mid);
    StrodeParts(s1, s2, d, k);
    if k && UserWorld(s0) {
      UserWorldIsUserOnly(s1, s2, k);
    }
  }

  lemma KeepsPostable(a: Ctx, b: Ctx)
    requires Inv(a) && Inv(b) && b.intent == a.intent && Intrudes(a.posts, b.posts) && CanPost(a.intent, a.receipt)
    ensures CanPost(b.intent, b.receipt)
  {
    hide Audit, Replay, CacheOk, EventsOk;
    if a.intent.BlockApplication? {
      IntrusionsKeepBlock(a.posts, b.posts);
    }
  }

  /** Consumption outside the session is the system's, and leaves the state as the transaction left it. */
  lemma ConsumptionLeaves(a: Node, mid: Ctx, b: Ctx, trx: Trx, reverted: bool)
    requires Inv(mid) && Went(mid, b, iset{}, true, false) && UserOnly(mid, b) && Leaves(a, mid.node, trx, reverted)
    ensures Leaves(a, b.node, trx, reverted)
  {
    hide Inv, Went, UserOnly, Get, Shown;
    QuietKeepsSystem(mid, b);
    forall k: Key | Reserved(k)
      ensures Get(b.node, k) == Get(mid.node, k)
    {
      OperationsAreNotReserved(trx, k);
    }
    if !reverted {
      ShownFrame(trx, |trx.operations|, mid.node, b.node);
    }
  }

  /** The journal of an accepted transaction. */
  lemma ConcludedJournal(s0: Ctx, trx: Trx, s2: Ctx, b: Ctx, receipt: Receipt)
    requires Inv(s0) && Inv(s2) && Inv(b) && Flow(SessionOpened(s0, trx), s2) && Continues(s2.journal + [Closed], b.journal)
    requires s2.events <= b.events
    requires |s0.journal| <= |s2.journal| + 1 && Reports(s2.journal + [Closed], |s0.journal|, s2.events, trx, receipt)
    ensures |s0.journal| <= |b.journal| && SessionAt(b.journal, |s0.journal|, trx.rcLimit)
    ensures Continues(b.journal[..CloseOf(b.journal, |s0.journal|) + 1], b.journal)
    ensures Reports(b.journal, |s0.journal|, b.events, trx, receipt)
    ensures AtClose(b.journal, |s0.journal|) == BooksOf(s2)
    ensures LedgerOf(b).all == LedgerOf(s0).all.Plus(AtClose(b.journal, |s0.journal|).ledger.cur)
    ensures LedgerOf(s0).sys.network <= LedgerOf(b).sys.network
  {
    hide Audit, Flow, Inv;
    var j, from := s2.journal + [Closed], |s0.journal|;
    SessionPlace(s0, trx, s2);
    SessionStays(j, b.journal, from, trx.rcLimit);
    SessionUse(j, from, trx.rcLimit);
    AuditSnoc(s2.journal, Closed);
    ContinuationKeepsSession(j, b.journal);
    assert b.journal[..|j|] == j;
    hide SessionAt, Continues, Balanced;
    ReportsStay(j, b.journal, from, s2.events, b.events, trx, receipt);
  }

  /** The network figure of a receipt is the fall of the counter. */
  lemma NetworkFigure(s0: Ctx, trx: Trx, s2: Ctx, receipt: Receipt)
    requires Inv(s0) && Inv(s2) && Flow(SessionOpened(s0, trx), s2)
    requires |s0.journal| <= |s2.journal| + 1 && Reports(s2.journal + [Closed], |s0.journal|, s2.events, trx, receipt)
    ensures receipt.network == s0.meter.network - s2.meter.network
  {
    hide Audit, Flow, CacheOk, EventsOk, Holds, Replay, SessionBalanced, ReportsEvents, RcCost, Clamp;
    SessionPlace(s0, trx, s2);
    SessionUse(s2.journal + [Closed], |s0.journal|, trx.rcLimit);
    hide SessionAt, CloseOf;
  }

  lemma ReportsStay(j: seq<MeterOp>, j': seq<MeterOp>, from: nat, events: seq<Entry>, events': seq<Entry>, trx: Trx, r: Receipt)
    requires from <= |j| <= |j'| && AtOpen(j', from) == AtOpen(j, from) && AtClose(j', from) == AtClose(j, from)
    requires events <= events' && Reports(j, from, events, trx, r)
    ensures Reports(j', from, events', trx, r)
  {
    hide Audit, RcCost, ToU64, CloseOf;
  }

  /** Puts the parts of an accepted transaction together. */
  lemma Concluded(s0: Ctx, trx: Trx, s2: Ctx, b: Ctx, receipt: Receipt)
    requires Inv(s0) && Inv(SessionClosed(s2)) && Inv(b) && s0.trx.None? && s0.node.Over?
    requires Strode(SessionOpened(s0, trx), s2, TrxKeys(trx), UserTrx(trx), false)
    requires Went(SessionClosed(s2), b, iset{}, true, false)
    requires TrxDeeds(s2.history, |s0.history|, receipt.reverted)
    requires |s0.journal| <= |s2.journal| + 1 && Reports(s2.journal + [Closed], |s0.journal|, s2.events, trx, receipt)
    requires !receipt.reverted ==> s2.meter.network <= s0.meter.network - trx.size
    requires UserOnly(SessionOpened(s0, trx), s2) ==>
               && Signed(trx, s2.journal, |s0.journal| + 1)
               && (!receipt.reverted ==> OpsRan(trx.operations, s2, |s0.launched|, |s0.journal| + 1))
               && Leaves(s0.node, s2.node, trx, receipt.reverted)
               && Get(s0.node, MAX_ACCOUNT_RESOURCES) == Some(MaxResources(receipt.maxPayerRc))
    requires UserOnly(SessionClosed(s2), b) ==> b.events == s2.events
    ensures Applied(s0, b.(trx := None), trx, receipt) && Intrudes(s0.posts, b.posts)
    ensures UserOnly(s0, b.(trx := None)) ==> UserOnly(SessionClosed(s2), b)
    ensures b.intent == s0.intent && b.priced == s0.priced
  {
    hide Core, Went, Calm, UserOnly, UserWorld, UserTrx, TrxKeys, Leaves, TrxDeeds, Left, Replay, Reports, Get, Grows, Safe, Audit, SessionAt, Continues, Signed, OpsRan;
    var s1, mid, d, k := SessionOpened(s0, trx), SessionClosed(s2), TrxKeys(trx), UserTrx(trx);
    StrodeParts(s1, s2, d, k);
    WentSteps(mid, b, iset{}, true);
    StepShape(mid, b);
    FlowShape(s1, s2);
    DeedsExtend(s2.history, b.history, |s0.history|, receipt.reverted);
    NodeOfTrx(s0, b, receipt.reverted);
    TransactionFrame(s0, trx, s2, b);
    ConcludedJournal(s0, trx, s2, b, receipt);
    NetworkFigure(s0, trx, s2, receipt);
    EventsCounted(s2);
    hide Step, Flow, Inv;
    TransactionIsCalm(s0, s1, s2, mid, b, d, k);
    Alike(s0, b, s0, b.(trx := None), d, k);
    if UserOnly(s0, b) {
      SignedStays(trx, s2.journal, b.journal, |s0.journal| + 1, |s0.journal|);
      if !receipt.reverted {
        OpsRanStay(trx.operations, s2, b.(trx := None), |s0.launched|, |s0.journal| + 1, |s0.launched|, |s0.journal|);
      }
      ConsumptionLeaves(s0.node, mid, b, trx, receipt.reverted);
    }
  }

  lemma EventsCounted(c: Ctx)
    requires Inv(c)
    ensures BooksOf(c).emitted == |c.events|
  {
  }
}
