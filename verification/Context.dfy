/**
  The abstract value of an execution context, the invariant every piece of execution
  keeps, and the relation between the context before and after it. The mutable
  context is in Execution.dfy.
*/
module Context {
  import opened Int64
  import opened Metering
  import opened MeterObjects
  import opened Journal
  import opened Receipts
  import opened State

  const STACK_LIMIT: int := 256
  const AUTHORIZE_ENTRYPOINT: nat := 0x4a2dbd90
  const SYSTEM_AUTHORITY: nat := 3  // a kind of authority, after calls (0), transactions (1) and uploads (2)
  const REVERSION: int := 1
  const FAILURE: int := -1
  const SUCCESS: int := 0

  /** A program frame (a contract, or the native base) has no sid; a call frame has no contract id. */
  datatype Frame = Frame(contractId: Id, sid: Option<Sid>, privilege: Privilege, entryPoint: nat)

  /**
    Thrown(code): a reversion when positive, a failure when negative, `success_exception`
    when zero. Reentered: kernel code called apply_block or apply_transaction from within
    an execution; that replaces the session and the parent node, and the model follows
    the run no further. Contracts say nothing of such a run but that its frames are popped.
  */
  datatype Outcome =
    | Returned(value: Option<Val>, flag: bool, number: u64)
    | Thrown(code: int)
    | Reentered

  const Done := Returned(None, true, 0)

  /** The arguments of any system call, each thunk reading the fields it has. */
  datatype Args = Args(key: Key, value: Val, id: Id, entryPoint: nat, code: int, hasError: bool,
                       target: Target, sid: Sid, flag: bool, amount: u64)

  const NoArgs := Args(HEAD_BLOCK, Bytes(""), "", 0, 0, false, Thunk(UnknownId(0)), UnknownId(0), false, 0)

  datatype ExecResult = ExecResult(code: int, payload: Option<Val>)

  /** An entry of the dispatch cache. */
  datatype Dispatch =
    | Contract(contractId: Id, entryPoint: nat, meta: ContractMeta)
    | Native(thunk: Sid, isOverride: bool)

  /** A contract begins to run, or a system call goes to what overrides it. */
  datatype Launch = Program(id: Id, privilege: Privilege, entryPoint: nat) | Overridden(sid: Sid)

  function ErrorCode(e: Error): int {
    if e.IsFailure() then FAILURE else REVERSION
  }

  datatype Ctx = Ctx(
    stack: seq<Frame>,
    node: Node,
    parent: Option<Node>,
    intent: Intent,
    trx: Option<string>,
    cache: map<Sid, Dispatch>,
    priced: set<Sid>,
    meter: Meter,
    events: seq<Entry>,
    sessionEvents: seq<Event>,
    result: ExecResult,
    receipt: Held,
    // where the node started, and logs of everything since, which only grow
    origin: Node,
    history: seq<Deed>,
    journal: seq<MeterOp>,
    launched: seq<Launch>,
    posts: seq<ReceiptOp>)

  /* ---- dispatch ---- */

  /** The uncached dispatch of a system call; None when its contract is missing. */
  function LookupCall(n: Node, sid: Sid): Option<Dispatch> {
    match Get(n, DispatchKey(sid))
    case None => Some(Native(sid, false))
    case Some(CallTarget(Bundle(id, entryPoint))) =>
      if Get(n, MetaKey(id)).None? || Get(n, BytecodeKey(id)).None? then None
      else Some(Contract(id, entryPoint, DecodeMeta(Get(n, MetaKey(id)))))
    case Some(CallTarget(Thunk(thunk))) => Some(Native(thunk, true))
    case Some(_) => Some(Native(UnknownId(0), true))
  }

  /** The state names something else than the thunk of the same number, be it missing. */
  predicate Overrides(d: Option<Dispatch>) {
    d.None? || d.value.Contract? || d.value.isOverride
  }

  /** The parent state leaves a system call to its own thunk. */
  predicate Unaltered(parent: Option<Node>, sid: Sid) {
    parent.Some? && LookupCall(parent.value, sid) == Some(Native(sid, false))
  }

  predicate IsGenesis(sid: Sid) {
    !sid.UnknownId?
  }

  /* ---- the stack ---- */

  function Top(stack: seq<Frame>): Frame
    requires |stack| >= 1
  {
    stack[|stack| - 1]
  }

  function CallerFrame(stack: seq<Frame>): Frame
    requires |stack| >= 2
  {
    stack[|stack| - 2]
  }

  /** The stack with another frame on top, as set_privilege leaves it. */
  function WithTop(stack: seq<Frame>, f: Frame): (r: seq<Frame>)
    requires |stack| >= 1
    ensures |r| == |stack| && Top(r) == f
  {
    stack[|stack| - 1 := f]
  }

  lemma TopUndone(stack: seq<Frame>, f: Frame)
    requires |stack| >= 1
    ensures WithTop(WithTop(stack, f), Top(stack)) == stack
  {
  }

  /** The shape of the stack in a thunk: a kernel frame above its caller's. */
  predicate InThunk(stack: seq<Frame>) {
    |stack| >= 2 && Top(stack).privilege == Kernel
  }

  /* ---- the invariant ---- */

  ghost predicate CacheOk(c: Ctx) {
    c.parent.Some? ==> forall sid <- c.cache :: LookupCall(c.parent.value, sid) == Some(c.cache[sid])
  }

  function BooksOf(c: Ctx): Books {
    Audit(c.journal)
  }

  /** The journal counts the events, and the live session has seen exactly those since it opened. */
  ghost predicate EventsOk(c: Ctx) {
    && |c.events| == BooksOf(c).emitted
    && (forall i :: 0 <= i < |c.events| ==> c.events[i].event.sequence == i % U32_SIZE)
    && (c.meter.session.Some? ==>
          var mark := BooksOf(c).mark;
          && mark <= |c.events|
          && |c.sessionEvents| == |c.events| - mark
          && forall i :: 0 <= i < |c.sessionEvents| ==> c.sessionEvents[i] == c.events[mark + i].event)
  }

  /** The meter is what the journal makes it, and every report in it was of what was owed. */
  ghost predicate MeterOk(c: Ctx) {
    c.meter == BooksOf(c).meter && BooksOf(c).honest
  }

  ghost predicate Core(c: Ctx) {
    && 1 <= |c.stack| <= STACK_LIMIT
    && c.node == Replay(c.origin, c.history)
    && MeterOk(c)
    && CacheOk(c)
    && EventsOk(c)
    && c.receipt == Holds(c.intent, c.posts)
  }

  /** Between VM runs nothing is owed, and none has just come down. */
  ghost predicate Inv(c: Ctx) {
    Core(c) && BooksOf(c).owed == 0 && BooksOf(c).advanced == 0 && !BooksOf(c).down
  }

  /* ---- what a piece of execution may change ---- */

  /** What execution leaves as it was, and the logs, which only grow. */
  ghost predicate Flow(a: Ctx, b: Ctx) {
    && b.stack == a.stack
    && b.intent == a.intent && b.parent == a.parent && b.trx == a.trx && b.priced == a.priced
    && b.origin == a.origin
    && a.history <= b.history
    && (a.intent.ReadOnly? ==> Unwritten(a, b))
    && a.events <= b.events
    && (forall i :: |a.events| <= i < |b.events| ==> b.events[i].trx == a.trx)
    && Continues(a.journal, b.journal) && SameSession(a.meter, b.meter)
    && a.launched <= b.launched
    && Intrudes(a.posts, b.posts)
  }

  /** Within a call tree nothing happens to the node but writes. */
  ghost predicate Step(a: Ctx, b: Ctx) {
    Flow(a, b) && OnlyWrote(b.history, |a.history|)
  }

  predicate Unwritten(a: Ctx, b: Ctx) {
    b.history == a.history && b.node == a.node
  }

  /**
    The law of ticks between two points of a journal: what the compute counter lost is
    what the VM burned and native code charged, less what was forgiven; and nothing is
    forgiven as long as every report is within the remaining budget and accepted.
  */
  ghost predicate ChargedOnce(a: Ctx, b: Ctx) {
    var x, y := BooksOf(a), BooksOf(b);
    && a.meter.compute - b.meter.compute == (y.burned - x.burned) + (y.host - x.host) - (y.forgiven - x.forgiven)
    && (Within(b.journal, |a.journal|) ==> y.forgiven == x.forgiven)
  }

  lemma JournalChargesOnce(a: Ctx, b: Ctx)
    requires Inv(a) && Inv(b) && a.meter.limits == b.meter.limits
    requires a.journal <= b.journal && NoLimits(b.journal, |a.journal|)
    ensures ChargedOnce(a, b)
  {
    hide Audit, CacheOk, EventsOk, Replay, Holds, Within, NoLimits;
    TicksChargedOnce(a.journal);
    TicksChargedOnce(b.journal);
    if Within(b.journal, |a.journal|) {
      WithinForgivesNothing(a.journal, b.journal);
    }
  }

  lemma ContinuesNoLimits(j: seq<MeterOp>, j': seq<MeterOp>)
    requires Continues(j, j')
    ensures NoLimits(j', |j|)
  {
  }

  lemma FlowShape(a: Ctx, b: Ctx)
    requires Flow(a, b)
    ensures b.stack == a.stack && b.parent == a.parent && b.trx == a.trx && b.origin == a.origin
    ensures b.intent == a.intent && b.priced == a.priced
    ensures a.history <= b.history && a.events <= b.events && a.launched <= b.launched
    ensures SameSession(a.meter, b.meter) && Continues(a.journal, b.journal) && Intrudes(a.posts, b.posts)
    ensures a.journal <= b.journal
  {
  }

  lemma StepShape(a: Ctx, b: Ctx)
    requires Step(a, b)
    ensures Flow(a, b) && OnlyWrote(b.history, |a.history|)
    ensures b.stack == a.stack && b.parent == a.parent && b.trx == a.trx && b.origin == a.origin
    ensures b.intent == a.intent && b.priced == a.priced
    ensures a.history <= b.history && a.events <= b.events && a.launched <= b.launched
    ensures SameSession(a.meter, b.meter) && Continues(a.journal, b.journal) && Intrudes(a.posts, b.posts)
    ensures a.journal <= b.journal
  {
  }

  lemma StepRefl(a: Ctx)
    ensures Step(a, a)
  {
  }

  lemma FlowTrans(a: Ctx, b: Ctx, c: Ctx)
    requires Flow(a, b) && Flow(b, c)
    ensures Flow(a, c)
  {
    ContinuesTrans(a.journal, b.journal, c.journal);
    IntrudesTrans(a.posts, b.posts, c.posts);
    hide Continues, Intrudes;
    forall i | |a.events| <= i < |c.events|
      ensures c.events[i].trx == a.trx
    {
      if i < |b.events| {
        assert c.events[i] == b.events[i];
      }
    }
  }

  lemma StepTrans(a: Ctx, b: Ctx, c: Ctx)
    requires Step(a, b) && Step(b, c)
    ensures Step(a, c)
  {
    FlowTrans(a, b, c);
    assert b.history <= c.history && a.history <= b.history;
    hide Flow;
    forall i | |a.history| <= i < |c.history|
      ensures c.history[i].Wrote?
    {
      if i < |b.history| {
        assert c.history[i] == b.history[i];
      }
    }
  }

  /* ---- the VM ---- */

  /** A run of the VM between two host calls: the ticks granted last, and those left. */
  datatype Vm = Vm(previousTicks: i64, ticks: i64, exception: Option<int>, trapped: bool, lost: bool)

  /** How a VM run that traps, or is thrown into, is entered in the journal. */
  function Halt(vm: Vm): MeterOp {
    if vm.exception.Some? then Threw(vm.exception.value) else Trapped
  }

  /**
    The grant never exceeds the meter's budget, and what was burned of it is owed; a run
    that has come down says how at the end of the journal.
  */
  ghost predicate VmOk(c: Ctx, vm: Vm) {
    && vm.ticks <= vm.previousTicks
    && 0 <= vm.previousTicks
    && (!vm.trapped ==> 0 <= vm.ticks && vm.previousTicks <= ComputeRemaining(c.meter))
    && BooksOf(c).owed == vm.previousTicks - vm.ticks
    && BooksOf(c).down == vm.trapped && (vm.exception.Some? ==> vm.trapped)
    && (vm.trapped ==> c.journal != [] && c.journal[|c.journal| - 1] == Halt(vm))
  }

  /** A journal that ends with the end of a VM run. */
  predicate RunEnds(j: seq<MeterOp>) {
    |j| >= 2 && j[|j| - 2].Reported? && j[|j| - 1].Stopped?
  }

  /**
    How that run ended: by the error of its last report if the meter refused it, or else
    by what was thrown into it, or else by its trap, or else it returned.
  */
  function RunEnd(j: seq<MeterOp>): Outcome
    requires RunEnds(j)
  {
    var n := |j| - 2;
    match UseMeterTicks(Audit(j[..n]).meter, j[n].amount).0
    case Some(e) => Thrown(ErrorCode(e))
    case None =>
      if n > 0 && j[n - 1].Threw? then Thrown(j[n - 1].code)
      else if n > 0 && j[n - 1].Trapped? then Thrown(REVERSION)
      else Done
  }

  /** From a to b a contract was run, or found no room or could not be loaded, and that is how it ended. */
  ghost predicate RanAs(a: Ctx, b: Ctx, o: Outcome) {
    && a.journal <= b.journal
    && if b.journal == a.journal || b.journal == a.journal + [Balked] then o == Thrown(REVERSION)
       else |a.journal| + 2 <= |b.journal| && RunEnds(b.journal) && o == RunEnd(b.journal)
  }

  /** The run at the end of the journal returned, or exited with success. */
  predicate EndedWell(j: seq<MeterOp>) {
    RunEnds(j) && (RunEnd(j).Returned? || RunEnd(j) == Thrown(SUCCESS))
  }

  /** The first thing launched between a and b is this entry point of this contract, in user mode, as its metadata has it. */
  predicate RanFirst(a: Ctx, b: Ctx, id: Id, entryPoint: nat) {
    |a.launched| < |b.launched| && b.launched[|a.launched|] == Program(id, User, entryPoint) && !System(a.node, id)
  }

  /** The launch of a contract by `call`, in the mode the stored metadata gives it. */
  function LaunchOf(n: Node, args: Args): Launch {
    Program(args.id, if System(n, args.id) then Kernel else User, args.entryPoint)
  }

  /** What the caller of a contract sees of a run: its exception, or the result that was last set. */
  predicate Shows(run: Outcome, result: ExecResult, o: Outcome) {
    if run.Thrown? && run.code != SUCCESS then o == run
    else if result.code != SUCCESS then o == Thrown(result.code)
    else o.Returned? && o.value == result.payload
  }

  /** A charge was refused last, and `o` is the meter's error. */
  predicate Denies(j: seq<MeterOp>, from: nat, o: Outcome) {
    && from < |j| && j[|j| - 1].Denied?
    && var r := Use(Audit(j[..|j| - 1]).meter, j[|j| - 1].charge);
       r.Err? && o == Thrown(ErrorCode(r.error))
  }

  /**
    A refused charge is a failure, which ends the block, if and only if it exceeds what the
    block has left; a charge that only the payer cannot pay for is a reversion.
  */
  lemma DenialIsFailureExactly(m: Meter, c: Charge)
    requires Use(m, c).Err? && (c.Disk? ==> m.disk <= I64_MAX)
    ensures ErrorCode(Use(m, c).error) ==
              if match c {
                   case Disk(bytes) => bytes > m.disk
                   case Network(bytes) => bytes < 0 || bytes > m.network
                   case Compute(ticks) => ticks < 0 || ticks > m.compute
                 }
              then -1 else 1
  {
    match c
    case Disk(bytes) => DiskLimitExactly(m, bytes);
    case Network(bytes) => NetworkLimitExactly(m, bytes);
    case Compute(ticks) => ComputeLimitExactly(m, ticks);
  }

  lemma DeniesEarlier(j: seq<MeterOp>, from: nat, from': nat, o: Outcome)
    requires from <= from'
    ensures Denies(j, from', o) ==> Denies(j, from, o)
  {
  }

  /**
    What a host call does to the VM: a reversion is thrown into user code and returned to
    kernel code as a code, a failure is returned to both, and `exit` never returns.
  */
  function HostSees(inner: Outcome, sid: Sid, user: bool): Outcome {
    if inner.Reentered? || (user && inner.Thrown? && inner.code >= REVERSION) then inner
    else if sid != ExitId then Done
    else if inner.Thrown? then inner
    else Thrown(SUCCESS)
  }

  lemma DeniedIsShort(a: Ctx, b: Ctx, o: Outcome)
    requires Denies(b.journal, |a.journal|, o)
    ensures Short(a, b)
  {
    hide Use, Audit;
  }

  lemma DenialIs(c: Ctx, charge: Charge)
    requires Core(c) && Use(c.meter, charge).Err?
    ensures Denies(c.journal + [Denied(charge)], |c.journal|, Thrown(ErrorCode(Use(c.meter, charge).error)))
  {
    hide CacheOk, EventsOk, Replay, Holds, Audit, Use;
    assert (c.journal + [Denied(charge)])[..|c.journal|] == c.journal;
  }

  /** A frame that is pushed runs its contract; one that finds no room runs none. */
  ghost predicate Launches(a: Ctx, b: Ctx, f: Frame, o: Outcome) {
    !o.Reentered? ==>
      if |a.stack| < STACK_LIMIT
      then a.launched + [Program(f.contractId, f.privilege, f.entryPoint)] <= b.launched
      else b.launched == a.launched && b.journal == a.journal + [Balked] && o == Thrown(REVERSION)
  }

  /** What the run of an override yields: native code looks at the result code, the host API does not. */
  predicate Yields(run: Outcome, result: ExecResult, sid: Sid, native: bool, o: Outcome) {
    if run.Thrown? && run.code != SUCCESS then o == run
    else if native && result.code != SUCCESS then o == Thrown(result.code)
    else if native && sid == ExitId then o == Thrown(SUCCESS)
    else o.Returned? && o.value == result.payload
  }

  lemma RunEndIs(c: Ctx, vm: Vm, t: u64, j: seq<MeterOp>)
    requires Core(c) && VmOk(c, vm) && j == c.journal + [Reported(t)] + [Stopped]
    ensures RunEnds(j)
    ensures RunEnd(j) == match UseMeterTicks(c.meter, t).0
                         case Some(e) => Thrown(ErrorCode(e))
                         case None => if vm.exception.Some? then Thrown(vm.exception.value)
                                      else if vm.trapped then Thrown(REVERSION) else Done
  {
    hide CacheOk, EventsOk, Replay, Holds, UseMeterTicks, ComputeRemaining, Audit;
    assert j[..|j| - 2] == c.journal;
    DownIsFatal(c.journal);
  }

  /* ---- who wrote what ---- */

  /** Between a and b no override was taken and no contract ran in kernel mode. */
  ghost predicate UserOnly(a: Ctx, b: Ctx) {
    forall i {:trigger b.launched[i]} :: |a.launched| <= i < |b.launched| ==> UserRun(b.launched[i])
  }

  predicate UserRun(l: Launch) {
    l.Program? && l.privilege == User
  }

  /** The i-th launch is the first one that is not a user program. */
  ghost predicate FirstOther(a: Ctx, b: Ctx, i: nat) {
    && |a.launched| <= i < |b.launched| && !UserRun(b.launched[i])
    && forall j {:trigger b.launched[j]} :: |a.launched| <= j < i ==> UserRun(b.launched[j])
  }

  predicate System(n: Node, id: Id) {
    DecodeMeta(Get(n, MetaKey(id))).system
  }

  /** The state calls for this launch: an override is in the parent state, a kernel program is a system contract. */
  ghost predicate Called(c: Ctx, l: Launch) {
    match l
    case Overridden(sid) => c.parent.Some? ==> Overrides(LookupCall(c.parent.value, sid))
    case Program(id, privilege, _) => privilege == Kernel ==> System(c.node, id)
  }

  ghost predicate NoNewSystem(n: Node, n': Node) {
    forall id {:trigger System(n', id)} :: System(n', id) ==> System(n, id)
  }

  ghost predicate RanIn(a: Ctx, b: Ctx, id: Id) {
    exists i {:trigger b.launched[i]} :: |a.launched| <= i < |b.launched| && b.launched[i].Program? && b.launched[i].id == id
  }

  /** An object that code a caller vouches for may write, or one in the own zone of a contract that ran. */
  ghost predicate MayWrite(a: Ctx, b: Ctx, direct: iset<Key>, k: Key) {
    k in direct || (!k.space.system && RanIn(a, b, k.space.zone))
  }

  ghost predicate Confined(a: Ctx, b: Ctx, direct: iset<Key>) {
    forall i {:trigger b.history[i]} :: |a.history| <= i < |b.history| && b.history[i].Wrote? ==>
      MayWrite(a, b, direct, b.history[i].key)
  }

  ghost predicate HasCode(n: Node, id: Id) {
    Get(n, BytecodeKey(id)).Some?
  }

  /** A contract that ran had its bytecode in the state, or that was written. */
  ghost predicate Coded(a: Ctx, b: Ctx, direct: iset<Key>) {
    forall id {:trigger RanIn(a, b, id)} :: RanIn(a, b, id) ==> HasCode(a.node, id) || BytecodeKey(id) in direct
  }

  ghost predicate Calm(a: Ctx, b: Ctx, direct: iset<Key>) {
    UserOnly(a, b) ==> Confined(a, b, direct) && Coded(a, b, direct)
  }

  /** b's logs continue a's, and an object nobody wrote in between is as it was. */
  ghost predicate Grows(a: Ctx, b: Ctx) {
    && b.parent == a.parent
    && a.history <= b.history && a.launched <= b.launched
    && forall k {:trigger Untouched(b.history, |a.history|, k)} ::
         Untouched(b.history, |a.history|, k) ==> Get(b.node, k) == Get(a.node, k)
  }

  /** No system call is overridden in the parent state, and no contract is a system contract. */
  ghost predicate UserWorld(c: Ctx) {
    && c.parent.Some?
    && (forall sid :: Get(c.parent.value, DispatchKey(sid)) == None)
    && (forall id :: !DecodeMeta(Get(c.node, MetaKey(id))).system)
  }

  /**
    Kernel mode does not come from nowhere: if the caller itself makes no contract a
    system contract, user-only execution makes none either, and execution stops being
    user only at an override of the parent state or at a system contract of a's state.
  */
  ghost predicate Safe(a: Ctx, b: Ctx, keeps: bool) {
    keeps ==>
      && (UserOnly(a, b) ==> NoNewSystem(a.node, b.node))
      && (forall i: nat {:trigger FirstOther(a, b, i)} :: FirstOther(a, b, i) ==> Called(a, b.launched[i]))
  }

  /** Execution from a to b, possibly in the middle of a VM run. `lost`: it was re-entered. */
  ghost predicate Moved(a: Ctx, b: Ctx, direct: iset<Key>, keeps: bool, lost: bool) {
    && b.stack == a.stack
    && (lost ==> !a.intent.ReadOnly? && !(keeps && UserWorld(a)))
    && (!lost ==> Core(b) && Step(a, b) && Calm(a, b, direct) && Safe(a, b, keeps))
  }

  /**
    What every piece of execution does, whatever contracts did in it: unless it was
    re-entered it is a step that keeps the invariant; if it was user only, everything
    it wrote was written by a contract into its own zone or is in `direct`; and if
    `keeps`, it is user only up to where the state itself calls for kernel mode.
  */
  ghost predicate Went(a: Ctx, b: Ctx, direct: iset<Key>, keeps: bool, lost: bool) {
    Moved(a, b, direct, keeps, lost) && (!lost ==> Inv(b))
  }

  /** The same of execution that may also fork, merge and drop nodes, as a transaction does. */
  ghost predicate Strode(a: Ctx, b: Ctx, direct: iset<Key>, keeps: bool, lost: bool) {
    && b.stack == a.stack
    && (lost ==> !a.intent.ReadOnly? && !(keeps && UserWorld(a)))
    && (!lost ==> Inv(b) && Flow(a, b) && Grows(a, b) && Calm(a, b, direct) && Safe(a, b, keeps))
  }

  /** The system objects a thunk itself writes when kernel code calls it. */
  function Direct(sid: Sid, args: Args): iset<Key> {
    match sid
    case PutObjectId | RemoveObjectId => iset{args.key}
    case SetAccountNonceId => iset{NonceKey(args.id)}
    case UploadContractId => iset{BytecodeKey(args.id), MetaKey(args.id)}
    case SetSystemCallId => iset{DispatchKey(args.sid)}
    case SetSystemContractId => iset{MetaKey(args.id)}
    case _ => iset{}
  }

  /** The objects in a contract's own zone. */
  ghost function Zone(id: Id): iset<Key> {
    iset k: Key | !k.space.system && k.space.zone == id
  }

  /** What a call writes itself: user code names an object of its own zone, or writes none. */
  ghost function DirectOf(caller: Frame, sid: Sid, args: Args): iset<Key> {
    if caller.privilege == Kernel then Direct(sid, args)
    else if sid == PutObjectId || sid == RemoveObjectId then iset{args.key} * Zone(caller.contractId)
    else iset{}
  }

  /** A write that makes no contract a system contract. */
  predicate Harmless(n: Node, k: Key, v: Option<Val>) {
    k.space == CONTRACT_METADATA && DecodeMeta(v).system ==> DecodeMeta(Get(n, k)).system
  }

  /** Kernel calls that make no contract a system contract. */
  predicate KeepsWorld(n: Node, sid: Sid, args: Args) {
    match sid
    case PutObjectId => Harmless(n, args.key, Some(args.value))
    case SetSystemContractId => !args.flag
    case ApplyBlockId | ApplyTransactionId => false
    case _ => true
  }

  predicate Keeps(n: Node, caller: Frame, sid: Sid, args: Args) {
    caller.privilege == User || KeepsWorld(n, sid, args)
  }

  function CurrentNonce(n: Node, account: Id): Val {
    match Get(n, NonceKey(account))
    case Some(v) => v
    case None => Nonce(0)
  }

  predicate NonceFollows(n: Node, account: Id, v: Val) {
    && v.Nonce? && CurrentNonce(n, account).Nonce?
    && v.nonce == ToU64(CurrentNonce(n, account).nonce + 1)
  }

  /** What may override a system call: a system contract, but never for `call`, or a thunk that exists. */
  predicate Eligible(n: Node, args: Args) {
    if args.target.Bundle?
    then args.sid != CallId && System(n, args.target.contractId) && Get(n, BytecodeKey(args.target.contractId)).Some?
    else !args.target.thunk.UnknownId?
  }

  /** An existing contract's metadata is what it was, but for the system flag. */
  predicate Flagged(n: Node, n': Node, id: Id, system: bool) {
    var m := DecodeMeta(Get(n, MetaKey(id)));
    m.hash != "" && Get(n, BytecodeKey(id)).Some? && Get(n', MetaKey(id)) == Some(Meta(m.(system := system)))
  }

  /** An account's contract authorizes calls (0), transactions (1) or uploads (2) for it. */
  predicate Delegates(meta: ContractMeta, kind: nat) {
    || (kind == 0 && meta.authorizesCall)
    || (kind == 1 && meta.authorizesTransaction)
    || (kind == 2 && meta.authorizesUpload)
  }

  function GrantOf(v: Option<Val>): bool {
    v.Some? && v.value.Authorization? && v.value.granted
  }

  /** The address of the genesis key. */
  function GenesisOf(n: Node): Id {
    match Get(n, GENESIS_KEY)
    case Some(Bytes(address)) => address
    case _ => ""
  }

  /** What kernel code, and of `call` any code, may rely on when a call it made returns. */
  ghost predicate Answers(sid: Sid, args: Args, a: Ctx, b: Ctx, o: Outcome) {
    o.Returned? ==>
      match sid
      case GetObjectId => Unwritten(a, b) && o.value == Get(a.node, args.key)
      case GetAccountNonceId => Unwritten(a, b) && o.value == Some(CurrentNonce(a.node, args.id))
      case VerifyAccountNonceId => Unwritten(a, b) && o.flag == NonceFollows(a.node, args.id, args.value)
      case GetAccountRcId => Unwritten(a, b) && Get(a.node, MAX_ACCOUNT_RESOURCES) == Some(MaxResources(o.number))
      case SetAccountNonceId => args.value.Nonce? && Get(b.node, NonceKey(args.id)) == Some(args.value)
      case PutObjectId => Get(b.node, args.key) == Some(args.value)
      case UploadContractId =>
        && Get(b.node, BytecodeKey(args.id)) == Some(args.value)
        && Vouched(b.journal, |a.journal|, args.id, 2)
        && var m, m' := Get(a.node, MetaKey(args.id)), Get(b.node, MetaKey(args.id));
           m'.Some? && DecodeMeta(m').system == DecodeMeta(m).system
      case CheckAuthorityId =>
        && (o.flag ==> Vouched(b.journal, |a.journal|, args.id, args.entryPoint))
        && if Delegates(DecodeMeta(Get(a.node, MetaKey(args.id))), args.entryPoint)
           then RanFirst(a, b, args.id, AUTHORIZE_ENTRYPOINT) && o.flag == GrantOf(b.result.payload)
           else o.flag ==> Recovers(b.journal, |a.journal|, args.id)
      case CheckSystemAuthorityId =>
        o.flag ==>
          && Vouched(b.journal, |a.journal|, KERNEL_ZONE, SYSTEM_AUTHORITY)
          && Recovers(b.journal, |a.journal|, GenesisOf(a.node))
      case CallId | CallContractId =>
        && RanFirst(a, b, args.id, args.entryPoint) && EndedWell(b.journal)
        && (sid == CallId ==> o.value == b.result.payload)
      case SetSystemCallId =>
        && Get(b.node, DispatchKey(args.sid)) == Some(CallTarget(args.target)) && Eligible(a.node, args)
        && Vouched(b.journal, |a.journal|, KERNEL_ZONE, SYSTEM_AUTHORITY)
      case SetSystemContractId =>
        Flagged(a.node, b.node, args.id, args.flag) && Vouched(b.journal, |a.journal|, KERNEL_ZONE, SYSTEM_AUTHORITY)
      case ConsumeAccountRcId =>
        |a.journal| < |b.journal| && b.journal[|b.journal| - 1] == Consumed(args.id, args.amount)
      case _ => true
  }

  /** The last thing between a and b was the meter refusing a charge, or a want of room. */
  predicate Short(a: Ctx, b: Ctx) {
    |a.journal| < |b.journal| && (b.journal[|b.journal| - 1].Denied? || b.journal[|b.journal| - 1].Balked?)
  }

  /** A contract that can be called: it has bytecode and metadata, and only kernel code asks it to authorize. */
  predicate Callable(n: Node, args: Args, privileged: bool) {
    && Get(n, BytecodeKey(args.id)).Some? && Get(n, MetaKey(args.id)).Some?
    && DecodeMeta(Get(n, MetaKey(args.id))).hash != ""
    && (args.entryPoint == AUTHORIZE_ENTRYPOINT ==> privileged)
  }

  /** The contract ran, and `o` is what its caller sees of that; or it could not be loaded. */
  predicate RanOut(a: Ctx, b: Ctx, args: Args, o: Outcome) {
    && RanFirst(a, b, args.id, args.entryPoint)
    && (o == Thrown(REVERSION) || (RunEnds(b.journal) && Shows(RunEnd(b.journal), b.result, o)))
  }

  /**
    Why a call threw: the meter or a limit was short, a thunk it needs has no price, or the
    state the caller sees, or the contract that was run, is the reason. Nothing is said of
    calls that depend on signatures or on other open results.
  */
  ghost predicate Excused(sid: Sid, args: Args, a: Ctx, b: Ctx, caller: Frame, o: Outcome) {
    || Short(a, b)
    || sid !in a.priced
    || match sid
       case GetObjectId => !Permitted(caller.contractId, caller.privilege, args.key.space)
       case PutObjectId | RemoveObjectId =>
         a.intent.ReadOnly? || !Permitted(caller.contractId, caller.privilege, args.key.space)
       case GetAccountNonceId => GetObjectId !in a.priced
       case VerifyAccountNonceId =>
         || GetAccountNonceId !in a.priced || GetObjectId !in a.priced
         || !args.value.Nonce? || !CurrentNonce(a.node, args.id).Nonce?
       case SetAccountNonceId => PutObjectId !in a.priced || a.intent.ReadOnly? || !args.value.Nonce?
       case GetAccountRcId =>
         || GetObjectId !in a.priced
         || match Get(a.node, MAX_ACCOUNT_RESOURCES) { case Some(MaxResources(_)) => false case _ => true }
       case CallId =>
         GetObjectId !in a.priced || !Callable(a.node, args, caller.privilege == Kernel) || RanOut(a, b, args, o)
       case CallContractId =>
         || CallId !in a.priced || GetObjectId !in a.priced
         || a.intent.ReadOnly? || !Callable(a.node, args, false) || RanOut(a, b, args, o)
       case _ => true
  }

  lemma ExcusedEarlier(a: Ctx, b: Ctx, c: Ctx, sid: Sid, args: Args, caller: Frame, o: Outcome)
    requires Excused(sid, args, b, c, caller, o) && Unwritten(a, b) && b.launched == a.launched
    requires |a.journal| <= |b.journal| && b.priced == a.priced && b.intent == a.intent
    ensures Excused(sid, args, a, c, caller, o)
  {
    hide Get, RunEnds, RunEnd, Shows;
  }

  /** However they end, RC consumption by the default thunk emits no event, and reading an object runs no contract. */
  predicate Silent(a: Ctx, b: Ctx, sid: Sid) {
    && (sid == ConsumeAccountRcId ==> b.events == a.events)
    && (sid == GetObjectId ==> b.launched == a.launched)
  }

  ghost predicate Truthful(a: Ctx, b: Ctx, caller: Frame, sid: Sid, args: Args, o: Outcome) {
    !o.Reentered? && UserOnly(a, b) && (caller.privilege == Kernel || sid == CallId) ==>
      && Answers(sid, args, a, b, o) && Silent(a, b, sid)
      && (o.Thrown? && a.parent.Some? ==> Excused(sid, args, a, b, caller, o))
  }

  /** What a system call does for its caller. */
  ghost predicate Served(a: Ctx, b: Ctx, caller: Frame, sid: Sid, args: Args, o: Outcome) {
    && Went(a, b, DirectOf(caller, sid, args), Keeps(a.node, caller, sid, args), o.Reentered?)
    && Truthful(a, b, caller, sid, args, o)
  }

  /** Outside a session, the default `consume_account_rc` consumes or fails the block; it never reverts. */
  predicate Settles(a: Ctx, sid: Sid, o: Outcome) {
    sid == ConsumeAccountRcId && sid in a.priced && a.parent.Some? && a.meter.session.None? ==>
      (o.Returned? && o.flag) || o == Thrown(FAILURE)
  }

  /* ---- user only, step by step ---- */

  lemma UserOnlySplits(a: Ctx, b: Ctx, c: Ctx)
    requires a.launched <= b.launched <= c.launched
    ensures UserOnly(a, c) <==> UserOnly(a, b) && UserOnly(b, c)
  {
    assert forall i :: 0 <= i < |b.launched| ==> b.launched[i] == c.launched[i];
  }

  lemma RanInSplits(a: Ctx, b: Ctx, c: Ctx, id: Id)
    requires a.launched <= b.launched <= c.launched
    ensures RanIn(a, c, id) <==> RanIn(a, b, id) || RanIn(b, c, id)
  {
    assert forall i :: 0 <= i < |b.launched| ==> b.launched[i] == c.launched[i];
    if RanIn(a, b, id) {
      var i :| |a.launched| <= i < |b.launched| && b.launched[i].Program? && b.launched[i].id == id;
      assert c.launched[i].id == id;
    }
  }

  /** An object outside what a piece of execution may write keeps its value. */
  lemma ConfinedFrame(a: Ctx, b: Ctx, direct: iset<Key>, k: Key)
    requires Grows(a, b) && Confined(a, b, direct) && !MayWrite(a, b, direct, k)
    ensures Get(b.node, k) == Get(a.node, k)
  {
    hide MayWrite, RanIn, Get;
    assert Untouched(b.history, |a.history|, k);
  }

  lemma ConfinedTrans(a: Ctx, b: Ctx, c: Ctx, d: iset<Key>, e: iset<Key>, f: iset<Key>)
    requires Grows(a, b) && Grows(b, c) && d <= f && e <= f
    requires Confined(a, b, d) && Confined(b, c, e)
    ensures Confined(a, c, f)
  {
    hide RanIn, Replay;
    forall i | |a.history| <= i < |c.history| && c.history[i].Wrote?
      ensures MayWrite(a, c, f, c.history[i].key)
    {
      RanInSplits(a, b, c, c.history[i].key.space.zone);
      if i < |b.history| {
        assert c.history[i] == b.history[i];
        assert MayWrite(a, b, d, b.history[i].key);
      } else {
        assert MayWrite(b, c, e, c.history[i].key);
      }
    }
  }

  lemma CodedTrans(a: Ctx, b: Ctx, c: Ctx, d: iset<Key>, e: iset<Key>, f: iset<Key>)
    requires Grows(a, b) && Grows(b, c) && d <= f && e <= f
    requires Confined(a, b, d) && Coded(a, b, d) && Coded(b, c, e)
    ensures Coded(a, c, f)
  {
    hide RanIn, Replay, Get, Confined;
    forall id | RanIn(a, c, id)
      ensures HasCode(a.node, id) || BytecodeKey(id) in f
    {
      RanInSplits(a, b, c, id);
      if !RanIn(a, b, id) && BytecodeKey(id) !in d {
        assert !MayWrite(a, b, d, BytecodeKey(id));
        ConfinedFrame(a, b, d, BytecodeKey(id));
      }
    }
  }

  /** Only what follows user-only execution matters, so the second half may assume the first was. */
  lemma CalmTrans(a: Ctx, b: Ctx, c: Ctx, d: iset<Key>, e: iset<Key>, f: iset<Key>)
    requires Grows(a, b) && Grows(b, c) && d <= f && (UserOnly(a, b) ==> e <= f)
    requires Calm(a, b, d) && Calm(b, c, e)
    ensures Calm(a, c, f)
  {
    hide Grows, UserOnly, Confined, Coded;
    UserOnlySplit(a, b, c);
    if UserOnly(a, c) {
      ConfinedTrans(a, b, c, d, e, f);
      CodedTrans(a, b, c, d, e, f);
    }
  }

  lemma UserOnlySplit(a: Ctx, b: Ctx, c: Ctx)
    requires Grows(a, b) && Grows(b, c)
    ensures UserOnly(a, c) <==> UserOnly(a, b) && UserOnly(b, c)
  {
    hide Replay, UserOnly;
    UserOnlySplits(a, b, c);
  }

  lemma StepGrows(a: Ctx, b: Ctx)
    requires Core(a) && Core(b) && Step(a, b)
    ensures Grows(a, b)
  {
    hide MeterOk, CacheOk, EventsOk, Replay, Holds, Get;
    forall k | Untouched(b.history, |a.history|, k)
      ensures Get(b.node, k) == Get(a.node, k)
    {
      ReplayFrame(a.origin, b.history, |a.history|, k);
      assert b.history[..|a.history|] == a.history;
    }
  }

  lemma GrowsTrans(a: Ctx, b: Ctx, c: Ctx)
    requires Grows(a, b) && Grows(b, c)
    ensures Grows(a, c)
  {
    hide Get;
    forall k | Untouched(c.history, |a.history|, k)
      ensures Get(c.node, k) == Get(a.node, k)
    {
      assert Untouched(c.history, |b.history|, k);
      assert Untouched(b.history, |a.history|, k) by {
        assert forall i :: 0 <= i < |b.history| ==> b.history[i] == c.history[i];
      }
    }
  }

  /**
    Zone isolation on the state: an object changes only if it is in `direct`, or lies
    outside the system spaces in the zone of a contract that ran.
  */
  lemma ZoneIsolation(a: Ctx, b: Ctx, direct: iset<Key>, k: Key)
    requires Grows(a, b) && Calm(a, b, direct) && UserOnly(a, b)
    ensures Get(b.node, k) != Get(a.node, k) ==> k in direct || (!k.space.system && RanIn(a, b, k.space.zone))
  {
    hide Grows, RanIn, Confined;
    if !MayWrite(a, b, direct, k) {
      ConfinedFrame(a, b, direct, k);
    }
  }

  /** What a caller can check: the objects of a zone without bytecode stay, unless bytecode is written for it. */
  lemma DormantZone(a: Ctx, b: Ctx, direct: iset<Key>, k: Key)
    requires Grows(a, b) && Calm(a, b, direct) && UserOnly(a, b)
    requires !HasCode(a.node, k.space.zone) && BytecodeKey(k.space.zone) !in direct && k !in direct
    ensures Get(b.node, k) == Get(a.node, k)
  {
    hide Grows, RanIn, Confined;
    ZoneIsolation(a, b, direct, k);
    assert RanIn(a, b, k.space.zone) ==> false;
  }

  /* ---- composing ---- */

  lemma SafeTrans(a: Ctx, b: Ctx, c: Ctx, k1: bool, k2: bool, k: bool)
    requires Grows(a, b) && Grows(b, c) && Safe(a, b, k1) && Safe(b, c, k2)
    requires (k ==> k1) && (k && UserOnly(a, b) ==> k2)
    ensures Safe(a, c, k)
  {
    UserOnlySplit(a, b, c);
    if k {
      hide Replay, LookupCall, System;
      forall i: nat | FirstOther(a, c, i)
        ensures Called(a, c.launched[i])
      {
        assert forall j :: 0 <= j < |b.launched| ==> b.launched[j] == c.launched[j];
        if i < |b.launched| {
          assert FirstOther(a, b, i);
        } else {
          assert UserOnly(a, b) && FirstOther(b, c, i);
        }
      }
    }
  }

  lemma {:induction false} FirstExists(a: Ctx, b: Ctx, n: nat) returns (i: nat)
    requires |a.launched| <= n <= |b.launched|
    requires forall j {:trigger b.launched[j]} :: |a.launched| <= j < n ==> UserRun(b.launched[j])
    ensures !UserOnly(a, b) ==> FirstOther(a, b, i)
    decreases |b.launched| - n
  {
    i := n;
    if n < |b.launched| && UserRun(b.launched[n]) {
      i := FirstExists(a, b, n + 1);
    }
  }

  /** What a caller can check beforehand: from a user world everything is user only. */
  lemma UserWorldIsUserOnly(a: Ctx, b: Ctx, keeps: bool)
    requires UserWorld(a) && Grows(a, b) && Safe(a, b, keeps) && keeps
    ensures UserOnly(a, b) && UserWorld(b)
  {
    hide Replay;
    var i := FirstExists(a, b, |a.launched|);
    if !UserOnly(a, b) {
      assert Called(a, b.launched[i]);
      match b.launched[i]
      case Overridden(sid) =>
        UserDispatch(a, sid);
        assert false;
      case Program(id, _, _) =>
        assert false;
    }
    forall id
      ensures !DecodeMeta(Get(b.node, MetaKey(id))).system
    {
      assert System(b.node, id) ==> System(a.node, id);
    }
  }

  lemma MovedThen(a: Ctx, b: Ctx, c: Ctx, d: iset<Key>, e: iset<Key>, f: iset<Key>,
                  k1: bool, k2: bool, k: bool, lost: bool)
    requires Core(a) && Moved(a, b, d, k1, false) && Moved(b, c, e, k2, lost)
    requires d <= f && (UserOnly(a, b) ==> e <= f)
    requires (k ==> k1) && (k && UserOnly(a, b) ==> k2)
    ensures Moved(a, c, f, k, lost)
  {
    hide Core, Calm, UserWorld, UserOnly, Grows, Safe;
    assert Step(a, b);
    StepGrows(a, b);
    if !lost {
      StepGrows(b, c);
      StepTrans(a, b, c);
      CalmTrans(a, b, c, d, e, f);
      SafeTrans(a, b, c, k1, k2, k);
    } else if k && UserWorld(a) {
      UserWorldIsUserOnly(a, b, k1);
    }
  }

  lemma WentThen(a: Ctx, b: Ctx, c: Ctx, d: iset<Key>, e: iset<Key>, f: iset<Key>,
                 k1: bool, k2: bool, k: bool, lost: bool)
    requires Inv(a) && Went(a, b, d, k1, false) && Went(b, c, e, k2, lost)
    requires d <= f && (UserOnly(a, b) ==> e <= f)
    requires (k ==> k1) && (k && UserOnly(a, b) ==> k2)
    ensures Went(a, c, f, k, lost)
    ensures !lost ==> (UserOnly(a, c) <==> UserOnly(a, b) && UserOnly(b, c))
  {
    hide Core, Moved, UserWorld, UserOnly, Step;
    MovedThen(a, b, c, d, e, f, k1, k2, k, lost);
    if !lost {
      WentSteps(a, b, d, k1);
      WentSteps(b, c, e, k2);
      StepShape(a, b);
      StepShape(b, c);
      UserOnlySplits(a, b, c);
    }
  }

  lemma WentMore(a: Ctx, b: Ctx, d: iset<Key>, e: iset<Key>, k1: bool, k: bool, lost: bool)
    requires Went(a, b, d, k1, lost) && d <= e && (k ==> k1)
    ensures Went(a, b, e, k, lost)
  {
    hide Inv, Core, Step, UserWorld, UserOnly, RanIn;
    forall i | |a.history| <= i < |b.history| && b.history[i].Wrote? && Confined(a, b, d)
      ensures MayWrite(a, b, e, b.history[i].key)
    {
      assert MayWrite(a, b, d, b.history[i].key);
    }
  }

  lemma WentSteps(a: Ctx, b: Ctx, d: iset<Key>, k: bool)
    requires Went(a, b, d, k, false)
    ensures Inv(b) && Step(a, b) && Calm(a, b, d) && Safe(a, b, k)
  {
  }

  lemma WentStrode(a: Ctx, b: Ctx, d: iset<Key>, k: bool, lost: bool)
    requires Inv(a) && Went(a, b, d, k, lost)
    ensures Strode(a, b, d, k, lost)
  {
    hide Core, Calm, Safe, Grows, UserWorld;
    if !lost {
      StepGrows(a, b);
    }
  }

  lemma StrodeParts(a: Ctx, b: Ctx, d: iset<Key>, k: bool)
    requires Strode(a, b, d, k, false)
    ensures Inv(b) && Flow(a, b) && Grows(a, b) && Calm(a, b, d) && Safe(a, b, k)
  {
  }

  lemma StrodeThen(a: Ctx, b: Ctx, c: Ctx, d: iset<Key>, e: iset<Key>, f: iset<Key>,
                   k1: bool, k2: bool, k: bool, lost: bool)
    requires Strode(a, b, d, k1, false) && Strode(b, c, e, k2, lost)
    requires d <= f && (UserOnly(a, b) ==> e <= f)
    requires (k ==> k1) && (k && UserOnly(a, b) ==> k2)
    ensures Strode(a, c, f, k, lost)
    ensures !lost ==> (UserOnly(a, c) <==> UserOnly(a, b) && UserOnly(b, c))
  {
    hide Inv, Calm, UserWorld, UserOnly, Grows, Safe;
    if !lost {
      FlowTrans(a, b, c);
      GrowsTrans(a, b, c);
      CalmTrans(a, b, c, d, e, f);
      SafeTrans(a, b, c, k1, k2, k);
      UserOnlySplit(a, b, c);
    } else if k && UserWorld(a) {
      UserWorldIsUserOnly(a, b, k1);
    }
    assert b.intent == a.intent;
  }

  lemma CalmMore(a: Ctx, b: Ctx, d: iset<Key>, e: iset<Key>)
    requires Calm(a, b, d) && d <= e
    ensures Calm(a, b, e)
  {
    hide RanIn;
    if UserOnly(a, b) {
      forall i | |a.history| <= i < |b.history| && b.history[i].Wrote?
        ensures MayWrite(a, b, e, b.history[i].key)
      {
        assert MayWrite(a, b, d, b.history[i].key);
      }
    }
  }

  lemma StrodeMore(a: Ctx, b: Ctx, d: iset<Key>, e: iset<Key>, k1: bool, k: bool, lost: bool)
    requires Strode(a, b, d, k1, lost) && d <= e && (k ==> k1)
    ensures Strode(a, b, e, k, lost)
  {
    hide Inv, Flow, Calm, Grows, UserWorld, UserOnly;
    if !lost {
      CalmMore(a, b, d, e);
    }
  }

  /* ---- forks ---- */

  function Turned(c: Ctx, n: Node, d: Deed): Ctx {
    c.(node := n, history := c.history + [d])
  }

  /** Turning to another node of the same history keeps everything else. */
  lemma TurnKeepsInv(c: Ctx, n: Node, d: Deed)
    requires Inv(c) && n == Redo(c.node, d) && !c.intent.ReadOnly?
    ensures Inv(Turned(c, n, d)) && Flow(c, Turned(c, n, d))
  {
    hide Audit, Holds;
    ReplaySnoc(c.origin, c.history, d);
  }

  /** A turn that leaves every object as it is, such as a fork or a merge. */
  lemma TurnStrode(c: Ctx, n: Node, d: Deed, direct: iset<Key>, keeps: bool)
    requires Inv(c) && n == Redo(c.node, d) && !c.intent.ReadOnly? && !d.Wrote?
    requires forall k :: Get(n, k) == Get(c.node, k)
    ensures Strode(c, Turned(c, n, d), direct, keeps, false) && UserOnly(c, Turned(c, n, d))
  {
    TurnKeepsInv(c, n, d);
    hide Inv, Flow, Redo, Get;
  }

  /** Dropping a fork brings back the node it was forked from. */
  lemma DropStrode(a: Ctx, b: Ctx, direct: iset<Key>, keeps: bool)
    requires Strode(a, b, direct, keeps, false) && a.node == Redo(b.node, Dropped) && !a.intent.ReadOnly?
    ensures Strode(a, Turned(b, a.node, Dropped), direct, keeps, false)
    ensures UserOnly(a, Turned(b, a.node, Dropped)) <==> UserOnly(a, b)
  {
    var r := Turned(b, a.node, Dropped);
    assert b.intent == a.intent by {
      FlowShape(a, b);
    }
    TurnKeepsInv(b, a.node, Dropped);
    FlowTrans(a, b, r);
    assert forall id :: RanIn(a, b, id) == RanIn(a, r, id);
    assert forall i: nat :: FirstOther(a, b, i) == FirstOther(a, r, i);
    hide Inv, Flow, Redo, RanIn, FirstOther, Grows;
    assert Grows(a, r) by {
      DropGrows(a, b);
    }
    if UserOnly(a, r) && Confined(a, b, direct) {
      forall i | |a.history| <= i < |r.history| && r.history[i].Wrote?
        ensures MayWrite(a, r, direct, r.history[i].key)
      {
        assert r.history[i] == b.history[i];
        assert MayWrite(a, b, direct, b.history[i].key);
      }
    }
  }

  lemma DropGrows(a: Ctx, b: Ctx)
    requires Grows(a, b)
    ensures Grows(a, Turned(b, a.node, Dropped))
  {
    assert a.history <= b.history + [Dropped];
  }

  /** Execution on a fork that only wrote stays over the node it was forked from. */
  lemma ForkShape(a: Ctx, b: Ctx)
    requires Inv(a) && Inv(b) && Step(Turned(a, Anonymous(a.node), Forked), b)
    ensures b.node.Over? && b.node.parent == a.node
  {
    hide Audit, Holds, CacheOk, EventsOk;
    var h := a.history + [Forked];
    var w := b.history[|h|..];
    assert b.history == h + w;
    ReplaySnoc(a.origin, a.history, Forked);
    ReplayConcat(a.origin, h, w);
    assert OnlyWrote(w, 0);
    WritesKeepShape(Anonymous(a.node), w);
  }

  /* ---- single moves ---- */

  /** Nothing was written and nothing launched. */
  lemma IdleMove(a: Ctx, b: Ctx, direct: iset<Key>, keeps: bool)
    requires Core(b) && Step(a, b) && Unwritten(a, b) && b.launched == a.launched
    ensures Moved(a, b, direct, keeps, false) && UserOnly(a, b)
  {
    hide Core, Step;
    assert b.parent == a.parent && b.stack == a.stack by {
      StepShape(a, b);
    }
  }

  lemma IdleWent(a: Ctx, b: Ctx, direct: iset<Key>, keeps: bool)
    requires Inv(b) && Step(a, b) && Unwritten(a, b) && b.launched == a.launched
    ensures Went(a, b, direct, keeps, false) && UserOnly(a, b)
  {
    hide Core, Step, Moved;
    IdleMove(a, b, direct, keeps);
  }

  lemma IdleServes(a: Ctx, b: Ctx, caller: Frame, sid: Sid, args: Args, o: Outcome)
    requires Inv(b) && Step(a, b) && Unwritten(a, b) && b.launched == a.launched
    requires !o.Reentered? && Answers(sid, args, a, b, o) && Silent(a, b, sid)
    requires o.Thrown? && a.parent.Some? && caller.privilege == Kernel ==> Excused(sid, args, a, b, caller, o)
    requires sid != CallId
    ensures Served(a, b, caller, sid, args, o)
  {
    hide Inv, Step, Went, Excused;
    IdleWent(a, b, DirectOf(caller, sid, args), Keeps(a.node, caller, sid, args));
  }

  lemma AnswersEarlier(a: Ctx, b: Ctx, c: Ctx, sid: Sid, args: Args, o: Outcome)
    requires Answers(sid, args, b, c, o) && Unwritten(a, b) && b.launched == a.launched && |a.journal| <= |b.journal|
    ensures Answers(sid, args, a, c, o)
  {
    hide Get, EndedWell;
    if Recovers(c.journal, |b.journal|, args.id) {
      RecoversStays(c.journal, c.journal, |b.journal|, |a.journal|, args.id);
    }
    if Recovers(c.journal, |b.journal|, GenesisOf(b.node)) {
      RecoversStays(c.journal, c.journal, |b.journal|, |a.journal|, GenesisOf(b.node));
    }
    hide Recovers;
    if Vouched(c.journal, |b.journal|, KERNEL_ZONE, SYSTEM_AUTHORITY) {
      VouchedStays(c.journal, c.journal, |b.journal|, |a.journal|, KERNEL_ZONE, SYSTEM_AUTHORITY);
    }
    if Vouched(c.journal, |b.journal|, args.id, 2) {
      VouchedStays(c.journal, c.journal, |b.journal|, |a.journal|, args.id, 2);
    }
    if Vouched(c.journal, |b.journal|, args.id, args.entryPoint) {
      VouchedStays(c.journal, c.journal, |b.journal|, |a.journal|, args.id, args.entryPoint);
    }
    hide Vouched;
  }

  lemma TruthfulEarlier(a: Ctx, b: Ctx, c: Ctx, caller: Frame, sid: Sid, args: Args, o: Outcome)
    requires Truthful(b, c, caller, sid, args, o) && Unwritten(a, b) && Silent(a, b, sid)
    requires b.launched == a.launched && |a.journal| <= |b.journal|
    requires b.priced == a.priced && b.intent == a.intent && b.parent == a.parent
    requires !o.Reentered? ==> (UserOnly(a, c) ==> UserOnly(b, c))
    ensures Truthful(a, c, caller, sid, args, o)
  {
    if Answers(sid, args, b, c, o) {
      AnswersEarlier(a, b, c, sid, args, o);
    }
    if Excused(sid, args, b, c, caller, o) {
      ExcusedEarlier(a, b, c, sid, args, caller, o);
    }
    hide Answers, Excused, UserOnly;
  }

  /** Charges before a call change nothing its caller is served. */
  lemma ServedAfterCharge(a: Ctx, b: Ctx, c: Ctx, caller: Frame, sid: Sid, args: Args, o: Outcome)
    requires Inv(a) && Inv(b) && OnlyMetered(a, b) && Served(b, c, caller, sid, args, o)
    ensures Served(a, c, caller, sid, args, o)
  {
    hide Inv, Step, Went, UserOnly, UserWorld, OnlyMetered, DirectOf, Keeps, KeepsWorld, Get, Truthful;
    var d, k := DirectOf(caller, sid, args), Keeps(a.node, caller, sid, args);
    assert b.node == a.node && b.history == a.history && b.events == a.events && b.launched == a.launched by {
      MeteredIsStep(a, b);
      MeteredKeepsEvents(a, b);
    }
    assert |a.journal| <= |b.journal| && b.priced == a.priced && b.intent == a.intent && b.parent == a.parent by {
      MeteredIsStep(a, b);
      StepShape(a, b);
    }
    MeteredWent(a, b, d, k);
    WentThen(a, b, c, d, d, d, k, k, k, o.Reentered?);
    TruthfulEarlier(a, b, c, caller, sid, args, o);
  }

  lemma LaunchedIdle(a: Ctx, b: Ctx, sid: Sid)
    requires Inv(a) && Inv(b) && Step(a, b) && Unwritten(a, b) && b.launched == a.launched && b.events == a.events
    ensures var a', b' := Launched(a, Overridden(sid)), Launched(b, Overridden(sid));
            && Inv(a') && Inv(b') && Step(a', b') && Unwritten(a', b') && b'.launched == a'.launched && b'.events == a'.events
  {
    hide Replay, Holds, Audit;
    LaunchKeepsInv(a, Overridden(sid));
    LaunchKeepsInv(b, Overridden(sid));
  }

  /** Looking a call up changes nothing but the cache. */
  lemma CacheShape(a: Ctx, b: Ctx)
    requires b == a.(cache := b.cache)
    ensures Unwritten(a, b) && b.launched == a.launched && b.events == a.events && b.parent == a.parent
    ensures b.journal == a.journal
    ensures forall sid :: Called(b, Overridden(sid)) == Called(a, Overridden(sid))
  {
  }

  /**
    A system call goes where the parent state sends it: to a contract, to another thunk,
    to its own thunk; and a call to something missing or not enabled reverts.
  */
  ghost predicate Routed(a: Ctx, b: Ctx, caller: Frame, sid: Sid, args: Args, native: bool, room: bool, o: Outcome) {
    a.parent.Some? ==> RoutedTo(LookupCall(a.parent.value, sid), a, b, caller, sid, args, native, room, o)
  }

  ghost predicate RoutedTo(d: Option<Dispatch>, a: Ctx, b: Ctx, caller: Frame, sid: Sid, args: Args,
                           native: bool, room: bool, o: Outcome) {
    && (d.None? ==> o == Thrown(REVERSION) && !UserOnly(a, b))
    && (d.Some? && d.value.Contract? ==> Redirects(d.value, a, b, sid, native, room, o))
    && (d.Some? && d.value.Native? && d.value.isOverride ==> Translates(d.value.thunk, a, b, caller, sid, args, o))
    && (d.Some? && d.value.Native? && !d.value.isOverride ==>
          && (!IsGenesis(sid) ==> o == Thrown(REVERSION))
          && (sid == GetObjectId ==> b.launched == a.launched))
  }

  /**
    A call to a contract launches that contract and nothing before it, if there is room
    for its frame, and yields what its run yields, or does not fit the host API's buffer.
  */
  ghost predicate Redirects(d: Dispatch, a: Ctx, b: Ctx, sid: Sid, native: bool, room: bool, o: Outcome)
    requires d.Contract?
  {
    !o.Reentered? ==>
      && !UserOnly(a, b)
      && (room ==>
            a.launched + [Overridden(sid), Program(d.contractId, if d.meta.system then Kernel else User, d.entryPoint)] <= b.launched)
      && (Yielded(a, b, sid, native, o) || (!native && o == Thrown(REVERSION)))
  }

  /** A call to another thunk is served by that thunk. */
  ghost predicate Translates(thunk: Sid, a: Ctx, b: Ctx, caller: Frame, sid: Sid, args: Args, o: Outcome) {
    && Served(Launched(a, Overridden(sid)), b, caller, thunk, args, o)
    && (!o.Reentered? ==> !UserOnly(a, b))
  }

  ghost predicate Yielded(a: Ctx, b: Ctx, sid: Sid, native: bool, o: Outcome) {
    exists run: Outcome :: RanAs(a, b, run) && Yields(run, b.result, sid, native, o)
  }

  lemma YieldedEarlier(a: Ctx, b: Ctx, c: Ctx, c': Ctx, sid: Sid, native: bool, o: Outcome)
    requires Yielded(b, c, sid, native, o) && b.journal == a.journal && c'.journal == c.journal && c'.result == c.result
    ensures Yielded(a, c', sid, native, o)
  {
    hide Yields, RunEnd;
    var run: Outcome :| RanAs(b, c, run) && Yields(run, c.result, sid, native, o);
    assert RanAs(a, c', run);
  }

  lemma RoutedBalks(a: Ctx, b: Ctx, c: Ctx, caller: Frame, sid: Sid, args: Args, room: bool, o: Outcome)
    requires Inv(a) && Routed(a, b, caller, sid, args, false, room, o) && !o.Reentered?
    requires Inv(c) && OnlyMetered(b, c) && c.journal == b.journal + [Balked]
    ensures Routed(a, c, caller, sid, args, false, room, Thrown(REVERSION))
  {
    hide Served, LookupCall, UserOnly, Yielded, OnlyMetered, Inv, Launched;
    MeteredIsStep(b, c);
    UserOnlyAlike(a, a, b, c);
    if a.parent.Some? && LookupCall(a.parent.value, sid).Some? {
      var d := LookupCall(a.parent.value, sid).value;
      if d.Native? && d.isOverride {
        LaunchKeepsInv(a, Overridden(sid));
        ServedBalks(Launched(a, Overridden(sid)), b, c, caller, d.thunk, args, o);
      }
    }
  }

  lemma RoutedRead(a: Ctx, b: Ctx, caller: Frame, args: Args, native: bool, room: bool, o: Outcome)
    requires Routed(a, b, caller, GetObjectId, args, native, room, o) && Unaltered(a.parent, GetObjectId)
    ensures b.launched == a.launched
  {
    hide LookupCall;
  }

  lemma NothingLaunched(a: Ctx, b: Ctx)
    requires b.launched == a.launched
    ensures UserOnly(a, b)
  {
  }

  /** Neither the stack nor the cache matters to where a call goes. */
  lemma RoutedAlike(a: Ctx, b: Ctx, c: Ctx, c': Ctx, caller: Frame, sid: Sid, args: Args, native: bool, room: bool, o: Outcome)
    requires Routed(b, c, caller, sid, args, native, room, o)
    requires b.parent == a.parent && b.launched == a.launched && b.journal == a.journal
    requires c'.launched == c.launched && c'.journal == c.journal && c'.result == c.result
    requires forall t :: Served(Launched(b, Overridden(sid)), c, caller, t, args, o) ==>
                           Served(Launched(a, Overridden(sid)), c', caller, t, args, o)
    ensures Routed(a, c', caller, sid, args, native, room, o)
  {
    hide Served, LookupCall, UserOnly, Redirects, Launched;
    UserOnlyAlike(a, b, c, c');
    if a.parent.Some? {
      var d := LookupCall(a.parent.value, sid);
      if d.Some? && d.value.Contract? {
        RedirectsAlike(d.value, a, b, c, c', sid, native, room, o);
      }
    }
  }

  lemma RedirectsAlike(d: Dispatch, a: Ctx, b: Ctx, c: Ctx, c': Ctx, sid: Sid, native: bool, room: bool, o: Outcome)
    requires d.Contract? && Redirects(d, b, c, sid, native, room, o)
    requires b.launched == a.launched && b.journal == a.journal
    requires c'.launched == c.launched && c'.journal == c.journal && c'.result == c.result
    ensures Redirects(d, a, c', sid, native, room, o)
  {
    hide UserOnly, Yielded;
    UserOnlyAlike(a, b, c, c');
    if Yielded(b, c, sid, native, o) {
      YieldedEarlier(a, b, c, c', sid, native, o);
    }
  }

  lemma UserOnlyAlike(a: Ctx, b: Ctx, c: Ctx, c': Ctx)
    requires b.launched == a.launched && c'.launched == c.launched
    ensures UserOnly(a, c') == UserOnly(b, c)
  {
  }

  lemma RestackedRoutes(a: Ctx, stack: seq<Frame>, b: Ctx, caller: Frame, sid: Sid, args: Args, native: bool, room: bool, o: Outcome)
    requires Inv(a) && Routed(a.(stack := stack), b, caller, sid, args, native, room, o)
    ensures Routed(a, b.(stack := a.stack), caller, sid, args, native, room, o)
  {
    hide Served, LookupCall, Inv, Routed;
    LaunchKeepsInv(a, Overridden(sid));
    var l := Launched(a, Overridden(sid));
    assert l.(stack := stack) == Launched(a.(stack := stack), Overridden(sid));
    forall t | Served(Launched(a.(stack := stack), Overridden(sid)), b, caller, t, args, o)
      ensures Served(l, b.(stack := a.stack), caller, t, args, o)
    {
      RestackedServes(l, stack, b, caller, t, args, o);
    }
    RoutedAlike(a, a.(stack := stack), b, b.(stack := a.stack), caller, sid, args, native, room, o);
  }

  lemma RoutedAfterCache(a: Ctx, b: Ctx, c: Ctx, caller: Frame, sid: Sid, args: Args, native: bool, room: bool, o: Outcome)
    requires Inv(a) && Inv(b) && Step(a, b) && b == a.(cache := b.cache) && c.stack == a.stack
    requires Routed(b, c, caller, sid, args, native, room, o)
    ensures Routed(a, c, caller, sid, args, native, room, o)
  {
    hide Served, LookupCall, Inv, Routed, Step;
    LaunchedIdle(a, b, sid);
    forall t | Served(Launched(b, Overridden(sid)), c, caller, t, args, o)
      ensures Served(Launched(a, Overridden(sid)), c, caller, t, args, o)
    {
      ServedAfterIdle(Launched(a, Overridden(sid)), Launched(b, Overridden(sid)), c, caller, t, args, o);
    }
    RoutedAlike(a, b, c, c, caller, sid, args, native, room, o);
  }

  /** An override was taken: nothing is promised but what every run keeps. */
  lemma OverrideServes(a: Ctx, b: Ctx, c: Ctx, taken: Sid, d: iset<Key>, k: bool,
                       caller: Frame, sid: Sid, args: Args, o: Outcome)
    requires Inv(a) && Called(a, Overridden(taken)) && Inv(b) && Step(a, b) && Unwritten(a, b) && b.launched == a.launched
    requires Went(Launched(b, Overridden(taken)), c, d, k, o.Reentered?)
    ensures Served(a, c, caller, sid, args, o)
    ensures !o.Reentered? ==> !UserOnly(a, c)
  {
    hide Inv, Step, Went, UserOnly, DirectOf, Keeps, Answers, LookupCall;
    var e, keeps := DirectOf(caller, sid, args), Keeps(a.node, caller, sid, args);
    IdleWent(a, b, e, keeps);
    assert b.parent == a.parent by {
      StepShape(a, b);
    }
    OverriddenWent(b, taken, e, keeps);
    var b1 := Launched(b, Overridden(taken));
    WentThen(a, b, b1, e, e, e, keeps, keeps, keeps, false);
    WentThen(a, b1, c, e, d, e, keeps, k, keeps, o.Reentered?);
  }

  /** A result that does not fit: what was done stays done, and the caller is told nothing of it. */
  lemma ServedBalks(a: Ctx, b: Ctx, c: Ctx, caller: Frame, sid: Sid, args: Args, o: Outcome)
    requires Inv(a) && Served(a, b, caller, sid, args, o) && !o.Reentered?
    requires Inv(c) && OnlyMetered(b, c) && c.journal == b.journal + [Balked]
    ensures Served(a, c, caller, sid, args, Thrown(REVERSION))
    ensures UserOnly(a, c) <==> UserOnly(a, b)
  {
    hide Inv, Step, Went, UserOnly, OnlyMetered, DirectOf, Keeps, Excused;
    var d, k := DirectOf(caller, sid, args), Keeps(a.node, caller, sid, args);
    MeteredWent(b, c, d, k);
    WentThen(a, b, c, d, d, d, k, k, k, false);
    WentJournal(a, b, d, k);
    MeteredKeepsEvents(b, c);
    MeteredIsStep(b, c);
    assert Short(a, c);
    assert Excused(sid, args, a, c, caller, Thrown(REVERSION)) by {
      ShortExcuses(sid, args, a, c, caller, Thrown(REVERSION));
    }
  }

  lemma ShortExcuses(sid: Sid, args: Args, a: Ctx, b: Ctx, caller: Frame, o: Outcome)
    requires Short(a, b) || sid !in a.priced
    ensures Excused(sid, args, a, b, caller, o)
  {
  }

  lemma BalkKeepsInv(c: Ctx)
    requires Inv(c)
    ensures var d := c.(journal := c.journal + [Balked]); Inv(d) && OnlyMetered(c, d)
  {
    hide Replay, Holds, Audit, Balanced, CacheOk, EventsOk;
    JournaledKeepsCore(c, Balked);
    assert Journaled(c, Balked) == c.(journal := c.journal + [Balked]);
  }

  /** System objects outside what a call writes itself are as they were. */
  lemma SystemFrame(a: Ctx, b: Ctx, d: iset<Key>, k: bool, key: Key)
    requires Inv(a) && Went(a, b, d, k, false) && UserOnly(a, b) && key.space.system && key !in d
    ensures Get(b.node, key) == Get(a.node, key)
  {
    hide Core, Step, UserOnly, Calm, Get;
    WentSteps(a, b, d, k);
    StepGrows(a, b);
    ZoneIsolation(a, b, d, key);
  }

  /** A call that throws after nothing but charges serves any caller. */
  lemma ThrownServes(a: Ctx, b: Ctx, caller: Frame, sid: Sid, args: Args, code: int)
    requires Inv(b) && Step(a, b) && Unwritten(a, b) && b.launched == a.launched && Silent(a, b, sid)
    requires a.parent.Some? && (caller.privilege == Kernel || sid == CallId) ==>
               Excused(sid, args, a, b, caller, Thrown(code))
    ensures Served(a, b, caller, sid, args, Thrown(code))
  {
    hide Inv, Step, Went, Excused;
    IdleWent(a, b, DirectOf(caller, sid, args), Keeps(a.node, caller, sid, args));
  }

  /** A call that returns has run its contract to a good end; one that throws has run it, or has an excuse. */
  lemma CallServes(a: Ctx, b: Ctx, caller: Frame, args: Args, o: Outcome)
    requires Went(a, b, iset{}, true, o.Reentered?)
    requires o.Returned? && UserOnly(a, b) ==>
               RanFirst(a, b, args.id, args.entryPoint) && EndedWell(b.journal) && o.value == b.result.payload
    requires o.Thrown? && UserOnly(a, b) && a.parent.Some? ==>
               || Short(a, b) || GetObjectId !in a.priced || !Callable(a.node, args, caller.privilege == Kernel)
               || RanOut(a, b, args, o)
    ensures Served(a, b, caller, CallId, args, o)
  {
    hide Went, UserOnly, EndedWell, RanOut, RanFirst, Callable;
  }

  /** A step that only charged the meter. */
  ghost predicate OnlyMetered(a: Ctx, b: Ctx) {
    && b == a.(meter := b.meter, journal := b.journal)
    && Continues(a.journal, b.journal) && SameSession(a.meter, b.meter)
  }

  lemma MeteredIsStep(a: Ctx, b: Ctx)
    requires OnlyMetered(a, b)
    ensures Step(a, b) && Unwritten(a, b) && b.launched == a.launched
  {
  }

  /** What one more entry of the journal does to a context; the meter follows. */
  ghost function Journaled(c: Ctx, op: MeterOp): Ctx {
    c.(meter := After(BooksOf(c), op).meter, journal := c.journal + [op])
  }

  lemma JournaledKeepsCore(c: Ctx, op: MeterOp)
    requires Core(c) && !SessionOp(op) && !op.Emitted? && After(BooksOf(c), op).honest
    ensures var d := Journaled(c, op); Core(d) && OnlyMetered(c, d) && BooksOf(d) == After(BooksOf(c), op)
  {
    hide Replay, Holds, Audit, Balanced, SameLedger, AfterUse, AfterReport;
    var d := Journaled(c, op);
    AuditIsSound(c.journal);
    AfterKeepsSound(BooksOf(c), op);
    AfterContinues(BooksOf(c), op);
    AuditSnoc(c.journal, op);
    CountStays(BooksOf(c), op);
    hide After;
  }

  lemma CountStays(b: Books, op: MeterOp)
    requires !op.Emitted?
    ensures After(b, op).emitted == b.emitted
  {
    hide Use, UseMeterTicks;
  }

  lemma ChargeKeepsInv(c: Ctx, charge: Charge)
    requires Inv(c) && Use(c.meter, charge).Ok?
    ensures var d := c.(meter := Use(c.meter, charge).value, journal := c.journal + [Used(charge)]);
            Inv(d) && OnlyMetered(c, d)
  {
    hide Replay, Holds, Audit, Use, Balanced, CacheOk, EventsOk;
    JournaledKeepsCore(c, Used(charge));
  }

  /** A refused charge is on record, and changes nothing else. */
  lemma DenialKeepsInv(c: Ctx, charge: Charge)
    requires Inv(c) && Use(c.meter, charge).Err?
    ensures var d := c.(journal := c.journal + [Denied(charge)]); Inv(d) && OnlyMetered(c, d)
  {
    hide Replay, Holds, Audit, Use, Balanced, CacheOk, EventsOk;
    JournaledKeepsCore(c, Denied(charge));
    assert Journaled(c, Denied(charge)) == c.(journal := c.journal + [Denied(charge)]);
  }

  lemma HaltKeepsCore(c: Ctx, op: MeterOp)
    requires Core(c) && Fatal(op) && !BooksOf(c).down
    ensures var d := c.(journal := c.journal + [op]);
            && Core(d) && OnlyMetered(c, d) && BooksOf(d).down
            && BooksOf(d).owed == BooksOf(c).owed && BooksOf(d).advanced == BooksOf(c).advanced
  {
    hide Replay, Holds, Audit, Balanced, CacheOk, EventsOk;
    JournaledKeepsCore(c, op);
    assert Journaled(c, op) == c.(journal := c.journal + [op]);
  }

  lemma BurnKeepsCore(c: Ctx, ticks: nat)
    requires Core(c) && !BooksOf(c).down
    ensures var d := c.(journal := c.journal + [Burned(ticks)]);
            && Core(d) && OnlyMetered(c, d) && !BooksOf(d).down
            && BooksOf(d).owed == BooksOf(c).owed + ticks
  {
    hide Replay, Holds, Audit, Balanced, CacheOk, EventsOk;
    JournaledKeepsCore(c, Burned(ticks));
    assert Journaled(c, Burned(ticks)) == c.(journal := c.journal + [Burned(ticks)]);
  }

  /** A report of what is owed: accepted, nothing is owed any more; refused, all of it still is. */
  lemma ReportKeepsCore(c: Ctx, ticks: u64)
    requires Core(c) && BooksOf(c).owed == ticks
    ensures var (e, m) := UseMeterTicks(c.meter, ticks);
            var d := c.(meter := m, journal := c.journal + [Reported(ticks)]);
            && Core(d) && OnlyMetered(c, d) && BooksOf(d).refused == e.Some? && !BooksOf(d).down
            && BooksOf(d).owed == (if e.None? then 0 else ticks)
            && (e.None? ==> BooksOf(d).advanced == 0)
  {
    hide Replay, Holds, Audit, Balanced, CacheOk, EventsOk, UseMeterTicks, ComputeRemaining;
    var b := AfterReport(BooksOf(c).(refused := false, down := false), ticks);
    assert After(BooksOf(c), Reported(ticks)) == b;
    assert b.honest && b.meter == UseMeterTicks(c.meter, ticks).1;
    JournaledKeepsCore(c, Reported(ticks));
    assert Journaled(c, Reported(ticks)) == c.(meter := b.meter, journal := c.journal + [Reported(ticks)]);
  }

  /** A VM run ends owing nothing, unless its last report was refused; then it is forgiven. */
  lemma StopKeepsInv(c: Ctx)
    requires Core(c) && (BooksOf(c).owed == 0 || BooksOf(c).refused) && !BooksOf(c).down
    ensures var d := c.(journal := c.journal + [Stopped]); Inv(d) && OnlyMetered(c, d)
  {
    hide Replay, Holds, Audit, Balanced, CacheOk, EventsOk;
    JournaledKeepsCore(c, Stopped);
    assert Journaled(c, Stopped) == c.(journal := c.journal + [Stopped]);
  }

  lemma ConsumeKeepsInv(c: Ctx, account: Id, amount: u64)
    requires Inv(c)
    ensures var d := c.(journal := c.journal + [Consumed(account, amount)]); Inv(d) && OnlyMetered(c, d)
  {
    hide Replay, Holds, Audit, Balanced, CacheOk, EventsOk;
    JournaledKeepsCore(c, Consumed(account, amount));
    assert Journaled(c, Consumed(account, amount)) == c.(journal := c.journal + [Consumed(account, amount)]);
  }

  lemma AuthorizeKeepsInv(c: Ctx, account: Id, kind: nat)
    requires Inv(c)
    ensures var d := c.(journal := c.journal + [Authorized(account, kind)]);
            Inv(d) && OnlyMetered(c, d) && Vouched(d.journal, |c.journal|, account, kind)
  {
    hide Replay, Holds, Audit, Balanced, CacheOk, EventsOk;
    var d := c.(journal := c.journal + [Authorized(account, kind)]);
    JournaledKeepsCore(c, Authorized(account, kind));
    assert Journaled(c, Authorized(account, kind)) == d;
    assert d.journal[|c.journal|] == Authorized(account, kind);
  }

  /** The context after an event: it goes to the chronicler and to a live session. */
  function WithEvent(c: Ctx, e: Event): Ctx {
    c.(journal := c.journal + [Emitted], events := c.events + [Entry(c.trx, e)],
       sessionEvents := if c.meter.session.Some? then c.sessionEvents + [e] else c.sessionEvents)
  }

  lemma EmissionKeepsInv(c: Ctx, e: Event)
    requires Inv(c) && e.sequence == |c.events| % U32_SIZE
    ensures Inv(WithEvent(c, e)) && Step(c, WithEvent(c, e))
  {
    EmissionKeepsEvents(c, e);
    hide Replay, Audit, Holds, EventsOk, CacheOk;
    AuditSnoc(c.journal, Emitted);
  }

  lemma EmissionKeepsEvents(c: Ctx, e: Event)
    requires EventsOk(c) && e.sequence == |c.events| % U32_SIZE
    ensures EventsOk(WithEvent(c, e))
  {
    hide Audit;
    AuditSnoc(c.journal, Emitted);
  }

  lemma RecoveryKeepsInv(c: Ctx, signer: Id)
    requires Inv(c)
    ensures var d := c.(journal := c.journal + [Recovered(signer)]); Inv(d) && OnlyMetered(c, d)
  {
    hide Replay, Holds, Audit, Balanced, CacheOk, EventsOk;
    JournaledKeepsCore(c, Recovered(signer));
    assert Journaled(c, Recovered(signer)) == c.(journal := c.journal + [Recovered(signer)]);
  }

  lemma MeteredMove(a: Ctx, b: Ctx, direct: iset<Key>, keeps: bool)
    requires Core(b) && OnlyMetered(a, b)
    ensures Moved(a, b, direct, keeps, false) && UserOnly(a, b)
  {
    hide Core, Step, Moved, UserOnly;
    MeteredIsStep(a, b);
    IdleMove(a, b, direct, keeps);
  }

  lemma MeteredWent(a: Ctx, b: Ctx, direct: iset<Key>, keeps: bool)
    requires Inv(b) && OnlyMetered(a, b)
    ensures Went(a, b, direct, keeps, false) && UserOnly(a, b)
  {
    hide Core, Step, Moved, UserOnly;
    MeteredMove(a, b, direct, keeps);
  }

  lemma WriteIsStep(a: Ctx, k: Key, v: Option<Val>)
    requires Inv(a) && !a.intent.ReadOnly?
    ensures var b := a.(node := Set(a.node, k, v), history := a.history + [Wrote(k, v)]);
            Inv(b) && Step(a, b) && b.launched == a.launched
  {
    hide Holds, Audit;
    ReplaySnoc(a.origin, a.history, Wrote(k, v));
  }

  /** One write, and then nothing but charges. */
  lemma WriteWent(a: Ctx, b: Ctx, k: Key, v: Option<Val>, keeps: bool)
    requires Inv(b) && Step(a, b) && b.launched == a.launched
    requires b.node == Set(a.node, k, v) && b.history == a.history + [Wrote(k, v)]
    requires keeps ==> Harmless(a.node, k, v)
    ensures Went(a, b, iset{k}, keeps, false)
  {
    hide Inv, Core, Step;
    assert keeps ==> NoNewSystem(a.node, b.node);
    assert b.parent == a.parent && b.stack == a.stack by {
      StepShape(a, b);
    }
    assert Inv(b) ==> Core(b) by {
      InvIsCore(b);
    }
  }

  lemma StackBounds(c: Ctx)
    requires Inv(c)
    ensures 1 <= |c.stack| <= STACK_LIMIT
  {
  }

  lemma InvIsCore(c: Ctx)
    ensures Inv(c) ==> Core(c)
  {
  }

  /** A permitted write serves its caller; a refused one throws and writes nothing. */
  lemma WriteServes(a: Ctx, b: Ctx, caller: Frame, sid: Sid, args: Args, v: Option<Val>, o: Outcome)
    requires !o.Reentered? && Inv(b) && Step(a, b) && b.launched == a.launched
    requires (sid == PutObjectId && v == Some(args.value)) || (sid == RemoveObjectId && v == None)
    requires if Permitted(caller.contractId, caller.privilege, args.key.space)
             then b.node == Set(a.node, args.key, v) && b.history == a.history + [Wrote(args.key, v)] && (o.Thrown? ==> Short(a, b))
             else o.Thrown? && Unwritten(a, b)
    ensures Served(a, b, caller, sid, args, o)
  {
    hide Inv, Step, Went, Moved;
    if Permitted(caller.contractId, caller.privilege, args.key.space) {
      var k := Keeps(a.node, caller, sid, args);
      WriteWent(a, b, args.key, v, k);
      WentMore(a, b, iset{args.key}, DirectOf(caller, sid, args), k, k, false);
    } else {
      ThrownServes(a, b, caller, sid, args, o.code);
    }
  }

  /* ---- frames ---- */

  /** A transaction's own receipt. */
  lemma OwnPostKeepsInv(c: Ctx, r: Receipt)
    requires Inv(c)
    ensures Inv(c.(receipt := Posted(c.intent, c.receipt, Post(true, r)), posts := c.posts + [Post(true, r)]))
  {
    hide Replay, Audit;
    HoldsSnoc(c.intent, c.posts, Post(true, r));
  }

  lemma RestackKeepsInv(c: Ctx, stack: seq<Frame>)
    requires Inv(c) && 1 <= |stack| <= STACK_LIMIT
    ensures Inv(c.(stack := stack))
  {
    hide Holds, Replay;
  }

  lemma PostKeepsInv(c: Ctx, op: ReceiptOp)
    requires Inv(c) && !Own(op)
    ensures var d := c.(receipt := Posted(c.intent, c.receipt, op), posts := c.posts + [op]);
            Inv(d) && Step(c, d) && Unwritten(c, d) && d.launched == c.launched
  {
    hide Replay, Audit;
    HoldsSnoc(c.intent, c.posts, op);
  }

  /** A run that was re-entered serves nobody who could rely on it. */
  lemma ReentryServes(a: Ctx, b: Ctx, caller: Frame, sid: Sid, args: Args)
    requires b.stack == a.stack && !a.intent.ReadOnly? && !Keeps(a.node, caller, sid, args)
    ensures Served(a, b, caller, sid, args, Reentered)
  {
  }

  /** Execution on another stack that is then put back, as guards do. */
  lemma Restacked(a: Ctx, stack: seq<Frame>, b: Ctx, direct: iset<Key>, keeps: bool, lost: bool)
    requires Inv(a) && Went(a.(stack := stack), b, direct, keeps, lost)
    ensures Went(a, b.(stack := a.stack), direct, keeps, lost)
  {
    hide Replay, Holds;
    var a', b' := a.(stack := stack), b.(stack := a.stack);
    assert UserOnly(a', b) == UserOnly(a, b');
    assert forall id :: RanIn(a', b, id) == RanIn(a, b', id);
    assert forall i: nat :: FirstOther(a', b, i) == FirstOther(a, b', i);
    if !lost {
      RestackKeepsInv(b, a.stack);
    }
  }

  /** What is true of a call does not depend on stacks and caches. */
  lemma TruthfulAlike(a: Ctx, b: Ctx, a': Ctx, b': Ctx, caller: Frame, sid: Sid, args: Args, o: Outcome)
    requires Truthful(a, b, caller, sid, args, o)
    requires a' == a.(stack := a'.stack) && b' == b.(stack := b'.stack)
    ensures Truthful(a', b', caller, sid, args, o)
  {
    hide Get, UserOnly, RanOut, RanFirst, EndedWell, Vouched, Recovers, Callable;
    UserOnlyAlike(a', a, b, b');
    RanAlike(a, b, a', b', args, o);
  }

  lemma RanAlike(a: Ctx, b: Ctx, a': Ctx, b': Ctx, args: Args, o: Outcome)
    requires a'.launched == a.launched && b'.launched == b.launched && b'.journal == b.journal && b'.result == b.result
    requires a'.node == a.node
    ensures RanOut(a', b', args, o) == RanOut(a, b, args, o)
    ensures forall id, entryPoint :: RanFirst(a', b', id, entryPoint) == RanFirst(a, b, id, entryPoint)
  {
    hide RunEnd, RunEnds, Shows;
  }

  lemma RestackedServes(a: Ctx, stack: seq<Frame>, b: Ctx, caller: Frame, sid: Sid, args: Args, o: Outcome)
    requires Inv(a) && Served(a.(stack := stack), b, caller, sid, args, o)
    ensures Served(a, b.(stack := a.stack), caller, sid, args, o)
  {
    hide Went, Truthful, Inv;
    TruthfulAlike(a.(stack := stack), b, a, b.(stack := a.stack), caller, sid, args, o);
    Restacked(a, stack, b, DirectOf(caller, sid, args), Keeps(a.node, caller, sid, args), o.Reentered?);
  }

  /** Two frames taken off and put back. */
  lemma TwoFrames(stack: seq<Frame>)
    requires |stack| >= 2
    ensures stack[..|stack| - 1][..|stack| - 2] + [CallerFrame(stack)] + [Top(stack)] == stack
    ensures stack[..|stack| - 1][|stack| - 2] == CallerFrame(stack)
  {
  }

  lemma PopUndoesPush(stack: seq<Frame>, f: Frame)
    ensures (stack + [f])[..|stack|] == stack
  {
  }

  /* ---- launches ---- */

  function Launched(c: Ctx, l: Launch): Ctx {
    c.(launched := c.launched + [l])
  }

  lemma LaunchKeepsInv(c: Ctx, l: Launch)
    requires Inv(c)
    ensures Inv(Launched(c, l)) && Step(c, Launched(c, l))
  {
    hide Replay, Holds;
  }

  /** The privilege of a frame is the one the state gives its contract. */
  ghost predicate Earned(n: Node, f: Frame) {
    f.privilege == Kernel ==> System(n, f.contractId)
  }

  /** A contract that runs may write its own zone, on the strength of having run. */
  lemma ProgramWent(a: Ctx, f: Frame, b: Ctx, lost: bool)
    requires Inv(a) && Went(Launched(a, Program(f.contractId, f.privilege, f.entryPoint)), b, VmKeys(f), f.privilege == User, lost)
    ensures Went(a, b, CodeOf(a.node, f.contractId), Earned(a.node, f), lost)
  {
    var a1 := Launched(a, Program(f.contractId, f.privilege, f.entryPoint));
    LaunchKeepsInv(a, Program(f.contractId, f.privilege, f.entryPoint));
    if lost {
      assert UserWorld(a) ==> UserWorld(a1);
      assert UserWorld(a) ==> !System(a.node, f.contractId);
    } else {
      WentSteps(a1, b, VmKeys(f), f.privilege == User);
      StepTrans(a, a1, b);
      ProgramIsCalm(a, f, b);
      ProgramIsSafe(a, f, b);
      hide Inv, Step, Calm, Safe, VmKeys;
      InvIsCore(b);
      StepShape(a, b);
    }
  }

  lemma ProgramIsCalm(a: Ctx, f: Frame, b: Ctx)
    requires Step(Launched(a, Program(f.contractId, f.privilege, f.entryPoint)), b)
    requires Calm(Launched(a, Program(f.contractId, f.privilege, f.entryPoint)), b, VmKeys(f))
    ensures Calm(a, b, CodeOf(a.node, f.contractId))
  {
    var l := Program(f.contractId, f.privilege, f.entryPoint);
    var a1 := Launched(a, l);
    hide Continues, Intrudes, Get;
    assert b.launched[|a.launched|] == l;
    UserOnlySplits(a, a1, b);
    if UserOnly(a, b) {
      forall id
        ensures RanIn(a, b, id) <==> id == f.contractId || RanIn(a1, b, id)
      {
        RanInSplits(a, a1, b, id);
        assert RanIn(a, a1, id) <==> id == f.contractId by {
          assert a1.launched[|a.launched|] == l;
        }
      }
      hide RanIn;
      forall i | |a.history| <= i < |b.history| && b.history[i].Wrote?
        ensures MayWrite(a, b, CodeOf(a.node, f.contractId), b.history[i].key)
      {
        assert MayWrite(a1, b, VmKeys(f), b.history[i].key);
      }
    }
  }

  lemma ProgramIsSafe(a: Ctx, f: Frame, b: Ctx)
    requires Step(Launched(a, Program(f.contractId, f.privilege, f.entryPoint)), b)
    requires Safe(Launched(a, Program(f.contractId, f.privilege, f.entryPoint)), b, f.privilege == User)
    ensures Safe(a, b, Earned(a.node, f))
  {
    var l := Program(f.contractId, f.privilege, f.entryPoint);
    var a1 := Launched(a, l);
    hide System, LookupCall, Continues, Intrudes;
    assert b.launched[|a.launched|] == l;
    UserOnlySplits(a, a1, b);
    forall i: nat | FirstOther(a, b, i) && Earned(a.node, f)
      ensures Called(a, b.launched[i])
    {
      if f.privilege == User {
        assert i != |a.launched|;
        assert FirstOther(a1, b, i);
      } else {
        assert i == |a.launched|;
      }
    }
    assert f.privilege == User ==> UserOnly(a, a1);
  }

  /** What a program writes itself: a user program its own zone, a kernel program anything. */
  ghost function VmKeys(f: Frame): iset<Key> {
    if f.privilege == User then Zone(f.contractId) else iset k: Key | k.space.system || !k.space.system
  }

  /** Nothing, if the contract's bytecode is in the state. */
  ghost function CodeOf(n: Node, id: Id): iset<Key> {
    if HasCode(n, id) then iset{} else iset{BytecodeKey(id)}
  }

  lemma OverriddenWent(a: Ctx, sid: Sid, direct: iset<Key>, keeps: bool)
    requires Inv(a) && Called(a, Overridden(sid))
    ensures var b := Launched(a, Overridden(sid)); Went(a, b, direct, keeps, false) && !UserOnly(a, b)
  {
    LaunchKeepsInv(a, Overridden(sid));
    var b := Launched(a, Overridden(sid));
    assert b.launched[|a.launched|] == Overridden(sid);
    hide Inv, Step, LookupCall;
    InvIsCore(b);
  }

  lemma NativeIsOwn(n: Node, sid: Sid, thunk: Sid)
    ensures LookupCall(n, sid) == Some(Native(thunk, false)) ==> thunk == sid
  {
  }

  /** What set_system_call stores is what the call goes to once that is the parent state. */
  lemma OverrideTakesEffect(n: Node, sid: Sid, target: Target)
    requires Get(n, DispatchKey(sid)) == Some(CallTarget(target))
    ensures target.Thunk? ==> LookupCall(n, sid) == Some(Native(target.thunk, true))
    ensures target.Bundle? ==>
              var meta, code := Get(n, MetaKey(target.contractId)), Get(n, BytecodeKey(target.contractId));
              LookupCall(n, sid) == if meta.Some? && code.Some?
                                    then Some(Contract(target.contractId, target.entryPoint, DecodeMeta(meta))) else None
  {
    hide Get;
  }

  lemma UserDispatch(c: Ctx, sid: Sid)
    requires UserWorld(c)
    ensures c.parent.Some? && LookupCall(c.parent.value, sid) == Some(Native(sid, false))
  {
  }

  lemma ServedAfterIdle(a: Ctx, b: Ctx, c: Ctx, caller: Frame, sid: Sid, args: Args, o: Outcome)
    requires Inv(a) && Inv(b) && Step(a, b) && Unwritten(a, b) && b.launched == a.launched && Silent(a, b, sid)
    requires Served(b, c, caller, sid, args, o)
    ensures Served(a, c, caller, sid, args, o)
    ensures !o.Reentered? ==> (UserOnly(a, c) <==> UserOnly(b, c))
  {
    hide Inv, Step, Went, UserOnly, UserWorld, DirectOf, Keeps, KeepsWorld, Get, Truthful;
    var d, k := DirectOf(caller, sid, args), Keeps(a.node, caller, sid, args);
    IdleWent(a, b, d, k);
    WentThen(a, b, c, d, d, d, k, k, k, o.Reentered?);
    assert |a.journal| <= |b.journal| && b.priced == a.priced && b.intent == a.intent && b.parent == a.parent by {
      StepShape(a, b);
    }
    TruthfulEarlier(a, b, c, caller, sid, args, o);
  }

  lemma MovedJournal(a: Ctx, b: Ctx, d: iset<Key>, k: bool)
    requires Moved(a, b, d, k, false)
    ensures a.journal <= b.journal && a.launched <= b.launched
  {
    hide Core, Calm;
  }

  lemma WentAfterMove(a: Ctx, b: Ctx, c: Ctx, d: iset<Key>, k: bool)
    requires Inv(a) && Moved(a, b, d, k, false) && Inv(c) && OnlyMetered(b, c)
    ensures Went(a, c, d, k, false) && ChargedOnce(a, c)
  {
    hide Core, Moved, OnlyMetered, ChargedOnce, UserOnly;
    InvIsCore(c);
    MeteredMove(b, c, d, k);
    MovedThen(a, b, c, d, d, d, k, k, k, false);
    VmEnds(a, c, d, k);
  }

  lemma MeteredTwice(a: Ctx, b: Ctx, c: Ctx)
    requires OnlyMetered(a, b) && OnlyMetered(b, c)
    ensures OnlyMetered(a, c)
  {
    ContinuesTrans(a.journal, b.journal, c.journal);
  }

  lemma RanEarlier(a: Ctx, b: Ctx, c: Ctx, o: Outcome)
    requires a.journal <= b.journal && b.journal <= c.journal && |c.journal| == |b.journal| + 2
    requires RunEnds(c.journal) && o == RunEnd(c.journal)
    ensures RanAs(a, c, o)
  {
    hide RunEnd;
  }

  /** In user-only execution the first program to run is one in user mode. */
  lemma UserFirst(a: Ctx, b: Ctx, f: Frame)
    requires UserOnly(a, b) && a.launched + [Program(f.contractId, f.privilege, f.entryPoint)] <= b.launched
    requires f.privilege == User ==> !System(a.node, f.contractId)
    ensures RanFirst(a, b, f.contractId, f.entryPoint)
  {
    assert (a.launched + [Program(f.contractId, f.privilege, f.entryPoint)])[|a.launched|] == b.launched[|a.launched|];
  }

  lemma WentShape(a: Ctx, b: Ctx, d: iset<Key>, k: bool)
    requires Went(a, b, d, k, false)
    ensures b.trx == a.trx && b.parent == a.parent && b.priced == a.priced && b.intent == a.intent
    ensures a.journal <= b.journal && a.launched <= b.launched
  {
    hide Inv, Calm;
  }

  lemma WentLaunches(a: Ctx, b: Ctx, d: iset<Key>, k: bool)
    requires Went(a, b, d, k, false)
    ensures a.launched <= b.launched
  {
    hide Inv, Calm;
  }

  lemma WentJournal(a: Ctx, b: Ctx, d: iset<Key>, k: bool)
    requires Went(a, b, d, k, false)
    ensures a.journal <= b.journal
  {
    hide Inv, Calm;
  }

  /** What a VM run amounts to once it has stopped. */
  lemma VmEnds(a: Ctx, b: Ctx, d: iset<Key>, k: bool)
    requires Inv(a) && Inv(b) && Moved(a, b, d, k, false)
    ensures Went(a, b, d, k, false) && ChargedOnce(a, b)
  {
    hide Core, Step, ChargedOnce, Calm;
    StepShape(a, b);
    JournalChargesOnce(a, b);
  }

  lemma MeteredKeepsEvents(a: Ctx, b: Ctx)
    requires OnlyMetered(a, b)
    ensures b.events == a.events && b.sessionEvents == a.sessionEvents && b.trx == a.trx
  {
  }
}
