/**
  The execution context and everything that runs on it: the frame stack, the
  dispatch cache, the native system-call wrapper, the host API, the VM runner and
  the thunks (libraries/chain/execution_context.cpp, libraries/chain/host_api.cpp,
  libraries/chain/include/koinos/chain/thunk_utils.hpp,
  libraries/vm_manager/fizzy/fizzy_vm_backend.cpp, libraries/chain/system_calls.cpp).

  What a contract does is left open: the VM burns any ticks and makes any host calls
  with any arguments. Prices, disk deltas and the results of cryptography are open
  too. A contract of a method here therefore speaks about every call tree.
*/
module Execution {
  import opened Int64
  import opened Metering
  import opened MeterObjects
  import opened Journal
  import opened Receipts
  import opened State
  import opened Context
  import opened Verdicts

  class ExecutionContext {
    var stack: seq<Frame>
    var node: Node
    var parent: Option<Node>
    const intent: Intent
    var trx: Option<string>
    var cache: map<Sid, Dispatch>
    const priced: set<Sid>  // the thunks the compute registry has an entry for
    var meter: Meter
    var events: seq<Entry>
    var sessionEvents: seq<Event>
    var result: ExecResult
    var receipt: Held
    ghost var origin: Node
    ghost var history: seq<Deed>
    ghost var journal: seq<MeterOp>
    ghost var launched: seq<Launch>
    ghost var posts: seq<ReceiptOp>
    ghost var verdicts: seq<Verdict>  // of the steps of applying blocks and transactions, which record them

    ghost function Abs(): Ctx
      reads this
    {
      Ctx(stack, node, parent, intent, trx, cache, priced, meter, events, sessionEvents, result, receipt,
          origin, history, journal, launched, posts)
    }

    ghost predicate Valid()
      reads this
    {
      Inv(Abs())
    }

    constructor (intent: Intent, base: Frame, node: Node, priced: set<Sid>)
      ensures Valid()
      ensures this.intent == intent && this.priced == priced && stack == [base] && this.node == node
      ensures parent == ParentOf(node) && cache == map[] && history == [] && trx == None && events == []
      ensures meter.session == None && journal == [] && launched == [] && posts == [] && receipt == Nothing
    {
      this.intent, this.priced, stack := intent, priced, [base];
      this.node, parent, cache, trx := node, ParentOf(node), map[], None;
      meter := Fresh(Unlimited);
      events, sessionEvents, result, receipt := [], [], ExecResult(0, None), Nothing;
      origin, history, journal, launched, posts, verdicts := node, [], [], [], [], [];
    }

    /** Records how a step came out. */
    ghost method Record(stage: Stage, o: Outcome)
      modifies this`verdicts
      ensures verdicts == old(verdicts) + [Verdict(stage, o)] && Abs() == old(Abs())
    {
      verdicts := verdicts + [Verdict(stage, o)];
    }

    /* ---- frames ---- */

    /** The frame is refused, not pushed, at the stack limit. */
    method PushFrame(f: Frame) returns (ok: bool)
      modifies this`stack
      ensures ok == (|old(stack)| < 256)
      ensures stack == if ok then old(stack) + [f] else old(stack)
    {
      ok := |stack| < STACK_LIMIT;
      if ok {
        stack := stack + [f];
      }
    }

    method PopFrame() returns (f: Option<Frame>)
      modifies this`stack
      ensures old(stack) == [] ==> f == None && stack == []
      ensures old(stack) != [] ==> f == Some(Top(old(stack))) && stack == old(stack)[..|old(stack)| - 1]
    {
      if stack == [] {
        return None;
      }
      f := Some(stack[|stack| - 1]);
      stack := stack[..|stack| - 1];
    }

    function Caller(): Id
      reads this`stack
    {
      if |stack| > 1 then CallerFrame(stack).contractId else KERNEL_ZONE
    }

    function CallerPrivilege(): Privilege
      reads this`stack
    {
      if |stack| > 1 then CallerFrame(stack).privilege else Kernel
    }

    /** The innermost frame with a contract id. */
    method GetContractId() returns (id: Id)
      ensures id == KERNEL_ZONE ==> forall j :: 0 <= j < |stack| ==> stack[j].contractId == ""
      ensures id != KERNEL_ZONE ==>
                exists i :: 0 <= i < |stack| && stack[i].contractId == id
                            && forall j :: i < j < |stack| ==> stack[j].contractId == ""
    {
      var i := |stack|;
      while i > 0
        invariant 0 <= i <= |stack|
        invariant forall j :: i <= j < |stack| ==> stack[j].contractId == ""
      {
        i := i - 1;
        if |stack[i].contractId| > 0 {
          return stack[i].contractId;
        }
      }
      return KERNEL_ZONE;
    }

    /* ---- state nodes ---- */

    /** An explicit parent wins; otherwise the parent is the node's own. */
    method SetStateNode(n: Node, p: Option<Node>, ghost deed: Deed)
      requires n == Redo(node, deed)
      modifies this`node, this`parent, this`history
      ensures node == n && history == old(history) + [deed]
      ensures parent == if p.Some? then p else ParentOf(n)
    {
      node, history := n, history + [deed];
      parent := if p.Some? then p else ParentOf(n);
    }

    method ResetCache()
      requires Valid()
      modifies this`cache
      ensures Valid() && cache == map[]
    {
      hide Replay, Audit, Holds;
      cache := map[];
    }

    /* ---- dispatch ---- */

    /**
      After this, a system call that exists in the parent state is cached as the
      parent state has it. Without a parent node the current node is consulted.
    */
    method CacheSystemCall(sid: Sid) returns (ok: bool)
      requires Valid()
      modifies this`cache
      ensures Valid() && Step(old(Abs()), Abs())
      ensures ok ==> sid in cache
      ensures parent.Some? ==> ok == LookupCall(parent.value, sid).Some?
      ensures parent.Some? && ok ==> LookupCall(parent.value, sid) == Some(cache[sid])
    {
      hide Replay, Audit, Holds, LookupCall;
      ok := sid in cache;
      if !ok {
        match LookupCall(if parent.Some? then parent.value else node, sid) {
          case None =>
          case Some(d) =>
            cache := cache[sid := d];
            ok := true;
        }
      }
    }

    /* ---- limits and sessions ---- */

    method SetTransaction(t: Option<string>)
      requires Valid()
      modifies this`trx
      ensures Valid() && trx == t
    {
      hide Replay, Audit, Holds;
      trx := t;
    }

    /** Setting the limits of a block starts its accounts anew; a live session stays. */
    method SetLimits(limits: Limits)
      requires Valid()
      modifies this`meter, this`journal
      ensures Valid() && meter == Fresh(limits).(session := old(meter).session)
      ensures journal == old(journal) + [Limited(limits)]
    {
      hide Replay, Holds, Audit;
      AuditSnoc(journal, Limited(limits));
      meter, journal := Fresh(limits).(session := meter.session), journal + [Limited(limits)];
    }

    /** The RC limit becomes a signed counter; above INT64_MAX the RC law is not claimed. */
    method OpenSession(rc: u64)
      requires Valid() && meter.session.None?
      modifies this`meter, this`sessionEvents, this`journal
      ensures Valid()
      ensures meter == old(meter).(session := Some(RcSession(ToI64(rc), ToI64(rc))))
      ensures journal == old(journal) + [Opened(rc)]
      ensures sessionEvents == []
    {
      hide Replay, Holds, Audit, ToI64;
      AuditSnoc(journal, Opened(rc));
      meter := meter.(session := Some(RcSession(ToI64(rc), ToI64(rc))));
      journal := journal + [Opened(rc)];
      sessionEvents := [];
    }

    method CloseSession()
      requires Valid()
      modifies this`meter, this`journal
      ensures Valid() && meter == old(meter).(session := None) && journal == old(journal) + [Closed]
    {
      hide Replay, Holds, Audit;
      AuditSnoc(journal, Closed);
      meter := meter.(session := None);
      journal := journal + [Closed];
    }

    /* ---- charges ---- */

    /** A charge of any size to the compute meter, made by native code. */
    method ChargeCompute() returns (o: Outcome)
      requires Valid()
      modifies this`meter, this`journal
      ensures Valid() && OnlyMetered(old(Abs()), Abs())
      ensures o.Thrown? ==> Denies(journal, |old(journal)|, o)
      ensures o == Done || o == Thrown(FAILURE) || (o == Thrown(REVERSION) && meter.session.Some?)
    {
      hide Inv, Denies;
      var ticks: i64 := *;
      match UseCompute(meter, ticks) {
        case Err(e) =>
          Deny(Compute(ticks));
          o := Thrown(ErrorCode(e));
        case Ok(m) =>
          ChargeKeepsInv(Abs(), Compute(ticks));
          journal := journal + [Used(Compute(ticks))];
          meter := m;
          o := Done;
      }
    }

    /** Records that a charge was refused. */
    ghost method Deny(charge: Charge)
      requires Valid() && Use(meter, charge).Err?
      modifies this`journal
      ensures Valid() && OnlyMetered(old(Abs()), Abs())
      ensures Denies(journal, |old(journal)|, Thrown(ErrorCode(Use(meter, charge).error)))
    {
      hide Inv, Denies, Core;
      DenialKeepsInv(Abs(), charge);
      InvIsCore(Abs());
      DenialIs(Abs(), charge);
      journal := journal + [Denied(charge)];
    }

    /** The price of a thunk comes from the compute registry, which may not list it. */
    method ChargeThunk(sid: Sid) returns (o: Outcome)
      requires Valid()
      modifies this`meter, this`journal
      ensures Valid() && OnlyMetered(old(Abs()), Abs())
      ensures sid in priced && o.Thrown? ==> Denies(journal, |old(journal)|, o)
      ensures sid !in priced ==> o == Thrown(REVERSION) && Abs() == old(Abs())
      ensures sid in priced ==>
                o == Done || o == Thrown(FAILURE) || (o == Thrown(REVERSION) && meter.session.Some?)
    {
      hide Inv, Denies;
      if sid in priced {
        o := ChargeCompute();
      } else {
        o := Thrown(REVERSION);
      }
    }

    /** A charge or refund of whatever size the state database reported. */
    method ChargeDisk() returns (o: Outcome)
      requires Valid()
      modifies this`meter, this`journal
      ensures Valid() && OnlyMetered(old(Abs()), Abs()) && !o.Reentered?
      ensures o.Thrown? ==> Denies(journal, |old(journal)|, o)
    {
      hide Inv, ToU64, ToI64, Denies;
      var bytes: i64 := *;
      match UseDisk(meter, bytes) {
        case Err(e) =>
          Deny(Disk(bytes));
          o := Thrown(ErrorCode(e));
        case Ok(m) =>
          ChargeKeepsInv(Abs(), Disk(bytes));
          journal := journal + [Used(Disk(bytes))];
          meter := m;
          o := Done;
      }
    }

    method ChargeNetwork(bytes: i64) returns (o: Outcome)
      requires Valid()
      modifies this`meter, this`journal
      ensures Valid() && OnlyMetered(old(Abs()), Abs()) && !o.Reentered?
      ensures o.Returned? ==> bytes >= 0 && meter.network == old(meter.network) - bytes
      ensures o.Thrown? ==> Denies(journal, |old(journal)|, o) && meter == old(meter)
    {
      hide Inv, Denies;
      match UseNetwork(meter, bytes) {
        case Err(e) =>
          Deny(Network(bytes));
          o := Thrown(ErrorCode(e));
        case Ok(m) =>
          ChargeKeepsInv(Abs(), Network(bytes));
          journal := journal + [Used(Network(bytes))];
          meter := m;
          o := Done;
      }
    }

    /** Ticks the VM burned since its last report become a charge. */
    method ReportTicks(ticks: u64) returns (error: Option<Error>)
      requires Core(Abs()) && BooksOf(Abs()).owed == ticks
      modifies this`meter, this`journal
      ensures Core(Abs()) && OnlyMetered(old(Abs()), Abs()) && journal == old(journal) + [Reported(ticks)]
      ensures (error, meter) == UseMeterTicks(old(meter), ticks)
      ensures BooksOf(Abs()).owed == (if error.None? then 0 else ticks) && BooksOf(Abs()).refused == error.Some?
      ensures !BooksOf(Abs()).down
      ensures error.None? ==> BooksOf(Abs()).advanced == 0
    {
      hide Core, BooksOf, UseMeterTicks, ComputeRemaining;
      ReportKeepsCore(Abs(), ticks);
      var (e, m) := UseMeterTicks(meter, ticks);
      journal := journal + [Reported(ticks)];
      meter := m;
      error := e;
    }

    /** The end of a VM run: it owes nothing, or its last report was refused. */
    ghost method Stop()
      requires Core(Abs()) && (BooksOf(Abs()).owed == 0 || BooksOf(Abs()).refused) && !BooksOf(Abs()).down
      modifies this`journal
      ensures Valid() && OnlyMetered(old(Abs()), Abs()) && journal == old(journal) + [Stopped]
    {
      hide Core, BooksOf, Inv;
      StopKeepsInv(Abs());
      journal := journal + [Stopped];
    }

    /** Records that there was no room. */
    ghost method Balk()
      requires Valid()
      modifies this`journal
      ensures Valid() && OnlyMetered(old(Abs()), Abs()) && journal == old(journal) + [Balked]
    {
      hide Inv;
      BalkKeepsInv(Abs());
      journal := journal + [Balked];
    }

    /** Records that the VM trapped, or that a host call threw into it. */
    ghost method ComeDown(op: MeterOp)
      requires Core(Abs()) && Fatal(op) && !BooksOf(Abs()).down
      modifies this`journal
      ensures Core(Abs()) && OnlyMetered(old(Abs()), Abs()) && journal == old(journal) + [op]
      ensures BooksOf(Abs()).down && BooksOf(Abs()).owed == old(BooksOf(Abs()).owed)
      ensures BooksOf(Abs()).advanced == old(BooksOf(Abs()).advanced)
    {
      hide Core, BooksOf;
      HaltKeepsCore(Abs(), op);
      journal := journal + [op];
    }

    /* ---- system calls ---- */

    /**
      The wrapper native code calls a system call through. Whatever runs below it: the
      stack is restored, and unless kernel code re-entered, the invariant holds again,
      the caller is served, and every tick was charged once.
    */
    method SystemCall(sid: Sid, args: Args) returns (o: Outcome)
      requires Valid()
      modifies this
      ensures stack == old(stack) && verdicts == old(verdicts) && (!o.Reentered? ==> Valid())
      ensures Served(old(Abs()), Abs(), Top(old(stack)), sid, args, o)
      ensures !o.Reentered? && UserOnly(old(Abs()), Abs()) && |stack| < STACK_LIMIT ==> Settles(old(Abs()), sid, o)
      ensures |stack| < STACK_LIMIT ==>
                Routed(old(Abs()), Abs(), Top(old(stack)), sid, args, true, |stack| < STACK_LIMIT - 1, o)
      ensures |stack| == STACK_LIMIT ==> o == Thrown(REVERSION) && OnlyMetered(old(Abs()), Abs())
      ensures !o.Reentered? ==> ChargedOnce(old(Abs()), Abs())
      decreases STACK_LIMIT - |stack|, 1
    {
      hide Inv, Went, UserOnly, Settles, Routed, OnlyMetered, ChargedOnce, DirectOf, Keeps, Answers;
      ghost var s0 := Abs();
      StackBounds(s0);
      o := Enter(sid, args, true);
      if !o.Reentered? {
        WentSteps(s0, Abs(), DirectOf(Top(s0.stack), sid, args), Keeps(s0.node, Top(s0.stack), sid, args));
        StepShape(s0, Abs());
        ContinuesNoLimits(s0.journal, journal);
        JournalChargesOnce(s0, Abs());
      }
    }

    /** The frame both wrappers put around a dispatched call: popped however the call ends. */
    method Enter(sid: Sid, args: Args, native: bool) returns (o: Outcome)
      requires Valid()
      modifies this
      ensures stack == old(stack) && verdicts == old(verdicts) && (!o.Reentered? ==> Valid())
      ensures Served(old(Abs()), Abs(), Top(old(stack)), sid, args, o)
      ensures native && !o.Reentered? && UserOnly(old(Abs()), Abs()) && |stack| < STACK_LIMIT ==>
                Settles(old(Abs()), sid, o)
      ensures |stack| < STACK_LIMIT ==>
                Routed(old(Abs()), Abs(), Top(old(stack)), sid, args, native, |stack| < STACK_LIMIT - 1, o)
      ensures |stack| == STACK_LIMIT ==> o == Thrown(REVERSION) && OnlyMetered(old(Abs()), Abs())
      decreases STACK_LIMIT - |stack|, 0
    {
      hide Inv, Went, Served, Step, Routed, OnlyMetered;
      ghost var s0 := Abs();
      StackBounds(s0);
      var f := Frame("", Some(sid), Kernel, 0);
      var ok := PushFrame(f);
      if !ok {
        o := NoRoom(sid, args);
      } else {
        assert CallerFrame(stack) == Top(s0.stack);
        RestackKeepsInv(s0, stack);
        o := Dispatched(sid, args, native);
        RestackedServes(s0, s0.stack + [f], Abs(), Top(s0.stack), sid, args, o);
        RestackedRoutes(s0, s0.stack + [f], Abs(), Top(s0.stack), sid, args, native, |stack| < STACK_LIMIT, o);
        PopUndoesPush(s0.stack, f);
        if !o.Reentered? {
          RestackKeepsInv(Abs(), s0.stack);
        }
        var _ := PopFrame();
      }
    }

    /** At the stack limit nothing is called. */
    method NoRoom(sid: Sid, args: Args) returns (o: Outcome)
      requires Valid()
      modifies this`journal
      ensures Valid() && OnlyMetered(old(Abs()), Abs()) && o == Thrown(REVERSION)
      ensures 1 <= |stack| && Served(old(Abs()), Abs(), Top(stack), sid, args, o)
    {
      hide Inv, Served, Step, OnlyMetered;
      ghost var s0 := Abs();
      StackBounds(s0);
      o := Thrown(REVERSION);
      Balk();
      MeteredIsStep(s0, Abs());
      MeteredKeepsEvents(s0, Abs());
      ShortExcuses(sid, args, s0, Abs(), Top(stack), o);
      ThrownServes(s0, Abs(), Top(stack), sid, args, REVERSION);
    }

    /** What the call resolves to is run; the host API then needs room for the result. */
    method Dispatched(sid: Sid, args: Args, native: bool) returns (o: Outcome)
      requires Valid() && InThunk(stack)
      modifies this
      ensures stack == old(stack) && verdicts == old(verdicts) && (!o.Reentered? ==> Valid())
      ensures Served(old(Abs()), Abs(), old(CallerFrame(stack)), sid, args, o)
      ensures native && !o.Reentered? && UserOnly(old(Abs()), Abs()) ==> Settles(old(Abs()), sid, o)
      ensures Routed(old(Abs()), Abs(), old(CallerFrame(stack)), sid, args, native, |stack| < STACK_LIMIT, o)
      decreases STACK_LIMIT - |stack|, 10
    {
      hide Inv, Served, Routed, UserOnly, Step, LookupCall, OnlyMetered;
      ghost var s0, caller := Abs(), CallerFrame(stack);
      var found := CacheSystemCall(sid);
      ghost var s1 := Abs();
      CacheShape(s0, s1);
      o := Resolved(found, sid, args, native);
      ServedAfterIdle(s0, s1, Abs(), caller, sid, args, o);
      RoutedAfterCache(s0, s1, Abs(), caller, sid, args, native, |stack| < STACK_LIMIT, o);
      if !native && o.Returned? {
        o := Delivered(o, sid, args, s0, caller, |stack| < STACK_LIMIT);
      }
    }

    /** A result goes into the buffer of the host API, if it fits; `a` is before the call. */
    method Delivered(returned: Outcome, sid: Sid, args: Args, ghost a: Ctx, ghost caller: Frame, ghost room: bool)
      returns (o: Outcome)
      requires Valid() && Inv(a) && returned.Returned? && Served(a, Abs(), caller, sid, args, returned)
      requires Routed(a, Abs(), caller, sid, args, false, room, returned)
      modifies this`journal
      ensures Valid() && (o == returned || (o == Thrown(REVERSION) && journal == old(journal) + [Balked]))
      ensures Served(a, Abs(), caller, sid, args, o) && Routed(a, Abs(), caller, sid, args, false, room, o)
    {
      hide Inv, Served, Routed, OnlyMetered;
      o := returned;
      var bufferTooSmall: bool := *;
      if bufferTooSmall {
        ghost var s2 := Abs();
        Balk();
        ServedBalks(a, s2, Abs(), caller, sid, args, o);
        RoutedBalks(a, s2, Abs(), caller, sid, args, room, o);
        o := Thrown(REVERSION);
      }
    }

    /** An override runs what overrides the call, anything else its thunk. */
    method Resolved(found: bool, sid: Sid, args: Args, native: bool) returns (o: Outcome)
      requires Valid() && InThunk(stack) && (found ==> sid in cache)
      requires parent.Some? ==> LookupCall(parent.value, sid) == if found then Some(cache[sid]) else None
      modifies this
      ensures stack == old(stack) && verdicts == old(verdicts) && (!o.Reentered? ==> Valid())
      ensures Served(old(Abs()), Abs(), old(CallerFrame(stack)), sid, args, o)
      ensures native && !o.Reentered? && UserOnly(old(Abs()), Abs()) ==> Settles(old(Abs()), sid, o)
      ensures Routed(old(Abs()), Abs(), old(CallerFrame(stack)), sid, args, native, |stack| < STACK_LIMIT, o)
      decreases STACK_LIMIT - |stack|, 9
    {
      hide Inv, Served, Step, UserOnly, LookupCall, Redirects, Translates;
      ghost var s0, caller := Abs(), CallerFrame(stack);
      o := Thrown(REVERSION);
      if !found {
        o := Missing(sid, args);
      } else {
        match cache[sid]
        case Contract(id, entryPoint, meta) =>
          o := Redirected(sid, Contract(id, entryPoint, meta), args, native);
        case Native(thunk, true) =>
          o := Translated(sid, thunk, args);
        case Native(thunk, false) =>
          if parent.Some? {
            NativeIsOwn(parent.value, sid, thunk);
          }
          if thunk == sid && IsGenesis(sid) {
            o := ChargedThunk(sid, args);
          } else {
            StepRefl(s0);
            ThrownServes(s0, s0, caller, sid, args, REVERSION);
          }
      }
    }

    /** The contract that overrides the call is missing. */
    method Missing(sid: Sid, args: Args) returns (o: Outcome)
      requires Valid() && InThunk(stack) && Called(Abs(), Overridden(sid))
      modifies this
      ensures stack == old(stack) && verdicts == old(verdicts) && Valid() && o == Thrown(REVERSION)
      ensures Served(old(Abs()), Abs(), old(CallerFrame(stack)), sid, args, o)
      ensures !UserOnly(old(Abs()), Abs())
    {
      hide Inv, Served, Step, UserOnly, LookupCall;
      ghost var s0 := Abs();
      StepRefl(s0);
      LaunchOverride(sid);
      StepRefl(Abs());
      IdleWent(Abs(), Abs(), iset{}, true);
      o := Thrown(REVERSION);
      OverrideServes(s0, s0, Abs(), sid, iset{}, true, CallerFrame(stack), sid, args, o);
    }

    /** A contract runs in place of the system call. */
    method Redirected(sid: Sid, d: Dispatch, args: Args, native: bool) returns (o: Outcome)
      requires Valid() && InThunk(stack) && Called(Abs(), Overridden(sid)) && d.Contract?
      modifies this
      ensures stack == old(stack) && verdicts == old(verdicts) && (!o.Reentered? ==> Valid())
      ensures Served(old(Abs()), Abs(), old(CallerFrame(stack)), sid, args, o)
      ensures Redirects(d, old(Abs()), Abs(), sid, native, |stack| < STACK_LIMIT, o)
      ensures !o.Reentered? ==> !UserOnly(old(Abs()), Abs())
      decreases STACK_LIMIT - |stack|, 3
    {
      hide Inv, Served, Step, UserOnly, LookupCall, Went, Yielded;
      ghost var s0, caller := Abs(), CallerFrame(stack);
      StepRefl(s0);
      LaunchOverride(sid);
      ghost var s1 := Abs();
      var f := Frame(d.contractId, None, if d.meta.system then Kernel else User, d.entryPoint);
      o := RunOverride(sid, f, native);
      if !o.Reentered? {
        YieldedEarlier(s0, s1, Abs(), Abs(), sid, native, o);
      }
      OverrideServes(s0, s0, Abs(), sid, CodeOf(s0.node, d.contractId), Earned(s0.node, f), caller, sid, args, o);
    }

    /** Another thunk runs in place of the system call's own. */
    method Translated(sid: Sid, thunk: Sid, args: Args) returns (o: Outcome)
      requires Valid() && InThunk(stack) && Called(Abs(), Overridden(sid))
      modifies this
      ensures stack == old(stack) && verdicts == old(verdicts) && (!o.Reentered? ==> Valid())
      ensures Served(old(Abs()), Abs(), old(CallerFrame(stack)), sid, args, o)
      ensures Translates(thunk, old(Abs()), Abs(), old(CallerFrame(stack)), sid, args, o)
      ensures !o.Reentered? ==> !UserOnly(old(Abs()), Abs())
      decreases STACK_LIMIT - |stack|, 8
    {
      hide Inv, Step, UserOnly, LookupCall, Went, Answers;
      ghost var s0, caller := Abs(), CallerFrame(stack);
      StepRefl(s0);
      LaunchOverride(sid);
      o := ChargedThunk(thunk, args);
      OverrideServes(s0, s0, Abs(), sid, DirectOf(caller, thunk, args), Keeps(s0.node, caller, thunk, args),
                     caller, sid, args, o);
    }

    /** Records that a system call went to what overrides it. */
    ghost method LaunchOverride(sid: Sid)
      requires Valid()
      modifies this`launched
      ensures Valid() && Abs() == Launched(old(Abs()), Overridden(sid))
    {
      hide Inv;
      LaunchKeepsInv(Abs(), Overridden(sid));
      launched := launched + [Overridden(sid)];
    }

    /** The price is charged first; a thunk without a price does not run. */
    method ChargedThunk(thunk: Sid, args: Args) returns (o: Outcome)
      requires Valid() && InThunk(stack)
      modifies this
      ensures stack == old(stack) && verdicts == old(verdicts) && (!o.Reentered? ==> Valid())
      ensures Served(old(Abs()), Abs(), old(CallerFrame(stack)), thunk, args, o)
      ensures Settles(old(Abs()), thunk, o)
      ensures thunk == GetObjectId ==> launched == old(launched)
      ensures thunk !in priced ==> o == Thrown(REVERSION) && Abs() == old(Abs())
      decreases STACK_LIMIT - |stack|, 7
    {
      hide Inv, Served, Step;
      ghost var s0, caller := Abs(), CallerFrame(stack);
      o := ChargeThunk(thunk);
      ghost var s1 := Abs();
      MeteredIsStep(s0, s1);
      if o.Returned? {
        o := CallThunk(thunk, args);
        ServedAfterCharge(s0, s1, Abs(), caller, thunk, args, o);
      } else {
        ShortExcuses(thunk, args, s0, s1, caller, o);
        ThrownServes(s0, s1, caller, thunk, args, o.code);
      }
    }

    /** Native code looks at the result code of an override; the host API does not. */
    method RunOverride(sid: Sid, f: Frame, native: bool) returns (o: Outcome)
      requires Valid()
      modifies this
      ensures stack == old(stack) && verdicts == old(verdicts) && (!o.Reentered? ==> Valid())
      ensures Went(old(Abs()), Abs(), CodeOf(old(node), f.contractId), Earned(old(node), f), o.Reentered?)
      ensures Launches(old(Abs()), Abs(), f, o)
      ensures !o.Reentered? ==> Yielded(old(Abs()), Abs(), sid, native, o)
      decreases STACK_LIMIT - |stack|, 2
    {
      hide Inv, Went, RanAs;
      o := RunInFrame(f);
      ghost var run := o;
      if o.Returned? || o == Thrown(SUCCESS) {
        var flag: bool, number: u64 := *, *;
        o := if native && result.code != 0 then Thrown(result.code)
             else if native && sid == ExitId then Thrown(SUCCESS)
             else Returned(result.payload, flag, number);
      }
      assert !o.Reentered? ==> RanAs(old(Abs()), Abs(), run) && Yields(run, result, sid, native, o);
    }

    /* ---- the VM ---- */

    /** Runs a contract in a frame of its own. */
    method RunInFrame(f: Frame) returns (o: Outcome)
      requires Valid()
      modifies this
      ensures stack == old(stack) && verdicts == old(verdicts) && (!o.Reentered? ==> Valid())
      ensures Went(old(Abs()), Abs(), CodeOf(old(node), f.contractId), Earned(old(node), f), o.Reentered?)
      ensures Launches(old(Abs()), Abs(), f, o)
      ensures !o.Reentered? ==> RanAs(old(Abs()), Abs(), o)
      decreases STACK_LIMIT - |stack|, 1
    {
      hide Inv, Went, Step, Moved;
      ghost var s0 := Abs();
      StackBounds(s0);
      var ok := PushFrame(f);
      if !ok {
        o := Thrown(REVERSION);
        Balk();
        MeteredWent(s0, Abs(), CodeOf(s0.node, f.contractId), Earned(s0.node, f));
        MeteredIsStep(s0, Abs());
      } else {
        ghost var l := Program(f.contractId, f.privilege, f.entryPoint);
        LaunchKeepsInv(s0, l);
        launched := launched + [l];
        RestackKeepsInv(Launched(s0, l), stack);
        o := RunVm();
        if !o.Reentered? {
          WentLaunches(Launched(s0, l).(stack := s0.stack + [f]), Abs(), VmKeys(f), f.privilege == User);
        }
        Restacked(Launched(s0, l), s0.stack + [f], Abs(), VmKeys(f), f.privilege == User, o.Reentered?);
        PopUndoesPush(s0.stack, f);
        if !o.Reentered? {
          RestackKeepsInv(Abs(), s0.stack);
        }
        var _ := PopFrame();
        ProgramWent(s0, f, Abs(), o.Reentered?);
      }
    }

    /**
      One run of the VM over the contract in the top frame. The VM gets the meter's
      remaining ticks, burns some, and reports what it burned at every host call and
      once more when it stops: over the whole run, nested runs included, every tick
      burned is charged once, but for what reports beyond the budget are forgiven.
    */
    method RunVm() returns (o: Outcome)
      requires Valid() && |stack| >= 2
      modifies this
      ensures stack == old(stack) && verdicts == old(verdicts) && (!o.Reentered? ==> Valid())
      ensures Went(old(Abs()), Abs(), VmKeys(Top(old(stack))), Top(old(stack)).privilege == User, o.Reentered?)
      ensures !o.Reentered? ==> ChargedOnce(old(Abs()), Abs()) && RanAs(old(Abs()), Abs(), o)
      decreases STACK_LIMIT - |stack|, 11
    {
      ghost var s0 := Abs();
      ghost var keys, user := VmKeys(Top(stack)), Top(stack).privilege == User;
      StepRefl(s0);
      IdleMove(s0, s0, keys, user);
      var vm := Vm(MeterTicks(meter), MeterTicks(meter), None, false, false);
      assert VmOk(Abs(), vm);
      hide Core, Moved, Step, VmKeys, ChargedOnce, BooksOf, VmOk, RunEnd, OnlyMetered;
      var loads: bool := *;  // the module parses, instantiates and exports _start
      var steps: nat := *;
      while loads && steps > 0 && !vm.trapped
        invariant stack == s0.stack && verdicts == old(verdicts) && (vm.lost ==> vm.trapped)
        invariant Moved(s0, Abs(), keys, user, vm.lost)
        invariant !vm.lost ==> Core(Abs()) && VmOk(Abs(), vm)
        invariant !loads ==> Abs() == s0
        decreases steps
      {
        steps := steps - 1;
        ghost var s1 := Abs();
        vm := VmStep(vm);
        MovedThen(s0, s1, Abs(), keys, keys, keys, user, user, user, vm.lost);
      }
      if vm.lost {
        o := Reentered;
      } else if !loads {
        o := Thrown(REVERSION);
        VmEnds(s0, s0, keys, user);
      } else {
        ghost var s1 := Abs();
        o := EndRun(vm);
        MovedJournal(s0, s1, keys, user);
        WentAfterMove(s0, s1, Abs(), keys, user);
        RanEarlier(s0, s1, Abs(), o);
      }
    }

    /** The last report of a run; its error comes before the run's own exception, and that before a trap. */
    method EndRun(vm: Vm) returns (o: Outcome)
      requires Core(Abs()) && VmOk(Abs(), vm)
      modifies this`meter, this`journal
      ensures Valid() && OnlyMetered(old(Abs()), Abs())
      ensures |journal| == |old(journal)| + 2 && RunEnds(journal) && o == RunEnd(journal)
    {
      hide Core, BooksOf, UseMeterTicks, OnlyMetered;
      ghost var s1 := Abs();
      var error := ReportTicks(ToU64(vm.previousTicks - vm.ticks));
      ghost var s2 := Abs();
      Stop();
      MeteredTwice(s1, s2, Abs());
      RunEndIs(s1, vm, ToU64(vm.previousTicks - vm.ticks), journal);
      o := if error.Some? then Thrown(ErrorCode(error.value))
           else if vm.exception.Some? then Thrown(vm.exception.value)
           else if vm.trapped then Thrown(REVERSION)
           else Done;
    }

    /** The VM burns ticks and then traps, or makes a host call that is refused early, or one that runs. */
    method VmStep(before: Vm) returns (vm: Vm)
      requires Core(Abs()) && VmOk(Abs(), before) && !before.trapped && |stack| >= 2
      modifies this
      ensures stack == old(stack) && verdicts == old(verdicts) && (vm.lost ==> vm.trapped)
      ensures Moved(old(Abs()), Abs(), VmKeys(Top(old(stack))), Top(old(stack)).privilege == User, vm.lost)
      ensures !vm.lost ==> Core(Abs()) && VmOk(Abs(), vm)
      decreases STACK_LIMIT - |stack|, 10
    {
      hide Core, Moved, Step, VmKeys, BooksOf, OnlyMetered, ComputeRemaining;
      ghost var s0 := Abs();
      ghost var keys, user := VmKeys(Top(stack)), Top(stack).privilege == User;
      var burn: nat, trap: bool, badPointer: bool := *, *, *;
      if burn > before.ticks - I64_MIN {
        burn := 0;
      }
      BurnKeepsCore(s0, burn);
      journal := journal + [Burned(burn)];
      ghost var s1 := Abs();
      MeteredMove(s0, s1, keys, user);
      vm := Vm(before.previousTicks, before.ticks - burn, None, true, false);
      if vm.ticks < 0 || trap || badPointer {
        vm := vm.(exception := if vm.ticks < 0 || trap then None else Some(REVERSION));
        ComeDown(Halt(vm));
        MeteredMove(s1, Abs(), keys, user);
        MovedThen(s0, s1, Abs(), keys, keys, keys, user, user, user, false);
      } else {
        vm := HostStep(vm);
        MovedThen(s0, s1, Abs(), keys, keys, keys, user, user, user, vm.lost);
      }
    }

    /** Reports the ticks burned, makes the call, and hands the VM what the meter has left. */
    method HostStep(before: Vm) returns (vm: Vm)
      requires Core(Abs()) && |stack| >= 2
      requires 0 <= before.ticks <= before.previousTicks && BooksOf(Abs()).owed == before.previousTicks - before.ticks
      modifies this
      ensures stack == old(stack) && verdicts == old(verdicts) && (vm.lost ==> vm.trapped)
      ensures Moved(old(Abs()), Abs(), VmKeys(Top(old(stack))), Top(old(stack)).privilege == User, vm.lost)
      ensures !vm.lost ==> Core(Abs()) && VmOk(Abs(), vm)
      ensures !vm.lost ==> old(journal) + [Reported(before.previousTicks - before.ticks)] <= journal
      decreases STACK_LIMIT - |stack|, 9
    {
      hide Core, Moved, Step, VmKeys, BooksOf, OnlyMetered, ComputeRemaining, UseMeterTicks;
      ghost var s0 := Abs();
      ghost var keys, user := VmKeys(Top(stack)), Top(stack).privilege == User;
      var error := ReportTicks(before.previousTicks - before.ticks);
      ghost var s1 := Abs();
      MeteredMove(s0, s1, keys, user);
      if error.Some? {
        vm := before.(exception := Some(ErrorCode(error.value)), trapped := true, lost := false);
        ComeDown(Halt(vm));
        MeteredMove(s1, Abs(), keys, user);
        MovedThen(s0, s1, Abs(), keys, keys, keys, user, user, user, false);
      } else {
        var o: Outcome;
        ghost var call: Sid, direct: bool, inner: Outcome;
        o, call, direct, inner := HostInvoke();
        MovedThen(s0, s1, Abs(), keys, keys, keys, user, user, user, o.Reentered?);
        if o.Reentered? {
          vm := before.(trapped := true, lost := true);
        } else {
          MovedJournal(s1, Abs(), keys, user);
          var exception := if o.Thrown? then Some(o.code) else None;
          vm := Grant(exception);
        }
      }
    }

    /** A VM that resumes, or has trapped, with the budget that is left. */
    method Grant(exception: Option<int>) returns (vm: Vm)
      requires Core(Abs()) && BooksOf(Abs()).owed == 0 && BooksOf(Abs()).down == exception.Some?
      requires exception.Some? ==> journal != [] && journal[|journal| - 1] == Threw(exception.value)
      ensures VmOk(Abs(), vm) && !vm.lost && vm.exception == exception && vm.trapped == exception.Some?
    {
      hide Audit, Core;
      vm := Vm(MeterTicks(meter), MeterTicks(meter), exception, exception.Some?, false);
    }

    /** Any host function, with any arguments. What it throws is thrown into the VM. */
    method HostInvoke() returns (o: Outcome, ghost call: Sid, ghost direct: bool, ghost inner: Outcome)
      requires Valid() && |stack| >= 2
      modifies this
      ensures stack == old(stack) && verdicts == old(verdicts) && (o.Returned? ==> Valid())
      ensures Moved(old(Abs()), Abs(), VmKeys(Top(old(stack))), Top(old(stack)).privilege == User, o.Reentered?)
      ensures !o.Reentered? ==>
                && Core(Abs()) && BooksOf(Abs()).owed == 0 && BooksOf(Abs()).down == o.Thrown?
                && (o.Thrown? ==> journal != [] && journal[|journal| - 1] == Threw(o.code))
      ensures if direct && Top(old(stack)).privilege == User then o == Thrown(REVERSION)
              else o == HostSees(inner, call, Top(old(stack)).privilege == User)
      decreases STACK_LIMIT - |stack|, 8
    {
      hide Core, Moved, Step, VmKeys, OnlyMetered, BooksOf;
      ghost var s0 := Abs();
      ghost var keys, user := VmKeys(Top(stack)), Top(stack).privilege == User;
      var sid: Sid := *;
      var args: Args := *;
      var thunk: bool := *;
      call, direct := sid, thunk;
      if thunk {
        o, inner := InvokeThunk(sid, args);
      } else {
        var code: int, tooSmall: bool;
        o, code, tooSmall, inner := InvokeSystemCall(sid, args);
      }
      if o.Thrown? {
        ghost var s1 := Abs();
        ComeDown(Threw(o.code));
        MeteredMove(s1, Abs(), keys, user);
        MovedThen(s0, s1, Abs(), keys, keys, keys, user, user, user, false);
      }
    }

    /** Thunks are called directly, in no frame of their own, and only by kernel code. */
    method InvokeThunk(thunk: Sid, args: Args) returns (o: Outcome, ghost inner: Outcome)
      requires Valid() && |stack| >= 2
      modifies this
      ensures stack == old(stack) && verdicts == old(verdicts) && (!o.Reentered? ==> Valid())
      ensures Went(old(Abs()), Abs(), VmKeys(Top(old(stack))), Top(old(stack)).privilege == User, o.Reentered?)
      ensures Top(old(stack)).privilege == User ==> o == Thrown(REVERSION) && Abs() == old(Abs())
      ensures Top(old(stack)).privilege == Kernel ==>
                Served(old(Abs()), Abs(), old(CallerFrame(stack)), thunk, args, inner) && o == HostSees(inner, thunk, false)
      decreases STACK_LIMIT - |stack|, 7
    {
      hide Inv, Went, Step, DirectOf, Keeps;
      ghost var s0 := Abs();
      ghost var keys, user := VmKeys(Top(stack)), Top(stack).privilege == User;
      if Top(stack).privilege != Kernel {
        o := Thrown(REVERSION);
        inner := o;
        StepRefl(s0);
        IdleWent(s0, s0, keys, user);
      } else {
        ghost var caller := CallerFrame(stack);
        o := CallThunk(thunk, args);
        inner := o;
        assert DirectOf(caller, thunk, args) <= keys;
        WentMore(s0, Abs(), DirectOf(caller, thunk, args), keys, Keeps(s0.node, caller, thunk, args), user, o.Reentered?);
        o := if o.Reentered? then o
             else if thunk != ExitId then Done
             else if o.Thrown? then o
             else Thrown(SUCCESS);
      }
    }

    /**
      `code` is what the contract sees if the call returns to it. A reversion is
      rethrown into user code, returned to kernel code; a failure is returned to both.
    */
    method InvokeSystemCall(sid: Sid, args: Args)
      returns (o: Outcome, code: int, tooSmall: bool, ghost inner: Outcome)
      requires Valid()
      modifies this
      ensures stack == old(stack) && verdicts == old(verdicts) && (!o.Reentered? ==> Valid())
      ensures Went(old(Abs()), Abs(), VmKeys(Top(old(stack))), Top(old(stack)).privilege == User, o.Reentered?)
      ensures Served(old(Abs()), Abs(), Top(old(stack)), sid, args, inner)
      ensures o == HostSees(inner, sid, Top(old(stack)).privilege == User)
      ensures o.Returned? ==> code == (if inner.Thrown? then inner.code else SUCCESS)
      ensures tooSmall ==> inner.Thrown? && inner.code != SUCCESS
      decreases STACK_LIMIT - |stack|, 1
    {
      hide Inv, Went;
      StackBounds(Abs());
      ghost var s0, caller := Abs(), Top(stack);
      o := Enter(sid, args, false);
      inner := o;
      assert caller.privilege == User ==> DirectOf(caller, sid, args) <= VmKeys(caller);
      WentMore(s0, Abs(), DirectOf(caller, sid, args), VmKeys(caller), Keeps(s0.node, caller, sid, args), caller.privilege == User, o.Reentered?);
      var fits: bool := *;  // the error, if there is one, into the buffer
      code, tooSmall := if o.Thrown? then o.code else SUCCESS, o.Thrown? && o.code != SUCCESS && !fits;
      if !o.Reentered? && !(code >= REVERSION && Top(stack).privilege == User) {
        o := if sid != ExitId then Done else if o.Thrown? then o else Thrown(SUCCESS);
      }
    }

    /* ---- thunks ---- */

    method CallThunk(thunk: Sid, args: Args) returns (o: Outcome)
      requires Valid() && InThunk(stack)
      modifies this
      ensures stack == old(stack) && verdicts == old(verdicts) && (!o.Reentered? ==> Valid())
      ensures Served(old(Abs()), Abs(), old(CallerFrame(stack)), thunk, args, o)
      ensures Settles(old(Abs()), thunk, o)
      ensures thunk == GetObjectId ==> launched == old(launched)
      decreases STACK_LIMIT - |stack|, 6
    {
      hide Inv, Served, Step;
      match thunk {
        case PutObjectId => o := PutObject(args);
        case RemoveObjectId => o := RemoveObject(args);
        case GetObjectId => o := GetObject(args);
        case CallId => o := CallContract(args);
        case ExitId => o := Exit(args);
        case GetCallerId => o := GetCaller(args);
        case CheckAuthorityId => o := CheckAuthority(args);
        case CheckSystemAuthorityId => o := CheckSystemAuthority(args);
        case EventId => o := EmitEvent(args);
        case GetAccountNonceId => o := GetAccountNonce(args);
        case VerifyAccountNonceId => o := VerifyAccountNonce(args);
        case SetAccountNonceId => o := SetAccountNonce(args);
        case GetAccountRcId => o := GetAccountRc(args);
        case UploadContractId => o := ApplyUploadContract(args);
        case CallContractId => o := ApplyCallContract(args);
        case SetSystemCallId => o := ApplySetSystemCall(args);
        case SetSystemContractId => o := ApplySetSystemContract(args);
        case HelperId(_) => o := Helper(thunk, args);
        case ConsumeAccountRcId | LogId | UnknownId(_) => o := Trivial(thunk, args);
        case ApplyBlockId => o := ApplyBlockCalled(args);
        case ApplyTransactionId => o := ApplyTransactionCalled(args);
      }
    }

    /** RC consumption agrees to everything, a log entry must be valid UTF-8, an unknown thunk reverts. */
    method Trivial(thunk: Sid, args: Args) returns (o: Outcome)
      requires Valid() && InThunk(stack) && (thunk == ConsumeAccountRcId || thunk == LogId || thunk.UnknownId?)
      modifies this`journal
      ensures Valid() && (o == Done || (o == Thrown(REVERSION) && thunk != ConsumeAccountRcId))
      ensures Served(old(Abs()), Abs(), CallerFrame(stack), thunk, args, o)
      ensures journal == old(journal) + if thunk == ConsumeAccountRcId then [Consumed(args.id, args.amount)] else []
    {
      hide Inv, Step, OnlyMetered;
      var valid: bool := *;
      o := if thunk.UnknownId? || (thunk == LogId && !valid) then Thrown(REVERSION) else Done;
      ghost var s0 := Abs();
      StepRefl(s0);
      if thunk == ConsumeAccountRcId {
        ConsumeKeepsInv(s0, args.id, args.amount);
        journal := journal + [Consumed(args.id, args.amount)];
        MeteredIsStep(s0, Abs());
      }
      IdleServes(s0, Abs(), CallerFrame(stack), thunk, args, o);
    }

    /**
      apply_block called by a contract or an override: the block receipt is begun anew
      before the caller is refused, and with it every receipt so far is lost.
    */
    method ApplyBlockCalled(args: Args) returns (o: Outcome)
      requires Valid() && InThunk(stack)
      modifies this`receipt, this`posts
      ensures !o.Reentered? ==> Valid()
      ensures Served(old(Abs()), Abs(), CallerFrame(stack), ApplyBlockId, args, o)
      ensures receipt == OfBlock([]) && posts == old(posts) + [Reset]
      ensures o == if CallerPrivilege() == Kernel && intent.BlockApplication? then Reentered else Thrown(REVERSION)
    {
      hide Inv, Step, Served;
      ghost var s0 := Abs();
      PostKeepsInv(s0, Reset);
      receipt := OfBlock([]);
      posts := posts + [Reset];
      if CallerPrivilege() == Kernel && intent.BlockApplication? {
        o := Reentered;
        ReentryServes(s0, Abs(), CallerFrame(stack), ApplyBlockId, args);
      } else {
        o := Thrown(REVERSION);
        ThrownServes(s0, Abs(), CallerFrame(stack), ApplyBlockId, args, REVERSION);
      }
    }

    /**
      apply_transaction called by a contract or an override: a caller in user mode is
      refused, and still a receipt for the transaction it named is added.
    */
    method ApplyTransactionCalled(args: Args) returns (o: Outcome)
      requires Valid() && InThunk(stack)
      modifies this`receipt, this`posts
      ensures !o.Reentered? ==> Valid()
      ensures Served(old(Abs()), Abs(), CallerFrame(stack), ApplyTransactionId, args, o)
      ensures o.Reentered? <==> CallerPrivilege() == Kernel && !intent.ReadOnly?
      ensures !o.Reentered? && intent.BlockApplication? && old(receipt).OfBlock? ==>
                exists limit :: receipt == OfBlock(old(receipt).receipts + [BlankReceipt(args.id, limit)])
      ensures !o.Reentered? ==> o == Thrown(if CanPost(intent, old(receipt)) then REVERSION else FAILURE)
    {
      hide Inv, Step, Served;
      ghost var s0 := Abs();
      if CallerPrivilege() == Kernel && !intent.ReadOnly? {
        o := Reentered;
        ReentryServes(s0, s0, CallerFrame(stack), ApplyTransactionId, args);
      } else {
        var limit: u64 := *;
        var r := BlankReceipt(args.id, limit);
        StepRefl(s0);
        if CanPost(intent, receipt) {
          o := Thrown(REVERSION);
          PostKeepsInv(s0, Post(false, r));
          receipt := Posted(intent, receipt, Post(false, r));
          posts := posts + [Post(false, r)];
        } else {
          o := Thrown(FAILURE);
        }
        ThrownServes(s0, Abs(), CallerFrame(stack), ApplyTransactionId, args, o.code);
      }
    }

    /** The receipt apply_transaction itself adds; a block's needs a block receipt to be added to. */
    method AddReceipt(r: Receipt) returns (ok: bool)
      requires Valid()
      modifies this`receipt, this`posts
      ensures Valid() && ok == CanPost(intent, old(receipt))
      ensures if ok then receipt == Posted(intent, old(receipt), Post(true, r)) && posts == old(posts) + [Post(true, r)]
              else Abs() == old(Abs())
    {
      hide Inv;
      ok := CanPost(intent, receipt);
      if ok {
        OwnPostKeepsInv(Abs(), r);
        receipt := Posted(intent, receipt, Post(true, r));
        posts := posts + [Post(true, r)];
      }
    }

    /** apply_block begins a new block receipt. */
    method ResetReceipt()
      requires Valid()
      modifies this`receipt, this`posts
      ensures Valid() && receipt == OfBlock([]) && posts == old(posts) + [Reset]
    {
      hide Inv;
      PostKeepsInv(Abs(), Reset);
      receipt := OfBlock([]);
      posts := posts + [Reset];
    }

    /** The object is written before its disk use is charged. */
    method PutObject(args: Args) returns (o: Outcome)
      requires Valid() && InThunk(stack)
      modifies this`node, this`history, this`meter, this`journal
      ensures Valid() && Served(old(Abs()), Abs(), CallerFrame(stack), PutObjectId, args, o)
      ensures o.Returned? ==> Get(node, args.key) == Some(args.value)
      ensures o.Returned? ==> Permitted(Caller(), CallerPrivilege(), args.key.space) && !intent.ReadOnly?
      ensures var space := args.key.space;
              !o.Returned? && !intent.ReadOnly?
              && (if CallerPrivilege() == Kernel then space.system else !space.system && space.zone == Caller()) ==>
                Denies(journal, |old(journal)|, o)
    {
      hide Inv, Step, Served, OnlyMetered, SameSession, Denies;
      ghost var s0, caller := Abs(), CallerFrame(stack);
      if intent.ReadOnly? {
        o := Thrown(REVERSION);
        StepRefl(s0);
        ThrownServes(s0, s0, caller, PutObjectId, args, REVERSION);
      } else {
        o := ChargeCompute();
        ghost var s1 := Abs();
        MeteredIsStep(s0, s1);
        if o.Thrown? {
          DeniedIsShort(s0, s1, o);
          ThrownServes(s0, s1, caller, PutObjectId, args, o.code);
        } else {
          o := WriteObject(args.key, Some(args.value));
          if Denies(journal, |s1.journal|, o) {
            DeniedIsShort(s1, Abs(), o);
          }
          StepShape(s0, s1);
          DeniesEarlier(journal, |s0.journal|, |s1.journal|, o);
          WriteServes(s1, Abs(), caller, PutObjectId, args, Some(args.value), o);
          ServedAfterCharge(s0, s1, Abs(), caller, PutObjectId, args, o);
        }
      }
    }

    method RemoveObject(args: Args) returns (o: Outcome)
      requires Valid() && InThunk(stack)
      modifies this`node, this`history, this`meter, this`journal
      ensures Valid() && Served(old(Abs()), Abs(), CallerFrame(stack), RemoveObjectId, args, o)
      ensures o.Returned? ==> Get(node, args.key) == None
      ensures o.Returned? ==> Permitted(Caller(), CallerPrivilege(), args.key.space) && !intent.ReadOnly?
      ensures var space := args.key.space;
              !o.Returned? && !intent.ReadOnly?
              && (if CallerPrivilege() == Kernel then space.system else !space.system && space.zone == Caller()) ==>
                Denies(journal, |old(journal)|, o)
    {
      hide Inv, Step, Served, Denies;
      ghost var s0, caller := Abs(), CallerFrame(stack);
      if intent.ReadOnly? {
        o := Thrown(REVERSION);
        StepRefl(s0);
        ThrownServes(s0, s0, caller, RemoveObjectId, args, REVERSION);
      } else {
        o := WriteObject(args.key, None);
        if Denies(journal, |s0.journal|, o) {
          DeniedIsShort(s0, Abs(), o);
        }
        WriteServes(s0, Abs(), caller, RemoveObjectId, args, None, o);
      }
    }

    /** A write by native code straight to the node: no permission, no charge. */
    method PutDirect(k: Key, v: Val)
      requires Valid() && !intent.ReadOnly?
      modifies this`node, this`history
      ensures Valid() && node == Set(old(node), k, Some(v)) && history == old(history) + [Wrote(k, Some(v))]
      ensures Went(old(Abs()), Abs(), iset{k}, Harmless(old(node), k, Some(v)), false)
    {
      hide Inv, Step, Went;
      ghost var s0 := Abs();
      WriteIsStep(s0, k, Some(v));
      history := history + [Wrote(k, Some(v))];
      node := Set(node, k, Some(v));
      WriteWent(s0, Abs(), k, Some(v), Harmless(s0.node, k, Some(v)));
    }

    /** Writes if the caller may, and then charges what the database says the write took. */
    method WriteObject(k: Key, v: Option<Val>) returns (o: Outcome)
      requires Valid() && !intent.ReadOnly?
      modifies this`node, this`history, this`meter, this`journal
      ensures Valid() && Step(old(Abs()), Abs()) && !o.Reentered?
      ensures if Permitted(Caller(), CallerPrivilege(), k.space)
              then node == Set(old(node), k, v) && history == old(history) + [Wrote(k, v)]
              else o.Thrown? && Unwritten(old(Abs()), Abs())
      ensures o.Thrown? && Permitted(Caller(), CallerPrivilege(), k.space) ==> Denies(journal, |old(journal)|, o)
    {
      hide Inv, Step, Denies;
      ghost var s0 := Abs();
      if !Permitted(Caller(), CallerPrivilege(), k.space) {
        o := Thrown(REVERSION);
        StepRefl(s0);
      } else {
        WriteIsStep(s0, k, v);
        history := history + [Wrote(k, v)];
        node := Set(node, k, v);
        ghost var s1 := Abs();
        o := ChargeDisk();
        MeteredIsStep(s1, Abs());
        StepTrans(s0, s1, Abs());
      }
    }

    method GetObject(args: Args) returns (o: Outcome)
      requires Valid() && InThunk(stack)
      modifies this`meter, this`journal
      ensures Valid() && Served(old(Abs()), Abs(), CallerFrame(stack), GetObjectId, args, o)
      ensures o.Returned? ==> o.value == Get(node, args.key)
      ensures o.Returned? ==> Permitted(Caller(), CallerPrivilege(), args.key.space)
      ensures var space := args.key.space;
              !o.Returned?
              && (if CallerPrivilege() == Kernel then space.system else !space.system && space.zone == Caller()) ==>
                Denies(journal, |old(journal)|, o)
    {
      hide Inv, Step, Get, Denies;
      ghost var s0 := Abs();
      StepRefl(s0);
      var v := Get(node, args.key);
      o := Returned(v, v.Some?, 0);
      if !Permitted(Caller(), CallerPrivilege(), args.key.space) {
        o := Thrown(REVERSION);
      } else if v.Some? {
        var charged := ChargeCompute();
        MeteredIsStep(s0, Abs());
        if charged.Thrown? {
          o := charged;
          DeniedIsShort(s0, Abs(), o);
        }
      }
      IdleServes(s0, Abs(), CallerFrame(stack), GetObjectId, args, o);
    }

    /** Runs a contract; what the caller sees is whatever result was last set. */
    method CallContract(args: Args) returns (o: Outcome)
      requires Valid() && InThunk(stack)
      modifies this
      ensures stack == old(stack) && verdicts == old(verdicts) && (!o.Reentered? ==> Valid())
      ensures Served(old(Abs()), Abs(), old(CallerFrame(stack)), CallId, args, o)
      ensures o.Returned? ==> o.value == result.payload && result.code == SUCCESS && EndedWell(journal)
      ensures args.entryPoint == AUTHORIZE_ENTRYPOINT && old(CallerPrivilege()) != Kernel ==> !o.Returned?
      ensures !o.Reentered? && UserOnly(old(Abs()), Abs()) ==>
                if launched == old(launched) then o.Thrown?
                else && RanFirst(old(Abs()), Abs(), args.id, args.entryPoint)
                     && (o == Thrown(REVERSION) || (RunEnds(journal) && Shows(RunEnd(journal), result, o)))
      ensures !o.Reentered? && Unaltered(old(parent), GetObjectId) ==>
                if launched == old(launched) then o.Thrown? else old(launched) + [LaunchOf(old(node), args)] <= launched
      decreases STACK_LIMIT - |stack|, 4
    {
      hide Inv, Went, UserOnly, UserWorld, HasCode, RunEnds, RunEnd, Shows, Get, Served;
      ghost var s0 := Abs();
      var meta: Option<ContractMeta>;
      meta, o := ReadContract(args.id);
      if meta.Some? {
        WentShape(s0, Abs(), iset{}, true);
        if launched == s0.launched {
          NothingLaunched(s0, Abs());
        }
        if meta.value.hash == "" || (args.entryPoint == AUTHORIZE_ENTRYPOINT && CallerPrivilege() != Kernel) {
          o := Thrown(REVERSION);
        } else {
          ghost var s1 := Abs();
          var f := Frame(args.id, None, if meta.value.system then Kernel else User, args.entryPoint);
          o := RunCalled(f);
          WentThen(s0, s1, Abs(), iset{}, CodeOf(s1.node, args.id), iset{}, true, Earned(s1.node, f), true, o.Reentered?);
          if !o.Reentered? && UserOnly(s0, Abs()) && launched != s0.launched {
            UserFirst(s0, Abs(), f);
          }
        }
      }
      CallServes(s0, Abs(), CallerFrame(s0.stack), args, o);
    }

    /** The run of a called contract. An exception other than success is the caller's, or else the result is. */
    method RunCalled(f: Frame) returns (o: Outcome)
      requires Valid()
      modifies this
      ensures stack == old(stack) && verdicts == old(verdicts) && (!o.Reentered? ==> Valid())
      ensures Went(old(Abs()), Abs(), CodeOf(old(node), f.contractId), Earned(old(node), f), o.Reentered?)
      ensures Launches(old(Abs()), Abs(), f, o)
      ensures !o.Reentered? ==> o == Thrown(REVERSION) || (RunEnds(journal) && Shows(RunEnd(journal), result, o))
      ensures o.Returned? ==> o.value == result.payload && result.code == SUCCESS && EndedWell(journal)
      decreases STACK_LIMIT - |stack|, 2
    {
      hide Inv, Went, RunEnd, RunEnds;
      o := RunInFrame(f);
      if o.Returned? || o == Thrown(SUCCESS) {
        var flag: bool := *;
        o := if result.code != 0 then Thrown(result.code) else Returned(result.payload, flag, 0);
      }
    }

    /** The metadata of a contract that has both bytecode and metadata. */
    method ReadContract(id: Id) returns (meta: Option<ContractMeta>, o: Outcome)
      requires Valid() && InThunk(stack)
      modifies this
      ensures stack == old(stack) && verdicts == old(verdicts) && (!o.Reentered? ==> Valid())
      ensures Went(old(Abs()), Abs(), iset{}, true, o.Reentered?)
      ensures meta.Some? <==> o.Returned?
      ensures UserOnly(old(Abs()), Abs()) && !o.Reentered? ==> launched == old(launched)
      ensures Unaltered(old(parent), GetObjectId) && !o.Reentered? ==> launched == old(launched)
      ensures o.Thrown? && UserOnly(old(Abs()), Abs()) && old(parent).Some? ==>
                || Short(old(Abs()), Abs()) || GetObjectId !in priced
                || Get(old(node), BytecodeKey(id)).None? || Get(old(node), MetaKey(id)).None?
      ensures meta.Some? && UserOnly(old(Abs()), Abs()) ==>
                && Unwritten(old(Abs()), Abs()) && launched == old(launched) && HasCode(node, id)
                && meta.value == DecodeMeta(Get(node, MetaKey(id)))
      decreases STACK_LIMIT - |stack|, 3
    {
      hide Inv, Went, UserOnly, UserWorld, Get, Unaltered;
      ghost var s0 := Abs();
      meta := None;
      o := ReadObject(BytecodeKey(id));
      if o.Returned? {
        if o.value.None? {
          o := Thrown(REVERSION);
        } else {
          ghost var s1 := Abs();
          WentShape(s0, s1, iset{}, true);
          o := ReadObject(MetaKey(id));
          WentThen(s0, s1, Abs(), iset{}, iset{}, iset{}, true, true, true, o.Reentered?);
          if o.Returned? {
            if o.value.None? {
              o := Thrown(REVERSION);
            } else {
              meta := Some(DecodeMeta(o.value));
            }
          }
        }
      }
    }

    /** An object read by native code. */
    method ReadObject(key: Key) returns (o: Outcome)
      requires Valid() && InThunk(stack) && key.space.system
      modifies this
      ensures stack == old(stack) && verdicts == old(verdicts) && (!o.Reentered? ==> Valid())
      ensures Went(old(Abs()), Abs(), iset{}, true, o.Reentered?)
      ensures UserOnly(old(Abs()), Abs()) && !o.Reentered? ==> launched == old(launched)
      ensures Unaltered(old(parent), GetObjectId) && !o.Reentered? ==> launched == old(launched)
      ensures o.Returned? && UserOnly(old(Abs()), Abs()) ==> Unwritten(old(Abs()), Abs()) && o.value == Get(node, key)
      ensures o.Thrown? && UserOnly(old(Abs()), Abs()) && old(parent).Some? ==>
                Short(old(Abs()), Abs()) || GetObjectId !in priced
      decreases STACK_LIMIT - |stack|, 2
    {
      hide Inv, Went, UserOnly, Routed, Settles, ChargedOnce, Get, Unaltered, OnlyMetered;
      ghost var s0 := Abs();
      StackBounds(s0);
      var args := NoArgs.(key := key);
      o := SystemCall(GetObjectId, args);
      if Unaltered(s0.parent, GetObjectId) {
        if |stack| < STACK_LIMIT {
          RoutedRead(s0, Abs(), Top(stack), args, true, |stack| < STACK_LIMIT - 1, o);
        } else {
          MeteredIsStep(s0, Abs());
        }
      }
    }

    /** `flag`: the error message is valid UTF-8. */
    method Exit(args: Args) returns (o: Outcome)
      requires Valid() && InThunk(stack)
      modifies this`result
      ensures Valid() && Served(old(Abs()), Abs(), CallerFrame(stack), ExitId, args, o)
      ensures o.Thrown? && result.code == args.code
      ensures args.code == SUCCESS ==> o.code == SUCCESS
      ensures args.code >= REVERSION ==> o.code >= REVERSION
      ensures args.hasError && args.flag ==> o.code == args.code
      ensures args.code != SUCCESS && !(args.hasError && args.flag) ==> o.code == REVERSION
    {
      hide Replay, Audit, Holds, Served;
      ghost var s0 := Abs();
      var payload: Option<Val> := *;
      result := ExecResult(args.code, payload);
      o := Thrown(if args.code != SUCCESS && (!args.hasError || !args.flag) then REVERSION else args.code);
      ThrownServes(s0, Abs(), CallerFrame(stack), ExitId, args, o.code);
    }

    /** Looks two frames further down, and puts both frames back. */
    method GetCaller(args: Args) returns (o: Outcome)
      requires Valid() && InThunk(stack)
      modifies this`stack
      ensures Abs() == old(Abs()) && o.Returned?
      ensures |stack| >= 4 ==>
                o.value == Some(Bytes(stack[|stack| - 4].contractId)) && o.flag == (stack[|stack| - 4].privilege == Kernel)
      ensures Served(old(Abs()), Abs(), old(CallerFrame(stack)), GetCallerId, args, o)
    {
      hide Inv, Step, DirectOf, Keeps, Went, UserOnly;
      ghost var s0 := Abs();
      StackBounds(s0);
      StepRefl(s0);
      TwoFrames(stack);
      var frame0 := PopFrame();
      var frame1 := PopFrame();
      o := Returned(Some(Bytes(Caller())), CallerPrivilege() == Kernel, 0);
      var _ := PushFrame(frame1.value);
      var _ := PushFrame(frame0.value);
      assert Abs() == s0;
      IdleServes(s0, s0, CallerFrame(stack), GetCallerId, args, o);
    }

    /** The account's contract decides if its metadata says so; otherwise the signatures do. */
    method CheckAuthority(args: Args) returns (o: Outcome)
      requires Valid() && InThunk(stack)
      modifies this
      ensures stack == old(stack) && verdicts == old(verdicts) && (!o.Reentered? ==> Valid())
      ensures Served(old(Abs()), Abs(), old(CallerFrame(stack)), CheckAuthorityId, args, o)
      ensures intent.ReadOnly? ==> o == Thrown(REVERSION) && Abs() == old(Abs())
      decreases STACK_LIMIT - |stack|, 5
    {
      hide Inv, Went, Step, UserOnly, UserWorld, Vouched, Recovers, OnlyMetered, Get, Settles, ChargedOnce, Routed, Delegates;
      ghost var s0 := Abs();
      if intent.ReadOnly? {
        o := Thrown(REVERSION);
        StepRefl(s0);
        ThrownServes(s0, s0, CallerFrame(stack), CheckAuthorityId, args, REVERSION);
      } else {
        o := SystemCall(GetObjectId, NoArgs.(key := MetaKey(args.id)));
        if o.Returned? {
          ghost var s1 := Abs();
          o := Authorize(args, DecodeMeta(o.value));
          WentThen(s0, s1, Abs(), iset{}, iset{}, iset{}, true, true, true, o.Reentered?);
          if o.Returned? && o.flag {
            ghost var s2 := Abs();
            WentShape(s0, s1, iset{}, true);
            WentShape(s0, s2, iset{}, true);
            Vouch(args.id, args.entryPoint);
            WentThen(s0, s2, Abs(), iset{}, iset{}, iset{}, true, true, true, false);
            VouchedStays(journal, journal, |s2.journal|, |s0.journal|, args.id, args.entryPoint);
            if Recovers(s2.journal, |s1.journal|, args.id) {
              RecoversStays(s2.journal, journal, |s1.journal|, |s0.journal|, args.id);
            }
          }
        }
      }
    }

    /** Records that an account's authority was found. */
    ghost method Vouch(account: Id, kind: nat)
      requires Valid()
      modifies this`journal
      ensures Valid() && Went(old(Abs()), Abs(), iset{}, true, false) && UserOnly(old(Abs()), Abs())
      ensures Vouched(journal, |old(journal)|, account, kind) && old(journal) <= journal
    {
      hide Inv, OnlyMetered, Vouched, Went, UserOnly;
      ghost var s0 := Abs();
      AuthorizeKeepsInv(s0, account, kind);
      journal := journal + [Authorized(account, kind)];
      MeteredWent(s0, Abs(), iset{}, true);
    }

    /** The contract is asked and its answer taken; or else one of the signatures must be the account's. */
    method Authorize(args: Args, meta: ContractMeta) returns (o: Outcome)
      requires Valid() && InThunk(stack)
      modifies this
      ensures stack == old(stack) && verdicts == old(verdicts) && (!o.Reentered? ==> Valid())
      ensures Went(old(Abs()), Abs(), iset{}, true, o.Reentered?)
      ensures !Delegates(meta, args.entryPoint) && old(trx).None? ==> o == Thrown(REVERSION) && Abs() == old(Abs())
      ensures !Delegates(meta, args.entryPoint) && o.Returned? && o.flag ==> Recovers(journal, |old(journal)|, args.id)
      ensures Delegates(meta, args.entryPoint) && o.Returned? && UserOnly(old(Abs()), Abs()) ==>
                RanFirst(old(Abs()), Abs(), args.id, AUTHORIZE_ENTRYPOINT) && o.flag == GrantOf(result.payload)
      decreases STACK_LIMIT - |stack|, 4
    {
      hide Inv, Went, Step, UserOnly, Recovers, EndedWell, RanFirst, Routed, Settles, ChargedOnce;
      ghost var s0 := Abs();
      if Delegates(meta, args.entryPoint) {
        if args.entryPoint == 0 {
          o := GetCaller(args);
        }
        o := SystemCall(CallId, NoArgs.(id := args.id, entryPoint := AUTHORIZE_ENTRYPOINT));
        if o.Returned? {
          var code: int := *;
          o := if o.value.Some? && !o.value.value.Authorization? then Thrown(code)
               else Returned(None, GrantOf(o.value), 0);
        }
      } else if trx.None? {
        o := Thrown(REVERSION);
        StepRefl(s0);
        IdleWent(s0, s0, iset{}, true);
      } else {
        o := AnySigner(args.id);
      }
    }

    /** Goes through the signatures of the transaction up to one by the account. */
    method AnySigner(account: Id) returns (o: Outcome)
      requires Valid() && InThunk(stack)
      modifies this
      ensures stack == old(stack) && verdicts == old(verdicts) && (!o.Reentered? ==> Valid())
      ensures Went(old(Abs()), Abs(), iset{}, true, o.Reentered?)
      ensures o.Returned? && o.flag ==> Recovers(journal, |old(journal)|, account)
      decreases STACK_LIMIT - |stack|, 3
    {
      hide Inv, Went, Step, UserOnly, UserWorld, Recovers;
      ghost var s0 := Abs();
      StepRefl(s0);
      IdleWent(s0, s0, iset{}, true);
      o := Returned(None, false, 0);
      var signatures: nat := *;
      while signatures > 0 && o.Returned? && !o.flag
        invariant stack == s0.stack && verdicts == old(verdicts) && (!o.Reentered? ==> Valid())
        invariant Went(s0, Abs(), iset{}, true, o.Reentered?)
        invariant o.Returned? && o.flag ==> Recovers(journal, |s0.journal|, account)
        decreases signatures
      {
        signatures := signatures - 1;
        ghost var s1 := Abs();
        WentShape(s0, s1, iset{}, true);
        var signer: Id;
        o, signer := RecoverSigner();
        WentThen(s0, s1, Abs(), iset{}, iset{}, iset{}, true, true, true, o.Reentered?);
        if o.Returned? {
          o := Returned(None, signer == account, 0);
          RecoversStays(journal, journal, |s1.journal|, |s0.journal|, signer);
        }
      }
    }

    /** recover_public_key for one signature, and the address of that key. */
    method RecoverSigner() returns (o: Outcome, signer: Id)
      requires Valid() && InThunk(stack)
      modifies this
      ensures stack == old(stack) && verdicts == old(verdicts) && (!o.Reentered? ==> Valid())
      ensures Went(old(Abs()), Abs(), iset{}, true, o.Reentered?)
      ensures o.Returned? ==> Recovers(journal, |old(journal)|, signer)
      decreases STACK_LIMIT - |stack|, 2
    {
      hide Inv, Went, Step, UserOnly, UserWorld, OnlyMetered, Routed, Settles, ChargedOnce;
      ghost var s0 := Abs();
      o := SystemCall(HelperId(7), NoArgs);
      var address: Id := *;
      signer := address;
      if o.Returned? {
        ghost var s1 := Abs();
        WentShape(s0, s1, iset{}, true);
        RecoveryKeepsInv(s1, signer);
        journal := journal + [Recovered(signer)];
        MeteredWent(s1, Abs(), iset{}, true);
        WentThen(s0, s1, Abs(), iset{}, iset{}, iset{}, true, true, true, false);
        assert journal[|s1.journal|] == Recovered(signer);
      }
    }

    /** The signatures decide whether the genesis key authorized the transaction. */
    method CheckSystemAuthority(args: Args) returns (o: Outcome)
      requires Valid() && InThunk(stack)
      modifies this
      ensures stack == old(stack) && verdicts == old(verdicts) && (!o.Reentered? ==> Valid())
      ensures Served(old(Abs()), Abs(), old(CallerFrame(stack)), CheckSystemAuthorityId, args, o)
      ensures old(trx).None? ==> !o.Returned?
      decreases STACK_LIMIT - |stack|, 4
    {
      hide Inv, Went, Step, UserOnly, UserWorld, Vouched, Recovers, OnlyMetered, Get, Settles, ChargedOnce, Routed;
      ghost var s0 := Abs();
      o := SystemCall(GetObjectId, NoArgs.(key := GENESIS_KEY));
      if o.Returned? {
        ghost var s1 := Abs();
        WentShape(s0, s1, iset{}, true);
        var genesis := if o.value.Some? && o.value.value.Bytes? then o.value.value.bytes else "";
        if trx.None? {
          o := Thrown(REVERSION);
        } else {
          o := AnySigner(genesis);
          WentThen(s0, s1, Abs(), iset{}, iset{}, iset{}, true, true, true, o.Reentered?);
          if o.Returned? && o.flag {
            ghost var s2 := Abs();
            WentShape(s0, s2, iset{}, true);
            Vouch(KERNEL_ZONE, SYSTEM_AUTHORITY);
            WentThen(s0, s2, Abs(), iset{}, iset{}, iset{}, true, true, true, false);
            VouchedStays(journal, journal, |s2.journal|, |s0.journal|, KERNEL_ZONE, SYSTEM_AUTHORITY);
            RecoversStays(s2.journal, journal, |s1.journal|, |s0.journal|, genesis);
          }
        }
      }
    }

    /** The genesis key's authority, or a reversion. */
    method RequireSystemAuthority() returns (o: Outcome)
      requires Valid() && InThunk(stack)
      modifies this
      ensures stack == old(stack) && verdicts == old(verdicts) && (!o.Reentered? ==> Valid())
      ensures Went(old(Abs()), Abs(), iset{}, true, o.Reentered?)
      ensures o.Returned? && UserOnly(old(Abs()), Abs()) ==>
                Vouched(journal, |old(journal)|, KERNEL_ZONE, SYSTEM_AUTHORITY)
      decreases STACK_LIMIT - |stack|, 2
    {
      hide Inv, Went, UserOnly, Vouched, Routed, Settles, ChargedOnce;
      o := SystemCall(CheckSystemAuthorityId, NoArgs);
      if o.Returned? && !o.flag {
        o := Thrown(REVERSION);
      }
    }

    /** Any number of the read-only system calls native helpers make. */
    method AnyHelpers() returns (o: Outcome)
      requires Valid() && InThunk(stack)
      modifies this
      ensures stack == old(stack) && verdicts == old(verdicts) && (!o.Reentered? ==> Valid())
      ensures Went(old(Abs()), Abs(), iset{}, true, o.Reentered?)
      decreases STACK_LIMIT - |stack|, 2
    {
      hide Inv, Went, Step, Answers, UserOnly, UserWorld;
      ghost var s0 := Abs();
      StepRefl(s0);
      IdleWent(s0, s0, iset{}, true);
      o := Done;
      var calls: nat := *;
      while calls > 0 && o.Returned?
        invariant stack == s0.stack && verdicts == old(verdicts) && (!o.Reentered? ==> Valid())
        invariant Went(s0, Abs(), iset{}, true, o.Reentered?)
        decreases calls
      {
        calls := calls - 1;
        var key: Key, helper: nat, read: bool := *, *, *;
        ghost var s1 := Abs();
        o := SystemCall(if read then GetObjectId else HelperId(helper), NoArgs.(key := key));
        WentThen(s0, s1, Abs(), iset{}, iset{}, iset{}, true, true, true, o.Reentered?);
      }
    }

    /** A thunk that computes or reads: hashing, signatures, block and head queries, callbacks. */
    method Helper(thunk: Sid, args: Args) returns (o: Outcome)
      requires thunk.HelperId?
      requires Valid() && InThunk(stack)
      modifies this
      ensures stack == old(stack) && verdicts == old(verdicts) && (!o.Reentered? ==> Valid())
      ensures Served(old(Abs()), Abs(), old(CallerFrame(stack)), thunk, args, o)
      decreases STACK_LIMIT - |stack|, 3
    {
      hide Inv, Went, Step, OnlyMetered, UserOnly, UserWorld;
      ghost var s0 := Abs();
      o := ChargeCompute();
      ghost var s1 := Abs();
      MeteredWent(s0, s1, iset{}, true);
      if o.Returned? {
        MeteredIsStep(s0, s1);
        o := AnyHelpers();
        WentThen(s0, s1, Abs(), iset{}, iset{}, iset{}, true, true, true, o.Reentered?);
        if o.Returned? {
          var value: Option<Val>, flag: bool, number: u64, code: int, throws: bool := *, *, *, *, *;
          o := if throws then Thrown(code) else Returned(value, flag, number);
        }
      }
    }

    /** The event goes to the chronicler and, if a session is live, to the session as well. */
    method EmitEvent(args: Args) returns (o: Outcome)
      requires Valid() && InThunk(stack)
      modifies this`meter, this`journal, this`events, this`sessionEvents
      ensures Valid() && Served(old(Abs()), Abs(), CallerFrame(stack), EventId, args, o)
      ensures o.Returned? ==> |events| == |old(events)| + 1 && events[|old(events)|].event.source == Caller()
      ensures !o.Returned? ==> events == old(events)
    {
      hide Inv, Step, Served, OnlyMetered;
      ghost var s0, caller := Abs(), CallerFrame(stack);
      StepRefl(s0);
      var wellFormed: bool, name: string := *, *;
      if !wellFormed {
        o := Thrown(REVERSION);
        ThrownServes(s0, s0, caller, EventId, args, REVERSION);
      } else {
        o := ChargeCompute();
        ghost var s1 := Abs();
        MeteredIsStep(s0, s1);
        assert events == s0.events by {
          MeteredKeepsEvents(s0, s1);
        }
        if o.Returned? {
          PushEvent(name);
          StepTrans(s0, s1, Abs());
          IdleServes(s0, Abs(), caller, EventId, args, o);
        } else {
          ThrownServes(s0, s1, caller, EventId, args, o.code);
        }
      }
    }

    method PushEvent(name: string)
      requires Valid()
      modifies this`events, this`sessionEvents, this`journal
      ensures Valid() && Step(old(Abs()), Abs())
      ensures events == old(events) + [Entry(trx, Event(|old(events)| % U32_SIZE, Caller(), name))]
      ensures journal == old(journal) + [Emitted]
    {
      hide Inv, Step;
      var event := Event(|events| % U32_SIZE, Caller(), name);
      EmissionKeepsInv(Abs(), event);
      journal := journal + [Emitted];
      if meter.session.Some? {
        sessionEvents := sessionEvents + [event];
      }
      events := events + [Entry(trx, event)];
    }

    method GetAccountNonce(args: Args) returns (o: Outcome)
      requires Valid() && InThunk(stack)
      modifies this
      ensures stack == old(stack) && verdicts == old(verdicts) && (!o.Reentered? ==> Valid())
      ensures Served(old(Abs()), Abs(), old(CallerFrame(stack)), GetAccountNonceId, args, o)
      decreases STACK_LIMIT - |stack|, 2
    {
      hide Inv, Went, UserOnly, Get;
      o := SystemCall(GetObjectId, NoArgs.(key := NonceKey(args.id)));
      if o.Returned? {
        o := Returned(Some(if o.value.Some? then o.value.value else Nonce(0)), false, 0);
      }
    }

    method VerifyAccountNonce(args: Args) returns (o: Outcome)
      requires Valid() && InThunk(stack)
      modifies this
      ensures stack == old(stack) && verdicts == old(verdicts) && (!o.Reentered? ==> Valid())
      ensures Served(old(Abs()), Abs(), old(CallerFrame(stack)), VerifyAccountNonceId, args, o)
      decreases STACK_LIMIT - |stack|, 2
    {
      hide Inv, Went, Step, UserOnly, Get;
      if !args.value.Nonce? {
        StepRefl(Abs());
        ThrownServes(Abs(), Abs(), CallerFrame(stack), VerifyAccountNonceId, args, FAILURE);
        o := Thrown(FAILURE);
      } else {
        o := SystemCall(GetAccountNonceId, NoArgs.(id := args.id));
        if o.Returned? {
          o := if o.value.None? || !o.value.value.Nonce? then Thrown(FAILURE)
               else Returned(None, args.value.nonce == ToU64(o.value.value.nonce + 1), 0);
        }
      }
    }

    method SetAccountNonce(args: Args) returns (o: Outcome)
      requires Valid() && InThunk(stack)
      modifies this
      ensures stack == old(stack) && verdicts == old(verdicts) && (!o.Reentered? ==> Valid())
      ensures Served(old(Abs()), Abs(), old(CallerFrame(stack)), SetAccountNonceId, args, o)
      ensures old(CallerPrivilege()) != Kernel ==> o == Thrown(REVERSION) && Abs() == old(Abs())
      decreases STACK_LIMIT - |stack|, 2
    {
      hide Inv, Went, Step, UserOnly, Get;
      StepRefl(Abs());
      if CallerPrivilege() != Kernel || !args.value.Nonce? {
        o := Thrown(if CallerPrivilege() != Kernel then REVERSION else FAILURE);
        ThrownServes(Abs(), Abs(), CallerFrame(stack), SetAccountNonceId, args, o.code);
      } else {
        o := SystemCall(PutObjectId, NoArgs.(key := NonceKey(args.id), value := args.value));
      }
    }

    method GetAccountRc(args: Args) returns (o: Outcome)
      requires Valid() && InThunk(stack)
      modifies this
      ensures stack == old(stack) && verdicts == old(verdicts) && (!o.Reentered? ==> Valid())
      ensures Served(old(Abs()), Abs(), old(CallerFrame(stack)), GetAccountRcId, args, o)
      decreases STACK_LIMIT - |stack|, 2
    {
      hide Inv, Went, UserOnly, Get;
      o := SystemCall(GetObjectId, NoArgs.(key := MAX_ACCOUNT_RESOURCES));
      if o.Returned? {
        o := if o.value.None? then Thrown(REVERSION)
             else if !o.value.value.MaxResources? then Thrown(FAILURE)
             else Returned(None, true, o.value.value.rc);
      }
    }

    /* ---- operations ---- */

    /** Only kernel code applies operations, and not read only. */
    predicate MayApply()
      requires |stack| >= 2
      reads this`stack
    {
      CallerPrivilege() == Kernel && !intent.ReadOnly?
    }

    /** Refuses an operation. */
    method Refuse(sid: Sid, args: Args) returns (o: Outcome)
      requires Valid() && InThunk(stack) && !MayApply()
      requires sid == UploadContractId || sid == CallContractId || sid == SetSystemCallId || sid == SetSystemContractId
      modifies {}
      ensures o == Thrown(REVERSION) && Served(Abs(), Abs(), CallerFrame(stack), sid, args, o)
    {
      hide Inv, Step, Served;
      o := Thrown(REVERSION);
      StepRefl(Abs());
      ThrownServes(Abs(), Abs(), CallerFrame(stack), sid, args, REVERSION);
    }

    /** An upload keeps the system flag the contract already has. */
    method ApplyUploadContract(args: Args) returns (o: Outcome)
      requires Valid() && InThunk(stack)
      modifies this
      ensures stack == old(stack) && verdicts == old(verdicts) && (!o.Reentered? ==> Valid())
      ensures Served(old(Abs()), Abs(), old(CallerFrame(stack)), UploadContractId, args, o)
      ensures !old(MayApply()) ==> o == Thrown(REVERSION) && Abs() == old(Abs())
      decreases STACK_LIMIT - |stack|, 5
    {
      hide Inv, Went, UserOnly, UserWorld, Get;
      if !MayApply() {
        o := Refuse(UploadContractId, args);
      } else {
        ghost var s0 := Abs();
        o := SystemCall(CheckAuthorityId, NoArgs.(id := args.id, entryPoint := 2));
        if o.Returned? {
          ghost var s1 := Abs();
          if !o.flag {
            WentMore(s0, s1, iset{}, Direct(UploadContractId, args), true, true, false);
            o := Thrown(FAILURE);
          } else {
            o := StoreContract(args);
            WentThen(s0, s1, Abs(), iset{}, Direct(UploadContractId, args), Direct(UploadContractId, args),
                     true, true, true, o.Reentered?);
            if UserOnly(s0, s1) {
              SystemFrame(s0, s1, iset{}, true, MetaKey(args.id));
              if !o.Reentered? {
                WentJournal(s1, Abs(), Direct(UploadContractId, args), true);
                VouchedStays(s1.journal, journal, |s0.journal|, |s0.journal|, args.id, 2);
              }
            }
          }
        } else {
          WentMore(s0, Abs(), iset{}, Direct(UploadContractId, args), true, true, o.Reentered?);
        }
      }
    }

    /** The metadata that is written has the system flag of the metadata that was there. */
    method StoreContract(args: Args) returns (o: Outcome)
      requires Valid() && InThunk(stack)
      modifies this
      ensures stack == old(stack) && verdicts == old(verdicts) && (!o.Reentered? ==> Valid())
      ensures Went(old(Abs()), Abs(), Direct(UploadContractId, args), true, o.Reentered?)
      ensures o.Returned? && UserOnly(old(Abs()), Abs()) ==>
                && Get(node, BytecodeKey(args.id)) == Some(args.value)
                && Get(node, MetaKey(args.id)).Some? && System(node, args.id) == System(old(node), args.id)
      decreases STACK_LIMIT - |stack|, 4
    {
      hide Inv, Went, UserOnly, UserWorld, Get;
      ghost var s0 := Abs();
      ghost var keys := Direct(UploadContractId, args);
      o := SystemCall(GetObjectId, NoArgs.(key := MetaKey(args.id)));
      if o.Returned? {
        var meta := DecodeMeta(o.value);
        ghost var s1 := Abs();
        o := StoreBoth(args, meta.system);
        WentThen(s0, s1, Abs(), iset{}, keys, keys, true, meta.system ==> System(s1.node, args.id), true, o.Reentered?);
      } else {
        WentMore(s0, Abs(), iset{}, keys, true, true, o.Reentered?);
      }
    }

    /** Hashes the bytecode, then writes it and the metadata. */
    method StoreBoth(args: Args, system: bool) returns (o: Outcome)
      requires Valid() && InThunk(stack)
      modifies this
      ensures stack == old(stack) && verdicts == old(verdicts) && (!o.Reentered? ==> Valid())
      ensures Went(old(Abs()), Abs(), Direct(UploadContractId, args), system ==> System(old(node), args.id), o.Reentered?)
      ensures o.Returned? && UserOnly(old(Abs()), Abs()) ==>
                && Get(node, BytecodeKey(args.id)) == Some(args.value)
                && Get(node, MetaKey(args.id)).Some? && DecodeMeta(Get(node, MetaKey(args.id))).system == system
      decreases STACK_LIMIT - |stack|, 3
    {
      hide Inv, Went, UserOnly, UserWorld, Get;
      ghost var s0 := Abs();
      ghost var keys, keeps := Direct(UploadContractId, args), system ==> System(s0.node, args.id);
      o := SystemCall(HelperId(0), NoArgs);
      if o.Returned? {
        var hash: string, call: bool, transaction: bool, upload: bool := *, *, *, *;
        ghost var s1 := Abs();
        if UserOnly(s0, s1) {
          SystemFrame(s0, s1, iset{}, true, MetaKey(args.id));
        }
        ghost var keeps1 := system ==> System(s1.node, args.id);
        o := PutBoth(args, ContractMeta(hash, system, call, transaction, upload));
        WentThen(s0, s1, Abs(), iset{}, keys, keys, true, keeps1, keeps, o.Reentered?);
      } else {
        WentMore(s0, Abs(), iset{}, keys, true, keeps, o.Reentered?);
      }
    }

    method PutBoth(args: Args, meta: ContractMeta) returns (o: Outcome)
      requires Valid() && InThunk(stack)
      modifies this
      ensures stack == old(stack) && verdicts == old(verdicts) && (!o.Reentered? ==> Valid())
      ensures Went(old(Abs()), Abs(), Direct(UploadContractId, args), meta.system ==> System(old(node), args.id), o.Reentered?)
      ensures o.Returned? && UserOnly(old(Abs()), Abs()) ==>
                Get(node, BytecodeKey(args.id)) == Some(args.value) && Get(node, MetaKey(args.id)) == Some(Meta(meta))
      decreases STACK_LIMIT - |stack|, 2
    {
      hide Inv, Went, UserOnly, UserWorld, Get;
      ghost var s0 := Abs();
      ghost var keys, keeps := Direct(UploadContractId, args), meta.system ==> System(s0.node, args.id);
      ghost var code, data := BytecodeKey(args.id), MetaKey(args.id);
      o := SystemCall(PutObjectId, NoArgs.(key := BytecodeKey(args.id), value := args.value));
      WentMore(s0, Abs(), iset{code}, keys, true, true, o.Reentered?);
      if o.Returned? {
        ghost var s1 := Abs();
        if UserOnly(s0, s1) {
          SystemFrame(s0, s1, iset{code}, true, data);
        }
        ghost var keeps1 := meta.system ==> System(s1.node, args.id);
        o := SystemCall(PutObjectId, NoArgs.(key := MetaKey(args.id), value := Meta(meta)));
        WentThen(s0, s1, Abs(), keys, iset{data}, keys, true, keeps1, keeps, o.Reentered?);
        if o.Returned? && UserOnly(s1, Abs()) {
          SystemFrame(s1, Abs(), iset{data}, keeps1, code);
        }
      } else {
        WentMore(s0, Abs(), keys, keys, true, keeps, o.Reentered?);
      }
    }

    /** The contract runs in user mode, and its failures become reversions. */
    method ApplyCallContract(args: Args) returns (o: Outcome)
      requires Valid() && InThunk(stack)
      modifies this
      ensures stack == old(stack) && verdicts == old(verdicts) && (!o.Reentered? ==> Valid())
      ensures Served(old(Abs()), Abs(), old(CallerFrame(stack)), CallContractId, args, o)
      ensures o.Thrown? ==> o.code >= 0
      ensures !old(MayApply()) ==> o == Thrown(REVERSION) && Abs() == old(Abs())
      decreases STACK_LIMIT - |stack|, 2
    {
      hide Inv, Went, UserOnly, Settles, ChargedOnce, WithTop;
      ghost var s0 := Abs();
      StackBounds(s0);
      if !MayApply() {
        o := Refuse(CallContractId, args);
      } else {
        var frame := Top(stack);
        stack := WithTop(stack, frame.(privilege := User));
        TopUndone(s0.stack, frame.(privilege := User));
        RestackKeepsInv(s0, stack);
        o := SystemCall(CallId, NoArgs.(id := args.id, entryPoint := args.entryPoint));
        RestackedServes(s0, WithTop(s0.stack, frame.(privilege := User)), Abs(), frame.(privilege := User), CallId,
                        NoArgs.(id := args.id, entryPoint := args.entryPoint), o);
        if !o.Reentered? {
          RestackKeepsInv(Abs(), s0.stack);
        }
        stack := WithTop(stack, frame);
        if o.Thrown? && o.code < 0 {
          o := Thrown(REVERSION);
        }
      }
    }

    method ApplySetSystemCall(args: Args) returns (o: Outcome)
      requires Valid() && InThunk(stack)
      modifies this
      ensures stack == old(stack) && verdicts == old(verdicts) && (!o.Reentered? ==> Valid())
      ensures Served(old(Abs()), Abs(), old(CallerFrame(stack)), SetSystemCallId, args, o)
      ensures !old(MayApply()) ==> o == Thrown(REVERSION) && Abs() == old(Abs())
      decreases STACK_LIMIT - |stack|, 5
    {
      hide Inv, Went, UserOnly, UserWorld, Vouched, Get;
      if !MayApply() {
        o := Refuse(SetSystemCallId, args);
      } else {
        ghost var s0 := Abs();
        ghost var keys := Direct(SetSystemCallId, args);
        o := RequireSystemAuthority();
        WentMore(s0, Abs(), iset{}, keys, true, true, o.Reentered?);
        if o.Returned? {
          ghost var s1 := Abs();
          o := CheckTarget(args);
          WentThen(s0, s1, Abs(), keys, iset{}, keys, true, true, true, o.Reentered?);
          if o.Returned? {
            ghost var s2 := Abs();
            o := PutAndAnnounce(NoArgs.(key := DispatchKey(args.sid), value := CallTarget(args.target)), true);
            WentThen(s0, s2, Abs(), keys, keys, keys, true, true, true, o.Reentered?);
            if o.Returned? && UserOnly(s0, Abs()) {
              if args.target.Bundle? {
                SystemFrame(s0, s1, iset{}, true, MetaKey(args.target.contractId));
                SystemFrame(s0, s1, iset{}, true, BytecodeKey(args.target.contractId));
              }
              WentJournal(s1, s2, iset{}, true);
              WentJournal(s2, Abs(), keys, true);
              VouchedStays(s1.journal, journal, |s0.journal|, |s0.journal|, KERNEL_ZONE, SYSTEM_AUTHORITY);
            }
          }
        }
      }
    }

    /** A target is a system contract, never for `call` itself, or a thunk that exists. */
    method CheckTarget(args: Args) returns (o: Outcome)
      requires Valid() && InThunk(stack)
      modifies this
      ensures stack == old(stack) && verdicts == old(verdicts) && (!o.Reentered? ==> Valid())
      ensures Went(old(Abs()), Abs(), iset{}, true, o.Reentered?)
      ensures o.Returned? ==> if args.target.Bundle? then args.sid != CallId else !args.target.thunk.UnknownId?
      ensures o.Returned? && UserOnly(old(Abs()), Abs()) ==> Eligible(old(node), args)
      decreases STACK_LIMIT - |stack|, 4
    {
      hide Inv, Went, Step, UserOnly, Get;
      if args.target.Bundle? {
        var meta: Option<ContractMeta>;
        meta, o := ReadContract(args.target.contractId);
        if meta.Some? && (!meta.value.system || args.sid == CallId) {
          o := Thrown(REVERSION);
        }
      } else {
        StepRefl(Abs());
        IdleWent(Abs(), Abs(), iset{}, true);
        o := if args.target.thunk.UnknownId? then Thrown(REVERSION) else Done;
      }
    }

    method PutAndAnnounce(args: Args, ghost keeps: bool) returns (o: Outcome)
      requires Valid() && InThunk(stack) && args.key.space.system && (keeps ==> KeepsWorld(node, PutObjectId, args))
      modifies this
      ensures stack == old(stack) && verdicts == old(verdicts) && (!o.Reentered? ==> Valid())
      ensures Went(old(Abs()), Abs(), iset{args.key}, keeps, o.Reentered?)
      ensures o.Returned? && UserOnly(old(Abs()), Abs()) ==> Get(node, args.key) == Some(args.value)
      decreases STACK_LIMIT - |stack|, 2
    {
      assert forall n :: KeepsWorld(n, EventId, NoArgs);
      hide Inv, Went, UserOnly, UserWorld, Get, KeepsWorld;
      ghost var s0, k := Abs(), KeepsWorld(node, PutObjectId, args);
      o := SystemCall(PutObjectId, args);
      WentMore(s0, Abs(), iset{args.key}, iset{args.key}, k, keeps, o.Reentered?);
      if o.Returned? {
        ghost var s1 := Abs();
        o := SystemCall(EventId, NoArgs);
        WentThen(s0, s1, Abs(), iset{args.key}, iset{}, iset{args.key}, keeps, true, keeps, o.Reentered?);
        if o.Returned? && UserOnly(s1, Abs()) {
          SystemFrame(s1, Abs(), iset{}, true, args.key);
        }
      }
    }

    method ApplySetSystemContract(args: Args) returns (o: Outcome)
      requires Valid() && InThunk(stack)
      modifies this
      ensures stack == old(stack) && verdicts == old(verdicts) && (!o.Reentered? ==> Valid())
      ensures Served(old(Abs()), Abs(), old(CallerFrame(stack)), SetSystemContractId, args, o)
      ensures !old(MayApply()) ==> o == Thrown(REVERSION) && Abs() == old(Abs())
      decreases STACK_LIMIT - |stack|, 5
    {
      hide Inv, Went, UserOnly, UserWorld, Vouched, Get;
      if !MayApply() {
        o := Refuse(SetSystemContractId, args);
      } else {
        ghost var s0 := Abs();
        ghost var keys := Direct(SetSystemContractId, args);
        o := RequireSystemAuthority();
        WentMore(s0, Abs(), iset{}, keys, true, true, o.Reentered?);
        if o.Returned? {
          ghost var s1 := Abs();
          o := SetSystemFlag(args);
          WentThen(s0, s1, Abs(), keys, keys, keys, true, !args.flag, !args.flag, o.Reentered?);
          if o.Returned? && UserOnly(s0, Abs()) {
            SystemFrame(s0, s1, iset{}, true, MetaKey(args.id));
            SystemFrame(s0, s1, iset{}, true, BytecodeKey(args.id));
            WentJournal(s1, Abs(), keys, !args.flag);
            VouchedStays(s1.journal, journal, |s0.journal|, |s0.journal|, KERNEL_ZONE, SYSTEM_AUTHORITY);
          }
        } else {
          WentMore(s0, Abs(), keys, keys, true, !args.flag, o.Reentered?);
        }
      }
    }

    /** Rewrites the metadata of an existing contract with nothing but its system flag changed. */
    method SetSystemFlag(args: Args) returns (o: Outcome)
      requires Valid() && InThunk(stack)
      modifies this
      ensures stack == old(stack) && verdicts == old(verdicts) && (!o.Reentered? ==> Valid())
      ensures Went(old(Abs()), Abs(), iset{MetaKey(args.id)}, !args.flag, o.Reentered?)
      ensures o.Returned? && UserOnly(old(Abs()), Abs()) ==> Flagged(old(node), node, args.id, args.flag)
      decreases STACK_LIMIT - |stack|, 4
    {
      hide Inv, Went, UserOnly, UserWorld, Get;
      ghost var s0 := Abs();
      ghost var keys := iset{MetaKey(args.id)};
      var meta: Option<ContractMeta>;
      meta, o := ReadContract(args.id);
      if meta.Some? && meta.value.hash == "" {
        o := Thrown(REVERSION);
      }
      WentMore(s0, Abs(), iset{}, keys, true, !args.flag, o.Reentered?);
      if o.Returned? {
        ghost var s1 := Abs();
        o := PutAndAnnounce(NoArgs.(key := MetaKey(args.id), value := Meta(meta.value.(system := args.flag))), !args.flag);
        WentThen(s0, s1, Abs(), keys, keys, keys, !args.flag, !args.flag, !args.flag, o.Reentered?);
      }
    }
  }
}
