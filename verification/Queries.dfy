/** The read-only entry point of the controller (libraries/chain/controller.cpp, read_contract). */
module Queries {
  import opened Int64
  import opened Metering
  import opened MeterObjects
  import opened Journal
  import opened Receipts
  import opened State
  import opened Context
  import opened Execution

  /**
    Whatever contract is read, and whatever it calls, overrides and system contracts
    included: the overlay it ran on is still empty when it ends, the caller's frame is
    the only one left, and it spent no more compute than the read limit.
  */
  method ReadContract(head: Node, args: Args, limit: u64, priced: set<Sid>)
    returns (o: Outcome, after: Node, frames: seq<Frame>, spent: int)
    ensures !o.Reentered? && after == Anonymous(head)
    ensures frames == [Frame("", None, User, 0)]
    ensures 0 <= spent <= limit
  {
    hide Inv, Went, Truthful, Settles, ChargedOnce, DirectOf, Keeps, UserOnly;
    var c := new ExecutionContext(ReadOnly, Frame("", None, User, 0), Anonymous(head), priced);
    c.SetLimits(Limits(0, 0, limit, 0, 0, 0));
    ghost var s0 := c.Abs();
    o := c.SystemCall(CallId, args);
    ReadOnlyServed(s0, c.Abs(), Top(s0.stack), CallId, args, o);
    after, frames, spent := c.node, c.stack, limit - c.meter.compute;
  }

  lemma ReadOnlyServed(a: Ctx, b: Ctx, caller: Frame, sid: Sid, args: Args, o: Outcome)
    requires Served(a, b, caller, sid, args, o) && a.intent.ReadOnly?
    ensures !o.Reentered? && b.node == a.node && b.history == a.history
    ensures b.meter.limits == a.meter.limits && 0 <= b.meter.limits.compute - b.meter.compute <= b.meter.limits.compute
  {
    hide Calm, Safe, Truthful, CacheOk, EventsOk, Replay, Audit, Holds, Continues, Intrudes;
    AuditIsSound(b.journal);
  }
}
