/**
  The journal of an execution: every burn of the VM, every report of burned ticks,
  every charge, session and event, in order. Nothing is ever taken back from it.
  Replaying it yields the meter, so what the journal says was charged is what the
  meter was charged.
*/
module Journal {
  import opened Int64
  import opened Metering

  datatype MeterOp =
    | Burned(ticks: nat)       // by the VM
    | Reported(amount: u64)    // host_api::use_meter_ticks, whatever came of it
    | Trapped                  // the VM, and it runs no further
    | Threw(code: int)         // a host call into the VM, which runs no further
    | Stopped                  // the end of a VM run
    | Used(charge: Charge)     // an accepted charge by native code
    | Denied(charge: Charge)   // a refused charge by native code
    | Balked                   // there was no room for a frame, or for a result
    | Limited(limits: Limits)  // new limits
    | Opened(rc: u64)          // a session
    | Closed
    | Emitted                  // an event
    | Consumed(account: string, amount: u64)  // RC of an account, by the default thunk
    | Recovered(signer: string)  // the address behind a signature of the transaction
    | Authorized(account: string, kind: nat)  // the default thunk found the account's authority

  /**
    `owed` is what was burned since the last accepted report, `advanced` what refused
    reports were charged of it. `forgiven` is what was burned and will not be charged.
    `refused`: the journal ends in a refused report. `honest`: every report was of
    exactly what was owed, every charge entered as denied is one the meter refuses, a run
    that stopped owing ticks had just been refused, and nothing but its last report
    followed a trap or an exception. `down`: the journal ends in one. `mark` is the number of events when the last session opened.
  */
  datatype Books = Books(meter: Meter, ledger: Ledger, burned: nat, host: int, forgiven: int,
                         owed: int, advanced: int, refused: bool, down: bool, honest: bool, emitted: nat, mark: nat)

  const Unlimited: Limits := Limits(U64_SIZE - 1, U64_SIZE - 1, U64_SIZE - 1, 0, 0, 0)

  const NewBooks: Books := Books(Fresh(Unlimited), EmptyLedger, 0, 0, 0, 0, 0, false, false, true, 0, 0)

  /** A report that exceeds the remaining budget or throws. */
  predicate Overruns(m: Meter, op: MeterOp) {
    op.Reported? && (op.amount > ComputeRemaining(m) || UseMeterTicks(m, op.amount).0.Some?)
  }

  function AfterReport(b: Books, t: u64): Books {
    var (e, m) := UseMeterTicks(b.meter, t);
    var charged := b.meter.compute - m.compute;
    var b' := b.(meter := m, honest := b.honest && t == b.owed, refused := e.Some?,
                 ledger := Book(b.ledger, b.meter.session.Some?, Usage(0, 0, charged), true));
    if e.Some? then b'.(advanced := b.advanced + charged)
    else b'.(owed := b.owed - t, advanced := 0, forgiven := b.forgiven + t - b.advanced - charged)
  }

  function AfterUse(b: Books, c: Charge): Books {
    match Use(b.meter, c)
    case Err(_) => b
    case Ok(m) =>
      b.(meter := m,
         ledger := Book(b.ledger, b.meter.session.Some?, UsageOf(c), c.Disk? ==> RefundFits(b.meter, c.bytes)),
         host := if c.Compute? then b.host + c.bytes else b.host)
  }

  function After(b0: Books, op: MeterOp): Books {
    var b := b0.(refused := false, down := false, honest := b0.honest && (b0.down ==> op.Reported?));
    match op
    case Burned(n) => b.(burned := b.burned + n, owed := b.owed + n)
    case Reported(t) => AfterReport(b, t)
    case Trapped => b.(down := true)
    case Threw(_) => b.(down := true)
    case Stopped =>
      b.(owed := 0, advanced := 0, forgiven := b.forgiven + b.owed - b.advanced,
         honest := b.honest && (b.owed == 0 || b0.refused))
    case Used(c) => AfterUse(b, c)
    case Denied(c) => b.(honest := b.honest && Use(b.meter, c).Err?)
    case Balked => b
    case Limited(l) =>
      b.(meter := Fresh(l).(session := b.meter.session), ledger := EmptyLedger.(exact := b.meter.session.None?),
         burned := 0, host := 0, forgiven := b.advanced - b.owed)
    case Opened(rc) =>
      b.(meter := b.meter.(session := Some(RcSession(ToI64(rc), ToI64(rc)))),
         ledger := b.ledger.(cur := NoUse, exact := rc <= I64_MAX), mark := b.emitted)
    case Closed => b.(meter := b.meter.(session := None))
    case Emitted => b.(emitted := b.emitted + 1)
    case Consumed(_, _) => b
    case Recovered(_) => b
    case Authorized(_, _) => b
  }

  /** The books after a journal. */
  function Audit(journal: seq<MeterOp>): Books {
    if journal == [] then NewBooks
    else After(Audit(journal[..|journal| - 1]), journal[|journal| - 1])
  }

  lemma AuditSnoc(journal: seq<MeterOp>, op: MeterOp)
    ensures Audit(journal + [op]) == After(Audit(journal), op)
  {
    assert (journal + [op])[..|journal|] == journal;
  }

  /** Conservation, and the law of ticks: all that was burned or charged by native code is charged, owed or forgiven. */
  ghost predicate Sound(b: Books) {
    && Balanced(b.meter, b.ledger)
    && b.ledger.sys.compute + b.ledger.all.compute + b.owed - b.advanced + b.forgiven == b.burned + b.host
  }

  lemma ReportKeepsSound(b: Books, ticks: u64)
    requires Sound(b)
    ensures Sound(AfterReport(b, ticks))
  {
    hide Balanced, UseMeterTicks, ComputeRemaining;
    TicksKeepBalance(b.meter, b.ledger, ticks);
    var b', m' := AfterReport(b, ticks), UseMeterTicks(b.meter, ticks).1;
    assert Balanced(b'.meter, b'.ledger);
    assert b'.ledger.sys.compute + b'.ledger.all.compute
        == b.ledger.sys.compute + b.ledger.all.compute + (b.meter.compute - m'.compute);
  }

  lemma UseKeepsSound(b: Books, c: Charge)
    requires Sound(b)
    ensures Sound(AfterUse(b, c))
  {
    hide Balanced, RefundFits, Use;
    UseKeepsBalance(b.meter, b.ledger, c);
  }

  lemma SessionKeepsSound(b: Books, op: MeterOp)
    requires Sound(b) && (op.Opened? || op.Closed? || op.Limited?)
    ensures Sound(After(b, op))
  {
    assert RcCost(b.meter.limits, NoUse) == 0;
    if op.Limited? {
      FreshIsBalanced(op.limits, 0);
    }
  }

  lemma AfterKeepsSound(b: Books, op: MeterOp)
    requires Sound(b)
    ensures Sound(After(b, op)) && (!op.Limited? ==> After(b, op).meter.limits == b.meter.limits)
  {
    var b1 := b.(refused := false, down := false, honest := b.honest && (b.down ==> op.Reported?));
    match op
    case Reported(t) =>
      ReportKeepsSound(b1, t);
      TicksKeepBalance(b.meter, b.ledger, t);
      hide Balanced, UseMeterTicks, Sound;
    case Used(c) =>
      UseKeepsSound(b1, c);
      UseKeepsBalance(b.meter, b.ledger, c);
      hide Balanced, Use, Sound, RefundFits;
    case Opened(_) =>
      SessionKeepsSound(b, op);
      hide Sound;
    case Closed =>
      SessionKeepsSound(b, op);
      hide Sound;
    case Limited(_) =>
      SessionKeepsSound(b, op);
      hide Sound;
    case _ =>
      hide Balanced;
  }

  /** Every journal conserves the resources it accounts for. */
  lemma {:induction false} AuditIsSound(journal: seq<MeterOp>)
    ensures Sound(Audit(journal))
  {
    if journal == [] {
      FreshIsBalanced(Unlimited, 0);
    } else {
      AuditIsSound(journal[..|journal| - 1]);
      AfterKeepsSound(Audit(journal[..|journal| - 1]), journal[|journal| - 1]);
      hide Sound, After;
    }
  }

  /**
    Every tick is charged once: in any journal, since its limits were set, the meter has
    lost what the VM burned and native code charged, less what is still owed and what
    was forgiven.
  */
  lemma TicksChargedOnce(journal: seq<MeterOp>)
    ensures var b := Audit(journal);
            b.meter.limits.compute - b.meter.compute == b.burned + b.host - (b.owed - b.advanced) - b.forgiven
  {
    AuditIsSound(journal);
    hide Audit;
  }

  /* ---- a journal and its continuation ---- */

  predicate SessionOp(op: MeterOp) {
    op.Opened? || op.Closed? || op.Limited?
  }

  /** `j'` continues `j` under the same limits, without opening or closing a session. */
  ghost predicate Continues(j: seq<MeterOp>, j': seq<MeterOp>) {
    j <= j' && forall i {:trigger j'[i]} :: |j| <= i < |j'| ==> !SessionOp(j'[i])
  }

  /** The same limits and session, and network use, which is never refunded. */
  ghost predicate SameSession(m: Meter, m': Meter) {
    && m'.limits == m.limits && m'.network <= m.network
    && m'.session.Some? == m.session.Some?
    && (m.session.Some? ==> m'.session.value.begin == m.session.value.begin)
  }

  /** While a session is live the system is charged nothing, and the other way around. */
  ghost predicate SameLedger(live: bool, l: Ledger, l': Ledger) {
    if live
    then l'.sys == l.sys && (l'.exact ==> l.exact)
         && l'.all.disk - l.all.disk == l'.cur.disk - l.cur.disk
         && l'.all.network - l.all.network == l'.cur.network - l.cur.network
         && l'.all.compute - l.all.compute == l'.cur.compute - l.cur.compute
    else l'.all == l.all && l'.cur == l.cur && l'.exact == l.exact
  }

  ghost predicate Continued(b: Books, b': Books) {
    && SameSession(b.meter, b'.meter) && SameLedger(b.meter.session.Some?, b.ledger, b'.ledger)
    && b.ledger.sys.network <= b'.ledger.sys.network
    && b.burned <= b'.burned && b.emitted <= b'.emitted && b'.mark == b.mark && (b'.honest ==> b.honest)
  }

  lemma AfterContinues(b: Books, op: MeterOp)
    requires Sound(b) && !SessionOp(op)
    ensures Continued(b, After(b, op))
  {
    hide Balanced, UseMeterTicks, Use, RefundFits, ComputeRemaining;
    if op.Reported? {
      TicksKeepBalance(b.meter, b.ledger, op.amount);
      SameCounters(b.meter, b.ledger, op.amount);
    } else if op.Used? && Use(b.meter, op.charge).Ok? {
      UseKeepsBalance(b.meter, b.ledger, op.charge);
      NetworkOnlyFalls(b.meter, op.charge);
    }
    hide Sound;
  }

  lemma NetworkOnlyFalls(m: Meter, c: Charge)
    requires Use(m, c).Ok?
    ensures Use(m, c).value.network <= m.network && UsageOf(c).network >= 0
  {
    if c.Network? {
      NetworkLimitExactly(m, c.bytes);
    }
  }

  /** A report of ticks touches neither network nor disk. */
  lemma SameCounters(m: Meter, l: Ledger, ticks: u64)
    requires Balanced(m, l)
    ensures UseMeterTicks(m, ticks).1.network == m.network && UseMeterTicks(m, ticks).1.disk == m.disk
  {
    TicksKeepBalance(m, l, ticks);
    hide UseMeterTicks, ComputeRemaining, SessionBalanced, ToI64, ToU64;
  }

  lemma {:induction false} ContinuationKeepsSession(j: seq<MeterOp>, j': seq<MeterOp>)
    requires Continues(j, j')
    ensures Continued(Audit(j), Audit(j'))
    decreases |j'|
  {
    if |j'| == |j| {
      assert j == j';
    } else {
      var front, op := j'[..|j'| - 1], j'[|j'| - 1];
      ContinuationKeepsSession(j, front);
      AuditIsSound(front);
      AfterContinues(Audit(front), op);
      hide Sound, After, Audit;
      AuditSnoc(front, op);
      assert front + [op] == j';
    }
  }

  lemma ContinuesTrans(j: seq<MeterOp>, j': seq<MeterOp>, j'': seq<MeterOp>)
    requires Continues(j, j') && Continues(j', j'')
    ensures Continues(j, j'')
  {
    forall i | |j| <= i < |j''|
      ensures !SessionOp(j''[i])
    {
      if i < |j'| {
        assert j''[i] == j'[i];
      }
    }
  }

  /* ---- disk ---- */

  /** Remaining disk was within int64 before every entry after the one at `from`. */
  ghost predicate DiskFits(j: seq<MeterOp>, from: nat) {
    forall n {:trigger j[..n]} :: from < n < |j| ==> Audit(j[..n]).meter.disk <= I64_MAX
  }

  /**
    Net disk use never exceeds the limit: since the limits were set, and as long as
    remaining disk stays within int64, the disk counter has lost exactly what the system
    and the transactions used on balance.
  */
  lemma {:induction false} DiskNeverExceeded(j: seq<MeterOp>, from: nat)
    requires from < |j| && j[from].Limited? && DiskFits(j, from)
    ensures var b := Audit(j);
            b.ledger.sys.disk + b.ledger.all.disk == b.meter.limits.disk - b.meter.disk <= b.meter.limits.disk
    decreases |j|
  {
    hide Audit, After;
    var front, op := j[..|j| - 1], j[|j| - 1];
    assert front + [op] == j;
    AuditSnoc(front, op);
    if from < |front| {
      forall n | from < n < |front|
        ensures Audit(front[..n]).meter.disk <= I64_MAX
      {
        assert front[..n] == j[..n];
      }
      DiskNeverExceeded(front, from);
      AuditIsSound(front);
      DiskStaysExact(Audit(front), op);
    } else {
      DiskStartsExact(Audit(front), op);
    }
  }

  lemma DiskStartsExact(b: Books, op: MeterOp)
    requires op.Limited?
    ensures DiskExact(After(b, op).meter, After(b, op).ledger)
  {
  }

  lemma DiskStaysExact(b: Books, op: MeterOp)
    requires Sound(b) && DiskExact(b.meter, b.ledger) && b.meter.disk <= I64_MAX
    ensures DiskExact(After(b, op).meter, After(b, op).ledger)
  {
    hide Balanced, UseMeterTicks, Use, RefundFits, ComputeRemaining, ToI64;
    if op.Reported? {
      TicksKeepBalance(b.meter, b.ledger, op.amount);
      SameCounters(b.meter, b.ledger, op.amount);
    } else if op.Used? && Use(b.meter, op.charge).Ok? {
      UseKeepsDisk(b.meter, b.ledger, op.charge);
      UseKeepsBalance(b.meter, b.ledger, op.charge);
    }
  }

  /* ---- how a run ended ---- */

  predicate Fatal(op: MeterOp) {
    op.Trapped? || op.Threw?
  }

  lemma DownIsFatal(j: seq<MeterOp>)
    ensures Audit(j).down <==> j != [] && Fatal(j[|j| - 1])
  {
    hide Use, UseMeterTicks;
  }

  /* ---- forgiveness ---- */

  /** Every report since `from` was within the budget and accepted. */
  ghost predicate Within(j: seq<MeterOp>, from: nat) {
    forall i {:trigger j[i]} :: from <= i < |j| ==> !Overruns(Audit(j[..i]).meter, j[i])
  }

  ghost predicate NoLimits(j: seq<MeterOp>, from: nat) {
    forall i {:trigger j[i]} :: from <= i < |j| ==> !j[i].Limited?
  }

  ghost predicate Paying(b: Books) {
    b.advanced == 0 && (b.refused ==> b.owed == 0)
  }

  lemma PayingStays(b: Books, op: MeterOp)
    requires Sound(b) && Paying(b) && !Overruns(b.meter, op) && !op.Limited? && After(b, op).honest
    ensures Paying(After(b, op)) && After(b, op).forgiven == b.forgiven
  {
    hide Balanced, Use, UseMeterTicks, ComputeRemaining;
    if op.Reported? {
      TicksKeepBalance(b.meter, b.ledger, op.amount);
    }
  }

  /** Nothing is forgiven but by a report that overran the budget or was refused. */
  lemma {:induction false} WithinForgivesNothing(j: seq<MeterOp>, j': seq<MeterOp>)
    requires j <= j' && Within(j', |j|) && NoLimits(j', |j|) && Paying(Audit(j)) && Audit(j').honest
    ensures Paying(Audit(j')) && Audit(j').forgiven == Audit(j).forgiven
    decreases |j'|
  {
    hide Audit, After, Sound, Paying, Overruns, Within, NoLimits;
    if |j'| == |j| {
      assert j == j';
    } else {
      var front, op := j'[..|j'| - 1], j'[|j'| - 1];
      assert front + [op] == j' && j <= front;
      AuditSnoc(front, op);
      WithinFront(j', |j|);
      AuditIsSound(front);
      HonestBefore(Audit(front), op);
      WithinForgivesNothing(j, front);
      PayingStays(Audit(front), op);
    }
  }

  lemma WithinFront(j: seq<MeterOp>, from: nat)
    requires from < |j| && Within(j, from) && NoLimits(j, from)
    ensures var n := |j| - 1;
            && Within(j[..n], from) && NoLimits(j[..n], from)
            && !Overruns(Audit(j[..n]).meter, j[n]) && !j[n].Limited?
  {
    hide Audit, Overruns;
    var n := |j| - 1;
    forall i | from <= i < n
      ensures !Overruns(Audit(j[..n][..i]).meter, j[..n][i]) && !j[..n][i].Limited?
    {
      assert j[..n][..i] == j[..i] && j[..n][i] == j[i];
    }
  }

  lemma HonestBefore(b: Books, op: MeterOp)
    ensures After(b, op).honest ==> b.honest
  {
    hide Use, UseMeterTicks;
  }

  /* ---- authority ---- */

  /** Since `from` the account's authority was found. */
  ghost predicate Vouched(j: seq<MeterOp>, from: nat, account: string, kind: nat) {
    exists i {:trigger j[i]} :: from <= i < |j| && j[i] == Authorized(account, kind)
  }

  lemma VouchedStays(j: seq<MeterOp>, j': seq<MeterOp>, from: nat, from': nat, account: string, kind: nat)
    requires Vouched(j, from, account, kind) && j <= j' && from' <= from
    ensures Vouched(j', from', account, kind)
  {
    var i :| from <= i < |j| && j[i] == Authorized(account, kind);
    assert j'[i] == j[i];
  }

  /** Since `from` the account's signature was found. */
  ghost predicate Recovers(j: seq<MeterOp>, from: nat, account: string) {
    exists i {:trigger j[i]} :: from <= i < |j| && j[i] == Recovered(account)
  }

  lemma RecoversStays(j: seq<MeterOp>, j': seq<MeterOp>, from: nat, from': nat, account: string)
    requires Recovers(j, from, account) && j <= j' && from' <= from
    ensures Recovers(j', from', account)
  {
    var i :| from <= i < |j| && j[i] == Recovered(account);
    assert j'[i] == j[i];
  }

  /* ---- sessions ---- */

  /** The position of the first close at or after `from`. */
  function CloseOf(j: seq<MeterOp>, from: nat): (i: nat)
    requires from <= |j|
    ensures from <= i <= |j|
    decreases |j| - from
  {
    if from == |j| || j[from].Closed? then from else CloseOf(j, from + 1)
  }

  lemma {:induction false} CloseOfIs(j: seq<MeterOp>, from: nat, i: nat)
    requires from <= i < |j| && j[i].Closed?
    requires forall k {:trigger j[k]} :: from <= k < i ==> !j[k].Closed?
    ensures CloseOf(j, from) == i
    decreases i - from
  {
    if from < i {
      CloseOfIs(j, from + 1, i);
    }
  }

  /** A session was opened at `from` and closed later; nothing else touched sessions or limits in between. */
  ghost predicate SessionAt(j: seq<MeterOp>, from: nat, rc: u64) {
    && from < |j| && j[from] == Opened(rc)
    && CloseOf(j, from) < |j| && j[CloseOf(j, from)].Closed?
    && Continues(j[..from + 1], j[..CloseOf(j, from)])
  }

  /** A session keeps its place when the journal goes on. */
  lemma SessionStays(j: seq<MeterOp>, j': seq<MeterOp>, from: nat, rc: u64)
    requires j <= j' && SessionAt(j, from, rc)
    ensures SessionAt(j', from, rc) && CloseOf(j', from) == CloseOf(j, from)
    ensures j'[..from] == j[..from] && j'[..CloseOf(j, from)] == j[..CloseOf(j, from)]
  {
    var c := CloseOf(j, from);
    CloseIsFirst(j, from);
    CloseOfIs(j', from, c);
    assert j'[..from + 1] == j[..from + 1] && j'[..c] == j[..c];
  }

  lemma {:induction false} CloseIsFirst(j: seq<MeterOp>, from: nat)
    requires from <= |j|
    ensures forall k {:trigger j[k]} :: from <= k < CloseOf(j, from) ==> !j[k].Closed?
    decreases |j| - from
  {
    if from < |j| && !j[from].Closed? {
      CloseIsFirst(j, from + 1);
    }
  }

  /** The books when the session was opened, and just before it was closed. */
  function AtOpen(j: seq<MeterOp>, from: nat): Books
    requires from <= |j|
  {
    Audit(j[..from])
  }

  function AtClose(j: seq<MeterOp>, from: nat): Books
    requires from <= |j|
  {
    Audit(j[..CloseOf(j, from)])
  }

  /** What a session used is what the ledger gained while it was live. */
  lemma SessionUse(j: seq<MeterOp>, from: nat, rc: u64)
    requires SessionAt(j, from, rc)
    ensures var x, y := AtOpen(j, from), AtClose(j, from);
            && y.meter.limits == x.meter.limits && y.meter.session.Some?
            && y.meter.session.value.begin == ToI64(rc)
            && y.ledger.sys == x.ledger.sys && y.ledger.all == x.ledger.all.Plus(y.ledger.cur)
            && (y.ledger.exact ==> rc <= I64_MAX)
            && y.mark == x.emitted && x.emitted <= y.emitted
            && Balanced(x.meter, x.ledger) && Balanced(y.meter, y.ledger)
  {
    var c := CloseOf(j, from);
    var o := j[..from + 1];
    assert o == j[..from] + [Opened(rc)];
    AuditSnoc(j[..from], Opened(rc));
    ContinuationKeepsSession(o, j[..c]);
    AuditIsSound(j[..from]);
    AuditIsSound(j[..c]);
    hide Audit, Balanced, ToI64;
  }

  /** A disk charge that leaves the session counter where it belongs. */
  ghost predicate RefundOk(b: Books, op: MeterOp) {
    op.Used? && op.charge.Disk? && Use(b.meter, op.charge).Ok? ==> RefundFits(b.meter, op.charge.bytes)
  }

  /** The RC law of a session holds as long as its limit and its refunds fit the 64-bit counter, and only then. */
  lemma {:induction false} ExactExactly(j: seq<MeterOp>, from: nat, rc: u64, n: nat)
    requires from < n <= |j| && j[from] == Opened(rc) && Continues(j[..from + 1], j[..n])
    ensures Audit(j[..n]).meter.session.Some?
    ensures Audit(j[..n]).ledger.exact <==>
              rc <= I64_MAX && forall i {:trigger j[i]} :: from < i < n ==> RefundOk(Audit(j[..i]), j[i])
    decreases n
  {
    hide Audit, RefundOk, AfterUse, AfterReport;
    if n == from + 1 {
      assert j[..n] == j[..from] + [Opened(rc)];
      AuditSnoc(j[..from], Opened(rc));
    } else {
      var front, op := j[..n - 1], j[n - 1];
      assert j[..n] == front + [op];
      assert !SessionOp(j[..n][n - 1]);
      AuditSnoc(front, op);
      assert Continues(j[..from + 1], front) by {
        assert forall i :: 0 <= i < n - 1 ==> front[i] == j[..n][i];
      }
      ExactExactly(j, from, rc, n - 1);
      AuditIsSound(front);
      ExactStep(Audit(front), op);
      hide After, Continues, Sound;
    }
  }

  lemma ExactStep(b: Books, op: MeterOp)
    requires Sound(b) && b.meter.session.Some? && !SessionOp(op)
    ensures After(b, op).meter.session.Some?
    ensures After(b, op).ledger.exact <==> b.ledger.exact && RefundOk(b, op)
  {
    AfterContinues(b, op);
    hide Balanced, Use, RefundFits, UseMeterTicks, ComputeRemaining;
  }
}
