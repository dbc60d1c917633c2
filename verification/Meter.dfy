/**
  The resource meter and the RC session (libraries/chain/resource_meter.cpp and
  libraries/chain/session.cpp) as functions on values, with the laws they obey.
  The mutable objects that refine these functions are in MeterObjects.dfy.
*/
module Metering {
  import opened Int64

  datatype Limits = Limits(disk: u64, network: u64, compute: u64,
                           diskCost: u64, networkCost: u64, computeCost: u64)

  /** The RC side of a payer session; `end` falls with use and rises with refunds. */
  datatype RcSession = RcSession(begin: i64, end: i64)

  /** `session` is what locking the meter's weak pointer yields. */
  datatype Meter = Meter(limits: Limits,
                         disk: u64, network: u64, compute: u64,
                         sysDisk: i64, sysNetwork: i64, sysCompute: i64,
                         session: Option<RcSession>)

  datatype Error =
    | DiskLimitExceeded
    | NetworkLimitExceeded
    | ComputeLimitExceeded
    | InsufficientRc
    | RcOverflow
  {
    /** Exceeding a block limit is failure class; everything about RC is a reversion. */
    predicate IsFailure() {
      DiskLimitExceeded? || NetworkLimitExceeded? || ComputeLimitExceeded?
    }
  }

  datatype Result<+T> = Ok(value: T) | Err(error: Error)

  /** What was used, as unbounded integers; disk use is negative after net refunds. */
  datatype Usage = Usage(disk: int, network: int, compute: int) {
    function Plus(u: Usage): Usage {
      Usage(disk + u.disk, network + u.network, compute + u.compute)
    }
  }

  const NoUse: Usage := Usage(0, 0, 0)

  function Fresh(limits: Limits): Meter {
    Meter(limits, limits.disk, limits.network, limits.compute, 0, 0, 0, None)
  }

  /* ---- session ---- */

  function UseRc(s: RcSession, rc: i64): Result<RcSession> {
    if rc <= s.end then Ok(s.(end := ToI64(s.end - rc))) else Err(InsufficientRc)
  }

  function RemainingRc(s: RcSession): u64 {
    ToU64(Min(s.begin, s.end))
  }

  function UsedRc(s: RcSession): u64 {
    if s.end > s.begin then 0 else ToU64(s.begin - s.end)
  }

  /** Narrowing a 128-bit RC cost, known to be at most INT64_MAX, to 64 bits. */
  function Narrow(cost: int): i64
    requires cost <= I64_MAX
  {
    if cost < I64_MIN then I64_MIN else cost
  }

  /** The session half of a `use_*` call: no session means the system pays. */
  function ChargeSession(session: Option<RcSession>, amount: int, cost: u64): Result<Option<RcSession>> {
    match session
    case None => Ok(None)
    case Some(s) =>
      if amount * cost > I64_MAX then Err(RcOverflow) else
      match UseRc(s, Narrow(amount * cost))
      case Ok(s') => Ok(Some(s'))
      case Err(e) => Err(e)
  }

  /* ---- meter ---- */

  function UseDisk(m: Meter, bytes: i64): Result<Meter> {
    if bytes > ToI64(m.disk) then Err(DiskLimitExceeded) else
    match ChargeSession(m.session, bytes, m.limits.diskCost)
    case Err(e) => Err(e)
    case Ok(s) => Ok(m.(session := s,
                        sysDisk := if s.None? then ToI64(m.sysDisk + bytes) else m.sysDisk,
                        disk := ToU64(m.disk - bytes)))
  }

  function UseNetwork(m: Meter, bytes: i64): Result<Meter> {
    // The first comparison is made in uint64_t, so a negative amount looks huge.
    if ToU64(bytes) > m.network || bytes < 0 then Err(NetworkLimitExceeded) else
    match ChargeSession(m.session, bytes, m.limits.networkCost)
    case Err(e) => Err(e)
    case Ok(s) => Ok(m.(session := s,
                        sysNetwork := if s.None? then ToI64(m.sysNetwork + bytes) else m.sysNetwork,
                        network := m.network - bytes))
  }

  function UseCompute(m: Meter, ticks: i64): Result<Meter> {
    if ToU64(ticks) > m.compute || ticks < 0 then Err(ComputeLimitExceeded) else
    match ChargeSession(m.session, ticks, m.limits.computeCost)
    case Err(e) => Err(e)
    case Ok(s) => Ok(m.(session := s,
                        sysCompute := if s.None? then ToI64(m.sysCompute + ticks) else m.sysCompute,
                        compute := m.compute - ticks))
  }

  function DiskUsed(m: Meter): u64 {
    if m.disk > m.limits.disk then 0 else m.limits.disk - m.disk
  }

  function NetworkUsed(m: Meter): u64 {
    ToU64(m.limits.network - m.network)
  }

  function ComputeUsed(m: Meter): u64 {
    ToU64(m.limits.compute - m.compute)
  }

  function Remaining(m: Meter, left: u64, cost: u64): u64 {
    if m.session.Some? && cost > 0
    then Min(RemainingRc(m.session.value) / cost, left)
    else left
  }

  function ComputeRemaining(m: Meter): u64 {
    Remaining(m, m.compute, m.limits.computeCost)
  }

  /* ---- ticks handed to and reported by the VM (libraries/chain/host_api.cpp) ---- */

  function MeterTicks(m: Meter): i64 {
    Min(ComputeRemaining(m), I64_MAX)
  }

  /** The first charge of an exhausted budget stays even though the call then throws. */
  function UseMeterTicks(m: Meter, ticks: u64): (Option<Error>, Meter) {
    if ticks > ComputeRemaining(m) then
      match UseCompute(m, ToI64(ComputeRemaining(m)))
      case Err(e) => (Some(e), m)
      case Ok(m1) =>
        (match UseCompute(m1, 1)
         case Err(e) => (Some(e), m1)
         case Ok(m2) => (None, m2))
    else
      match UseCompute(m, ToI64(ticks))
      case Err(e) => (Some(e), m)
      case Ok(m1) => (None, m1)
  }

  /* ---- the ledger: who used what since the limits were set ---- */

  /**
    `sys` is what was used while no session was live, `all` what was used under any
    session, `cur` the part of `all` that belongs to the live session. `exact` says
    that no refund has left the range of the 64-bit session counter.
  */
  datatype Ledger = Ledger(sys: Usage, all: Usage, cur: Usage, exact: bool)

  const EmptyLedger: Ledger := Ledger(NoUse, NoUse, NoUse, true)

  function RcCost(limits: Limits, u: Usage): int {
    u.disk * limits.diskCost + u.network * limits.networkCost + u.compute * limits.computeCost
  }

  /** A disk refund the session counter can represent. */
  predicate RefundFits(m: Meter, bytes: i64) {
    m.session.Some? ==>
      && I64_MIN <= bytes * m.limits.diskCost
      && m.session.value.end - bytes * m.limits.diskCost <= I64_MAX
  }

  function Book(l: Ledger, live: bool, u: Usage, fits: bool): Ledger {
    if live
    then l.(all := l.all.Plus(u), cur := l.cur.Plus(u), exact := l.exact && fits)
    else l.(sys := l.sys.Plus(u))
  }

  /** Conservation of the three resources, plus the RC law of the live session. */
  ghost predicate Balanced(m: Meter, l: Ledger) {
    && m.compute + l.sys.compute + l.all.compute == m.limits.compute
    && m.network + l.sys.network + l.all.network == m.limits.network
    && m.disk == ToU64(m.limits.disk - l.sys.disk - l.all.disk)
    && l.sys.compute >= 0 && l.all.compute >= 0
    && l.sys.network >= 0 && l.all.network >= 0
    && m.sysCompute == ToI64(l.sys.compute)
    && m.sysNetwork == ToI64(l.sys.network)
    && m.sysDisk == ToI64(l.sys.disk)
    && l.cur.compute >= 0 && l.cur.network >= 0
    && (l.exact && m.session.Some? ==> SessionBalanced(m.session.value, m.limits, l.cur))
  }

  ghost predicate SessionBalanced(s: RcSession, limits: Limits, cur: Usage) {
    && s.begin >= 0
    && s.end >= 0
    && s.end == s.begin - RcCost(limits, cur)
  }

  lemma RcCostPlus(limits: Limits, u: Usage, v: Usage)
    ensures RcCost(limits, u.Plus(v)) == RcCost(limits, u) + RcCost(limits, v)
  {
    assert (u.disk + v.disk) * limits.diskCost == u.disk * limits.diskCost + v.disk * limits.diskCost;
    assert (u.network + v.network) * limits.networkCost
        == u.network * limits.networkCost + v.network * limits.networkCost;
    assert (u.compute + v.compute) * limits.computeCost
        == u.compute * limits.computeCost + v.compute * limits.computeCost;
  }

  lemma ModShift(y: int, k: int)
    ensures (y + k * U64_SIZE) % U64_SIZE == y % U64_SIZE
  {
    var q, r := y / U64_SIZE, y % U64_SIZE;
    var q', r' := (y + k * U64_SIZE) / U64_SIZE, (y + k * U64_SIZE) % U64_SIZE;
    assert (q + k - q') * U64_SIZE == r' - r;
  }

  /** Wrapping early or late makes no difference. */
  lemma WrapPlus(x: int, b: int)
    ensures ToI64(ToI64(x) + b) == ToI64(x + b)
    ensures ToU64(ToU64(x) - b) == ToU64(x - b)
  {
    var q := x / U64_SIZE;
    ModShift(x % U64_SIZE - b, q);
    ModShift(ToI64(x) + b, if x % U64_SIZE <= I64_MAX then q else q + 1);
  }

  /** Charging a live session whose counter stays in range keeps its RC law. */
  lemma SessionKeepsBalance(s: RcSession, limits: Limits, cur: Usage, u: Usage, amount: int, cost: u64)
    requires SessionBalanced(s, limits, cur)
    requires RcCost(limits, u) == amount * cost
    requires I64_MIN <= amount * cost && s.end - amount * cost <= I64_MAX
    ensures match ChargeSession(Some(s), amount, cost)
            case Ok(s') => s'.Some? && SessionBalanced(s'.value, limits, cur.Plus(u))
            case Err(_) => amount * cost > s.end
  {
    RcCostPlus(limits, cur, u);
    var rc := amount * cost;
  }

  lemma DiskKeepsBalance(m: Meter, l: Ledger, bytes: i64)
    requires Balanced(m, l)
    ensures UseDisk(m, bytes).Ok? ==>
              Balanced(UseDisk(m, bytes).value,
                       Book(l, m.session.Some?, Usage(bytes, 0, 0), RefundFits(m, bytes)))
  {
    WrapPlus(l.sys.disk, bytes);
    WrapPlus(m.limits.disk - l.sys.disk - l.all.disk, bytes);
    if m.session.Some? && l.exact && RefundFits(m, bytes) {
      SessionKeepsBalance(m.session.value, m.limits, l.cur, Usage(bytes, 0, 0), bytes, m.limits.diskCost);
    }
  }

  lemma NetworkKeepsBalance(m: Meter, l: Ledger, bytes: i64)
    requires Balanced(m, l)
    ensures UseNetwork(m, bytes).Ok? ==>
              Balanced(UseNetwork(m, bytes).value, Book(l, m.session.Some?, Usage(0, bytes, 0), true))
  {
    WrapPlus(l.sys.network, bytes);
    if m.session.Some? && l.exact && bytes >= 0 {
      assert bytes * m.limits.networkCost >= 0;
      SessionKeepsBalance(m.session.value, m.limits, l.cur, Usage(0, bytes, 0), bytes, m.limits.networkCost);
    }
  }

  lemma ComputeKeepsBalance(m: Meter, l: Ledger, ticks: i64)
    requires Balanced(m, l)
    ensures UseCompute(m, ticks).Ok? ==>
              Balanced(UseCompute(m, ticks).value, Book(l, m.session.Some?, Usage(0, 0, ticks), true))
  {
    WrapPlus(l.sys.compute, ticks);
    if m.session.Some? && l.exact && ticks >= 0 {
      assert ticks * m.limits.computeCost >= 0;
      SessionKeepsBalance(m.session.value, m.limits, l.cur, Usage(0, 0, ticks), ticks, m.limits.computeCost);
    }
  }

  /* ---- limits ---- */

  /** What a live session can be billed. */
  predicate CanPay(m: Meter, amount: int, cost: u64) {
    m.session.Some? ==> amount * cost <= I64_MAX && Narrow(amount * cost) <= m.session.value.end
  }

  /**
    The disk limit is enforced: with remaining disk within int64 a charge is refused for
    it exactly if it exceeds what remains, accepted exactly if it does not and the session
    can pay, and an accepted charge or refund moves the counter by its amount, without
    wrapping around.
  */
  lemma DiskLimitExactly(m: Meter, bytes: i64)
    requires m.disk <= I64_MAX
    ensures UseDisk(m, bytes) == Err(DiskLimitExceeded) <==> bytes > m.disk
    ensures UseDisk(m, bytes).Ok? <==> bytes <= m.disk && CanPay(m, bytes, m.limits.diskCost)
    ensures UseDisk(m, bytes).Ok? ==> UseDisk(m, bytes).value.disk == m.disk - bytes
  {
    assert ToI64(m.disk) == m.disk;
    assert bytes <= m.disk ==> ToU64(m.disk - bytes) == m.disk - bytes;
    hide ToU64, ToI64;
  }

  /** So are the other two limits, for any counter. */
  lemma NetworkLimitExactly(m: Meter, bytes: i64)
    ensures UseNetwork(m, bytes) == Err(NetworkLimitExceeded) <==> bytes < 0 || bytes > m.network
    ensures UseNetwork(m, bytes).Ok? <==> 0 <= bytes <= m.network && CanPay(m, bytes, m.limits.networkCost)
    ensures UseNetwork(m, bytes).Ok? ==> UseNetwork(m, bytes).value.network == m.network - bytes
  {
    assert bytes >= 0 ==> ToU64(bytes) == bytes;
    hide ToU64;
  }

  lemma ComputeLimitExactly(m: Meter, ticks: i64)
    ensures UseCompute(m, ticks) == Err(ComputeLimitExceeded) <==> ticks < 0 || ticks > m.compute
    ensures UseCompute(m, ticks).Ok? <==> 0 <= ticks <= m.compute && CanPay(m, ticks, m.limits.computeCost)
    ensures UseCompute(m, ticks).Ok? ==> UseCompute(m, ticks).value.compute == m.compute - ticks
  {
    assert ticks >= 0 ==> ToU64(ticks) == ticks;
    hide ToU64;
  }

  /** The fall of the disk counter is the net use that was booked, without a modulus. */
  ghost predicate DiskExact(m: Meter, l: Ledger) {
    m.limits.disk - m.disk == l.sys.disk + l.all.disk
  }

  lemma UseKeepsDisk(m: Meter, l: Ledger, c: Charge)
    requires m.disk <= I64_MAX && DiskExact(m, l) && Use(m, c).Ok?
    ensures DiskExact(Use(m, c).value, Book(l, m.session.Some?, UsageOf(c), c.Disk? ==> RefundFits(m, c.bytes)))
  {
    if c.Disk? {
      DiskLimitExactly(m, c.bytes);
    }
    hide ToU64, ToI64, RefundFits;
  }

  /* ---- any sequence of charges and refunds ---- */

  datatype Charge = Disk(bytes: i64) | Network(bytes: i64) | Compute(bytes: i64)

  function Use(m: Meter, c: Charge): Result<Meter> {
    match c
    case Disk(b) => UseDisk(m, b)
    case Network(b) => UseNetwork(m, b)
    case Compute(b) => UseCompute(m, b)
  }

  function UsageOf(c: Charge): Usage {
    match c
    case Disk(b) => Usage(b, 0, 0)
    case Network(b) => Usage(0, b, 0)
    case Compute(b) => Usage(0, 0, b)
  }

  /** The meter after the charges, a rejected one changing nothing. */
  function Run(m: Meter, cs: seq<Charge>): Meter
    decreases |cs|
  {
    if cs == [] then m else
    match Use(m, cs[0])
    case Ok(m') => Run(m', cs[1..])
    case Err(_) => Run(m, cs[1..])
  }

  /** The total of the charges that were accepted. */
  function Accepted(m: Meter, cs: seq<Charge>): Usage
    decreases |cs|
  {
    if cs == [] then NoUse else
    match Use(m, cs[0])
    case Ok(m') => UsageOf(cs[0]).Plus(Accepted(m', cs[1..]))
    case Err(_) => Accepted(m, cs[1..])
  }

  /** Every refund along the run fits the session counter. */
  predicate RefundsFit(m: Meter, cs: seq<Charge>)
    decreases |cs|
  {
    cs != [] ==>
      match Use(m, cs[0])
      case Ok(m') => (cs[0].Disk? ==> RefundFits(m, cs[0].bytes)) && RefundsFit(m', cs[1..])
      case Err(_) => RefundsFit(m, cs[1..])
  }

  lemma UseKeepsBalance(m: Meter, l: Ledger, c: Charge)
    requires Balanced(m, l)
    ensures Use(m, c).Ok? ==>
              && Balanced(Use(m, c).value,
                          Book(l, m.session.Some?, UsageOf(c), c.Disk? ==> RefundFits(m, c.bytes)))
              && Use(m, c).value.limits == m.limits
              && Use(m, c).value.session.Some? == m.session.Some?
              && (m.session.Some? ==> Use(m, c).value.session.value.begin == m.session.value.begin)
  {
    match c
    case Disk(b) => DiskKeepsBalance(m, l, b);
    case Network(b) => NetworkKeepsBalance(m, l, b);
    case Compute(b) => ComputeKeepsBalance(m, l, b);
  }

  lemma {:induction false} RunKeepsBalance(m: Meter, l: Ledger, cs: seq<Charge>)
    requires Balanced(m, l) && m.session.Some?
    ensures Run(m, cs).session.Some? && Run(m, cs).limits == m.limits
    ensures Run(m, cs).session.value.begin == m.session.value.begin
    ensures Balanced(Run(m, cs), Ledger(l.sys, l.all.Plus(Accepted(m, cs)), l.cur.Plus(Accepted(m, cs)),
                                        l.exact && RefundsFit(m, cs)))
    decreases |cs|
  {
    hide Balanced, Use, RefundFits;
    if cs == [] {
      assert l == Ledger(l.sys, l.all.Plus(NoUse), l.cur.Plus(NoUse), l.exact);
    } else {
      UseKeepsBalance(m, l, cs[0]);
      match Use(m, cs[0])
      case Err(_) =>
        RunKeepsBalance(m, l, cs[1..]);
      case Ok(m') =>
        var l' := Book(l, true, UsageOf(cs[0]), cs[0].Disk? ==> RefundFits(m, cs[0].bytes));
        RunKeepsBalance(m', l', cs[1..]);
    }
  }

  lemma FreshIsBalanced(limits: Limits, rc: i64)
    requires rc >= 0
    ensures Balanced(Fresh(limits), EmptyLedger)
    ensures Balanced(Fresh(limits).(session := Some(RcSession(rc, rc))), EmptyLedger)
  {
    assert RcCost(limits, NoUse) == 0;
  }

  lemma UsedRcIsPrice(s: RcSession, price: int)
    requires s.begin >= 0 && s.end >= 0 && s.end == s.begin - price
    ensures UsedRc(s) == Max(0, price) <= s.begin
  {
  }

  /**
    A session opened on fresh limits: whatever is charged and refunded, the block
    counters fall by exactly what was accepted (disk modulo 2^64), the session ends
    at the RC it began with less the price of what was accepted and never below zero,
    and the RC reported as used is at most the RC the session began with.
  */
  lemma SessionAccounting(limits: Limits, rc: i64, cs: seq<Charge>)
    requires rc >= 0
    ensures var m0 := Fresh(limits).(session := Some(RcSession(rc, rc)));
            var m, u := Run(m0, cs), Accepted(m0, cs);
            && limits.compute - m.compute == u.compute >= 0
            && limits.network - m.network == u.network >= 0
            && m.disk == ToU64(limits.disk - u.disk)
            && m.sysDisk == m.sysNetwork == m.sysCompute == 0
            && m.session.Some?
            && (RefundsFit(m0, cs) ==>
                  && m.session.value.end == rc - RcCost(limits, u)
                  && m.session.value.end >= 0
                  && UsedRc(m.session.value) == Max(0, RcCost(limits, u))
                  && UsedRc(m.session.value) <= rc)
  {
    var m0 := Fresh(limits).(session := Some(RcSession(rc, rc)));
    FreshIsBalanced(limits, rc);
    RunKeepsBalance(m0, EmptyLedger, cs);
    var u := Accepted(m0, cs);
    assert NoUse.Plus(u) == u;
    if RefundsFit(m0, cs) {
      UsedRcIsPrice(Run(m0, cs).session.value, RcCost(limits, u));
    }
  }

  /** Every counter along the run stays within int64. */
  ghost predicate DiskSmall(m: Meter, cs: seq<Charge>)
    decreases |cs|
  {
    && m.disk <= I64_MAX
    && (cs != [] ==>
          match Use(m, cs[0])
          case Ok(m') => DiskSmall(m', cs[1..])
          case Err(_) => DiskSmall(m, cs[1..]))
  }

  /**
    Net disk use never exceeds the limit: over any run of charges and refunds, as long as
    remaining disk stays within int64, the fall of the counter is the net use itself.
  */
  lemma {:induction false} DiskWithinLimit(m: Meter, cs: seq<Charge>)
    requires DiskSmall(m, cs)
    ensures m.disk - Run(m, cs).disk == Accepted(m, cs).disk <= m.disk
    decreases |cs|
  {
    if cs != [] {
      match Use(m, cs[0])
      case Err(_) =>
        DiskWithinLimit(m, cs[1..]);
      case Ok(m') =>
        DiskOfCharge(m, cs[0]);
        DiskWithinLimit(m', cs[1..]);
    }
  }

  lemma DiskOfCharge(m: Meter, c: Charge)
    requires m.disk <= I64_MAX && Use(m, c).Ok?
    ensures Use(m, c).value.disk == m.disk - UsageOf(c).disk
  {
    if c.Disk? {
      DiskLimitExactly(m, c.bytes);
    }
  }

  /* ---- exhaustion ---- */

  /** What could really be paid for: unlike ComputeRemaining it sees refund credit. */
  function Budget(m: Meter): int {
    if m.session.Some? && m.limits.computeCost > 0
    then Min(m.session.value.end / m.limits.computeCost, m.compute)
    else m.compute
  }

  ghost predicate Sane(m: Meter) {
    && m.compute <= I64_MAX
    && (m.session.Some? ==> m.session.value.begin >= 0 && m.session.value.end >= 0)
  }

  lemma Affordable(n: nat, d: nat, k: nat)
    requires d > 0
    ensures k <= n / d <==> k * d <= n
    ensures k == n / d ==> (n - k * d) / d == 0
  {
    var q, r := n / d, n % d;
    QuotientBounds(n, d, q, r, k);
    if k == q {
      SmallQuotient(r, d);
    }
  }

  lemma QuotientBounds(n: nat, d: nat, q: nat, r: nat, k: nat)
    requires n == q * d + r && r < d
    ensures k <= q <==> k * d <= n
  {
    if k <= q {
      MulMonotone(k, q, d);
    } else {
      MulMonotone(q + 1, k, d);
      assert (q + 1) * d == q * d + d;
    }
  }

  lemma MulMonotone(a: nat, b: nat, d: nat)
    requires a <= b
    ensures a * d <= b * d
  {
  }

  lemma SmallQuotient(r: nat, d: nat)
    requires r < d
    ensures r / d == 0
  {
  }

  /** Paying for compute under a session, with no wrap-around in sight. */
  lemma Pay(m: Meter, ticks: i64, price: int)
    requires Sane(m) && m.session.Some? && 0 <= ticks && price == ticks * m.limits.computeCost && price >= 0
    ensures var s := m.session.value;
            UseCompute(m, ticks) ==
              if ticks > m.compute then Err(ComputeLimitExceeded)
              else if price > I64_MAX then Err(RcOverflow)
              else if price > s.end then Err(InsufficientRc)
              else Ok(m.(session := Some(s.(end := s.end - price)), compute := m.compute - ticks))
  {
  }

  lemma SaneRemaining(m: Meter)
    requires Sane(m)
    ensures m.session.Some? ==> RemainingRc(m.session.value) == Min(m.session.value.begin, m.session.value.end)
    ensures 0 <= ComputeRemaining(m) <= m.compute
  {
  }

  lemma Product(a: nat, b: nat)
    ensures a * b >= 0
  {
  }

  /** Ticks within the reported budget are always accepted, and exactly they are charged. */
  lemma TicksWithinBudget(m: Meter, ticks: u64)
    requires Sane(m) && ticks <= ComputeRemaining(m)
    ensures ticks <= I64_MAX && UseCompute(m, ticks).Ok?
    ensures UseMeterTicks(m, ticks) == (None, UseCompute(m, ticks).value)
  {
    SaneRemaining(m);
    assert ToI64(ticks) == ticks;
    if m.session.Some? {
      var cost := m.limits.computeCost;
      Product(ticks, cost);
      Pay(m, ticks, ticks * cost);
      hide UseCompute, RemainingRc, ToU64, ToI64;
      if cost > 0 {
        Affordable(RemainingRc(m.session.value), cost, ticks);
      } else {
        assert ticks * cost == 0;
      }
    }
  }

  /**
    A report beyond the remaining budget throws if and only if the remaining budget
    is all that can be paid for, and a throw leaves nothing: with refund credit hidden
    by `remaining_rc` one tick too many is charged and the call returns.
  */
  lemma ExhaustionIsExact(m: Meter, ticks: u64)
    requires Sane(m) && ticks > ComputeRemaining(m)
    ensures UseMeterTicks(m, ticks).0.Some? <==> ComputeRemaining(m) == Budget(m)
    ensures UseMeterTicks(m, ticks).0.Some? ==> ComputeRemaining(UseMeterTicks(m, ticks).1) == 0
    ensures UseMeterTicks(m, ticks).0.None? ==>
              UseMeterTicks(m, ticks).1.compute == m.compute - ComputeRemaining(m) - 1
  {
    var r := ComputeRemaining(m);
    TicksWithinBudget(m, r);
    if m.session.Some? && m.limits.computeCost > 0 {
      OneMoreTick(m, r);
    } else {
      NoMoreTicks(m);
    }
    OverrunCharges(m, ticks);
  }

  lemma OverrunCharges(m: Meter, ticks: u64)
    requires Sane(m) && ticks > ComputeRemaining(m)
    requires UseCompute(m, ComputeRemaining(m)).Ok?
    ensures var m1 := UseCompute(m, ComputeRemaining(m)).value;
            UseMeterTicks(m, ticks) == match UseCompute(m1, 1)
                                       case Ok(m2) => (None, m2)
                                       case Err(e) => (Some(e), m1)
  {
    assert ToI64(ComputeRemaining(m)) == ComputeRemaining(m);
  }

  lemma NoMoreTicks(m: Meter)
    requires Sane(m) && (m.session.None? || m.limits.computeCost == 0)
    ensures var r := m.compute;
            && UseCompute(m, r).Ok?
            && UseCompute(UseCompute(m, r).value, 1).Err?
            && ComputeRemaining(UseCompute(m, r).value) == 0
            && r == Budget(m)
  {
    assert m.compute * 0 == 0;
  }

  /** After charging the remaining budget, is there a tick left to pay for? */
  lemma OneMoreTick(m: Meter, r: u64)
    requires Sane(m) && m.session.Some? && m.limits.computeCost > 0 && r == ComputeRemaining(m)
    requires UseCompute(m, r).Ok?
    ensures var m1 := UseCompute(m, r).value;
            && r <= Budget(m)
            && (UseCompute(m1, 1).Ok? <==> r < Budget(m))
            && (UseCompute(m1, 1).Ok? ==> UseCompute(m1, 1).value.compute == m.compute - r - 1)
            && (UseCompute(m1, 1).Err? ==> ComputeRemaining(m1) == 0)
  {
    var cost, s := m.limits.computeCost, m.session.value;
    var price := r * cost;
    Product(r, cost);
    SaneRemaining(m);
    Pay(m, r, price);
    var m1 := UseCompute(m, r).value;
    Pay(m1, 1, cost);
    Affordable(s.end, cost, r);
    Affordable(s.end, cost, r + 1);
    NextMultiple(r, cost);
    SaneRemaining(m1);
    hide UseCompute, RemainingRc, ToU64, ToI64;
    if s.end - price < cost {
      SmallQuotient(Min(s.begin, s.end - price), cost);
    }
  }

  lemma NextMultiple(r: nat, cost: nat)
    ensures (r + 1) * cost == r * cost + cost
    ensures 1 * cost == cost
  {
  }

  /** The case ExhaustionIsExact carves out: a disk refund lifts `end` above `begin`. */
  lemma HiddenCreditExample()
    ensures var m0 := Fresh(Limits(0, 0, 1000, 1, 1, 10)).(session := Some(RcSession(50, 50)));
            && UseDisk(m0, -40).Ok?
            && var m := UseDisk(m0, -40).value;
               && ComputeRemaining(m) == 5
               && Budget(m) == 9
               && UseMeterTicks(m, 100).0 == None
               && UseMeterTicks(m, 100).1.compute == 994
  {
    var m0 := Fresh(Limits(0, 0, 1000, 1, 1, 10)).(session := Some(RcSession(50, 50)));
    var m := m0.(disk := 40, session := Some(RcSession(50, 90)));
    assert UseDisk(m0, -40) == Ok(m);
    assert UseCompute(m, 5) == Ok(m.(compute := 995, session := Some(RcSession(50, 40))));
  }

  /** What one accepted compute charge does to the meter, without looking inside Balanced. */
  lemma ComputeShape(m: Meter, ticks: i64)
    requires UseCompute(m, ticks).Ok?
    ensures var m' := UseCompute(m, ticks).value;
            && 0 <= ticks == m.compute - m'.compute
            && m'.limits == m.limits && m'.session.Some? == m.session.Some?
            && (m.session.Some? ==> m'.session.value.begin == m.session.value.begin)
  {
  }

  /** A report is no charge, one charge, or the remaining budget and one tick more. */
  lemma TicksShape(m: Meter, ticks: u64) returns (charges: nat, t: i64)
    ensures charges <= 2
    ensures var (e, m') := UseMeterTicks(m, ticks);
            && (charges == 0 ==> m' == m && e.Some?)
            && (charges == 1 ==>
                  UseCompute(m, t) == Ok(m') && (ticks <= ComputeRemaining(m) ==> ToU64(t) == ticks))
            && (charges == 2 ==>
                  UseCompute(m, t).Ok? && UseCompute(UseCompute(m, t).value, 1) == Ok(m')
                  && ticks > ComputeRemaining(m))
  {
    t := if ticks > ComputeRemaining(m) then ToI64(ComputeRemaining(m)) else ToI64(ticks);
    charges := if UseCompute(m, t).Err? then 0
               else if ticks <= ComputeRemaining(m) then 1
               else if UseCompute(UseCompute(m, t).value, 1).Ok? then 2 else 1;
  }

  /** Whatever a tick report does, the ledger that books the fall of the counter balances. */
  lemma TicksKeepBalance(m: Meter, l: Ledger, ticks: u64)
    requires Balanced(m, l)
    ensures var (e, m') := UseMeterTicks(m, ticks);
            && m'.compute <= m.compute
            && Balanced(m', Book(l, m.session.Some?, Usage(0, 0, m.compute - m'.compute), true))
            && m'.limits == m.limits && m'.session.Some? == m.session.Some?
            && (m.session.Some? ==> m'.session.value.begin == m.session.value.begin)
            && (ticks <= ComputeRemaining(m) && e.None? ==> m.compute - m'.compute == ticks)
  {
    hide Balanced, UseCompute, UseMeterTicks;
    var charges, t := TicksShape(m, ticks);
    ChargesKeepBalance(m, l, charges, t, UseMeterTicks(m, ticks).1);
    if charges == 1 {
      ComputeShape(m, t);
    }
  }

  lemma ChargesKeepBalance(m: Meter, l: Ledger, charges: nat, t: i64, m': Meter)
    requires Balanced(m, l) && charges <= 2
    requires charges == 0 ==> m' == m
    requires charges == 1 ==> UseCompute(m, t) == Ok(m')
    requires charges == 2 ==> UseCompute(m, t).Ok? && UseCompute(UseCompute(m, t).value, 1) == Ok(m')
    ensures m'.compute <= m.compute
    ensures Balanced(m', Book(l, m.session.Some?, Usage(0, 0, m.compute - m'.compute), true))
    ensures m'.limits == m.limits && m'.session.Some? == m.session.Some?
    ensures m.session.Some? ==> m'.session.value.begin == m.session.value.begin
  {
    var live := m.session.Some?;
    if charges == 0 {
      assert Book(l, live, Usage(0, 0, 0), true) == l;
    } else {
      var m1, l1 := UseCompute(m, t).value, Book(l, live, Usage(0, 0, t), true);
      ComputeShape(m, t);
      ComputeKeepsBalance(m, l, t);
      if charges == 2 {
        ComputeShape(m1, 1);
        ComputeKeepsBalance(m1, l1, 1);
        assert Book(l1, live, Usage(0, 0, 1), true) == Book(l, live, Usage(0, 0, t + 1), true);
      }
    }
  }
}
