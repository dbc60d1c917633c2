/**
  The start-up indexer (libraries/chain/indexer.cpp): a chain of tasks that requests
  ranges of heights and queues the answers, and a chain of tasks that submits queued
  blocks, run by different threads. A step is what one thread does between two points
  where the other may be seen. The block store answers a request with exactly the
  heights asked for up to the target, or with an error.
*/
module Indexing {
  import opened Int64

  const FIRST_BATCH: nat := 50
  const MAX_BATCH: nat := 1000

  datatype Request = Request(first: nat, count: nat)

  /** Where the chain of send_requests and process_requests is. */
  datatype Requests =
    | Send(last: nat, batch: nat)
    | Issue(last: nat, batch: nat)
    | Process(last: nat, batch: nat)
    | Pull(last: nat, batch: nat)
    | Push(items: seq<nat>, last: nat, batch: nat)
    | RequestsEnded

  /** Where the chain of process_block is. */
  datatype Feeder = Check | ReadFlag | ReadQueue | PullBlock | Submit(height: nat) | Finish | FeederEnded

  /** The promise of index(); every state but Pending has reset it. */
  datatype Promise = Pending | Done | Cancelled | Failed

  datatype Index = Index(
    start: nat,
    target: nat,
    requestQueue: seq<Request>,
    blockQueue: seq<nat>,
    requestsComplete: bool,
    processingComplete: bool,
    stopped: bool,
    complete: Promise,
    requests: Requests,
    feeder: Feeder,
    // history: requests made, blocks queued, blocks submitted, a reset promise used
    requested: seq<Request>,
    queued: seq<nat>,
    submitted: seq<nat>,
    dangling: bool)

  /** Consecutive heights from `first` on. */
  ghost predicate Rising(s: seq<nat>, first: nat) {
    forall i :: 0 <= i < |s| ==> s[i] == first + i
  }

  lemma RisingSnoc(s: seq<nat>, items: seq<nat>, first: nat)
    requires Rising(s, first) && Rising(items, first + |s|) && items != []
    ensures Rising(s + [items[0]], first) && Rising(items[1..], first + |s| + 1)
  {
  }

  /** Heights `first` up to, not including, `end`. */
  function Heights(first: nat, end: int): (s: seq<nat>)
    ensures |s| == Max(end - first, 0) && Rising(s, first)
  {
    if first <= end then seq(end - first, i => first + i) else []
  }

  function Answer(target: nat, r: Request): seq<nat> {
    Heights(r.first, Min(r.first + r.count, target + 1))
  }

  /** prepare_index, given the heights of the chain's head and of the block store's. */
  function Prepared(start: nat, target: nat): Index {
    var s := Index(start, target, [], [], false, false, false, Pending, Send(start, FIRST_BATCH), Check, [], [], [], false);
    if start < target then s else s.(complete := Done, requests := RequestsEnded, feeder := FeederEnded)
  }

  function RequestStep(s: Index): Index {
    match s.requests
    case Send(last, batch) =>
      s.(requests := if s.stopped then RequestsEnded else Issue(last, batch))
    case Issue(last, batch) =>
      if last <= s.target then
        if s.stopped then s.(requests := RequestsEnded) else
        var r := Request(ToU64(last + 1), batch);
        s.(requestQueue := s.requestQueue + [r], requested := s.requested + [r], requests := Process(last, batch))
      else
        s.(requestsComplete := true, requests := Process(last, batch))
    case Process(last, batch) =>
      s.(requests := if s.stopped then RequestsEnded else Pull(last, batch))
    case Pull(last, batch) =>
      if s.requestsComplete && s.requestQueue == [] then
        s.(processingComplete := true, requests := RequestsEnded)
      else if s.requestQueue == [] then
        if s.stopped then s.(requests := RequestsEnded) else s
      else
        s.(requestQueue := s.requestQueue[1..], requests := Push(Answer(s.target, s.requestQueue[0]), last, batch))
    case Push(items, last, batch) =>
      if items == [] then
        s.(requests := Send(ToU64(last + batch), Min(batch * 2, MAX_BATCH)))
      else if s.stopped then
        s.(requests := RequestsEnded)
      else
        s.(blockQueue := s.blockQueue + [items[0]], queued := s.queued + [items[0]], requests := Push(items[1..], last, batch))
    case RequestsEnded => s
  }

  function FeederStep(s: Index): Index {
    match s.feeder
    case Check => s.(feeder := if s.stopped then FeederEnded else ReadFlag)
    case ReadFlag => s.(feeder := if s.processingComplete then ReadQueue else PullBlock)
    case ReadQueue => s.(feeder := if s.blockQueue == [] then Finish else PullBlock)
    case PullBlock =>
      if s.blockQueue == [] then
        if s.stopped then s.(feeder := FeederEnded) else s
      else
        s.(blockQueue := s.blockQueue[1..], feeder := Submit(s.blockQueue[0]))
    case Submit(height) => s.(submitted := s.submitted + [height], feeder := Check)
    case Finish =>
      if s.complete.Pending? then s.(complete := Done, feeder := FeederEnded)
      else s.(dangling := true, feeder := FeederEnded)
    case FeederEnded => s
  }

  /** The signal handler, and handle_error in either chain, which that chain does not survive. */
  datatype Action = Requesting | Feeding | Interrupt | RequestError | FeederError

  function Halt(s: Index, p: Promise): Index {
    s.(stopped := true, complete := if s.complete.Pending? then p else s.complete)
  }

  function Step(s: Index, a: Action): Index {
    match a
    case Requesting => RequestStep(s)
    case Feeding => FeederStep(s)
    case Interrupt => Halt(s, Cancelled)
    case RequestError => if s.requests.RequestsEnded? then s else Halt(s, Failed).(requests := RequestsEnded)
    case FeederError => if s.feeder.FeederEnded? then s else Halt(s, Failed).(feeder := FeederEnded)
  }

  function Run(s: Index, schedule: seq<Action>): Index
    decreases |schedule|
  {
    if schedule == [] then s else Run(Step(s, schedule[0]), schedule[1..])
  }

  /* ---- tiling ---- */

  /** The height after the last one asked for. */
  function Next(rs: seq<Request>, first: nat): nat {
    if rs == [] then first else rs[|rs| - 1].first + rs[|rs| - 1].count
  }

  /** Each request starts where the one before it ended, the first one at `first`. */
  predicate Tiles(rs: seq<Request>, first: nat) {
    rs != [] ==>
      var n := |rs| - 1;
      rs[n].count >= FIRST_BATCH && rs[n].first == Next(rs[..n], first) && Tiles(rs[..n], first)
  }

  lemma TilesExtend(rs: seq<Request>, first: nat, r: Request)
    requires Tiles(rs, first) && r.first == Next(rs, first) && r.count >= FIRST_BATCH
    ensures Tiles(rs + [r], first) && Next(rs + [r], first) == r.first + r.count
  {
    assert (rs + [r])[..|rs|] == rs;
  }

  predicate Covers(r: Request, h: nat) {
    r.first <= h < r.first + r.count
  }

  predicate AskedOnce(rs: seq<Request>, h: nat) {
    forall i, j :: 0 <= i < |rs| && 0 <= j < |rs| && Covers(rs[i], h) && Covers(rs[j], h) ==> i == j
  }

  /** Every height in the tiled range is asked for by exactly one request, any other by none. */
  lemma {:induction false} TilesPartition(rs: seq<Request>, first: nat, h: nat)
    requires Tiles(rs, first)
    ensures first + FIRST_BATCH * |rs| <= Next(rs, first)
    ensures first <= h < Next(rs, first) <==> exists i :: 0 <= i < |rs| && Covers(rs[i], h)
    ensures AskedOnce(rs, h)
  {
    if rs != [] {
      var n := |rs| - 1;
      var fewer := rs[..n];
      TilesPartition(fewer, first, h);
      if first <= h < rs[n].first {
        var i :| 0 <= i < n && Covers(fewer[i], h);
        assert Covers(rs[i], h);
      } else if first <= h < Next(rs, first) {
        assert Covers(rs[n], h);
      }
      forall i | 0 <= i < n && Covers(rs[i], h)
        ensures first <= h < rs[n].first
      {
        assert Covers(fewer[i], h);
      }
      assert forall i, j :: 0 <= i < n && 0 <= j < n && Covers(rs[i], h) && Covers(rs[j], h) ==> fewer[i] == rs[i] && fewer[j] == rs[j];
    }
  }

  /* ---- the invariant ---- */

  predicate BatchOk(batch: nat) {
    FIRST_BATCH <= batch <= MAX_BATCH
  }

  /** Everything above the start up to this height, capped at the target, has been queued. */
  ghost predicate QueuedTo(s: Index, height: int) {
    |s.queued| == Max(Min(height, s.target) - s.start, 0)
  }

  /** Between two requests: all up to `last` was asked for, answered and queued. */
  ghost predicate Settled(s: Index, last: nat, batch: nat) {
    && BatchOk(batch) && s.start <= last && QueuedTo(s, last) && s.requestQueue == []
    && last <= s.target + MAX_BATCH && Next(s.requested, s.start + 1) == last + 1
  }

  /** After send_requests: one request is queued, or none is needed any more. */
  ghost predicate Awaiting(s: Index, last: nat, batch: nat) {
    if s.requestsComplete then last > s.target && Settled(s, last, batch)
    else
      && BatchOk(batch) && s.start <= last <= s.target && QueuedTo(s, last)
      && s.requestQueue == [Request(last + 1, batch)] && Next(s.requested, s.start + 1) == last + batch + 1
  }

  ghost predicate RequestsOk(s: Index) {
    match s.requests
    case Send(last, batch) => !s.requestsComplete && Settled(s, last, batch)
    case Issue(last, batch) => !s.requestsComplete && Settled(s, last, batch)
    case Process(last, batch) => Awaiting(s, last, batch)
    case Pull(last, batch) => Awaiting(s, last, batch)
    case Push(items, last, batch) =>
      && !s.requestsComplete && s.requestQueue == [] && BatchOk(batch) && s.start <= last <= s.target
      && Next(s.requested, s.start + 1) == last + batch + 1
      && Rising(items, s.start + 1 + |s.queued|) && |s.queued| + |items| == Min(last + batch, s.target) - s.start
    case RequestsEnded => true
  }

  ghost function InHand(f: Feeder): seq<nat> {
    if f.Submit? then [f.height] else []
  }

  /** Until the feeder ends, what was queued is submitted, in its hand or still in the queue. */
  ghost predicate Fed(submitted: seq<nat>, f: Feeder, blockQueue: seq<nat>, queued: seq<nat>) {
    submitted <= queued && (!f.FeederEnded? ==> submitted + InHand(f) + blockQueue == queued)
  }

  /** Queueing a block, taking one and submitting it keep the blocks in order; so does ending. */
  lemma FedSteps(submitted: seq<nat>, f: Feeder, blockQueue: seq<nat>, queued: seq<nat>, h: nat)
    requires Fed(submitted, f, blockQueue, queued)
    ensures Fed(submitted, f, blockQueue + [h], queued + [h])
    ensures f.PullBlock? && blockQueue != [] ==> Fed(submitted, Submit(blockQueue[0]), blockQueue[1..], queued)
    ensures f.Submit? ==> Fed(submitted + [f.height], Check, blockQueue, queued)
    ensures Fed(submitted, FeederEnded, blockQueue, queued)
    ensures !f.FeederEnded? && !f.Submit? && blockQueue == [] ==> submitted == queued
  {
    assert submitted + InHand(f) + (blockQueue + [h]) == submitted + InHand(f) + blockQueue + [h];
    if f.PullBlock? && blockQueue != [] {
      assert submitted + [] + blockQueue == submitted + [blockQueue[0]] + blockQueue[1..];
    }
    if f.Submit? {
      assert submitted + [f.height] + [] + blockQueue == queued;
    }
  }

  /** Only a block in hand tells one stage of a live feeder from another. */
  lemma FedAlike(submitted: seq<nat>, f: Feeder, g: Feeder, blockQueue: seq<nat>, queued: seq<nat>)
    requires Fed(submitted, f, blockQueue, queued) && !f.FeederEnded? && !f.Submit? && !g.Submit?
    ensures Fed(submitted, g, blockQueue, queued)
  {
  }

  ghost predicate FeederOk(s: Index) {
    && Fed(s.submitted, s.feeder, s.blockQueue, s.queued)
    && (s.dangling ==> s.feeder.FeederEnded?)
    && (s.feeder.ReadQueue? ==> s.processingComplete)
    && (s.feeder.Finish? ==> s.processingComplete && s.blockQueue == [])
    && (s.feeder.FeederEnded? ==> s.stopped || s.complete == Done)
  }

  /** What the two chains and the promise agree on. */
  ghost predicate FlagsOk(s: Index) {
    && (s.processingComplete ==> s.requests.RequestsEnded? && QueuedTo(s, s.target))
    && (s.requests.RequestsEnded? ==> s.stopped || s.processingComplete || s.complete == Done)
    && (s.complete == Done ==>
          s.requests.RequestsEnded? && s.feeder.FeederEnded? && QueuedTo(s, s.target) && s.submitted == s.queued)
    && (s.complete == Pending ==> !s.stopped)
    && (s.complete == Cancelled || s.complete == Failed || s.dangling ==> s.stopped)
  }

  /** The requests tile the heights above the start, and the blocks queued are these heights in order. */
  ghost predicate Ordered(s: Index) {
    && Tiles(s.requested, s.start + 1)
    && (s.requested != [] ==> s.requested[|s.requested| - 1].first <= s.target + 1)
    && Rising(s.queued, s.start + 1) && s.start + |s.queued| <= Max(s.start, s.target)
  }

  /** No height the indexer computes wraps around. */
  predicate InRange(s: Index) {
    s.target + MAX_BATCH + 1 < U64_SIZE
  }

  ghost predicate Inv(s: Index) {
    InRange(s) && RequestsOk(s) && FeederOk(s) && FlagsOk(s) && Ordered(s)
  }

  lemma PreparedIsValid(start: nat, target: nat)
    requires target + MAX_BATCH + 1 < U64_SIZE
    ensures Inv(Prepared(start, target))
  {
  }

  /** A request is queued, and the ranges asked for still tile. */
  lemma RequestKeepsInv(s: Index)
    requires Inv(s) && s.requests.Issue? && s.requests.last <= s.target && !s.stopped
    ensures var r := Request(s.requests.last + 1, s.requests.batch);
            Inv(s.(requestQueue := [r], requested := s.requested + [r], requests := Process(s.requests.last, r.count)))
  {
    var r := Request(s.requests.last + 1, s.requests.batch);
    TilesExtend(s.requested, s.start + 1, r);
    hide Tiles, Rising, Fed, Next;
  }

  lemma NoRequestKeepsInv(s: Index)
    requires Inv(s) && s.requests.Issue?
    ensures s.requests.last > s.target ==>
              Inv(s.(requestsComplete := true, requests := Process(s.requests.last, s.requests.batch)))
    ensures s.stopped ==> Inv(s.(requests := RequestsEnded))
  {
    hide Tiles, Rising, Fed, Next;
  }

  lemma IssueKeepsInv(s: Index)
    requires Inv(s) && s.requests.Issue?
    ensures Inv(RequestStep(s))
  {
    var last, r := s.requests.last, Request(s.requests.last + 1, s.requests.batch);
    assert s.requestQueue + [r] == [r];
    assert last <= s.target ==> ToU64(last + 1) == last + 1;
    NoRequestKeepsInv(s);
    if last <= s.target && !s.stopped {
      RequestKeepsInv(s);
    }
    hide Inv, ToU64;
  }

  /** The feeder is about its own part of the state. */
  lemma FeederFrame(s: Index, t: Index)
    requires FeederOk(s)
    requires t.feeder == s.feeder && t.submitted == s.submitted && t.blockQueue == s.blockQueue && t.queued == s.queued
    requires t.dangling == s.dangling && t.complete == s.complete
    requires (s.processingComplete ==> t.processingComplete) && (s.stopped ==> t.stopped)
    ensures FeederOk(t)
  {
    hide Fed;
  }

  lemma PullKeepsInv(s: Index)
    requires Inv(s) && s.requests.Pull?
    ensures Inv(RequestStep(s))
  {
    hide Tiles, Rising, Heights, Fed, Next;
  }

  /** A block of the answer is queued. */
  lemma QueueKeepsInv(s: Index)
    requires Inv(s) && s.requests.Push? && s.requests.items != [] && !s.stopped
    ensures var h := s.requests.items[0];
            Inv(s.(blockQueue := s.blockQueue + [h], queued := s.queued + [h],
                   requests := Push(s.requests.items[1..], s.requests.last, s.requests.batch)))
  {
    RisingSnoc(s.queued, s.requests.items, s.start + 1);
    FedSteps(s.submitted, s.feeder, s.blockQueue, s.queued, s.requests.items[0]);
    hide Tiles, Rising, Fed, Next;
  }

  /** The answer is all queued: the next batch starts where this one ended. */
  lemma NextSendKeepsInv(s: Index)
    requires Inv(s) && s.requests.Push? && s.requests.items == []
    ensures var last := s.requests.last + s.requests.batch;
            Inv(s.(requests := Send(last, Min(s.requests.batch * 2, MAX_BATCH)))) && ToU64(last) == last
  {
    hide Tiles, Rising, Fed, Next;
  }

  lemma PushKeepsInv(s: Index)
    requires Inv(s) && s.requests.Push?
    ensures Inv(RequestStep(s))
  {
    if s.requests.items == [] {
      NextSendKeepsInv(s);
      hide Inv, ToU64;
    } else if !s.stopped {
      QueueKeepsInv(s);
      hide Inv, ToU64;
    } else {
      hide Tiles, Rising, Fed, Next, ToU64;
    }
  }

  /** The tests of the stop flag. */
  lemma TestKeepsInv(s: Index)
    requires Inv(s) && (s.requests.Send? || s.requests.Process?)
    ensures Inv(RequestStep(s))
  {
    hide Tiles, Rising, Heights, Fed, Next;
  }

  lemma RequestStepKeepsInv(s: Index)
    requires Inv(s)
    ensures Inv(RequestStep(s))
    ensures RequestStep(s).start == s.start && RequestStep(s).target == s.target
  {
    hide Inv;
    match s.requests
    case Issue(_, _) => IssueKeepsInv(s);
    case Pull(_, _) => PullKeepsInv(s);
    case Push(_, _, _) => PushKeepsInv(s);
    case RequestsEnded =>
    case _ => TestKeepsInv(s);
  }

  lemma FinishKeepsInv(s: Index)
    requires Inv(s) && s.feeder.Finish?
    ensures Inv(FeederStep(s))
  {
    hide Tiles, Rising, Heights, Next, Fed, RequestsOk;
    FedSteps(s.submitted, s.feeder, s.blockQueue, s.queued, 0);
    RequestsFrame(s, FeederStep(s));
  }

  lemma FeedKeepsInv(s: Index)
    requires Inv(s) && (s.feeder.PullBlock? || s.feeder.Submit?)
    ensures Inv(FeederStep(s))
  {
    hide Tiles, Rising, Heights, Next, Fed, RequestsOk;
    FedSteps(s.submitted, s.feeder, s.blockQueue, s.queued, 0);
    RequestsFrame(s, FeederStep(s));
  }

  lemma LookKeepsInv(s: Index)
    requires Inv(s) && (s.feeder.Check? || s.feeder.ReadFlag? || s.feeder.ReadQueue?)
    ensures Inv(FeederStep(s))
  {
    hide Tiles, Rising, Heights, Next, Fed, RequestsOk;
    FedAlike(s.submitted, s.feeder, FeederStep(s).feeder, s.blockQueue, s.queued);
    RequestsFrame(s, FeederStep(s));
  }

  lemma FeederStepKeepsInv(s: Index)
    requires Inv(s)
    ensures Inv(FeederStep(s))
    ensures FeederStep(s).start == s.start && FeederStep(s).target == s.target
  {
    hide Inv;
    match s.feeder
    case Finish => FinishKeepsInv(s);
    case PullBlock => FeedKeepsInv(s);
    case Submit(_) => FeedKeepsInv(s);
    case FeederEnded =>
    case _ => LookKeepsInv(s);
  }

  lemma HaltKeepsInv(s: Index, p: Promise)
    requires Inv(s) && (p == Cancelled || p == Failed)
    ensures Inv(Halt(s, p))
  {
    RequestsFrame(s, Halt(s, p));
    hide Tiles, Rising, Heights, Next, Fed, RequestsOk;
  }

  /** The chain that calls handle_error ends there. */
  lemma ErrorKeepsInv(s: Index)
    requires Inv(s) && s.stopped
    ensures Inv(s.(requests := RequestsEnded)) && Inv(s.(feeder := FeederEnded))
  {
    FeederFrame(s, s.(requests := RequestsEnded));
    RequestsFrame(s, s.(feeder := FeederEnded));
    FedSteps(s.submitted, s.feeder, s.blockQueue, s.queued, 0);
    hide Tiles, Rising, Heights, Next, Fed, Settled, Awaiting;
  }

  /** The request chain is about its own part of the state. */
  lemma RequestsFrame(s: Index, t: Index)
    requires RequestsOk(s)
    requires t.requests == s.requests && t.requested == s.requested && t.queued == s.queued
    requires t.start == s.start && t.target == s.target
    requires t.requestsComplete == s.requestsComplete && t.requestQueue == s.requestQueue
    ensures RequestsOk(t)
  {
    hide Tiles, Rising, Next;
  }

  lemma StepKeepsInv(s: Index, a: Action)
    requires Inv(s)
    ensures Inv(Step(s, a))
    ensures Step(s, a).start == s.start && Step(s, a).target == s.target
  {
    hide Inv, RequestStep, FeederStep;
    HaltKeepsInv(s, Cancelled);
    HaltKeepsInv(s, Failed);
    ErrorKeepsInv(Halt(s, Failed));
    RequestStepKeepsInv(s);
    FeederStepKeepsInv(s);
  }

  lemma {:induction false} RunKeepsInv(s: Index, schedule: seq<Action>)
    requires Inv(s)
    ensures Inv(Run(s, schedule))
    ensures Run(s, schedule).start == s.start && Run(s, schedule).target == s.target
    decreases |schedule|
  {
    hide Inv, Step;
    if schedule != [] {
      StepKeepsInv(s, schedule[0]);
      RunKeepsInv(Step(s, schedule[0]), schedule[1..]);
    }
  }

  /* ---- safety over every interleaving ---- */

  /** The k-th block submitted is the k-th above the start; none is beyond the target. */
  ghost predicate SubmittedInOrder(s: Index) {
    && (forall k :: 0 <= k < |s.submitted| ==> s.submitted[k] == s.start + 1 + k)
    && (forall k :: 0 <= k < |s.submitted| ==> s.submitted[k] <= s.target)
  }

  /**
    Whatever the two chains, interrupts and errors do, and in whatever order: blocks
    are submitted in ascending order exactly once; success is signalled only after the
    last one up to the target; the requests tile the heights above the start, and
    there are at most (target - start) / 50 + 1 of them.
  */
  lemma IndexingIsSafe(start: nat, target: nat, schedule: seq<Action>, h: nat)
    requires target + MAX_BATCH + 1 < U64_SIZE
    ensures var s := Run(Prepared(start, target), schedule);
            && s.start == start && s.target == target
            && SubmittedInOrder(s)
            && (s.complete == Done ==> (h in s.submitted <==> start < h <= target))
            && AskedOnce(s.requested, h)
            && (start < h < Next(s.requested, start + 1) <==> exists i :: 0 <= i < |s.requested| && Covers(s.requested[i], h))
            && 50 * (|s.requested| - 1) <= Max(target - start, 0)
  {
    PreparedIsValid(start, target);
    RunKeepsInv(Prepared(start, target), schedule);
    hide Prepared, Run;
    var s := Run(Prepared(start, target), schedule);
    BlocksInOrder(s, h);
    RequestsTile(s, h);
    hide Inv, Tiles;
  }

  lemma BlocksInOrder(s: Index, h: nat)
    requires Inv(s)
    ensures SubmittedInOrder(s)
    ensures s.complete == Done ==> (h in s.submitted <==> s.start < h <= s.target)
  {
    hide Tiles, RequestsOk;
    if s.complete == Done && s.start < h <= s.target {
      assert s.submitted[h - s.start - 1] == h;
    }
  }

  lemma RequestsTile(s: Index, h: nat)
    requires Inv(s)
    ensures AskedOnce(s.requested, h)
    ensures s.start < h < Next(s.requested, s.start + 1) <==> exists i :: 0 <= i < |s.requested| && Covers(s.requested[i], h)
    ensures 50 * (|s.requested| - 1) <= Max(s.target - s.start, 0)
  {
    hide RequestsOk, FeederOk, FlagsOk;
    TilesPartition(s.requested, s.start + 1, h);
    if s.requested != [] {
      TilesPartition(s.requested[..|s.requested| - 1], s.start + 1, h);
    }
  }

  /* ---- completion ---- */

  /** Neither chain can do anything more by itself. */
  predicate Quiet(s: Index) {
    RequestStep(s) == s && FeederStep(s) == s
  }

  /** The feeder found the flag down, then waits for a block that no request will bring. */
  predicate Starved(s: Index) {
    s.feeder.PullBlock? && s.blockQueue == [] && s.processingComplete && !s.stopped && s.complete == Pending
  }

  /**
    When an undisturbed run has come to rest, every block was submitted; and success
    was signalled unless the feeder is starved.
  */
  lemma RestIsComplete(s: Index)
    requires Inv(s) && !s.stopped && Quiet(s)
    ensures s.submitted == Heights(s.start + 1, s.target + 1)
    ensures s.complete == Done <==> !Starved(s)
  {
    hide Tiles;
    if s.feeder.PullBlock? {
      assert s.submitted + [] + [] == s.submitted;
    }
  }

  function Repeat(a: Action, n: nat): seq<Action> {
    seq(n, _ => a)
  }

  lemma {:induction false} RunConcat(s: Index, a: seq<Action>, b: seq<Action>)
    ensures Run(s, a + b) == Run(Run(s, a), b)
    decreases |a|
  {
    if a == [] {
      assert a + b == b;
    } else {
      assert (a + b)[1..] == a[1..] + b;
      RunConcat(Step(s, a[0]), a[1..], b);
    }
  }

  lemma RunTwo(s: Index, a: Action, n: nat)
    ensures Run(s, Repeat(a, n + 2)) == Run(Step(Step(s, a), a), Repeat(a, n))
    ensures Run(s, Repeat(a, 0)) == s
  {
    assert Repeat(a, n + 2)[1..] == Repeat(a, n + 1) && Repeat(a, n + 1)[1..] == Repeat(a, n);
  }

  lemma FourAndSix(s: Index, a: Action)
    ensures Run(s, Repeat(a, 4)) == Step(Step(Step(Step(s, a), a), a), a)
    ensures Run(s, Repeat(a, 6)) == Step(Step(Run(s, Repeat(a, 4)), a), a)
  {
    hide Step, Run, Repeat;
    RunTwo(s, a, 4);
    RunTwo(s, a, 2);
    var t := Step(Step(s, a), a);
    RunTwo(t, a, 2);
    RunTwo(t, a, 0);
    var u := Step(Step(t, a), a);
    RunTwo(u, a, 0);
    RunTwo(Step(Step(u, a), a), a, 0);
  }

  /* ---- progress ---- */

  /** How many steps the request chain has left at most. */
  function RequestWork(s: Index): nat {
    match s.requests
    case Send(last, _) => 1010 * Max(s.target + 1 - last, 0) + 5
    case Issue(last, _) => 1010 * Max(s.target + 1 - last, 0) + 4
    case Process(last, _) => 1010 * Max(s.target + 1 - last, 0) + 3
    case Pull(last, _) => 1010 * Max(s.target + 1 - last, 0) + 2
    case Push(items, last, _) => 1010 * Max(s.target - last, 0) + 6 + |items|
    case RequestsEnded => 0
  }

  lemma RequestProgress(s: Index)
    requires Inv(s) && !s.stopped && !s.requests.RequestsEnded?
    ensures var t := RequestStep(s);
            RequestWork(t) < RequestWork(s) && !t.stopped && t.feeder == s.feeder && t.complete == s.complete
  {
    hide Tiles, Rising, Fed, Next, FeederOk, FlagsOk, ToU64;
    if s.requests.Push? {
      NextInRange(s.requests.last, s.requests.batch, s.target);
    }
  }

  lemma NextInRange(last: nat, batch: nat, target: nat)
    requires last <= target && batch <= MAX_BATCH && target + MAX_BATCH + 1 < U64_SIZE
    ensures ToU64(last + batch) == last + batch
  {
  }

  /** How many steps the feeder has left at most once everything is queued. */
  function FeederWork(s: Index): nat {
    match s.feeder
    case Check => 5 * |s.blockQueue| + 4
    case ReadFlag => 5 * |s.blockQueue| + 3
    case ReadQueue => 5 * |s.blockQueue| + 2
    case PullBlock => 5 * |s.blockQueue| + 1
    case Submit(_) => 5 * |s.blockQueue| + 5
    case Finish => 1
    case FeederEnded => 0
  }

  lemma FeederProgress(s: Index)
    requires Inv(s) && !s.stopped && s.processingComplete && !s.feeder.FeederEnded? && !Starved(s)
    ensures var t := FeederStep(s);
            FeederWork(t) < FeederWork(s) && !t.stopped && t.processingComplete && !Starved(t)
  {
    hide Tiles, Rising, Fed, Next, RequestsOk;
  }

  lemma RunMore(s: Index, a: Action, n: nat)
    ensures Run(s, Repeat(a, n + 1)) == Run(Step(s, a), Repeat(a, n)) && Run(s, Repeat(a, 0)) == s
  {
    assert Repeat(a, n + 1)[1..] == Repeat(a, n);
  }

  lemma {:induction false} RequestsFinish(s: Index) returns (n: nat)
    requires Inv(s) && !s.stopped
    ensures var t := Run(s, Repeat(Requesting, n));
            Inv(t) && t.requests.RequestsEnded? && !t.stopped && t.feeder == s.feeder && t.complete == s.complete
    decreases RequestWork(s)
  {
    n := 0;
    RunMore(s, Requesting, 0);
    if !s.requests.RequestsEnded? {
      RequestProgress(s);
      RequestStepKeepsInv(s);
      hide Inv, RequestStep, RequestWork, Run;
      n := RequestsFinish(RequestStep(s));
      RunMore(s, Requesting, n);
      n := n + 1;
    }
  }

  lemma {:induction false} FeedingFinishes(s: Index) returns (m: nat)
    requires Inv(s) && !s.stopped && s.processingComplete && !Starved(s)
    ensures var t := Run(s, Repeat(Feeding, m)); Inv(t) && t.feeder.FeederEnded? && !t.stopped
    decreases FeederWork(s)
  {
    m := 0;
    RunMore(s, Feeding, 0);
    if !s.feeder.FeederEnded? {
      FeederProgress(s);
      FeederStepKeepsInv(s);
      hide Inv, FeederStep, FeederWork, Run, Starved;
      m := FeedingFinishes(FeederStep(s));
      RunMore(s, Feeding, m);
      m := m + 1;
    }
  }

  /**
    Indexing gets done: from the prepared state the request chain ends after finitely
    many steps, and then so does the feeder, with every block submitted and success
    signalled.
  */
  lemma IndexingCompletes(start: nat, target: nat) returns (n: nat, m: nat)
    requires start < target && target + MAX_BATCH + 1 < U64_SIZE
    ensures var s := Run(Prepared(start, target), Repeat(Requesting, n) + Repeat(Feeding, m));
            s.complete == Done && s.submitted == Heights(start + 1, target + 1)
  {
    PreparedIsValid(start, target);
    var p := Prepared(start, target);
    n := RequestsFinish(p);
    var t := Run(p, Repeat(Requesting, n));
    assert t.processingComplete && !Starved(t) by {
      hide Tiles, Rising, Run;
    }
    m := FeedingFinishes(t);
    RunConcat(p, Repeat(Requesting, n), Repeat(Feeding, m));
    RunKeepsInv(p, Repeat(Requesting, n) + Repeat(Feeding, m));
    var u := Run(t, Repeat(Feeding, m));
    hide Run, Repeat, Prepared;
    EndedIsDone(u);
  }

  lemma EndedIsDone(s: Index)
    requires Inv(s) && s.feeder.FeederEnded? && !s.stopped
    ensures s.complete == Done && s.submitted == Heights(s.start + 1, s.target + 1)
  {
    hide Tiles;
  }

  const Requested := Prepared(0, 1).(requests := Send(50, 100), requested := [Request(1, 50)], queued := [1], blockQueue := [1])
  const Emptied := Requested.(feeder := PullBlock, submitted := [1], blockQueue := [])
  const Stuck := Emptied.(requests := RequestsEnded, requestsComplete := true, processingComplete := true)

  /** One block is requested and queued. */
  lemma FirstLeg(s: Index)
    requires s == Prepared(0, 1)
    ensures Run(s, Repeat(Requesting, 6)) == Requested
  {
    FourAndSix(s, Requesting);
    hide Run, Repeat;
    assert Answer(1, Request(1, 50)) == [1];
    hide Heights;
  }

  /** The feeder submits it and finds the flag down. */
  lemma SecondLeg()
    ensures Run(Requested, Repeat(Feeding, 6)) == Emptied
  {
    FourAndSix(Requested, Feeding);
    hide Run, Repeat, RequestStep;
  }

  /** Then the flag goes up. */
  lemma ThirdLeg()
    ensures Run(Emptied, Repeat(Requesting, 4)) == Stuck
  {
    FourAndSix(Emptied, Requesting);
    hide Run, Repeat, FeederStep;
  }

  lemma StuckIsStarved()
    ensures Starved(Stuck) && Quiet(Stuck)
  {
  }

  /** Starvation happens: the feeder may look between the last block and the flag. */
  lemma StarvedRun()
    ensures exists schedule :: Starved(Run(Prepared(0, 1), schedule)) && Quiet(Run(Prepared(0, 1), schedule))
  {
    hide *;
    var request, feed, end := Repeat(Requesting, 6), Repeat(Feeding, 6), Repeat(Requesting, 4);
    FirstLeg(Prepared(0, 1));
    SecondLeg();
    ThirdLeg();
    StuckIsStarved();
    RunConcat(Prepared(0, 1), request + feed, end);
    RunConcat(Prepared(0, 1), request, feed);
    assert Run(Prepared(0, 1), request + feed + end) == Stuck;
  }

  /** The feeder waits for a block when all of them have been submitted. */
  predicate Doomed(s: Index) {
    s.feeder.PullBlock? && s.start + |s.submitted| >= s.target
  }

  /** The chains never signal success from there. */
  lemma {:induction false} DoomedStays(s: Index, schedule: seq<Action>)
    requires Inv(s) && Doomed(s) && !s.stopped
    requires forall i :: 0 <= i < |schedule| ==> schedule[i] == Requesting || schedule[i] == Feeding
    ensures Run(s, schedule).complete == Pending && Doomed(Run(s, schedule))
    decreases |schedule|
  {
    if schedule != [] {
      StepKeepsInv(s, schedule[0]);
      DoomedStep(s, schedule[0]);
      hide Inv, Step;
      DoomedStays(Step(s, schedule[0]), schedule[1..]);
    }
  }

  lemma DoomedStep(s: Index, a: Action)
    requires Inv(s) && Doomed(s) && !s.stopped && (a == Requesting || a == Feeding)
    ensures var t := Step(s, a); Doomed(t) && !t.stopped && t.complete == Pending
  {
    hide Tiles, RequestsOk, Heights, Rising;
  }

  /** And exactly one step leads there: a test that finds the flag down after the last block. */
  lemma DoomedExactly(s: Index, a: Action)
    requires Inv(s) && !Doomed(s)
    ensures Doomed(Step(s, a)) <==>
              a == Feeding && s.feeder == ReadFlag && !s.processingComplete && s.start + |s.submitted| >= s.target
  {
    hide Tiles, RequestsOk, Heights, Rising;
    match a
    case Requesting =>
      assert Step(s, a).feeder == s.feeder && Step(s, a).submitted == s.submitted;
      hide Inv;
    case Feeding =>
      assert |s.submitted| <= |s.queued|;
    case _ =>
      hide Inv;
  }

  /** The promise is used after its reset in exactly this case: a stop between the last check and the signal. */
  lemma DanglingExactly(s: Index, a: Action)
    requires Inv(s) && !s.dangling
    ensures Step(s, a).dangling <==> a == Feeding && s.feeder == Finish && s.stopped
  {
    hide Tiles, RequestsOk, Heights, Rising, Fed;
  }

  const Queued := Requested.(requests := RequestsEnded, requestsComplete := true, processingComplete := true)
  const OneInHand := Queued.(feeder := Submit(1), blockQueue := [])
  const Signalling := Queued.(feeder := Finish, submitted := [1], blockQueue := [])

  lemma RequestsEnd()
    ensures Run(Requested, Repeat(Requesting, 4)) == Queued
  {
    FourAndSix(Requested, Requesting);
    hide Run, Repeat, FeederStep;
  }

  lemma FeederFinishes()
    ensures Run(Queued, Repeat(Feeding, 4)) == OneInHand
    ensures Run(OneInHand, Repeat(Feeding, 4)) == Signalling
  {
    FourAndSix(Queued, Feeding);
    FourAndSix(OneInHand, Feeding);
    hide Run, Repeat, RequestStep;
  }

  lemma StopThenSignal()
    ensures Run(Signalling, [Interrupt, Feeding]).dangling
  {
    var s := [Interrupt, Feeding];
    assert s[1..] == [Feeding] && s[1..][1..] == [];
  }

  /** Such a run: everything was submitted, the interrupt comes, and then success is signalled. */
  lemma DanglingRun()
    ensures exists schedule :: Run(Prepared(0, 1), schedule).dangling
  {
    hide *;
    var r6, r4, f4, end := Repeat(Requesting, 6), Repeat(Requesting, 4), Repeat(Feeding, 4), [Interrupt, Feeding];
    FirstLeg(Prepared(0, 1));
    RequestsEnd();
    FeederFinishes();
    StopThenSignal();
    RunConcat(Prepared(0, 1), r6 + r4 + f4 + f4, end);
    RunConcat(Prepared(0, 1), r6 + r4 + f4, f4);
    RunConcat(Prepared(0, 1), r6 + r4, f4);
    RunConcat(Prepared(0, 1), r6, r4);
    assert Run(Prepared(0, 1), r6 + r4 + f4 + f4 + end).dangling;
  }

  /* ---- the indexer ---- */

  /** The indexer's fields; each method is a section of a task and is that step of the run. */
  class Indexer {
    const start: nat
    const target: nat
    var requestQueue: seq<Request>
    var blockQueue: seq<nat>
    var requestsComplete: bool
    var processingComplete: bool
    var stopped: bool
    var complete: Promise
    var requests: Requests
    var feeder: Feeder
    ghost var requested: seq<Request>
    ghost var queued: seq<nat>
    ghost var submitted: seq<nat>
    ghost var dangling: bool

    ghost function Abs(): Index
      reads this
    {
      Index(start, target, requestQueue, blockQueue, requestsComplete, processingComplete, stopped, complete,
            requests, feeder, requested, queued, submitted, dangling)
    }

    ghost predicate Valid()
      reads this
    {
      Inv(Abs())
    }

    constructor (start: nat, target: nat)
      requires target + MAX_BATCH + 1 < U64_SIZE
      ensures Valid() && Abs() == Prepared(start, target)
    {
      this.start, this.target := start, target;
      requestQueue, blockQueue, requestsComplete, processingComplete, stopped := [], [], false, false, false;
      requested, queued, submitted, dangling := [], [], [], false;
      if start < target {
        complete, requests, feeder := Pending, Send(start, FIRST_BATCH), Check;
      } else {
        complete, requests, feeder := Done, RequestsEnded, FeederEnded;
      }
      new;
      PreparedIsValid(start, target);
    }

    /** send_requests past its test of the stop flag. */
    method SendRequests()
      requires Valid() && requests.Issue?
      modifies this
      ensures Valid() && Abs() == Step(old(Abs()), Requesting)
    {
      hide Inv;
      StepKeepsInv(Abs(), Requesting);
      var last, batch := requests.last, requests.batch;
      if last <= target {
        if stopped {
          requests := RequestsEnded;
        } else {
          var r := Request(ToU64(last + 1), batch);
          requestQueue := requestQueue + [r];
          requested := requested + [r];
          requests := Process(last, batch);
        }
      } else {
        requestsComplete := true;
        requests := Process(last, batch);
      }
    }

    /** process_requests up to the answer it queues the blocks of. */
    method ProcessRequests()
      requires Valid() && requests.Pull?
      modifies this
      ensures Valid() && Abs() == Step(old(Abs()), Requesting)
    {
      hide Inv;
      StepKeepsInv(Abs(), Requesting);
      if requestsComplete && requestQueue == [] {
        processingComplete := true;
        requests := RequestsEnded;
      } else if requestQueue == [] {
        if stopped {
          requests := RequestsEnded;
        }
      } else {
        var r := requestQueue[0];
        requestQueue := requestQueue[1..];
        requests := Push(Answer(target, r), requests.last, requests.batch);
      }
    }

    /** A turn of the loop that queues blocks, or the post of the next request after it. */
    method QueueBlock()
      requires Valid() && requests.Push?
      modifies this
      ensures Valid() && Abs() == Step(old(Abs()), Requesting)
    {
      hide Inv;
      StepKeepsInv(Abs(), Requesting);
      var items, last, batch := requests.items, requests.last, requests.batch;
      if items == [] {
        requests := Send(ToU64(last + batch), Min(batch * 2, MAX_BATCH));
      } else if stopped {
        requests := RequestsEnded;
      } else {
        blockQueue := blockQueue + [items[0]];
        queued := queued + [items[0]];
        requests := Push(items[1..], last, batch);
      }
    }

    /** The stages of process_block, one at a time. */
    method ProcessBlock()
      requires Valid()
      modifies this
      ensures Valid() && Abs() == Step(old(Abs()), Feeding)
    {
      hide Inv;
      StepKeepsInv(Abs(), Feeding);
      match feeder {
        case Check =>
          feeder := if stopped then FeederEnded else ReadFlag;
        case ReadFlag =>
          feeder := if processingComplete then ReadQueue else PullBlock;
        case ReadQueue =>
          feeder := if blockQueue == [] then Finish else PullBlock;
        case PullBlock =>
          if blockQueue != [] {
            feeder := Submit(blockQueue[0]);
            blockQueue := blockQueue[1..];
          } else if stopped {
            feeder := FeederEnded;
          }
        case Submit(height) =>
          submitted := submitted + [height];
          feeder := Check;
        case Finish =>
          if complete.Pending? {
            complete := Done;
          } else {
            dangling := true;
          }
          feeder := FeederEnded;
        case FeederEnded =>
      }
    }

    /** handle_error, as the feeder calls it when a submission fails. */
    method HandleError()
      requires Valid() && !feeder.FeederEnded?
      modifies this
      ensures Valid() && Abs() == Step(old(Abs()), FeederError)
      ensures complete != Done && stopped
    {
      StepKeepsInv(Abs(), FeederError);
      assert complete != Done;
      hide Inv;
      stopped := true;
      if complete.Pending? {
        complete := Failed;
      }
      feeder := FeederEnded;
    }
  }
}
