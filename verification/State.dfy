/**
  Object spaces, state nodes and permissions (libraries/chain/state.cpp), over an
  abstract state database: a node is a root store or an overlay on its parent.
*/
module State {
  import opened Int64

  type Id = string

  /** A system call and the native thunk of the same number share an id. */
  datatype Sid =
    | ApplyBlockId | ApplyTransactionId
    | UploadContractId | CallContractId | SetSystemCallId | SetSystemContractId
    | GetAccountNonceId | VerifyAccountNonceId | SetAccountNonceId
    | GetAccountRcId | ConsumeAccountRcId
    | PutObjectId | RemoveObjectId | GetObjectId
    | LogId | EventId | CallId | ExitId | GetCallerId | CheckAuthorityId | CheckSystemAuthorityId
    | HelperId(number: nat)   // any thunk that only computes or reads
    | UnknownId(number: nat)  // registered as no genesis thunk

  datatype Space = Space(system: bool, zone: Id, id: nat)

  const KERNEL_ZONE: Id := ""
  const METADATA := Space(true, KERNEL_ZONE, 1)
  const SYSTEM_CALL_DISPATCH := Space(true, KERNEL_ZONE, 2)
  const CONTRACT_BYTECODE := Space(true, KERNEL_ZONE, 3)
  const CONTRACT_METADATA := Space(true, KERNEL_ZONE, 4)
  const TRANSACTION_NONCE := Space(true, KERNEL_ZONE, 5)

  datatype Name = Text(text: string) | CallNumber(sid: Sid)

  datatype Key = Key(space: Space, name: Name)

  datatype ContractMeta = ContractMeta(hash: string, system: bool,
                                       authorizesCall: bool, authorizesTransaction: bool, authorizesUpload: bool)

  datatype Target = Bundle(contractId: Id, entryPoint: nat) | Thunk(thunk: Sid)

  /** Stored objects, by what the reading code parses them as. */
  datatype Val =
    | Bytes(bytes: string)
    | Nonce(nonce: u64)
    | Meta(meta: ContractMeta)
    | CallTarget(target: Target)
    | HeadBlock(height: nat, timestamp: nat)
    | MaxResources(rc: u64)
    | Authorization(granted: bool)  // what an authorize entry point returns

  const EmptyMeta := ContractMeta("", false, false, false, false)

  function DecodeMeta(v: Option<Val>): ContractMeta {
    if v.Some? && v.value.Meta? then v.value.meta else EmptyMeta
  }

  function MetaKey(id: Id): Key { Key(CONTRACT_METADATA, Text(id)) }
  function BytecodeKey(id: Id): Key { Key(CONTRACT_BYTECODE, Text(id)) }
  function NonceKey(account: Id): Key { Key(TRANSACTION_NONCE, Text(account)) }
  function DispatchKey(sid: Sid): Key { Key(SYSTEM_CALL_DISPATCH, CallNumber(sid)) }
  const HEAD_BLOCK := Key(METADATA, Text("object_key::head_block"))
  const GENESIS_KEY := Key(METADATA, Text("object_key::genesis_key"))
  const MAX_ACCOUNT_RESOURCES := Key(METADATA, Text("object_key::max_account_resources"))

  /* ---- nodes ---- */

  datatype Node =
    | Root(store: map<Key, Val>)
    | Over(parent: Node, delta: map<Key, Option<Val>>)

  function Get(n: Node, k: Key): Option<Val> {
    match n
    case Root(store) => if k in store then Some(store[k]) else None
    case Over(parent, delta) => if k in delta then delta[k] else Get(parent, k)
  }

  /** Writing Some is put_object, writing None is remove_object. */
  function Set(n: Node, k: Key, v: Option<Val>): (r: Node)
    ensures r.Over? == n.Over?
    ensures n.Over? ==> r.parent == n.parent
    ensures forall x :: Get(r, x) == if x == k then v else Get(n, x)
  {
    match n
    case Root(store) => Root(if v.Some? then store[k := v.value] else store - {k})
    case Over(parent, delta) => Over(parent, delta[k := v])
  }

  function ParentOf(n: Node): Option<Node> {
    if n.Over? then Some(n.parent) else None
  }

  /** create_anonymous_node */
  function Anonymous(n: Node): Node {
    Over(n, map[])
  }

  /** Committing an anonymous node merges its delta into the node it was created on. */
  function Commit(n: Node): Node
    requires n.Over? && n.parent.Over?
  {
    Over(n.parent.parent, n.parent.delta + n.delta)
  }

  /* ---- the history of a node ---- */

  /** What happens to the node a context executes on; nothing is ever taken back from a history. */
  datatype Deed =
    | Wrote(key: Key, value: Option<Val>)
    | Forked   // execution goes on on an anonymous node over it
    | Merged   // the anonymous node is committed
    | Dropped  // the anonymous node is dropped

  function Redo(n: Node, d: Deed): (r: Node)
    ensures d.Wrote? ==> r.Over? == n.Over? && (n.Over? ==> r.parent == n.parent)
  {
    match d
    case Wrote(k, v) => Set(n, k, v)
    case Forked => Anonymous(n)
    case Merged => if n.Over? && n.parent.Over? then Commit(n) else n
    case Dropped => if n.Over? then n.parent else n
  }

  function Replay(n: Node, h: seq<Deed>): Node {
    if h == [] then n else Redo(Replay(n, h[..|h| - 1]), h[|h| - 1])
  }

  ghost predicate OnlyWrote(h: seq<Deed>, from: nat) {
    forall i {:trigger h[i]} :: from <= i < |h| ==> h[i].Wrote?
  }

  lemma ReplaySnoc(n: Node, h: seq<Deed>, d: Deed)
    ensures Replay(n, h + [d]) == Redo(Replay(n, h), d)
  {
    assert (h + [d])[..|h|] == h;
  }

  lemma {:induction false} ReplayConcat(n: Node, h: seq<Deed>, g: seq<Deed>)
    ensures Replay(n, h + g) == Replay(Replay(n, h), g)
  {
    if g == [] {
      assert h + g == h;
    } else {
      var last := |g| - 1;
      ReplayConcat(n, h, g[..last]);
      assert h + g == (h + g[..last]) + [g[last]];
      ReplaySnoc(n, h + g[..last], g[last]);
    }
  }

  lemma {:induction false} WritesKeepShape(n: Node, g: seq<Deed>)
    requires OnlyWrote(g, 0)
    ensures Replay(n, g).Over? == n.Over? && (n.Over? ==> Replay(n, g).parent == n.parent)
  {
    if g != [] {
      WritesKeepShape(n, g[..|g| - 1]);
    }
  }

  /** Writing through an anonymous node and committing is writing directly. */
  lemma {:induction false} OverlayCommitIsDirect(block: Node, g: seq<Deed>)
    requires block.Over? && OnlyWrote(g, 0)
    ensures Replay(Anonymous(block), g).Over? && Replay(Anonymous(block), g).parent == block
    ensures Commit(Replay(Anonymous(block), g)) == Replay(block, g)
  {
    WritesKeepShape(Anonymous(block), g);
    if g == [] {
      assert block.delta + map[] == block.delta;
    } else {
      var last := |g| - 1;
      OverlayCommitIsDirect(block, g[..last]);
      WritesKeepShape(Anonymous(block), g[..last]);
      WritesKeepShape(block, g[..last]);
      var inner := Replay(Anonymous(block), g[..last]);
      var k, v := g[last].key, g[last].value;
      assert block.delta + inner.delta[k := v] == (block.delta + inner.delta)[k := v];
    }
  }

  /** A fork that is merged leaves its writes, one that is dropped leaves nothing. */
  lemma ForkEnds(block: Node, g: seq<Deed>)
    requires block.Over? && OnlyWrote(g, 0)
    ensures Replay(block, [Forked] + g + [Merged]) == Replay(block, g)
    ensures Replay(block, [Forked] + g + [Dropped]) == block
  {
    hide Replay, Commit;
    OverlayCommitIsDirect(block, g);
    ReplayConcat(block, [Forked], g);
    ReplaySnoc(block, [Forked] + g, Merged);
    ReplaySnoc(block, [Forked] + g, Dropped);
    ReplayOne(block, Forked);
  }

  lemma ReplayOne(n: Node, d: Deed)
    ensures Replay(n, [d]) == Redo(n, d)
  {
    assert [d][..0] == [];
  }

  ghost predicate Untouched(h: seq<Deed>, from: nat, k: Key) {
    forall i {:trigger h[i]} :: from <= i < |h| && h[i].Wrote? ==> h[i].key != k
  }

  /** An object no write names keeps its value. */
  lemma {:induction false} ReplayFrame(n: Node, h: seq<Deed>, from: nat, k: Key)
    requires from <= |h| && OnlyWrote(h, from) && Untouched(h, from, k)
    ensures Get(Replay(n, h), k) == Get(Replay(n, h[..from]), k)
    decreases |h|
  {
    if from == |h| {
      assert h[..from] == h;
    } else {
      var front := h[..|h| - 1];
      ReplayFrame(n, front, from, k);
      assert front[..from] == h[..from];
      assert h[|h| - 1].Wrote? && h[|h| - 1].key != k;
    }
  }

  /* ---- turns ---- */

  /** The first entry at or after `from` that is not a write. */
  function FirstTurn(h: seq<Deed>, from: nat): (i: nat)
    requires from <= |h|
    ensures from <= i <= |h|
    decreases |h| - from
  {
    if from == |h| || !h[from].Wrote? then from else FirstTurn(h, from + 1)
  }

  lemma {:induction false} FirstTurnIs(h: seq<Deed>, from: nat, i: nat)
    requires from <= i <= |h| && (i < |h| ==> !h[i].Wrote?)
    requires forall j {:trigger h[j]} :: from <= j < i ==> h[j].Wrote?
    ensures FirstTurn(h, from) == i
    decreases i - from
  {
    if from < i {
      FirstTurnIs(h, from + 1, i);
    }
  }

  /**
    A transaction's part of a history: the preamble's writes, a fork, the operations'
    writes, the fork's end, and the writes of RC consumption.
  */
  ghost predicate TrxDeeds(h: seq<Deed>, from: nat, reverted: bool) {
    && from <= |h|
    && var f := FirstTurn(h, from);
       && f < |h| && h[f] == Forked
       && var m := FirstTurn(h, f + 1);
          m < |h| && h[m] == (if reverted then Dropped else Merged) && FirstTurn(h, m + 1) == |h|
  }

  lemma {:induction false} FirstTurnIsFirst(h: seq<Deed>, from: nat)
    requires from <= |h|
    ensures forall j {:trigger h[j]} :: from <= j < FirstTurn(h, from) ==> h[j].Wrote?
    ensures FirstTurn(h, from) < |h| ==> !h[FirstTurn(h, from)].Wrote?
    decreases |h| - from
  {
    if from < |h| && h[from].Wrote? {
      FirstTurnIsFirst(h, from + 1);
    }
  }

  /** The turns of a transaction, and the writes between them. */
  ghost predicate TurnsAt(h: seq<Deed>, from: nat, f: nat, m: nat, reverted: bool) {
    && from <= f < m < |h| && h[f] == Forked && h[m] == (if reverted then Dropped else Merged)
    && forall i {:trigger h[i]} :: from <= i < |h| && i != f && i != m ==> h[i].Wrote?
  }

  lemma TurnsOfTrx(h: seq<Deed>, from: nat, reverted: bool)
    requires TrxDeeds(h, from, reverted)
    ensures var f := FirstTurn(h, from);
            f < |h| && TurnsAt(h, from, f, FirstTurn(h, f + 1), reverted)
  {
    var f := FirstTurn(h, from);
    var m := FirstTurn(h, f + 1);
    FirstTurnIsFirst(h, from);
    FirstTurnIsFirst(h, f + 1);
    FirstTurnIsFirst(h, m + 1);
    hide FirstTurn;
  }

  lemma TurnsMakeTrx(h: seq<Deed>, from: nat, f: nat, m: nat, reverted: bool)
    requires TurnsAt(h, from, f, m, reverted)
    ensures TrxDeeds(h, from, reverted) && FirstTurn(h, from) == f && FirstTurn(h, f + 1) == m
  {
    FirstTurnIs(h, from, f);
    FirstTurnIs(h, f + 1, m);
    FirstTurnIs(h, m + 1, |h|);
    hide FirstTurn;
  }

  lemma ForkInTheMiddle(n: Node, pre: seq<Deed>, ops: seq<Deed>, post: seq<Deed>, reverted: bool)
    requires n.Over? && OnlyWrote(pre, 0) && OnlyWrote(ops, 0) && OnlyWrote(post, 0)
    ensures var fork := [Forked] + ops + [if reverted then Dropped else Merged];
            var left := if reverted then [] else ops;
            && Replay(n, pre + fork + post) == Replay(n, pre + left + post)
            && Replay(n, pre + fork + post).Over? && Replay(n, pre + fork + post).parent == n.parent
  {
    hide Replay, OnlyWrote;
    var fork := [Forked] + ops + [if reverted then Dropped else Merged];
    var left := if reverted then [] else ops;
    WritesKeepShape(n, pre);
    var p := Replay(n, pre);
    ForkEnds(p, ops);
    ReplayNone(p);
    assert Replay(p, fork) == Replay(p, left);
    ReplayConcat(n, pre, fork);
    ReplayConcat(n, pre + fork, post);
    ReplayConcat(n, pre, left);
    ReplayConcat(n, pre + left, post);
    WritesKeepShape(p, ops);
    WritesKeepShape(Replay(n, pre + left), post);
  }

  /**
    What a transaction leaves of its writes: all of them if it was committed; if it was
    reverted, the preamble's and those of RC consumption, as if no operation had run.
  */
  ghost function Left(h: seq<Deed>, reverted: bool): seq<Deed>
    requires TrxDeeds(h, 0, reverted)
  {
    var f := FirstTurn(h, 0);
    var m := FirstTurn(h, f + 1);
    h[..f] + (if reverted then [] else h[f + 1..m]) + h[m + 1..]
  }

  lemma TrxLeaves(n: Node, h: seq<Deed>, reverted: bool)
    requires n.Over? && TrxDeeds(h, 0, reverted)
    ensures Replay(n, h) == Replay(n, Left(h, reverted))
    ensures Replay(n, h).Over? && Replay(n, h).parent == n.parent
  {
    hide Replay, FirstTurn, TrxDeeds;
    TurnsOfTrx(h, 0, reverted);
    var f := FirstTurn(h, 0);
    var m := FirstTurn(h, f + 1);
    var pre, ops, post := h[..f], h[f + 1..m], h[m + 1..];
    assert h == pre + ([Forked] + ops + [if reverted then Dropped else Merged]) + post;
    ForkInTheMiddle(n, pre, ops, post, reverted);
  }

  lemma ReplayNone(n: Node)
    ensures Replay(n, []) == n
  {
  }

  /* ---- permissions ---- */

  datatype Privilege = Kernel | User

  /** state::assert_permissions, as the condition under which it does not throw. */
  predicate Permitted(caller: Id, privilege: Privilege, space: Space) {
    if privilege == Kernel then space.system else !space.system && space.zone == caller
  }
}
