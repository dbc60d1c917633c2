/** Nonce discipline over a whole branch of blocks (libraries/chain/system_calls.cpp). */
module Nonces {
  import opened Int64
  import opened State
  import opened Context
  import opened Apply
  import opened Blocks

  /** An accepted transaction, as far as nonces go. */
  datatype Use = Use(account: Id, nonce: Val)

  ghost predicate Moves(a: Node, b: Node, u: Use) {
    && NonceFollows(a, u.account, u.nonce)
    && Get(b, NonceKey(u.account)) == Some(u.nonce)
    && forall other: Id :: other != u.account ==> Get(b, NonceKey(other)) == Get(a, NonceKey(other))
  }

  /** `nodes` are the states between consecutive uses. */
  ghost predicate Run(nodes: seq<Node>, uses: seq<Use>) {
    && |nodes| == |uses| + 1
    && forall j :: 0 <= j < |uses| ==> Moves(nodes[j], nodes[j + 1], uses[j])
  }

  /** What ApplyBlock says of one block: its transactions' uses and the states around them. */
  datatype BlockRun = BlockRun(nodes: seq<Node>, trxs: seq<Trx>)

  function UsesOf(trxs: seq<Trx>): seq<Use> {
    seq(|trxs|, i requires 0 <= i < |trxs| => Use(NonceAccount(trxs[i]), trxs[i].nonce))
  }

  lemma BlockRunIsRun(b: BlockRun)
    requires NonceRun(b.nodes, b.trxs)
    ensures Run(b.nodes, UsesOf(b.trxs))
  {
    forall j | 0 <= j < |b.trxs|
      ensures Moves(b.nodes[j], b.nodes[j + 1], UsesOf(b.trxs)[j])
    {
      var u := UsesOf(b.trxs)[j];
      assert NonceStep(b.nodes[j], b.nodes[j + 1], u.account, u.nonce);
      forall other: Id | other != u.account
        ensures Get(b.nodes[j + 1], NonceKey(other)) == Get(b.nodes[j], NonceKey(other))
      {
        assert Reserved(NonceKey(other)) && NonceKey(other) != NonceKey(u.account);
      }
    }
  }

  /** A branch: each block starts from the nonces its parent ended with. */
  ghost predicate Branch(blocks: seq<BlockRun>) {
    && (forall i :: 0 <= i < |blocks| ==> NonceRun(blocks[i].nodes, blocks[i].trxs))
    && (forall i :: 0 < i < |blocks| ==>
          SameNonces(blocks[i - 1].nodes[|blocks[i - 1].trxs|], blocks[i].nodes[0]))
  }

  function BranchUses(blocks: seq<BlockRun>): seq<Use> {
    if blocks == [] then [] else
    BranchUses(blocks[..|blocks| - 1]) + UsesOf(blocks[|blocks| - 1].trxs)
  }

  lemma Join(n: seq<Node>, u: seq<Use>, n': seq<Node>, u': seq<Use>)
    requires Run(n, u) && Run(n', u') && SameNonces(n[|u|], n'[0])
    ensures Run(n[..|u|] + n', u + u')
  {
    var nodes, uses := n[..|u|] + n', u + u';
    forall j | 0 <= j < |uses|
      ensures Moves(nodes[j], nodes[j + 1], uses[j])
    {
      if j + 1 == |u| {
        assert Moves(n[j], n[j + 1], u[j]);
      } else if j < |u| {
        assert Moves(n[j], n[j + 1], u[j]);
      } else {
        assert Moves(n'[j - |u|], n'[j - |u| + 1], u'[j - |u|]);
      }
    }
  }

  /** The accepted transactions of a branch form one run, however they fall into blocks. */
  lemma {:induction false} BranchIsRun(blocks: seq<BlockRun>) returns (nodes: seq<Node>)
    requires Branch(blocks) && blocks != []
    ensures Run(nodes, BranchUses(blocks))
    ensures nodes[|nodes| - 1] == blocks[|blocks| - 1].nodes[|blocks[|blocks| - 1].trxs|]
  {
    var last := |blocks| - 1;
    BlockRunIsRun(blocks[last]);
    if last == 0 {
      nodes := blocks[0].nodes;
      assert BranchUses(blocks) == UsesOf(blocks[0].trxs);
    } else {
      var front := BranchIsRun(blocks[..last]);
      Join(front, BranchUses(blocks[..last]), blocks[last].nodes, UsesOf(blocks[last].trxs));
      nodes := front[..|front| - 1] + blocks[last].nodes;
    }
  }

  /** How many uses of the account lie in uses[lo..hi]. */
  function Count(uses: seq<Use>, account: Id, lo: nat, hi: nat): nat
    requires lo <= hi <= |uses|
    decreases hi
  {
    if lo == hi then 0
    else Count(uses, account, lo, hi - 1) + if uses[hi - 1].account == account then 1 else 0
  }

  /** After a use, the stored nonce is that use's nonce plus the uses of the account since. */
  lemma {:induction false} NonceAfter(nodes: seq<Node>, uses: seq<Use>, i: nat, k: nat)
    requires Run(nodes, uses) && i < k <= |uses|
    ensures uses[i].nonce.Nonce?
    ensures var account := uses[i].account;
            Get(nodes[k], NonceKey(account))
            == Some(Nonce(ToU64(uses[i].nonce.nonce + Count(uses, account, i + 1, k))))
    decreases k
  {
    hide Get, ToU64, Run, Moves;
    var account := uses[i].account;
    Stored(nodes, uses, i);
    if k > i + 1 {
      NonceAfter(nodes, uses, i, k - 1);
      var n := uses[i].nonce.nonce + Count(uses, account, i + 1, k - 1);
      if uses[k - 1].account == account {
        NextNonce(nodes, uses, k - 1, ToU64(n));
        Stored(nodes, uses, k - 1);
        WrapStep(n);
      } else {
        Untouched(nodes, uses, k - 1, account);
      }
    }
  }

  /** A use leaves its own nonce, which fits 64 bits, in the state. */
  lemma Stored(nodes: seq<Node>, uses: seq<Use>, j: nat)
    requires Run(nodes, uses) && j < |uses|
    ensures uses[j].nonce.Nonce? && Get(nodes[j + 1], NonceKey(uses[j].account)) == Some(uses[j].nonce)
    ensures ToU64(uses[j].nonce.nonce) == uses[j].nonce.nonce
  {
    assert Moves(nodes[j], nodes[j + 1], uses[j]);
  }

  lemma Untouched(nodes: seq<Node>, uses: seq<Use>, j: nat, account: Id)
    requires Run(nodes, uses) && j < |uses| && uses[j].account != account
    ensures Get(nodes[j + 1], NonceKey(account)) == Get(nodes[j], NonceKey(account))
  {
    assert Moves(nodes[j], nodes[j + 1], uses[j]);
  }

  lemma WrapStep(x: nat)
    ensures ToU64(ToU64(x) + 1) == ToU64(x + 1)
  {
  }

  lemma {:induction false} CountBounds(uses: seq<Use>, account: Id, lo: nat, hi: nat)
    requires lo <= hi <= |uses|
    ensures Count(uses, account, lo, hi) <= hi - lo
    decreases hi
  {
    if lo < hi {
      CountBounds(uses, account, lo, hi - 1);
    }
  }

  /**
    Two accepted transactions of one account differ in nonce by exactly the number of
    that account's transactions from one to the other, modulo 2^64; neighbours are
    consecutive, and no account uses a nonce twice within 2^64 transactions.
  */
  lemma NonceDiscipline(blocks: seq<BlockRun>, i: nat, j: nat)
    requires Branch(blocks) && i < j < |BranchUses(blocks)|
    requires BranchUses(blocks)[i].account == BranchUses(blocks)[j].account
    ensures var uses := BranchUses(blocks);
            var account := uses[i].account;
            && uses[i].nonce.Nonce? && uses[j].nonce.Nonce?
            && uses[j].nonce.nonce == ToU64(uses[i].nonce.nonce + Count(uses, account, i + 1, j + 1))
            && (Count(uses, account, i + 1, j) == 0 ==> uses[j].nonce.nonce == ToU64(uses[i].nonce.nonce + 1))
            && (|uses| < U64_SIZE ==> uses[j].nonce != uses[i].nonce)
  {
    var nodes := BranchIsRun(blocks);
    RunDiscipline(nodes, BranchUses(blocks), i, j);
    hide Branch, Run, Count, BranchUses;
  }

  lemma RunDiscipline(nodes: seq<Node>, uses: seq<Use>, i: nat, j: nat)
    requires Run(nodes, uses) && i < j < |uses| && uses[i].account == uses[j].account
    ensures var account := uses[i].account;
            && uses[i].nonce.Nonce? && uses[j].nonce.Nonce?
            && uses[j].nonce.nonce == ToU64(uses[i].nonce.nonce + Count(uses, account, i + 1, j + 1))
            && (Count(uses, account, i + 1, j) == 0 ==> uses[j].nonce.nonce == ToU64(uses[i].nonce.nonce + 1))
            && (|uses| < U64_SIZE ==> uses[j].nonce != uses[i].nonce)
  {
    hide Run, Moves, Get, Count, ToU64;
    var account := uses[i].account;
    NonceAfter(nodes, uses, i, j);
    var n, between := uses[i].nonce.nonce, Count(uses, account, i + 1, j);
    NextNonce(nodes, uses, j, ToU64(n + between));
    CountSnoc(uses, account, i + 1, j);
    WrapStep(n + between);
    CountBounds(uses, account, i + 1, j);
    if |uses| < U64_SIZE {
      NoWrapBack(n, between + 1);
    }
  }

  lemma NextNonce(nodes: seq<Node>, uses: seq<Use>, j: nat, stored: u64)
    requires Run(nodes, uses) && j < |uses|
    requires Get(nodes[j], NonceKey(uses[j].account)) == Some(Nonce(stored))
    ensures uses[j].nonce == Nonce(ToU64(stored + 1))
  {
    assert Moves(nodes[j], nodes[j + 1], uses[j]);
  }

  lemma CountSnoc(uses: seq<Use>, account: Id, lo: nat, hi: nat)
    requires lo <= hi < |uses| && uses[hi].account == account
    ensures Count(uses, account, lo, hi + 1) == Count(uses, account, lo, hi) + 1
  {
  }

  lemma NoWrapBack(n: u64, d: nat)
    requires 0 < d < U64_SIZE
    ensures ToU64(n + d) != n
  {
  }

  /* ---- blocks that were applied ---- */

  /** A block that was applied: its context before and after, and its trace. */
  datatype AppliedBlock = AppliedBlock(a: Ctx, c: Ctx, block: Block, t: Trace)

  /** Blocks that succeeded in user-only execution, each on the state the one before it left. */
  ghost predicate Chain(bs: seq<AppliedBlock>) {
    && (forall i {:trigger bs[i]} :: 0 <= i < |bs| ==>
          BlockDone(bs[i].a, bs[i].c, bs[i].block, bs[i].t) && UserOnly(bs[i].a, bs[i].c))
    && (forall i {:trigger bs[i]} :: 0 < i < |bs| ==> SameNonces(bs[i - 1].c.node, bs[i].a.node))
  }

  function RunsOf(bs: seq<AppliedBlock>): seq<BlockRun> {
    seq(|bs|, i requires 0 <= i < |bs| => BlockRun(bs[i].t.nodes, bs[i].block.transactions))
  }

  /** Applied blocks make a branch, so what is proved of branches is true of them. */
  lemma ChainIsBranch(bs: seq<AppliedBlock>)
    requires Chain(bs)
    ensures Branch(RunsOf(bs))
  {
    hide NonceRun, BlockTraced, Conserved, ListsReceipts, Calm, Grows, Safe, UserOnly, AllListed;
    var runs := RunsOf(bs);
    forall i | 0 <= i < |bs|
      ensures NonceRun(runs[i].nodes, runs[i].trxs) && |runs[i].nodes| == |runs[i].trxs| + 1
      ensures SameNonces(bs[i].a.node, runs[i].nodes[0]) && SameNonces(runs[i].nodes[|runs[i].trxs|], bs[i].c.node)
    {
      RunIsLong(bs[i].t.nodes, bs[i].block.transactions);
    }
    forall i | 0 < i < |bs|
      ensures SameNonces(runs[i - 1].nodes[|runs[i - 1].trxs|], runs[i].nodes[0])
    {
      assert SameNonces(bs[i - 1].c.node, bs[i].a.node);
    }
  }

  lemma RunIsLong(nodes: seq<Node>, trxs: seq<Trx>)
    ensures NonceRun(nodes, trxs) ==> |nodes| == |trxs| + 1
  {
  }

  /** Nonce discipline of the accepted transactions of applied blocks, reverted ones included. */
  lemma ChainDiscipline(bs: seq<AppliedBlock>, i: nat, j: nat)
    requires Chain(bs) && i < j < |BranchUses(RunsOf(bs))|
    requires BranchUses(RunsOf(bs))[i].account == BranchUses(RunsOf(bs))[j].account
    ensures var uses := BranchUses(RunsOf(bs));
            && uses[i].nonce.Nonce? && uses[j].nonce.Nonce?
            && uses[j].nonce.nonce == ToU64(uses[i].nonce.nonce + Count(uses, uses[i].account, i + 1, j + 1))
            && (|uses| < U64_SIZE ==> uses[j].nonce != uses[i].nonce)
  {
    hide Chain, Branch, BranchUses, Count, RunsOf, ToU64;
    ChainIsBranch(bs);
    NonceDiscipline(RunsOf(bs), i, j);
  }
}
