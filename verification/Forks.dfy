/**
  Concurrent block submission (libraries/chain/controller.cpp, submit_block) over the
  tree of state nodes. Every in-flight submission is a job; a step of a job is what
  the code does under one hold of the database lock.
*/
module Forks {
  import opened Int64

  type Id = string
  type Job = nat

  const IRREVERSIBLE_THRESHOLD: nat := 60

  datatype Block = Block(id: Id, previous: Id, height: nat, timestamp: nat)

  /**
    Fresh: created; Applied: apply_block succeeded; Final: finalized, may have children;
    Stray: its submission died between the creation and the handling of failures.
  */
  datatype Stage = Fresh | Applied | Final | Stray {
    /** The node's state stores its own block. */
    predicate Told() {
      Applied? || Final?
    }
  }

  /** `stored` is the head block object in the node's state; a fresh node still shows its parent's. */
  datatype Node = Node(parent: Id, revision: nat, stage: Stage, stored: Option<Block>)

  /** Looking and Applying jobs hold the shared lock; a Waiting one has let go of it. */
  datatype Phase =
    | Looking(block: Block)
    | Applying(block: Block)
    | Waiting(block: Block, lib: nat)

  /** `cached` is the cached head block, unset until a block becomes head after open. */
  datatype Db = Db(nodes: map<Id, Node>, root: Id, head: Id, cached: Option<Block>, jobs: map<Job, Phase>)

  function TimeOf(n: Node): nat {
    if n.stored.Some? then n.stored.value.timestamp else 0
  }

  /** get_last_irreversible_block, the default thunk. */
  function LibOf(revision: nat): nat {
    if revision > IRREVERSIBLE_THRESHOLD then revision - IRREVERSIBLE_THRESHOLD else 0
  }

  /* ---- the tree ---- */

  /** A node is the root or one revision above a parent in the tree. */
  predicate LinkOk(nodes: map<Id, Node>, root: Id, id: Id) {
    && id in nodes
    && (id != root ==>
          nodes[id].parent in nodes && nodes[id].revision == nodes[nodes[id].parent].revision + 1)
  }

  ghost predicate Tree(nodes: map<Id, Node>, root: Id) {
    && root in nodes
    && forall id {:trigger LinkOk(nodes, root, id)} :: id in nodes ==> LinkOk(nodes, root, id)
  }

  /** `a` is `id` or one of its ancestors. */
  predicate Descends(nodes: map<Id, Node>, id: Id, a: Id)
    decreases if id in nodes then nodes[id].revision else 0
  {
    && id in nodes
    && (id == a
        || (&& nodes[id].parent in nodes && nodes[nodes[id].parent].revision < nodes[id].revision
            && Descends(nodes, nodes[id].parent, a)))
  }

  /** get_node_at_revision: the ancestor of a node at a revision not below the root's. */
  function AncestorAt(nodes: map<Id, Node>, root: Id, id: Id, revision: nat): (a: Id)
    requires Tree(nodes, root) && id in nodes && nodes[root].revision <= revision <= nodes[id].revision
    ensures a in nodes && nodes[a].revision == revision && Descends(nodes, id, a)
    decreases nodes[id].revision
  {
    assert LinkOk(nodes, root, id);
    if nodes[id].revision == revision then id else AncestorAt(nodes, root, nodes[id].parent, revision)
  }

  /** commit_node keeps the new root and its descendants. */
  function Prune(nodes: map<Id, Node>, root: Id): map<Id, Node> {
    map id | id in nodes && Descends(nodes, id, root) :: nodes[id]
  }

  /* ---- steps ---- */

  /** A writer needs the lock to itself: nobody is looking or applying. */
  ghost predicate NoReaders(s: Db) {
    forall j <- s.jobs :: s.jobs[j].Waiting?
  }

  datatype Action =
    | Look(job: Job, block: Block)
    | Create(job: Job)
    | Apply(job: Job)
    | Reject(job: Job)
    | Abandon(job: Job)
    | Finalize(job: Job, tie: bool)

  /** The checks submit_block makes of a created block against its parent. */
  predicate Follows(nodes: map<Id, Node>, block: Block)
    requires block.previous in nodes
  {
    && block.height == nodes[block.previous].revision + 1
    && block.timestamp > TimeOf(nodes[block.previous])
  }

  /**
    apply_block compares the id with the hash of the header. Hashes do not collide, so
    blocks that were applied under one id are one block. Blocks that are looked up or
    have a node may be forged.
  */
  ghost predicate Genuine(s: Db, b: Block) {
    forall i <- s.jobs :: s.jobs[i].Waiting? && s.jobs[i].block.id == b.id ==> s.jobs[i].block == b
  }

  ghost predicate Enabled(s: Db, a: Action) {
    match a
    case Look(j, _) => j !in s.jobs
    case Create(j) => j in s.jobs && s.jobs[j].Looking?
    case Apply(j) =>
      && j in s.jobs && s.jobs[j].Applying? && Genuine(s, s.jobs[j].block)
      && s.jobs[j].block.previous in s.nodes && Follows(s.nodes, s.jobs[j].block)
    case Reject(j) => j in s.jobs && !s.jobs[j].Waiting?
    case Abandon(j) =>
      && j in s.jobs && s.jobs[j].Applying?
      && forall i <- s.jobs :: s.jobs[i].Waiting? ==> s.jobs[i].block.id != s.jobs[j].block.id
    case Finalize(j, _) => j in s.jobs && NoReaders(s)
  }

  /** A known block, or one without a known parent, changes nothing. */
  function DoLook(s: Db, j: Job, block: Block): Db {
    if block.id in s.nodes || block.previous !in s.nodes then s
    else s.(jobs := s.jobs[j := Looking(block)])
  }

  /** A node is created under a finalized parent, unless another job was faster. */
  function DoCreate(s: Db, j: Job): Db
    requires j in s.jobs
  {
    var b := s.jobs[j].block;
    if b.id in s.nodes || b.previous !in s.nodes || !s.nodes[b.previous].stage.Final?
    then s.(jobs := s.jobs - {j})
    else
      var p := s.nodes[b.previous];
      s.(nodes := s.nodes[b.id := Node(b.previous, p.revision + 1, Fresh, p.stored)],
         jobs := s.jobs[j := Applying(b)])
  }

  /** The block is applied: its state stores it as head block, and the LIB is computed. */
  function DoApply(s: Db, j: Job): Db
    requires j in s.jobs
  {
    var b := s.jobs[j].block;
    if b.id !in s.nodes then s else
    var n := s.nodes[b.id];
    s.(nodes := s.nodes[b.id := n.(stage := Applied, stored := Some(b))],
       jobs := s.jobs[j := Waiting(b, LibOf(n.revision))])
  }

  /** A failed submission discards the node it created, and only that. */
  function DoReject(s: Db, j: Job): Db
    requires j in s.jobs
  {
    s.(nodes := if s.jobs[j].Applying? then s.nodes - {s.jobs[j].block.id} else s.nodes,
       jobs := s.jobs - {j})
  }

  /**
    get_head_info on the parent throws before the code's own failure handling begins:
    the submission ends, and nobody discards its node.
  */
  function DoAbandon(s: Db, j: Job): Db
    requires j in s.jobs
  {
    var b := s.jobs[j].block;
    if b.id !in s.nodes then s.(jobs := s.jobs - {j}) else
    s.(nodes := s.nodes[b.id := s.nodes[b.id].(stage := Stray)], jobs := s.jobs - {j})
  }

  /** Height first: a higher block becomes head, a lower one never, an equal one as the tie says. */
  function NewHead(nodes: map<Id, Node>, head: Id, id: Id, tie: bool): Id
    requires head in nodes && id in nodes
  {
    if nodes[id].revision > nodes[head].revision || (tie && nodes[id].revision == nodes[head].revision)
    then id else head
  }

  /* ---- the invariant ---- */

  /** Past its creation a node's state stores its own block, one higher and later than the parent's. */
  ghost predicate Stored(nodes: map<Id, Node>, root: Id, id: Id) {
    && LinkOk(nodes, root, id)
    && (id != root ==>
          && nodes[nodes[id].parent].stage.Final?
          && (nodes[id].stage.Told() ==>
                && nodes[id].stored.Some?
                && var b := nodes[id].stored.value;
                   b.id == id && b.previous == nodes[id].parent && b.height == nodes[id].revision
                   && b.timestamp > TimeOf(nodes[nodes[id].parent])))
  }

  /** A tree that grows only from finalized nodes. */
  ghost predicate GoodTree(nodes: map<Id, Node>, root: Id) {
    && root in nodes && nodes[root].stage.Final?
    && forall id {:trigger Stored(nodes, root, id)} :: id in nodes ==> Stored(nodes, root, id)
  }

  ghost predicate HeadOk(s: Db) {
    && s.root in s.nodes && s.head in s.nodes && s.nodes[s.head].stage.Final?
    && s.nodes[s.head].revision <= s.nodes[s.root].revision + IRREVERSIBLE_THRESHOLD
    && (s.cached.Some? ==> s.nodes[s.head].stored == s.cached)
  }

  ghost predicate TreeOk(s: Db) {
    GoodTree(s.nodes, s.root) && HeadOk(s)
  }

  lemma GoodTreeIsTree(nodes: map<Id, Node>, root: Id)
    requires GoodTree(nodes, root)
    ensures Tree(nodes, root)
  {
    forall id | id in nodes
      ensures LinkOk(nodes, root, id)
    {
      assert Stored(nodes, root, id);
    }
  }

  /** The first half of the atomic section: finalize, choose the head, cache its block. */
  function Promote(s: Db, j: Job, tie: bool): Db
    requires j in s.jobs && s.head in s.nodes && s.jobs[j].block.id in s.nodes
  {
    var b := s.jobs[j].block;
    var nodes := s.nodes[b.id := s.nodes[b.id].(stage := Final)];
    var head := NewHead(nodes, s.head, b.id, tie);
    s.(nodes := nodes, head := head, cached := if head == b.id then Some(b) else s.cached, jobs := s.jobs - {j})
  }

  /** The second half: a LIB above the root becomes the root. */
  function Advance(s: Db, id: Id, lib: nat): Db
    requires Tree(s.nodes, s.root) && id in s.nodes
  {
    if lib <= s.nodes[s.root].revision || lib > s.nodes[id].revision then s else
    var root := AncestorAt(s.nodes, s.root, id, lib);
    s.(root := root, nodes := Prune(s.nodes, root))
  }

  /** Finalize, head, cached head block and LIB, all under the unique lock. A pruned block fails. */
  function DoFinalize(s: Db, j: Job, tie: bool): Db
    requires j in s.jobs && s.jobs[j].Waiting? && TreeOk(s)
  {
    if s.jobs[j].block.id !in s.nodes then s.(jobs := s.jobs - {j})
    else
      GoodTreeIsTree(s.nodes, s.root);
      StageIsNoTree(s.nodes, s.root, s.jobs[j].block.id, Final);
      Advance(Promote(s, j, tie), s.jobs[j].block.id, s.jobs[j].lib)
  }

  lemma StageIsNoTree(nodes: map<Id, Node>, root: Id, id: Id, stage: Stage)
    requires Tree(nodes, root) && id in nodes
    ensures Tree(nodes[id := nodes[id].(stage := stage)], root)
  {
    forall x | x in nodes
      ensures LinkOk(nodes[id := nodes[id].(stage := stage)], root, x)
    {
      assert LinkOk(nodes, root, x);
    }
  }

  ghost predicate JobOk(s: Db, j: Job) {
    && j in s.jobs
    && match s.jobs[j]
       case Looking(_) => true
       case Applying(b) =>
         && b.id in s.nodes && b.id != s.root && s.nodes[b.id].stage == Fresh && s.nodes[b.id].parent == b.previous
         && forall i <- s.jobs :: i != j && s.jobs[i].Applying? ==> s.jobs[i].block.id != b.id
       case Waiting(b, lib) =>
         && lib == LibOf(b.height)
         && (b.id in s.nodes ==> s.nodes[b.id].stage != Stray)
         && (b.id in s.nodes && s.nodes[b.id].stage != Fresh ==>
               s.nodes[b.id].stored == Some(b) && s.nodes[b.id].revision == b.height)
  }

  /** A job is applying the block of this node. */
  ghost predicate Owned(s: Db, id: Id) {
    exists j :: j in s.jobs && s.jobs[j].Applying? && s.jobs[j].block.id == id
  }

  /** Fresh nodes have their job; blocks that were applied agree on what block an id stands for. */
  ghost predicate JobsOk(s: Db) {
    && (forall id <- s.nodes :: s.nodes[id].stage == Fresh ==> Owned(s, id))
    && (forall j {:trigger JobOk(s, j)} :: j in s.jobs ==> JobOk(s, j))
    && (forall i, j :: i in s.jobs && j in s.jobs && s.jobs[i].Waiting? && s.jobs[j].Waiting? &&
                       s.jobs[i].block.id == s.jobs[j].block.id ==>
          s.jobs[i].block == s.jobs[j].block)
  }

  ghost predicate Inv(s: Db) {
    TreeOk(s) && JobsOk(s)
  }

  /** One step of one job; what is not enabled does not happen. */
  ghost function Step(s: Db, a: Action): Db
    requires Inv(s)
  {
    if !Enabled(s, a) then s else
    match a
    case Look(j, block) => DoLook(s, j, block)
    case Create(j) => DoCreate(s, j)
    case Apply(j) => DoApply(s, j)
    case Reject(j) => DoReject(s, j)
    case Abandon(j) => DoAbandon(s, j)
    case Finalize(j, tie) => DoFinalize(s, j, tie)
  }

  /* ---- what each step does to a good tree ---- */

  lemma AddLeaf(nodes: map<Id, Node>, root: Id, id: Id, parent: Id)
    requires GoodTree(nodes, root) && id !in nodes && parent in nodes && nodes[parent].stage.Final?
    ensures GoodTree(nodes[id := Node(parent, nodes[parent].revision + 1, Fresh, nodes[parent].stored)], root)
  {
    var n := nodes[id := Node(parent, nodes[parent].revision + 1, Fresh, nodes[parent].stored)];
    forall x | x in n
      ensures Stored(n, root, x)
    {
      assert x != id ==> Stored(nodes, root, x);
    }
  }

  /** A node without children may change its stage and what it stores. */
  lemma ChangeLeaf(nodes: map<Id, Node>, root: Id, id: Id, b: Block)
    requires GoodTree(nodes, root) && id in nodes && id != root && nodes[id].stage == Fresh
    requires b.id == id && b.previous == nodes[id].parent && b.previous in nodes && Follows(nodes, b)
    ensures GoodTree(nodes[id := nodes[id].(stage := Applied, stored := Some(b))], root)
    ensures nodes[id].revision == b.height
  {
    var n := nodes[id := nodes[id].(stage := Applied, stored := Some(b))];
    assert Stored(nodes, root, id);
    forall x | x in n
      ensures Stored(n, root, x)
    {
      assert Stored(nodes, root, x);
    }
  }

  lemma RemoveLeaf(nodes: map<Id, Node>, root: Id, id: Id)
    requires GoodTree(nodes, root) && id in nodes && id != root && nodes[id].stage == Fresh
    ensures GoodTree(nodes - {id}, root)
  {
    forall x | x in nodes - {id}
      ensures Stored(nodes - {id}, root, x)
    {
      assert Stored(nodes, root, x);
    }
  }

  lemma StrayLeaf(nodes: map<Id, Node>, root: Id, id: Id)
    requires GoodTree(nodes, root) && id in nodes && id != root && nodes[id].stage == Fresh
    ensures GoodTree(nodes[id := nodes[id].(stage := Stray)], root)
  {
    var n := nodes[id := nodes[id].(stage := Stray)];
    forall x | x in n
      ensures Stored(n, root, x)
    {
      assert Stored(nodes, root, x);
    }
  }

  lemma FinalizeNode(nodes: map<Id, Node>, root: Id, id: Id)
    requires GoodTree(nodes, root) && id in nodes && nodes[id].stage.Told()
    ensures GoodTree(nodes[id := nodes[id].(stage := Final)], root)
  {
    var n := nodes[id := nodes[id].(stage := Final)];
    forall x | x in n
      ensures Stored(n, root, x)
    {
      assert Stored(nodes, root, x);
    }
  }

  /** The tree has one root: every node descends from it. */
  lemma {:induction false} AllDescend(nodes: map<Id, Node>, root: Id, id: Id)
    requires Tree(nodes, root) && id in nodes
    ensures Descends(nodes, id, root) && nodes[root].revision <= nodes[id].revision
    decreases nodes[id].revision
  {
    assert LinkOk(nodes, root, id);
    if id != root {
      AllDescend(nodes, root, nodes[id].parent);
    }
  }

  lemma {:induction false} AncestorIsFinal(nodes: map<Id, Node>, root: Id, id: Id, a: Id)
    requires GoodTree(nodes, root) && Descends(nodes, id, a)
    ensures a in nodes && (a != id ==> nodes[a].stage.Final?)
    decreases nodes[id].revision
  {
    assert Stored(nodes, root, id);
    if id != a {
      GoodTreeIsTree(nodes, root);
      AllDescend(nodes, root, nodes[id].parent);
      AncestorIsFinal(nodes, root, nodes[id].parent, a);
    }
  }

  /** Pruning keeps a good tree, rooted at any of its finalized nodes. */
  lemma PruneToRoot(nodes: map<Id, Node>, root: Id, newRoot: Id)
    requires GoodTree(nodes, root) && newRoot in nodes && nodes[newRoot].stage.Final?
    ensures GoodTree(Prune(nodes, newRoot), newRoot)
  {
    var kept := Prune(nodes, newRoot);
    GoodTreeIsTree(nodes, root);
    forall x | x in kept
      ensures Stored(kept, newRoot, x)
    {
      assert Stored(nodes, root, x);
      if x != newRoot {
        AllDescend(nodes, root, nodes[x].parent);
      }
    }
  }

  /* ---- every step keeps the invariant ---- */

  lemma StillOwned(s: Db, s': Db, id: Id, j: Job)
    requires Owned(s, id)
    requires j in s.jobs ==> !s.jobs[j].Applying? || s.jobs[j].block.id != id
    requires forall i <- s.jobs :: i != j ==> i in s'.jobs && s'.jobs[i] == s.jobs[i]
    ensures Owned(s', id)
  {
    var i :| i in s.jobs && s.jobs[i].Applying? && s.jobs[i].block.id == id;
    assert i in s'.jobs && s'.jobs[i].Applying?;
  }

  lemma NewlyOwned(s: Db, j: Job)
    requires j in s.jobs && s.jobs[j].Applying?
    ensures Owned(s, s.jobs[j].block.id)
  {
  }

  lemma LookKeepsInv(s: Db, j: Job, block: Block)
    requires Inv(s) && Enabled(s, Look(j, block))
    ensures Inv(DoLook(s, j, block))
  {
    hide GoodTree, Owned;
    var s' := DoLook(s, j, block);
    forall i | i in s'.jobs
      ensures JobOk(s', i)
    {
      assert i in s.jobs ==> JobOk(s, i);
    }
    forall id <- s'.nodes | s'.nodes[id].stage == Fresh
      ensures Owned(s', id)
    {
      StillOwned(s, s', id, j);
    }
  }

  lemma CreateKeepsInv(s: Db, j: Job)
    requires Inv(s) && Enabled(s, Create(j))
    ensures Inv(DoCreate(s, j))
  {
    var b, s' := s.jobs[j].block, DoCreate(s, j);
    if s'.nodes != s.nodes {
      AddLeaf(s.nodes, s.root, b.id, b.previous);
    }
    hide GoodTree, Owned;
    forall i | i in s.jobs && s.jobs[i].Applying?
      ensures s.jobs[i].block.id in s.nodes
    {
      assert JobOk(s, i);
    }
    forall i | i in s'.jobs
      ensures JobOk(s', i)
    {
      assert JobOk(s, i);
    }
    forall id <- s'.nodes | s'.nodes[id].stage == Fresh
      ensures Owned(s', id)
    {
      if id in s.nodes {
        StillOwned(s, s', id, j);
      } else {
        NewlyOwned(s', j);
      }
    }
  }

  lemma ApplyKeepsInv(s: Db, j: Job)
    requires Inv(s) && Enabled(s, Apply(j))
    ensures Inv(DoApply(s, j))
  {
    assert JobOk(s, j);
    var b, s' := s.jobs[j].block, DoApply(s, j);
    ChangeLeaf(s.nodes, s.root, b.id, b);
    hide GoodTree, Owned, Follows;
    forall i | i in s'.jobs
      ensures JobOk(s', i)
    {
      assert JobOk(s, i);
    }
    forall id <- s'.nodes | s'.nodes[id].stage == Fresh
      ensures Owned(s', id)
    {
      StillOwned(s, s', id, j);
    }
  }

  lemma RejectKeepsInv(s: Db, j: Job)
    requires Inv(s) && Enabled(s, Reject(j))
    ensures Inv(DoReject(s, j))
  {
    assert JobOk(s, j);
    var b, s' := s.jobs[j].block, DoReject(s, j);
    if s.jobs[j].Applying? {
      RemoveLeaf(s.nodes, s.root, b.id);
    }
    hide GoodTree, Owned;
    forall i | i in s'.jobs
      ensures JobOk(s', i)
    {
      assert JobOk(s, i);
    }
    forall id <- s'.nodes | s'.nodes[id].stage == Fresh
      ensures Owned(s', id)
    {
      StillOwned(s, s', id, j);
    }
  }

  lemma AbandonKeepsInv(s: Db, j: Job)
    requires Inv(s) && Enabled(s, Abandon(j))
    ensures Inv(DoAbandon(s, j))
  {
    assert JobOk(s, j);
    var b, s' := s.jobs[j].block, DoAbandon(s, j);
    StrayLeaf(s.nodes, s.root, b.id);
    hide GoodTree, Owned;
    forall i | i in s'.jobs
      ensures JobOk(s', i)
    {
      assert JobOk(s, i);
    }
    forall id <- s'.nodes | s'.nodes[id].stage == Fresh
      ensures Owned(s', id)
    {
      StillOwned(s, s', id, j);
    }
  }

  /** With the lock to itself a writer sees no half-applied node. */
  lemma NothingFresh(s: Db, id: Id)
    requires JobsOk(s) && NoReaders(s) && id in s.nodes
    ensures s.nodes[id].stage != Fresh
  {
    assert s.nodes[id].stage == Fresh ==> Owned(s, id);
    assert !Owned(s, id);
  }

  /** A waiting job's LIB lies above the root only if its block outgrows the head. */
  lemma LibNeedsNewHead(s: Db, j: Job, tie: bool)
    requires Inv(s) && Enabled(s, Finalize(j, tie)) && s.jobs[j].block.id in s.nodes
    ensures var b, lib := s.jobs[j].block, s.jobs[j].lib;
            && s.nodes[b.id].stage.Told() && s.nodes[b.id].revision == b.height && s.nodes[b.id].stored == Some(b)
            && lib == LibOf(b.height) <= b.height
            && (lib > s.nodes[s.root].revision ==>
                  b.height > s.nodes[s.head].revision && lib == b.height - 60)
            && (lib <= s.nodes[s.root].revision ==>
                  b.height <= s.nodes[s.root].revision + 60)
  {
    assert JobOk(s, j);
    NothingFresh(s, s.jobs[j].block.id);
    hide GoodTree, JobsOk;
  }

  lemma PromoteKeepsTree(s: Db, j: Job, tie: bool)
    requires Inv(s) && Enabled(s, Finalize(j, tie)) && s.jobs[j].block.id in s.nodes
    ensures var s', b := Promote(s, j, tie), s.jobs[j].block;
            && GoodTree(s'.nodes, s'.root) && s'.root == s.root
            && s'.nodes[s.root].revision == s.nodes[s.root].revision
            && s'.head in s'.nodes && s'.nodes[s'.head].stage.Final?
            && (s'.cached.Some? ==> s'.nodes[s'.head].stored == s'.cached)
            && s'.nodes[b.id].revision == b.height && s'.nodes[b.id].stage.Final?
            && (s'.head == b.id || (s'.head == s.head && s'.nodes[s.head].revision == s.nodes[s.head].revision))
            && (b.height > s.nodes[s.head].revision ==> s'.head == b.id)
  {
    LibNeedsNewHead(s, j, tie);
    FinalizeNode(s.nodes, s.root, s.jobs[j].block.id);
    hide GoodTree, JobsOk;
  }

  /** If the block is head and 60 above its LIB, making the LIB the root keeps the tree good. */
  lemma AdvanceKeepsTree(p: Db, id: Id, lib: nat)
    requires GoodTree(p.nodes, p.root) && id in p.nodes && p.nodes[id].stage.Final? && p.head == id
    requires p.nodes[p.root].revision < lib && p.nodes[id].revision == lib + 60
    requires p.cached.Some? ==> p.nodes[id].stored == p.cached
    ensures Tree(p.nodes, p.root) && TreeOk(Advance(p, id, lib))
    ensures var a := Advance(p, id, lib);
            && a.root in p.nodes && p.nodes[a.root].revision == lib == a.nodes[a.root].revision
            && Descends(p.nodes, id, a.root) && Descends(p.nodes, a.root, p.root)
            && a.nodes == Prune(p.nodes, a.root) && a.head == id
  {
    GoodTreeIsTree(p.nodes, p.root);
    var root := AncestorAt(p.nodes, p.root, id, lib);
    AncestorIsFinal(p.nodes, p.root, id, root);
    PruneToRoot(p.nodes, p.root, root);
    AllDescend(p.nodes, p.root, root);
    assert Descends(p.nodes, root, root);
    hide GoodTree, Tree, Descends, AncestorAt;
  }

  lemma FinalizeKeepsTree(s: Db, j: Job, tie: bool)
    requires Inv(s) && Enabled(s, Finalize(j, tie))
    ensures TreeOk(DoFinalize(s, j, tie))
  {
    var b := s.jobs[j].block;
    if b.id in s.nodes {
      LibNeedsNewHead(s, j, tie);
      PromoteKeepsTree(s, j, tie);
      var p, lib := Promote(s, j, tie), s.jobs[j].lib;
      hide GoodTree, JobsOk, Promote, Tree;
      if lib > p.nodes[p.root].revision {
        AdvanceKeepsTree(p, b.id, lib);
      }
    }
  }

  lemma FinalizeKeepsInv(s: Db, j: Job, tie: bool)
    requires Inv(s) && Enabled(s, Finalize(j, tie))
    ensures Inv(DoFinalize(s, j, tie))
  {
    FinalizeKeepsTree(s, j, tie);
    var s' := DoFinalize(s, j, tie);
    FinalizeKeepsNodes(s, j, tie);
    hide TreeOk, Owned, DoFinalize;
    forall i | i in s'.jobs
      ensures JobOk(s', i)
    {
      assert JobOk(s, i);
    }
    forall id | id in s'.nodes
      ensures s'.nodes[id].stage != Fresh
    {
      NothingFresh(s, id);
    }
  }

  /** Finalizing adds no node and, but for the stage of its own, changes none. */
  lemma FinalizeKeepsNodes(s: Db, j: Job, tie: bool)
    requires Inv(s) && Enabled(s, Finalize(j, tie))
    ensures var s' := DoFinalize(s, j, tie);
            && s'.jobs == s.jobs - {j}
            && forall id <- s'.nodes ::
                 && id in s.nodes
                 && s'.nodes[id] == s.nodes[id].(stage := s'.nodes[id].stage)
                 && (s'.nodes[id].stage == s.nodes[id].stage || s'.nodes[id].stage == Final)
  {
  }

  lemma StepKeepsInv(s: Db, a: Action)
    requires Inv(s)
    ensures Inv(Step(s, a))
  {
    if Enabled(s, a) {
      match a
      case Look(j, block) => LookKeepsInv(s, j, block);
      case Create(j) => CreateKeepsInv(s, j);
      case Apply(j) => ApplyKeepsInv(s, j);
      case Reject(j) => RejectKeepsInv(s, j);
      case Abandon(j) => AbandonKeepsInv(s, j);
      case Finalize(j, tie) => FinalizeKeepsInv(s, j, tie);
    }
  }

  /* ---- safety of every run ---- */

  /** The root stays, or moves to a descendant because a block has just become head. */
  ghost predicate RootMoves(s: Db, a: Action, s': Db) {
    && s.root in s.nodes && s'.root in s'.nodes
    && s'.nodes[s'.root].revision >= s.nodes[s.root].revision
    && (s'.root != s.root ==>
          && a.Finalize? && a.job in s.jobs
          && s'.head == s.jobs[a.job].block.id && s.head != s'.head
          && s'.nodes[s'.root].revision > s.nodes[s.root].revision
          && Descends(s.nodes, s'.root, s.root) && Descends(s.nodes, s'.head, s'.root))
  }

  lemma StepMovesRoot(s: Db, a: Action)
    requires Inv(s)
    ensures RootMoves(s, a, Step(s, a))
  {
    if Enabled(s, a) && a.Finalize? && s.jobs[a.job].block.id in s.nodes {
      var b, lib, p := s.jobs[a.job].block, s.jobs[a.job].lib, Promote(s, a.job, a.tie);
      LibNeedsNewHead(s, a.job, a.tie);
      PromoteKeepsTree(s, a.job, a.tie);
      if lib > p.nodes[p.root].revision {
        AdvanceKeepsTree(p, b.id, lib);
        var root := Advance(p, b.id, lib).root;
        StageIsNoShape(s.nodes, b.id, Final, root, s.root);
        StageIsNoShape(s.nodes, b.id, Final, b.id, root);
      }
      hide GoodTree, JobsOk, Descends, Tree, AncestorAt;
    } else if Enabled(s, a) {
      if a.Apply? || a.Reject? || a.Abandon? {
        assert JobOk(s, a.job);
      }
      hide GoodTree, JobsOk, Descends;
    }
  }

  /** The stage of a node is invisible to the shape of the tree. */
  lemma {:induction false} StageIsNoShape(nodes: map<Id, Node>, n: Id, stage: Stage, id: Id, a: Id)
    requires n in nodes && id in nodes
    ensures Descends(nodes[n := nodes[n].(stage := stage)], id, a) == Descends(nodes, id, a)
    decreases nodes[id].revision
  {
    if nodes[id].parent in nodes && nodes[nodes[id].parent].revision < nodes[id].revision {
      StageIsNoShape(nodes, n, stage, nodes[id].parent, a);
    }
  }

  ghost function Run(s: Db, schedule: seq<Action>): (r: Db)
    requires Inv(s)
    ensures Inv(r)
    decreases |schedule|
  {
    if schedule == [] then s else
    StepKeepsInv(s, schedule[0]);
    Run(Step(s, schedule[0]), schedule[1..])
  }

  /**
    Whatever the interleaving of submissions: the root's revision never falls, the
    root is an ancestor of the head and of every other node, and the head is at most
    60 above it.
  */
  lemma {:induction false} RunIsSafe(s: Db, schedule: seq<Action>)
    requires Inv(s)
    ensures var r := Run(s, schedule);
            && r.nodes[r.root].revision >= s.nodes[s.root].revision
            && Descends(r.nodes, r.head, r.root)
            && (forall id <- r.nodes :: Descends(r.nodes, id, r.root))
            && r.nodes[r.head].revision <= r.nodes[r.root].revision + 60
            && (r.cached.Some? ==> r.nodes[r.head].stored == r.cached)
    decreases |schedule|
  {
    if schedule == [] {
      GoodTreeIsTree(s.nodes, s.root);
      forall id | id in s.nodes
        ensures Descends(s.nodes, id, s.root)
      {
        AllDescend(s.nodes, s.root, id);
      }
    } else {
      StepKeepsInv(s, schedule[0]);
      StepMovesRoot(s, schedule[0]);
      RunIsSafe(Step(s, schedule[0]), schedule[1..]);
    }
  }

  /** Below a node every ancestor is as many blocks back as its height says, and strictly earlier. */
  lemma {:induction false} PathsRise(s: Db, id: Id, a: Id)
    requires Inv(s) && Descends(s.nodes, id, a) && id != a && s.nodes[id].stage.Told()
    ensures a in s.nodes && s.nodes[id].stored.Some?
    ensures s.nodes[id].stored.value.height == s.nodes[id].revision > s.nodes[a].revision
    ensures s.nodes[id].stored.value.timestamp > TimeOf(s.nodes[a])
    ensures s.nodes[id].parent == a ==> s.nodes[id].revision == s.nodes[a].revision + 1
    decreases s.nodes[id].revision
  {
    hide JobsOk;
    assert Stored(s.nodes, s.root, id);
    GoodTreeIsTree(s.nodes, s.root);
    AllDescend(s.nodes, s.root, s.nodes[id].parent);
    if s.nodes[id].parent != a {
      PathsRise(s, s.nodes[id].parent, a);
    }
  }

  /** While a job applies its block it holds the lock, and nobody finalizes. */
  lemma ApplyingHoldsOff(s: Db, a: Action, j: Job)
    requires Inv(s) && j in s.jobs && s.jobs[j].Applying? && a.job != j
    ensures var t := Step(s, a);
            && j in t.jobs && t.jobs[j] == s.jobs[j]
            && t.root == s.root && t.head == s.head && t.cached == s.cached
            && forall x <- s.nodes :: s.nodes[x].stage.Final? ==> x in t.nodes && t.nodes[x] == s.nodes[x]
  {
    if Enabled(s, a) && (a.Apply? || a.Reject? || a.Abandon?) {
      assert JobOk(s, a.job);
    }
    hide GoodTree, JobsOk;
  }

  lemma {:induction false} WhileApplying(s: Db, schedule: seq<Action>, j: Job)
    requires Inv(s) && j in s.jobs && s.jobs[j].Applying?
    requires forall i :: 0 <= i < |schedule| ==> schedule[i].job != j
    ensures var r := Run(s, schedule);
            && j in r.jobs && r.jobs[j] == s.jobs[j]
            && r.root == s.root && r.head == s.head && r.cached == s.cached
            && forall x <- s.nodes :: s.nodes[x].stage.Final? ==> x in r.nodes && r.nodes[x] == s.nodes[x]
    decreases |schedule|
  {
    if schedule != [] {
      StepKeepsInv(s, schedule[0]);
      ApplyingHoldsOff(s, schedule[0], j);
      hide Inv, Step;
      WhileApplying(Step(s, schedule[0]), schedule[1..], j);
    }
  }

  /** Nothing grows on a node that is being applied, so discarding it takes nothing else away. */
  lemma DiscardIsLocal(s: Db, j: Job)
    requires Inv(s) && j in s.jobs && s.jobs[j].Applying?
    ensures Step(s, Reject(j)).nodes == s.nodes - {s.jobs[j].block.id}
    ensures forall x <- s.nodes :: x != s.root ==> s.nodes[x].parent != s.jobs[j].block.id
  {
    assert JobOk(s, j);
    forall x <- s.nodes | x != s.root
      ensures s.nodes[x].parent != s.jobs[j].block.id
    {
      assert Stored(s.nodes, s.root, x);
    }
  }

  /**
    A submission that creates its node and then fails leaves no trace, whatever other
    submissions did in between: the root, the head, the cached head block and every
    finalized node are as they were, its own node is gone, and no other one with it.
  */
  lemma FailureIsLocal(s: Db, j: Job, schedule: seq<Action>)
    requires Inv(s) && Enabled(s, Create(j))
    requires forall i :: 0 <= i < |schedule| ==> schedule[i].job != j
    ensures var c := Step(s, Create(j));
            && Inv(c)
            && (j !in c.jobs ==> c.nodes == s.nodes)
            && (j in c.jobs ==>
                  var r := Run(c, schedule);
                  var f := Step(r, Reject(j));
                  && f.nodes == r.nodes - {s.jobs[j].block.id} && j !in f.jobs
                  && f.root == s.root && f.head == s.head && f.cached == s.cached
                  && forall x <- s.nodes :: s.nodes[x].stage.Final? ==> x in f.nodes && f.nodes[x] == s.nodes[x])
            && (j in c.jobs && schedule == [] ==> Step(c, Reject(j)).nodes == s.nodes)
  {
    CreateKeepsInv(s, j);
    var b, c := s.jobs[j].block, DoCreate(s, j);
    if j in c.jobs {
      WhileApplying(c, schedule, j);
      DiscardIsLocal(Run(c, schedule), j);
      DiscardIsLocal(c, j);
      hide GoodTree, JobsOk, Run;
      assert (s.nodes[b.id := c.nodes[b.id]]) - {b.id} == s.nodes;
    }
  }

  /** A submission that has its node fails inside the code's failure handling, or before it begins. */
  function Failing(j: Job, inside: bool): Action {
    if inside then Reject(j) else Abandon(j)
  }

  /**
    A failed submission leaves no node if and only if it failed inside the code's failure
    handling. Otherwise its node stays, and the block cannot be submitted again.
  */
  lemma FailureLeavesNoNodeExactly(s: Db, j: Job, inside: bool, again: Job)
    requires Inv(s) && j in s.jobs && s.jobs[j].Applying? && Enabled(s, Failing(j, inside))
    ensures var b, f := s.jobs[j].block, Step(s, Failing(j, inside));
            && j !in f.jobs && Inv(f)
            && (b.id !in f.nodes <==> inside)
            && (!inside ==> f.nodes == s.nodes[b.id := s.nodes[b.id].(stage := Stray)] && Step(f, Look(again, b)) == f)
  {
    assert JobOk(s, j);
    StepKeepsInv(s, Failing(j, inside));
    hide GoodTree, JobsOk;
  }

  /** What became of a block that was submitted while no other submission was in flight. */
  ghost predicate Submitted(s: Db, b: Block, tie: bool, r: Db)
    requires s.head in s.nodes && s.root in s.nodes
  {
    var head, root := s.nodes[s.head].revision, s.nodes[s.root].revision;
    && r.jobs == map[]
    && b.id in r.nodes && r.nodes[b.id] == Node(b.previous, b.height, Final, Some(b))
    && (if b.height > head || (b.height == head && tie)
        then r.head == b.id && r.cached == Some(b) else r.head == s.head && r.cached == s.cached)
    && r.root in r.nodes && r.nodes[r.root].revision == Max(root, b.height - 60)
    && (b.height <= root + 60 ==> r.root == s.root && r.nodes == s.nodes[b.id := r.nodes[b.id]])
  }

  /**
    A new block on a finalized parent, submitted alone: if it follows its parent it is
    stored as a finalized node, becomes head if it is higher, and moves the root to 60
    below it if that is higher; if it does not follow, nothing is left of it.
  */
  lemma SubmittedAlone(s: Db, j: Job, b: Block, tie: bool)
    requires Inv(s) && s.jobs == map[] && b.id !in s.nodes
    requires b.previous in s.nodes && s.nodes[b.previous].stage.Final?
    ensures if Follows(s.nodes, b)
            then Submitted(s, b, tie, Run(s, [Look(j, b), Create(j), Apply(j), Finalize(j, tie)]))
            else && !Enabled(Run(s, [Look(j, b), Create(j)]), Apply(j))
                 && Run(s, [Look(j, b), Create(j), Reject(j)]) == s
  {
    RunThree(s, Look(j, b), Create(j), Reject(j));
    RunThree(s, Look(j, b), Create(j), Apply(j));
    RunFour(s, Look(j, b), Create(j), Apply(j), Finalize(j, tie));
    CreatedAlone(s, j, b);
    var c := Step(Step(s, Look(j, b)), Create(j));
    if Follows(s.nodes, b) {
      StepKeepsInv(c, Apply(j));
      AppliedAlone(s, j, b);
      FinalizedAlone(s, Step(c, Apply(j)), j, b, tie);
    } else {
      assert s.nodes[b.id := c.nodes[b.id]] - {b.id} == s.nodes;
    }
    hide Run, Inv, Submitted;
  }

  /** The database with a block that is being applied. */
  function Trying(s: Db, j: Job, b: Block): Db
    requires b.previous in s.nodes
  {
    var p := s.nodes[b.previous];
    s.(nodes := s.nodes[b.id := Node(b.previous, p.revision + 1, Fresh, p.stored)], jobs := map[j := Applying(b)])
  }

  lemma CreatedAlone(s: Db, j: Job, b: Block)
    requires Inv(s) && s.jobs == map[] && b.id !in s.nodes
    requires b.previous in s.nodes && s.nodes[b.previous].stage.Final?
    ensures Inv(Step(s, Look(j, b))) && Step(Step(s, Look(j, b)), Create(j)) == Trying(s, j, b)
  {
    StepKeepsInv(s, Look(j, b));
    hide Inv;
  }

  lemma AppliedAlone(s: Db, j: Job, b: Block)
    requires b.previous in s.nodes && Inv(Trying(s, j, b)) && b.id !in s.nodes && Follows(s.nodes, b)
    ensures Step(Trying(s, j, b), Apply(j))
            == s.(nodes := s.nodes[b.id := Node(b.previous, b.height, Applied, Some(b))],
                  jobs := map[j := Waiting(b, LibOf(b.height))])
  {
    hide Inv;
  }

  lemma RunThree(s: Db, a: Action, b: Action, c: Action)
    requires Inv(s)
    ensures Inv(Step(s, a)) && Inv(Step(Step(s, a), b)) && Inv(Step(Step(Step(s, a), b), c))
    ensures Run(s, [a, b]) == Step(Step(s, a), b)
    ensures Run(s, [a, b, c]) == Step(Step(Step(s, a), b), c)
  {
    hide Inv, Step, Run;
    RunNext(s, [a, b]);
    RunNext(s, [a, b, c]);
    RunNext(Step(s, a), [b]);
    RunNext(Step(s, a), [b, c]);
    RunNext(Step(Step(s, a), b), [c]);
    assert [a, b][1..] == [b] && [a, b, c][1..] == [b, c] && [b, c][1..] == [c] && [b][1..] == [] && [c][1..] == [];
    RunNone(Step(Step(s, a), b));
    RunNone(Step(Step(Step(s, a), b), c));
  }

  lemma RunNext(s: Db, schedule: seq<Action>)
    requires Inv(s) && schedule != []
    ensures Inv(Step(s, schedule[0])) && Run(s, schedule) == Run(Step(s, schedule[0]), schedule[1..])
  {
    StepKeepsInv(s, schedule[0]);
    hide Inv, Step;
  }

  lemma RunNone(s: Db)
    ensures Inv(s) ==> Run(s, []) == s
  {
  }

  lemma RunFour(s: Db, a: Action, b: Action, c: Action, d: Action)
    requires Inv(s)
    ensures Inv(Step(s, a)) && Inv(Step(Step(s, a), b)) && Inv(Step(Step(Step(s, a), b), c))
    ensures Run(s, [a, b, c, d]) == Step(Step(Step(Step(s, a), b), c), d)
  {
    hide Inv, Step, Run;
    RunNext(s, [a, b, c, d]);
    RunThree(Step(s, a), b, c, d);
    assert [a, b, c, d][1..] == [b, c, d];
  }

  lemma FinalizedAlone(s: Db, a: Db, j: Job, b: Block, tie: bool)
    requires Inv(s) && Inv(a) && b.id !in s.nodes
    requires a == s.(nodes := s.nodes[b.id := Node(b.previous, b.height, Applied, Some(b))],
                     jobs := map[j := Waiting(b, LibOf(b.height))])
    ensures Submitted(s, b, tie, Step(a, Finalize(j, tie)))
  {
    assert Enabled(a, Finalize(j, tie));
    LibNeedsNewHead(a, j, tie);
    PromoteKeepsTree(a, j, tie);
    var p, lib := Promote(a, j, tie), LibOf(b.height);
    hide GoodTree, JobsOk;
    if lib > p.nodes[p.root].revision {
      AdvanceKeepsTree(p, b.id, lib);
    }
  }

  /** Submitting a block whose node exists does nothing. */
  lemma ResubmissionIsNoOp(s: Db, j: Job, block: Block)
    requires Inv(s) && block.id in s.nodes
    ensures Step(s, Look(j, block)) == s
  {
  }

  /** A fresh database: one finalized node, which is root and head. */
  lemma OpenedIsValid(root: Id, n: Node)
    requires n.stage.Final?
    ensures Inv(Db(map[root := n], root, root, None, map[]))
  {
    var s := Db(map[root := n], root, root, None, map[]);
    assert Stored(s.nodes, s.root, root);
  }

  /* ---- the controller ---- */

  /** How the lookup of a submitted block ends. */
  datatype Reply = Known | PriorToIrreversibility | UnknownPrevious | Started

  /**
    The database, the cached head block and the submissions in flight. Each method is
    one section of submit_block under one hold of the lock, and is that step of the run.
  */
  class Controller {
    var nodes: map<Id, Node>
    var root: Id
    var head: Id
    var cachedHeadBlock: Option<Block>
    var jobs: map<Job, Phase>

    ghost function Abs(): Db
      reads this
    {
      Db(nodes, root, head, cachedHeadBlock, jobs)
    }

    ghost predicate Valid()
      reads this
    {
      Inv(Abs())
    }

    constructor (root: Id, n: Node)
      requires n.stage.Final?
      ensures Valid() && Abs() == Db(map[root := n], root, root, None, map[])
    {
      nodes, this.root, head, cachedHeadBlock, jobs := map[root := n], root, root, None, map[];
      new;
      OpenedIsValid(root, n);
    }

    /** The reply for the current LIB without its parent is never needed: the root is a known block. */
    method LookUp(j: Job, block: Block) returns (reply: Reply)
      requires Valid() && Enabled(Abs(), Look(j, block))
      modifies this`jobs
      ensures Valid() && Abs() == Step(old(Abs()), Look(j, block))
      ensures reply == Known <==> block.id in nodes
      ensures reply == Started <==> block.id !in nodes && block.previous in nodes
      ensures reply == PriorToIrreversibility ==> block.height < nodes[root].revision
      ensures reply != Started ==> Abs() == old(Abs())
    {
      StepKeepsInv(Abs(), Look(j, block));
      hide GoodTree, JobsOk;
      if block.id in nodes {
        reply := Known;
      } else if block.previous !in nodes {
        if block.height < nodes[root].revision {
          reply := PriorToIrreversibility;
        } else if block.id != root {
          reply := UnknownPrevious;
        } else {
          reply := Known;
        }
      } else {
        jobs := jobs[j := Looking(block)];
        reply := Started;
      }
    }

    /** At most one of several submissions of a block gets its node; the others end here. */
    method CreateWritableNode(j: Job) returns (created: bool)
      requires Valid() && Enabled(Abs(), Create(j))
      modifies this`nodes, this`jobs
      ensures Valid() && Abs() == Step(old(Abs()), Create(j))
      ensures created == (j in jobs)
      ensures !created ==> nodes == old(nodes)
    {
      StepKeepsInv(Abs(), Create(j));
      hide GoodTree, JobsOk;
      var b := jobs[j].block;
      created := b.id !in nodes && b.previous in nodes && nodes[b.previous].stage.Final?;
      if created {
        var p := nodes[b.previous];
        nodes := nodes[b.id := Node(b.previous, p.revision + 1, Fresh, p.stored)];
        jobs := jobs[j := Applying(b)];
      } else {
        jobs := jobs - {j};
      }
    }

    /**
      A block that does not follow its parent, or whose application fails, loses its
      node; any other one stores itself as head block and computes its LIB. `applies`
      is what came of apply_block, which a block with a forged id does not pass.
    */
    method ApplyOrDiscard(j: Job, applies: bool) returns (ok: bool)
      requires Valid() && j in jobs && jobs[j].Applying? && (applies ==> Genuine(Abs(), jobs[j].block))
      modifies this`nodes, this`jobs
      ensures Valid()
      ensures ok ==> applies && Enabled(old(Abs()), Apply(j)) && Abs() == Step(old(Abs()), Apply(j))
      ensures !ok ==> Abs() == Step(old(Abs()), Reject(j))
      ensures !ok && applies ==> !Enabled(old(Abs()), Apply(j))
    {
      var b := jobs[j].block;
      assert JobOk(Abs(), j) && Stored(nodes, root, b.id);
      StepKeepsInv(Abs(), Apply(j));
      StepKeepsInv(Abs(), Reject(j));
      hide GoodTree, JobsOk;
      ok := applies && b.height == nodes[b.previous].revision + 1 && b.timestamp > TimeOf(nodes[b.previous]);
      if ok {
        var n := nodes[b.id];
        nodes := nodes[b.id := n.(stage := Applied, stored := Some(b))];
        jobs := jobs[j := Waiting(b, LibOf(n.revision))];
      } else {
        nodes := nodes - {b.id};
        jobs := jobs - {j};
      }
    }

    /**
      The atomic section. The block becomes head if it is higher than the head; the
      cached head block is the new head's; and the root moves only for a new head.
    */
    method FinalizeSection(j: Job, tie: bool) returns (newHead: bool)
      requires Valid() && Enabled(Abs(), Finalize(j, tie))
      modifies this`nodes, this`root, this`head, this`cachedHeadBlock, this`jobs
      ensures Valid() && Abs() == Step(old(Abs()), Finalize(j, tie))
      ensures newHead ==> head == old(jobs[j].block.id) && cachedHeadBlock == Some(old(jobs[j].block))
      ensures root != old(root) ==> newHead
    {
      ghost var s := Abs();
      StepKeepsInv(s, Finalize(j, tie));
      StepMovesRoot(s, Finalize(j, tie));
      GoodTreeIsTree(nodes, root);
      newHead := false;
      var b, lib := jobs[j].block, jobs[j].lib;
      jobs := jobs - {j};
      if b.id in nodes {
        LibNeedsNewHead(s, j, tie);
        StageIsNoTree(nodes, root, b.id, Final);
        hide GoodTree, JobsOk, Tree;
        nodes := nodes[b.id := nodes[b.id].(stage := Final)];
        head := NewHead(nodes, head, b.id, tie);
        if head == b.id {
          newHead := true;
          cachedHeadBlock := Some(b);
        }
        assert Abs() == Promote(s, j, tie);
        if lib > nodes[root].revision {
          root := AncestorAt(nodes, root, b.id, lib);
          nodes := Prune(nodes, root);
        }
      }
    }
  }
}
