/**
  The LRU cache of parsed modules (libraries/vm_manager/fizzy/module_cache.cpp): a
  linked list of ids, newest first, and a map from id to module and list iterator.
*/
module ModuleCaching {
  import opened Int64

  type Id = string
  type Module = nat

  /** A node of the linked list; the handle is what an iterator to it holds. */
  datatype Link = Link(handle: nat, id: Id)
  datatype Slot = Slot(mod: Module, handle: nat)

  datatype Cache = Cache(size: nat, list: seq<Link>, modules: map<Id, Slot>, counter: nat)

  function Empty(size: nat): Cache {
    Cache(size, [], map[], 0)
  }

  /** std::list::erase through an iterator. */
  function Erase(list: seq<Link>, handle: nat): seq<Link> {
    if list == [] then []
    else if list[0].handle == handle then list[1..]
    else [list[0]] + Erase(list[1..], handle)
  }

  function Get(c: Cache, id: Id): (Option<Module>, Cache) {
    if id !in c.modules then (None, c) else
    var slot := c.modules[id];
    (Some(slot.mod),
     c.(list := [Link(c.counter, id)] + Erase(c.list, slot.handle),
        modules := c.modules[id := Slot(slot.mod, c.counter)],
        counter := c.counter + 1))
  }

  function Put(c: Cache, id: Id, mod: Module): Cache
    requires c.size >= 1
  {
    var c' := if |c.list| >= c.size
              then c.(list := c.list[..|c.list| - 1], modules := c.modules - {c.list[|c.list| - 1].id})
              else c;
    c'.(list := [Link(c.counter, id)] + c'.list,
        modules := c'.modules[id := Slot(mod, c.counter)],
        counter := c.counter + 1)
  }

  /* ---- any interleaving of puts and gets ---- */

  datatype Op = GetOp(id: Id) | PutOp(id: Id, mod: Module)

  function Step(c: Cache, op: Op): Cache
    requires c.size >= 1
  {
    match op
    case GetOp(id) => Get(c, id).1
    case PutOp(id, mod) => Put(c, id, mod)
  }

  function Run(c: Cache, ops: seq<Op>): (r: Cache)
    requires c.size >= 1
    ensures r.size == c.size
  {
    if ops == [] then c else Step(Run(c, ops[..|ops| - 1]), ops[|ops| - 1])
  }

  function LastPut(ops: seq<Op>, id: Id): Option<Module> {
    if ops == [] then None else
    var op := ops[|ops| - 1];
    if op.PutOp? && op.id == id then Some(op.mod) else LastPut(ops[..|ops| - 1], id)
  }

  function RemoveAt<T>(s: seq<T>, i: nat): (r: seq<T>)
    requires i < |s|
    ensures |r| == |s| - 1
    ensures forall k :: 0 <= k < |r| ==> r[k] == s[if k < i then k else k + 1]
  {
    s[..i] + s[i + 1..]
  }

  ghost predicate Live(list: seq<Link>, link: Link) {
    exists i :: 0 <= i < |list| && list[i] == link
  }

  /** Every iterator in the map is live and points to a node of its own id. */
  ghost predicate Sound(c: Cache) {
    && c.size >= 1 && |c.list| <= c.size && Handles(c.list, c.counter)
    && (forall id <- c.modules :: Live(c.list, Link(c.modules[id].handle, id)))
  }

  lemma {:induction false} EraseAt(list: seq<Link>, i: nat)
    requires i < |list|
    requires forall j, k :: 0 <= j < k < |list| ==> list[j].handle != list[k].handle
    ensures Erase(list, list[i].handle) == RemoveAt(list, i)
  {
    if i == 0 {
      assert RemoveAt(list, 0) == list[1..];
    } else {
      EraseAt(list[1..], i - 1);
      assert RemoveAt(list, i) == [list[0]] + RemoveAt(list[1..], i - 1);
    }
  }

  /** A node other than the one taken out stays live, and so does what was put in front. */
  lemma LiveAfter(list: seq<Link>, i: nat, front: Link, link: Link)
    requires i < |list| && (link == front || (Live(list, link) && link != list[i]))
    ensures Live([front] + RemoveAt(list, i), link)
  {
    hide RemoveAt;
    var l := [front] + RemoveAt(list, i);
    if link == front {
      assert l[0] == link;
    } else {
      var j :| 0 <= j < |list| && list[j] == link;
      assert l[if j < i then j + 1 else j] == link;
    }
  }

  lemma LiveAfterPush(list: seq<Link>, front: Link, link: Link)
    requires link == front || Live(list, link)
    ensures Live([front] + list, link)
  {
    if link == front {
      assert ([front] + list)[0] == link;
    } else {
      var j :| 0 <= j < |list| && list[j] == link;
      assert ([front] + list)[j + 1] == link;
    }
  }

  /** Handles below the counter and pairwise different. */
  ghost predicate Handles(list: seq<Link>, counter: nat) {
    && (forall i :: 0 <= i < |list| ==> list[i].handle < counter)
    && (forall i, j :: 0 <= i < j < |list| ==> list[i].handle != list[j].handle)
  }

  lemma HandlesAfter(list: seq<Link>, i: nat, counter: nat, id: Id)
    requires i < |list| && Handles(list, counter)
    ensures Handles([Link(counter, id)] + RemoveAt(list, i), counter + 1)
  {
    hide RemoveAt;
  }

  lemma GetKeepsSound(c: Cache, id: Id)
    requires Sound(c)
    ensures Sound(Get(c, id).1)
  {
    hide RemoveAt, Erase, Live, Handles;
    if id in c.modules {
      var c' := Get(c, id).1;
      var i := Position(c, id);
      HandlesAreDistinct(c);
      EraseAt(c.list, i);
      HandlesAfter(c.list, i, c.counter, id);
      forall x <- c'.modules
        ensures Live(c'.list, Link(c'.modules[x].handle, x))
      {
        LiveAfter(c.list, i, Link(c.counter, id), Link(c'.modules[x].handle, x));
      }
    }
  }

  lemma Position(c: Cache, id: Id) returns (i: nat)
    requires Sound(c) && id in c.modules
    ensures i < |c.list| && c.list[i] == Link(c.modules[id].handle, id)
  {
    i :| 0 <= i < |c.list| && c.list[i] == Link(c.modules[id].handle, id);
  }

  lemma HandlesAreDistinct(c: Cache)
    requires Sound(c)
    ensures forall i, j :: 0 <= i < j < |c.list| ==> c.list[i].handle != c.list[j].handle
  {
  }

  lemma PutKeepsSound(c: Cache, id: Id, mod: Module)
    requires Sound(c)
    ensures Sound(Put(c, id, mod))
  {
    hide RemoveAt, Live;
    var c' := Put(c, id, mod);
    var n := |c.list| - 1;
    var front := Link(c.counter, id);
    if |c.list| >= c.size {
      assert c.list[..n] == RemoveAt(c.list, n);
      forall x <- c'.modules
        ensures Live(c'.list, Link(c'.modules[x].handle, x))
      {
        LiveAfter(c.list, n, front, Link(c'.modules[x].handle, x));
      }
    } else {
      forall x <- c'.modules
        ensures Live(c'.list, Link(c'.modules[x].handle, x))
      {
        LiveAfterPush(c.list, front, Link(c'.modules[x].handle, x));
      }
    }
  }

  /**
    Whatever the puts and gets, duplicate puts of racing runs included: iterators stay
    live and point to their own id, the list stays within capacity, and a hit returns
    the module last put under the id.
  */
  lemma {:induction false} AnyRunIsSound(size: nat, ops: seq<Op>)
    requires size >= 1
    ensures var c := Run(Empty(size), ops);
            && Sound(c)
            && forall id <- c.modules :: Some(c.modules[id].mod) == LastPut(ops, id)
  {
    if ops != [] {
      var front, op := ops[..|ops| - 1], ops[|ops| - 1];
      AnyRunIsSound(size, front);
      var c := Run(Empty(size), front);
      match op
      case GetOp(id) => GetKeepsSound(c, id);
      case PutOp(id, mod) => PutKeepsSound(c, id, mod);
    }
  }

  /* ---- put after a miss: the cache is LRU ---- */

  /** The id missed, or the put is about to evict its only node. */
  predicate PutOk(c: Cache, id: Id) {
    id !in c.modules || (c.list != [] && |c.list| >= c.size && c.list[|c.list| - 1].id == id)
  }

  ghost predicate Disciplined(c: Cache, ops: seq<Op>)
    requires c.size >= 1
  {
    ops == [] ||
    (Disciplined(c, ops[..|ops| - 1]) &&
     (ops[|ops| - 1].PutOp? ==> PutOk(Run(c, ops[..|ops| - 1]), ops[|ops| - 1].id)))
  }

  function Without(s: seq<Id>, x: Id): seq<Id> {
    if s == [] then [] else (if s[0] == x then [] else [s[0]]) + Without(s[1..], x)
  }

  /** The distinct ids used so far, most recently used first; a get that misses uses nothing. */
  function Recent(c: Cache, ops: seq<Op>): seq<Id>
    requires c.size >= 1
  {
    if ops == [] then [] else
    var front := ops[..|ops| - 1];
    Used(Run(c, front), Recent(c, front), ops[|ops| - 1])
  }

  function Ids(list: seq<Link>): (r: seq<Id>)
    ensures |r| == |list|
    ensures forall i :: 0 <= i < |list| ==> r[i] == list[i].id
  {
    seq(|list|, i requires 0 <= i < |list| => list[i].id)
  }

  function Take<T>(s: seq<T>, n: nat): seq<T> {
    if |s| <= n then s else s[..n]
  }

  ghost predicate Distinct(s: seq<Id>) {
    forall i, j :: 0 <= i < j < |s| ==> s[i] != s[j]
  }

  /** One list node per resident id. */
  ghost predicate Tidy(c: Cache) {
    && Distinct(Ids(c.list))
    && forall i :: 0 <= i < |c.list| ==>
         c.list[i].id in c.modules && c.modules[c.list[i].id].handle == c.list[i].handle
  }

  lemma {:induction false} WithoutAbsent(s: seq<Id>, x: Id)
    requires x !in s
    ensures Without(s, x) == s
  {
    if s != [] {
      WithoutAbsent(s[1..], x);
      assert s == [s[0]] + s[1..];
    }
  }

  lemma {:induction false} WithoutAt(s: seq<Id>, i: nat)
    requires Distinct(s) && i < |s|
    ensures Without(s, s[i]) == RemoveAt(s, i)
  {
    if i == 0 {
      WithoutAbsent(s[1..], s[0]);
      assert RemoveAt(s, 0) == s[1..];
    } else {
      WithoutAt(s[1..], i - 1);
      assert RemoveAt(s, i) == [s[0]] + RemoveAt(s[1..], i - 1);
    }
  }

  lemma PromoteKeepsDistinct(r: seq<Id>, i: nat)
    requires Distinct(r) && i < |r|
    ensures Distinct([r[i]] + RemoveAt(r, i))
  {
    hide RemoveAt;
  }

  /** Moving an id to the front of the recency order, seen through the first n. */
  lemma PromoteAndTake(r: seq<Id>, n: nat, x: Id)
    requires Distinct(r) && n >= 1
    ensures var l := Take(r, n);
            var r' := [x] + Without(r, x);
            && Distinct(r')
            && Take(r', n) == if x in l then [x] + Without(l, x)
                              else [x] + if |l| >= n then l[..|l| - 1] else l
  {
    hide RemoveAt, Without;
    var l := Take(r, n);
    if x in r {
      var i :| 0 <= i < |r| && r[i] == x;
      WithoutAt(r, i);
      PromoteKeepsDistinct(r, i);
      if i < |l| {
        assert l[i] == x;
        WithoutAt(l, i);
        assert Take([x] + RemoveAt(r, i), n) == [x] + RemoveAt(l, i);
      } else {
        assert Take([x] + RemoveAt(r, i), n) == [x] + l[..n - 1];
      }
    } else {
      WithoutAbsent(r, x);
      assert Take([x] + r, n) == [x] + if |l| >= n then l[..|l| - 1] else l;
    }
  }

  lemma HitIsTidy(c: Cache, id: Id)
    requires Sound(c) && Tidy(c) && id in c.modules
    ensures Tidy(Get(c, id).1)
    ensures id in Ids(c.list) && Ids(Get(c, id).1.list) == [id] + Without(Ids(c.list), id)
  {
    hide RemoveAt, Without, Erase;
    var i := Position(c, id);
    EraseAt(c.list, i);
    var ids := Ids(c.list);
    assert ids[i] == id;
    WithoutAt(ids, i);
    PromoteKeepsDistinct(ids, i);
    var c' := Get(c, id).1;
    assert c'.list == [Link(c.counter, id)] + RemoveAt(c.list, i);
    assert Ids(c'.list) == [id] + RemoveAt(ids, i);
    forall k | 0 <= k < |c'.list|
      ensures c'.list[k].id in c'.modules && c'.modules[c'.list[k].id].handle == c'.list[k].handle
    {
      if k > 0 {
        assert Ids(c'.list)[0] != Ids(c'.list)[k];
      }
    }
  }

  lemma PutIsTidy(c: Cache, id: Id, mod: Module)
    requires Sound(c) && Tidy(c) && PutOk(c, id)
    ensures Tidy(Put(c, id, mod))
    ensures id in c.modules ==> Ids(Put(c, id, mod).list) == [id] + Without(Ids(c.list), id)
    ensures id !in c.modules ==>
              var kept := if |c.list| >= c.size then Ids(c.list)[..|c.list| - 1] else Ids(c.list);
              Ids(Put(c, id, mod).list) == [id] + kept
  {
    hide Live, Handles, RemoveAt, Without;
    var c', n := Put(c, id, mod), |c.list| - 1;
    assert |c.list| >= c.size ==> Ids(c.list)[n] == c.list[n].id;
    if id in c.modules {
      WithoutAt(Ids(c.list), n);
      assert RemoveAt(Ids(c.list), n) == Ids(c.list)[..n];
    }
  }

  /** A put leaves one node per id exactly when the id missed or its node is the one evicted. */
  lemma PutTidyExactly(c: Cache, id: Id, mod: Module)
    requires Sound(c) && Tidy(c)
    ensures Tidy(Put(c, id, mod)) <==> PutOk(c, id)
  {
    hide Live, Handles;
    if PutOk(c, id) {
      PutIsTidy(c, id, mod);
    } else {
      var i := Position(c, id);
      var ids := Ids(Put(c, id, mod).list);
      assert ids[0] == id && ids[i + 1] == id;
    }
  }

  /** The recency order after one more operation. */
  function Used(c: Cache, r: seq<Id>, op: Op): seq<Id> {
    if op.GetOp? && op.id !in c.modules then r else [op.id] + Without(r, op.id)
  }

  lemma LruStep(c: Cache, r: seq<Id>, op: Op)
    requires Sound(c) && Tidy(c) && Distinct(r) && Ids(c.list) == Take(r, c.size)
    requires op.PutOp? ==> PutOk(c, op.id)
    ensures Tidy(Step(c, op)) && Distinct(Used(c, r, op))
    ensures Ids(Step(c, op).list) == Take(Used(c, r, op), c.size)
  {
    hide Live, Handles, Tidy, Distinct, Without, Get, Put, Ids;
    TidyKeys(c);
    PromoteAndTake(r, c.size, op.id);
    match op
    case GetOp(id) =>
      if id in c.modules {
        HitIsTidy(c, id);
      } else {
        Missed(c, id);
      }
    case PutOp(id, mod) =>
      PutIsTidy(c, id, mod);
  }

  lemma Missed(c: Cache, id: Id)
    requires id !in c.modules
    ensures Get(c, id) == (None, c)
  {
  }

  lemma TidyKeys(c: Cache)
    requires Sound(c) && Tidy(c)
    ensures forall id :: id in c.modules <==> id in Ids(c.list)
  {
    forall id
      ensures id in c.modules <==> id in Ids(c.list)
    {
      if id in c.modules {
        var i := Position(c, id);
        assert Ids(c.list)[i] == id;
      }
    }
  }

  /**
    If every put is such a put (as when each run puts only after its own miss and no
    other run interferes), the residents are exactly the `size` most
    recently used ids, in order of use.
  */
  lemma {:induction false} CacheIsLru(size: nat, ops: seq<Op>)
    requires size >= 1 && Disciplined(Empty(size), ops)
    ensures var c := Run(Empty(size), ops);
            && Tidy(c) && Distinct(Recent(Empty(size), ops))
            && Ids(c.list) == Take(Recent(Empty(size), ops), size)
            && forall id :: id in c.modules <==> id in Ids(c.list)
  {
    hide Sound, Without, Step;
    AnyRunIsSound(size, ops);
    if ops != [] {
      var front, op := ops[..|ops| - 1], ops[|ops| - 1];
      CacheIsLru(size, front);
      AnyRunIsSound(size, front);
      LruStep(Run(Empty(size), front), Recent(Empty(size), front), op);
    }
    TidyKeys(Run(Empty(size), ops));
  }

  lemma GetIsTidy(c: Cache, id: Id)
    requires Sound(c) && Tidy(c)
    ensures Tidy(Get(c, id).1)
  {
    hide Tidy, Sound;
    if id in c.modules {
      HitIsTidy(c, id);
    }
  }

  /** The cache has one node per resident id all along if and only if every put was such a put. */
  lemma {:induction false} TidyThroughoutExactly(size: nat, ops: seq<Op>)
    requires size >= 1
    ensures (forall k :: 0 <= k <= |ops| ==> Tidy(Run(Empty(size), ops[..k]))) <==> Disciplined(Empty(size), ops)
  {
    hide Tidy, Sound, Step, PutOk;
    if ops == [] {
      EmptyIsTidy(size);
      assert ops[..0] == [];
    } else {
      var n := |ops| - 1;
      var front, op := ops[..n], ops[n];
      TidyThroughoutExactly(size, front);
      AnyRunIsSound(size, front);
      assert ops[..|ops|] == ops;
      assert forall k :: 0 <= k <= n ==> ops[..k] == front[..k];
      assert front[..n] == front;
      if Tidy(Run(Empty(size), front)) {
        TidyStepExactly(Run(Empty(size), front), op);
      }
    }
  }

  lemma EmptyIsTidy(size: nat)
    ensures Tidy(Empty(size))
  {
  }

  lemma TidyStepExactly(c: Cache, op: Op)
    requires Sound(c) && Tidy(c)
    ensures Tidy(Step(c, op)) <==> (op.PutOp? ==> PutOk(c, op.id))
  {
    hide Tidy, Sound, PutOk, Get, Put;
    match op
    case GetOp(id) => GetIsTidy(c, id);
    case PutOp(id, mod) => PutTidyExactly(c, id, mod);
  }

  /** Without the discipline it is not LRU: two runs that both missed put the same id twice. */
  lemma RacingPutsEvictEarly()
    ensures var ops := [PutOp("a", 1), PutOp("a", 1), PutOp("b", 2)];
            && !Disciplined(Empty(2), ops)
            && "a" !in Run(Empty(2), ops).modules
            && Recent(Empty(2), ops) == ["b", "a"]
  {
    var e := Empty(2);
    var o1, o2, o3 := [PutOp("a", 1)], [PutOp("a", 1), PutOp("a", 1)], [PutOp("a", 1), PutOp("a", 1), PutOp("b", 2)];
    assert o1[..0] == [] && o2[..1] == o1 && o3[..2] == o2;
    assert Run(e, o1) == Cache(2, [Link(0, "a")], map["a" := Slot(1, 0)], 1);
    assert Run(e, o2) == Cache(2, [Link(1, "a"), Link(0, "a")], map["a" := Slot(1, 1)], 2);
    assert Run(e, o3).list == [Link(2, "b"), Link(1, "a")];
    assert Recent(e, o1) == ["a"];
    assert Without(["a"], "a") == [];
    assert Recent(e, o2) == ["a"];
  }

  /* ---- the object ---- */

  class ModuleCache {
    const size: nat
    var list: seq<Link>
    var modules: map<Id, Slot>
    var counter: nat

    constructor (size: nat)
      ensures Value() == Empty(size)
    {
      this.size, list, modules, counter := size, [], map[], 0;
    }

    ghost function Value(): Cache
      reads this
    {
      Cache(size, list, modules, counter)
    }

    method EraseNode(handle: nat)
      modifies this`list
      ensures list == Erase(old(list), handle)
    {
      var i := 0;
      while i < |list| && list[i].handle != handle
        invariant 0 <= i <= |list|
        invariant list == old(list)
        invariant Erase(list, handle) == list[..i] + Erase(list[i..], handle)
      {
        assert list[i..][1..] == list[i + 1..];
        i := i + 1;
      }
      if i < |list| {
        assert list[i..][1..] == list[i + 1..];
        list := list[..i] + list[i + 1..];
      }
    }

    method GetModule(id: Id) returns (mod: Option<Module>)
      modifies this
      ensures (mod, Value()) == Get(old(Value()), id)
    {
      if id !in modules {
        return None;
      }
      var slot := modules[id];
      EraseNode(slot.handle);
      list := [Link(counter, id)] + list;
      modules := modules[id := Slot(slot.mod, counter)];
      counter := counter + 1;
      return Some(slot.mod);
    }

    method PutModule(id: Id, mod: Module)
      requires size >= 1
      modifies this
      ensures Value() == Put(old(Value()), id, mod)
    {
      if |list| >= size {
        var key := list[|list| - 1].id;
        modules := modules - {key};
        list := list[..|list| - 1];
      }
      list := [Link(counter, id)] + list;
      modules := modules[id := Slot(mod, counter)];
      counter := counter + 1;
    }

    /** One VM run alone: look up, and parse and store on a miss. An empty id bypasses the cache. */
    method Load(id: Id, parsed: Module) returns (mod: Module)
      requires Sound(Value())
      modifies this
      ensures Sound(Value())
      ensures id == "" ==> mod == parsed && Value() == old(Value())
      ensures id != "" ==> id in modules && modules[id].mod == mod
      ensures id != "" ==> mod == if id in old(modules) then old(modules)[id].mod else parsed
      ensures id != "" ==> list != [] && list[0].id == id
    {
      mod := parsed;
      if id != "" {
        GetKeepsSound(Value(), id);
        var found := GetModule(id);
        if found.Some? {
          mod := found.value;
        } else {
          PutKeepsSound(Value(), id, parsed);
          PutModule(id, parsed);
        }
      }
    }
  }
}
