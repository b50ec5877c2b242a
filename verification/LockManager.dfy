/** The object lock manager of one server, as code. Every method is proved to take steps of LockRuns,
    with anything other calls, the cache's eviction and the chain may do in between. */
module LockManager {
  import opened Wrappers
  import opened CoinText
  import opened ObjectLocks
  import opened LockRuns

  /** The world is where the trace leads. */
  ghost predicate Led(origin: World, trace: seq<Step>, world: World)
  {
    Runs(origin, trace) && After(origin, trace) == world
  }

  lemma LedInv(origin: World, trace: seq<Step>, world: World)
    requires Led(origin, trace, world)
    ensures Inv(world)
  {
    RunsKeepInv(origin, trace);
  }

  lemma LedNext(origin: World, trace: seq<Step>, world: World, step: Step)
    requires Led(origin, trace, world) && GoodChain(world.chain) && Enabled(world, step)
    ensures Led(origin, trace + [step], Apply(world, step))
  {
    assert (trace + [step])[..|trace|] == trace;
  }

  lemma LedChain(origin: World, trace: seq<Step>, world: World)
    requires Led(origin, trace, world)
    ensures GoodChain(world.chain) && Truthful(world.chain, world.cache)
  {
    LedInv(origin, trace, world);
  }

  /** What the machine says of a call, in terms of its objects. */
  lemma LedCall(origin: World, trace: seq<Step>, world: World, t: nat)
    requires Led(origin, trace, world) && At(world, t)
    ensures var c := world.calls[t];
            && GoodChain(c.asked) && Extends(c.start, c.asked) && Extends(c.asked, world.chain)
            && (c.phase.Ready? ==> Filtered(c.asked, c.objects, c.phase.found))
            && (c.phase.Failed? ==> Sound(world.chain, c.objects, c.phase.error))
  {
    LedInv(origin, trace, world);
    assert CallOk(world.chain, world.calls[t]);
  }

  class ObjectLockGuard {
    ghost const call: nat
    const lockedObjects: seq<ObjectId>
    const manager: ObjectLockManager

    constructor (ghost call: nat, lockedObjects: seq<ObjectId>, manager: ObjectLockManager)
      ensures this.call == call && this.lockedObjects == lockedObjects && this.manager == manager
    {
      this.call, this.lockedObjects, this.manager := call, lockedObjects, manager;
    }

    method RemoveLocks()
      modifies manager`locked
      ensures manager.locked == old(manager.locked) - SetOf(lockedObjects)
    {
      for i := 0 to |lockedObjects|
        invariant manager.locked == old(manager.locked) - SetOf(lockedObjects[..i])
      {
        assert lockedObjects[..i + 1] == lockedObjects[..i] + [lockedObjects[i]];
        manager.locked := manager.locked - {lockedObjects[i]};
      }
      assert lockedObjects[..|lockedObjects|] == lockedObjects;
    }

    /** Dropping the live guard. */
    method Drop()
      requires manager.Valid() && At(manager.world, call) && manager.world.calls[call].phase == Holding(lockedObjects)
      modifies manager
      ensures manager.Valid() && manager.trace == old(manager.trace) + [Step.Drop(call)]
      ensures manager.locked == old(manager.locked) - SetOf(lockedObjects)
    {
      LedChain(manager.origin, manager.trace, manager.world);
      RemoveLocks();
      manager.Advance(Step.Drop(call));
    }
  }

  class ObjectLockManager {
    var cache: map<ObjectId, Seen>
    var locked: set<ObjectId>
    var chain: Chain               // what the node would answer now

    ghost const origin: World
    ghost var world: World
    ghost var trace: seq<Step>

    ghost predicate Valid()
      reads this
    {
      && cache == world.cache && locked == world.locked && chain == world.chain
      && Led(origin, trace, world)
    }

    constructor (chain: Chain)
      requires GoodChain(chain)
      ensures Valid() && cache == map[] && locked == {} && this.chain == chain && trace == []
    {
      cache, locked, this.chain := map[], {}, chain;
      origin, world, trace := World(chain, map[], {}, []), World(chain, map[], {}, []), [];
    }

    ghost method Advance(step: Step)
      requires Led(origin, trace, world) && GoodChain(world.chain) && Enabled(world, step)
      modifies this`world, this`trace
      ensures Led(origin, trace, world) && world == Apply(old(world), step) && trace == old(trace) + [step]
    {
      LedNext(origin, trace, world, step);
      world, trace := Apply(world, step), trace + [step];
    }

    /** What other calls, evictions, cache updates and the chain do before this one goes on. */
    method Others(ghost t: nat)
      requires Valid() && At(world, t)
      modifies this
      ensures Valid() && old(trace) <= trace && At(world, t) && world.calls[t] == old(world.calls[t])
      ensures Extends(old(chain), chain)
    {
    }

    method FirstLocked(ids: seq<ObjectId>) returns (r: Option<ObjectId>)
      ensures r == FirstBusy(ids, locked)
      ensures r.None? <==> SetOf(ids) !! locked
      ensures r.Some? ==> r.value in ids && r.value in locked
    {
      FirstBusyIsExact(ids, locked);
      assert ids[0..] == ids;
      for i := 0 to |ids|
        invariant FirstBusy(ids, locked) == FirstBusy(ids[i..], locked)
      {
        if ids[i] in locked { return Some(ids[i]); }
        assert ids[i..][1..] == ids[i + 1..];
      }
      r := None;
    }

    /** The read check. */
    method Begin(objects: seq<Ref>) returns (busy: Option<ObjectId>, ghost t: nat)
      requires Valid()
      modifies this
      ensures Valid() && trace == old(trace) + [Step.Begin(objects)] && locked == old(locked) && chain == old(chain)
      ensures t == |old(world).calls| && At(world, t)
      ensures busy.None? <==> forall o :: o in objects ==> o.id !in locked
      ensures busy.Some? ==> busy.value in locked && exists o :: o in objects && o.id == busy.value
      ensures world.calls[t] == Call(objects, chain, chain, if busy.Some? then Failed(AlreadyLocked(busy.value))
                                                            else Scanning([], objects, [], map[]))
    {
      LedChain(origin, trace, world);
      busy := FirstLocked(RefIds(objects));
      RefIdsAre(objects);
      t := |world.calls|;
      Advance(Step.Begin(objects));
    }

    /** One turn of the loop over the inputs. */
    method ScanOneInput(done: seq<Ref>, todo: seq<Ref>, known: seq<ObjectId>, asking: map<ObjectId, nat>, ghost t: nat)
      returns (error: Option<Error>, found: seq<ObjectId>, query: map<ObjectId, nat>)
      requires Valid() && At(world, t) && todo != [] && world.calls[t].phase == Scanning(done, todo, known, asking)
      modifies this
      ensures Valid() && old(trace) <= trace && Extends(old(chain), chain) && At(world, t)
      ensures world.calls[t] == old(world.calls[t]).(phase := world.calls[t].phase)
      ensures world.calls[t].phase == if error.Some? then Failed(error.value)
                                      else Scanning(done + [todo[0]], todo[1..], found, query)
      ensures error.Some? ==> error.value.OutOfDate?
    {
      Others(t);
      LedChain(origin, trace, world);
      var Ref(id, version) := todo[0];
      error, found, query := None, known, asking;
      if id in cache {
        var Seen(cachedVersion, isAddressOwned) := cache[id];
        if version < cachedVersion {
          error := Some(OutOfDate(id, version, cachedVersion));
        } else if version == cachedVersion {
          if isAddressOwned { found := found + [id]; }
        } else {
          query := query[id := version];
        }
      } else {
        query := query[id := version];
      }
      Advance(Scan(t));
    }

    /** Goes through the cache: which inputs it knows to be owned, which have to be asked for. */
    method ScanCache(objects: seq<Ref>, ghost t: nat) returns (error: Option<Error>, found: seq<ObjectId>, query: map<ObjectId, nat>)
      requires Valid() && At(world, t) && world.calls[t].phase == Scanning([], objects, [], map[])
      modifies this
      ensures Valid() && old(trace) <= trace && Extends(old(chain), chain) && At(world, t)
      ensures world.calls[t] == old(world.calls[t]).(phase := world.calls[t].phase)
      ensures world.calls[t].phase == if error.Some? then Failed(error.value) else Scanning(objects, [], found, query)
      ensures error.Some? ==> error.value.OutOfDate?
    {
      error, found, query := None, [], map[];
      var i := 0;
      ExtendsSelf(chain);
      while i < |objects|
        invariant i <= |objects| && error.None? && Valid() && old(trace) <= trace && Extends(old(chain), chain) && At(world, t)
        invariant world.calls[t] == old(world.calls[t]).(phase := Scanning(objects[..i], objects[i..], found, query))
      {
        ghost var before := chain;
        assert objects[..i] + [objects[i..][0]] == objects[..i + 1] && objects[i..][1..] == objects[i + 1..];
        error, found, query := ScanOneInput(objects[..i], objects[i..], found, query, t);
        ExtendsTrans(old(chain), before, chain);
        if error.Some? { return; }
        i := i + 1;
      }
      assert i == |objects| && objects[..i] == objects && objects[i..] == [];
    }

    /** The node answers for every object, as the chain is then, or the call fails. */
    method MultiGetObjectOwners(query: map<ObjectId, nat>, ghost t: nat) returns (r: Option<map<ObjectId, Seen>>)
      requires Valid() && At(world, t) && query != map[] && world.calls[t].phase.Scanning?
      requires world.calls[t].phase.todo == [] && world.calls[t].phase.query == query
      modifies this
      ensures Valid() && old(trace) <= trace && Extends(old(chain), chain) && At(world, t)
      ensures world.calls[t] == old(world.calls[t]).(asked := chain, phase := world.calls[t].phase)
      ensures match r
              case None => world.calls[t].phase == Failed(QueryFailed) && AsksIn(trace, t)
              case Some(answer) => world.calls[t].phase == Absorbing(answer, old(world.calls[t].phase.found), query)
                                   && answer.Keys == query.Keys
    {
      Others(t);
      LedChain(origin, trace, world);
      var fails: bool := *;
      if fails || !(query.Keys <= chain.Keys) {
        r := None;
      } else {
        r := Some(map id | id in query :: LatestOf(chain, id));
      }
      Advance(Ask(t, r.None?));
      assert Ask(t, r.None?) == trace[|trace| - 1];
    }

    /** One turn of the loop over the answer. */
    method AbsorbOneAnswer(id: ObjectId, answer: map<ObjectId, Seen>, known: seq<ObjectId>, pending: map<ObjectId, nat>, ghost t: nat)
      returns (error: Option<Error>, found: seq<ObjectId>)
      requires Valid() && At(world, t) && id in pending && id in answer
      requires world.calls[t].phase == Absorbing(answer, known, pending)
      modifies this
      ensures Valid() && old(trace) <= trace && Extends(old(chain), chain) && At(world, t)
      ensures world.calls[t] == old(world.calls[t]).(phase := world.calls[t].phase)
      ensures world.calls[t].phase == if error.Some? then Failed(error.value) else Absorbing(answer, found, pending - {id})
      ensures error.Some? ==> error.value.OutOfDate?
    {
      Others(t);
      LedChain(origin, trace, world);
      error, found := None, known;
      var Seen(fetchedVersion, isAddressOwned) := answer[id];
      if fetchedVersion > pending[id] {
        error := Some(OutOfDate(id, pending[id], fetchedVersion));
      } else {
        cache := cache[id := answer[id]];
        if isAddressOwned { found := found + [id]; }
      }
      Advance(Absorb(t, id));
    }

    /** Goes through the node's answer, in any order, adding it to the cache. */
    method AbsorbAnswer(answer: map<ObjectId, Seen>, known: seq<ObjectId>, query: map<ObjectId, nat>, ghost t: nat)
      returns (error: Option<Error>, found: seq<ObjectId>)
      requires Valid() && At(world, t) && answer.Keys == query.Keys && world.calls[t].phase == Absorbing(answer, known, query)
      modifies this
      ensures Valid() && old(trace) <= trace && Extends(old(chain), chain) && At(world, t)
      ensures world.calls[t] == old(world.calls[t]).(phase := world.calls[t].phase)
      ensures world.calls[t].phase == if error.Some? then Failed(error.value) else Absorbing(answer, found, map[])
      ensures error.Some? ==> error.value.OutOfDate?
    {
      error, found := None, known;
      var pending := query;
      ghost var call := world.calls[t];
      ExtendsSelf(chain);
      while pending != map[]
        invariant Valid() && old(trace) <= trace && Extends(old(chain), chain) && At(world, t)
        invariant pending.Keys <= answer.Keys && error.None?
        invariant world.calls[t] == call.(phase := Absorbing(answer, found, pending))
        decreases |pending.Keys|
      {
        ghost var before := chain;
        var id :| id in pending;
        MapShrinks(pending, id);
        error, found := AbsorbOneAnswer(id, answer, found, pending, t);
        ExtendsTrans(old(chain), before, chain);
        if error.Some? { return; }
        pending := pending - {id};
      }
    }

    /** What the inputs are judged by is the chain that the call asked. */
    ghost predicate Outcome(r: Result<seq<ObjectId>, Error>, t: nat)
      reads this
    {
      && At(world, t)
      && match r
         case Ok(found) => world.calls[t].phase == Ready(found)
         case Err(error) => world.calls[t].phase == Failed(error) && (error.OutOfDate? || error == QueryFailed)
    }

    method Settle(found: seq<ObjectId>, ghost t: nat) returns (r: Result<seq<ObjectId>, Error>)
      requires Valid() && At(world, t) && Enabled(world, Filter(t)) && world.calls[t].phase.found == found
      modifies this
      ensures Valid() && old(trace) <= trace && chain == old(chain) && r == Ok(found) && Outcome(r, t)
      ensures world.calls[t].objects == old(world.calls[t]).objects && world.calls[t].start == old(world.calls[t]).start
    {
      LedChain(origin, trace, world);
      r := Ok(found);
      Advance(Filter(t));
    }

    method Query(known: seq<ObjectId>, query: map<ObjectId, nat>, ghost t: nat) returns (r: Result<seq<ObjectId>, Error>)
      requires Valid() && At(world, t) && query != map[] && world.calls[t].phase.Scanning?
      requires world.calls[t].phase.todo == [] && world.calls[t].phase.query == query && world.calls[t].phase.found == known
      modifies this
      ensures Valid() && old(trace) <= trace && Extends(old(chain), chain) && Outcome(r, t)
      ensures r.Err? && r.error.QueryFailed? ==> AsksIn(trace, t)
      ensures world.calls[t].objects == old(world.calls[t]).objects && world.calls[t].start == old(world.calls[t]).start
    {
      var answer := MultiGetObjectOwners(query, t);
      if answer.None? { return Err(QueryFailed); }
      ghost var asked := chain;
      var error, found := AbsorbAnswer(answer.value, known, query, t);
      ExtendsTrans(old(chain), asked, chain);
      if error.Some? { return Err(error.value); }
      r := Settle(found, t);
    }

    /** The owned ones among the objects: for distinct inputs exactly those that the chain asked judges
        to be owned, whatever the cache holds and whatever happens meanwhile. */
    method FilterOwnedObjects(objects: seq<Ref>, ghost t: nat) returns (r: Result<seq<ObjectId>, Error>, ghost asked: Chain)
      requires Valid() && At(world, t) && world.calls[t] == Call(objects, chain, chain, Scanning([], objects, [], map[]))
      modifies this
      ensures Valid() && old(trace) <= trace && Outcome(r, t) && world.calls[t].objects == objects
      ensures asked == world.calls[t].asked && Extends(old(chain), asked) && Extends(asked, chain)
      ensures r.Ok? ==> Filtered(asked, objects, r.value)
      ensures r.Err? ==> !r.error.AlreadyLocked? && !r.error.InvalidTransaction? && Sound(chain, objects, r.error)
      ensures r.Err? && r.error.QueryFailed? ==> AsksIn(trace, t)
    {
      var error, found, query := ScanCache(objects, t);
      if error.Some? {
        r := Err(error.value);
      } else if query != map[] {
        r := Query(found, query, t);
      } else {
        r := Settle(found, t);
      }
      LedCall(origin, trace, world, t);
      asked := world.calls[t].asked;
    }

    /** The write check and the insertion, in one step. */
    method LockOwned(owned: seq<ObjectId>, ghost t: nat) returns (busy: Option<ObjectId>)
      requires Valid() && At(world, t) && world.calls[t].phase == Ready(owned)
      modifies this
      ensures Valid() && trace == old(trace) + [Lock(t)] && chain == old(chain) && At(world, t)
      ensures world.calls[t] == old(world.calls[t]).(phase := world.calls[t].phase)
      ensures match busy
              case None =>
                SetOf(owned) !! old(locked) && locked == old(locked) + SetOf(owned) && world.calls[t].phase == Holding(owned)
              case Some(id) =>
                id in old(locked) && id in owned && locked == old(locked) && world.calls[t].phase == Failed(AlreadyLocked(id))
    {
      LedChain(origin, trace, world);
      busy := FirstLocked(owned);
      if busy.None? { locked := locked + SetOf(owned); }
      Advance(Lock(t));
    }

    /** The read check, the filter during which anything may happen, then the write check and the
        insertion in one step. The set of locks it decides on is the one it finds at that step. */
    method TryAcquireLocks(tx: TransactionData)
      returns (r: Result<ObjectLockGuard, Error>, ghost t: nat, ghost before: set<ObjectId>, ghost asked: Chain)
      requires Valid()
      modifies this
      ensures Valid() && old(trace) <= trace && Extends(old(chain), asked) && Extends(asked, chain)
      ensures r.Err? ==> locked == before
      ensures r.Ok? ==>
        && r.value.manager == this && SetOf(r.value.lockedObjects) !! before
        && locked == before + SetOf(r.value.lockedObjects)
        && r.value.call == t && At(world, t) && world.calls[t].phase == Holding(r.value.lockedObjects)
        && tx.inputs.Some? && Filtered(asked, NonGas(tx.inputs.value, tx.payment), r.value.lockedObjects)
      ensures r.Err? && !r.error.InvalidTransaction? ==> At(world, t) && world.calls[t].phase == Failed(r.error)
      ensures r.Err? && r.error.InvalidTransaction? ==> tx.inputs.None? && world == old(world)
      ensures r.Err? && r.error.AlreadyLocked? ==>
        && (r.error.id in old(locked) || r.error.id in before)
        && tx.inputs.Some? && exists o :: o in NonGas(tx.inputs.value, tx.payment) && o.id == r.error.id
      ensures r.Err? && r.error.QueryFailed? ==> AsksIn(trace, t)
      ensures r.Err? && r.error.OutOfDate? ==>
        tx.inputs.Some? && Sound(chain, NonGas(tx.inputs.value, tx.payment), r.error)
    {
      before, asked, t := locked, chain, 0;
      ExtendsSelf(chain);
      var objects := ImmOrOwnedNonGasObjects(tx);
      if objects.Err? { return Err(objects.error), t, before, asked; }
      var busy;
      busy, t := Begin(objects.value);
      if busy.Some? { return Err(AlreadyLocked(busy.value)), t, before, asked; }
      var owned;
      owned, asked := FilterOwnedObjects(objects.value, t);
      before := locked;
      if owned.Err? { return Err(owned.error), t, before, asked; }
      r, before := Insert(owned.value, t, asked);
    }

    /** Another wait, for the write lock. */
    method Insert(owned: seq<ObjectId>, ghost t: nat, ghost asked: Chain) returns (r: Result<ObjectLockGuard, Error>, ghost before: set<ObjectId>)
      requires Valid() && At(world, t) && world.calls[t].phase == Ready(owned) && Extends(asked, chain)
      modifies this
      ensures Valid() && old(trace) <= trace && Extends(asked, chain) && At(world, t)
      ensures match r
              case Ok(guard) =>
                && guard.manager == this && guard.lockedObjects == owned && guard.call == t
                && SetOf(owned) !! before && locked == before + SetOf(owned) && world.calls[t].phase == Holding(owned)
              case Err(error) =>
                && error.AlreadyLocked? && error.id in owned && error.id in before && locked == before && world.calls[t].phase == Failed(error)
    {
      Others(t);
      ExtendsTrans(asked, old(chain), chain);
      before := locked;
      var busy := LockOwned(owned, t);
      if busy.Some? { return Err(AlreadyLocked(busy.value)), before; }
      var guard := new ObjectLockGuard(t, owned, this);
      r := Ok(guard);
    }

    method CacheInsert(id: ObjectId, seen: Seen)
      requires Valid() && TrueOf(chain, id, seen)
      modifies this
      ensures Valid() && trace == old(trace) + [Learn(id, seen)]
      ensures cache == old(cache)[id := seen] && chain == old(chain) && locked == old(locked)
    {
      LedChain(origin, trace, world);
      cache := cache[id := seen];
      Advance(Learn(id, seen));
    }

    /** Records the new versions of the mutated inputs, as long as the effects are true. */
    method UpdateCachePostExecution(tx: TransactionData, mutated: seq<(ObjectId, Owner, nat)>)
      requires Valid() && tx.inputs.Some?
      requires forall m :: m in mutated ==> TrueOf(chain, m.0, Seen(m.2, m.1.AddressOwner?))
      modifies this
      ensures Valid() && old(trace) <= trace && chain == old(chain) && locked == old(locked)
      ensures cache == Updated(old(cache), NonGas(tx.inputs.value, tx.payment), mutated)
      ensures DistinctMutated(mutated) ==> Refreshed(old(cache), cache, tx, mutated)
    {
      var inputs := NonGas(tx.inputs.value, tx.payment);
      for i := 0 to |mutated|
        invariant Valid() && old(trace) <= trace && chain == old(chain) && locked == old(locked)
        invariant cache == Updated(old(cache), inputs, mutated[..i])
      {
        assert mutated[..i + 1][..i] == mutated[..i];
        var (id, owner, version) := mutated[i];
        assert mutated[i] in mutated;
        if id in IdSet(inputs) { CacheInsert(id, Seen(version, owner.AddressOwner?)); }
      }
      assert mutated[..|mutated|] == mutated;
      if DistinctMutated(mutated) { UpdatedIsExact(old(cache), tx, mutated); }
    }
  }

  /** The call has asked the node. */
  ghost predicate AsksIn(trace: seq<Step>, t: nat)
  {
    exists fails :: Ask(t, fails) in trace
  }

  lemma RefIdsAre(objects: seq<Ref>)
    ensures forall id :: id in RefIds(objects) <==> exists o :: o in objects && o.id == id
    ensures forall o :: o in objects ==> o.id in RefIds(objects)
  {
    forall o | o in objects ensures o.id in RefIds(objects) {
      var i :| 0 <= i < |objects| && objects[i] == o;
      assert RefIds(objects)[i] == o.id;
    }
    forall id | id in RefIds(objects) ensures exists o :: o in objects && o.id == id {
      var i :| 0 <= i < |objects| && RefIds(objects)[i] == id;
      assert objects[i] in objects;
    }
  }

  lemma MapShrinks(m: map<ObjectId, nat>, id: ObjectId)
    requires id in m
    ensures |(m - {id}).Keys| < |m.Keys| && (m - {id}).Keys <= m.Keys
  {
    assert m.Keys == (m - {id}).Keys + {id};
  }

  lemma ExtendsSelf(chain: Chain)
    ensures Extends(chain, chain)
  {
  }
}
