/** The object lock manager: which inputs of a transaction must be locked, the cache that answers it,
    and the locks themselves. LockRuns covers the schedules in which calls interleave. */
module ObjectLocks {
  import opened Wrappers
  import opened CoinText

  // ---------- The chain, as far as ownership goes ----------

  /** An object's latest version, and for every version it has had whether an address owned it then. */
  datatype Life = Life(latest: nat, owned: map<nat, bool>)
  {
    predicate Valid() { latest in owned && forall v {:trigger v in owned} :: v in owned ==> v <= latest }
  }

  type Chain = map<ObjectId, Life>

  predicate GoodChain(chain: Chain) { forall id {:trigger id in chain} :: id in chain ==> chain[id].Valid() }

  /** Objects keep their past; versions only grow. */
  predicate Extends(chain: Chain, next: Chain)
  {
    forall id {:trigger id in next} {:trigger id in chain} :: id in chain ==>
      id in next && chain[id].latest <= next[id].latest && Prolongs(chain[id].owned, next[id].owned)
  }

  predicate Prolongs(owned: map<nat, bool>, next: map<nat, bool>)
  {
    forall v {:trigger v in next} {:trigger v in owned} :: v in owned ==> v in next && next[v] == owned[v]
  }

  /** What the cache keeps of an object. */
  datatype Seen = Seen(version: nat, owned: bool)

  predicate TrueOf(chain: Chain, id: ObjectId, seen: Seen)
  {
    id in chain && seen.version in chain[id].owned && chain[id].owned[seen.version] == seen.owned
  }

  predicate Truthful(chain: Chain, cache: map<ObjectId, Seen>)
  {
    forall id {:trigger id in cache} :: id in cache ==> TrueOf(chain, id, cache[id])
  }

  predicate OwnedAt(chain: Chain, id: ObjectId, version: nat)
  {
    TrueOf(chain, id, Seen(version, true))
  }

  function LatestOf(chain: Chain, id: ObjectId): Seen
    requires GoodChain(chain) && id in chain
  {
    Seen(chain[id].latest, chain[id].owned[chain[id].latest])
  }

  lemma TruthLasts(chain: Chain, next: Chain, cache: map<ObjectId, Seen>)
    requires Truthful(chain, cache) && Extends(chain, next)
    ensures Truthful(next, cache)
  {
    forall id | id in cache ensures TrueOf(next, id, cache[id]) { assert id in chain; }
  }

  // ---------- Transactions ----------

  datatype Owner = AddressOwner | ObjectOwner | Shared | Immutable

  datatype Input = ImmOrOwnedMoveObject(id: ObjectId, version: nat) | SharedMoveObject(id: ObjectId) | MovePackage(id: ObjectId)

  /** Inputs are None when the transaction's inputs cannot be computed. */
  datatype TransactionData = TransactionData(inputs: Option<seq<Input>>, payment: seq<ObjectId>)

  datatype Ref = Ref(id: ObjectId, version: nat)

  datatype Error =
    | InvalidTransaction
    | AlreadyLocked(id: ObjectId)
    | OutOfDate(id: ObjectId, provided: nat, latest: nat)
    | QueryFailed

  function NonGas(inputs: seq<Input>, payment: seq<ObjectId>): seq<Ref>
  {
    if inputs == [] then []
    else
      var rest := NonGas(inputs[..|inputs| - 1], payment);
      var last := inputs[|inputs| - 1];
      if last.ImmOrOwnedMoveObject? && last.id !in payment then rest + [Ref(last.id, last.version)] else rest
  }

  function ImmOrOwnedNonGasObjects(tx: TransactionData): Result<seq<Ref>, Error>
  {
    if tx.inputs.None? then Err(InvalidTransaction) else Ok(NonGas(tx.inputs.value, tx.payment))
  }

  /** The objects to lock are the owned or immutable inputs that do not pay for gas. */
  lemma {:induction false} NonGasIsExact(inputs: seq<Input>, payment: seq<ObjectId>)
    ensures forall o :: o in NonGas(inputs, payment)
              <==> ImmOrOwnedMoveObject(o.id, o.version) in inputs && o.id !in payment
  {
    if inputs != [] {
      var init := inputs[..|inputs| - 1];
      NonGasIsExact(init, payment);
      assert inputs == init + [inputs[|inputs| - 1]];
    }
  }

  predicate DistinctIds(objects: seq<Ref>)
  {
    forall i, j {:trigger objects[i], objects[j]} :: 0 <= i < j < |objects| ==> objects[i].id != objects[j].id
  }

  /** The versions exist: every input is at a version the chain has had. */
  predicate Backed(chain: Chain, objects: seq<Ref>)
  {
    forall o {:trigger o in objects} :: o in objects ==> o.id in chain && o.version in chain[o.id].owned
  }

  predicate Sound(chain: Chain, objects: seq<Ref>, error: Error)
  {
    error.OutOfDate? ==>
      && Ref(error.id, error.provided) in objects && error.id in chain
      && error.provided < error.latest <= chain[error.id].latest
  }

  // ---------- The locks ----------

  function SetOf(ids: seq<ObjectId>): set<ObjectId> { set id | id in ids }

  // ---------- After an execution ----------

  function IdSet(objects: seq<Ref>): set<ObjectId> { set o | o in objects :: o.id }

  function Updated(cache: map<ObjectId, Seen>, inputs: seq<Ref>, mutated: seq<(ObjectId, Owner, nat)>): map<ObjectId, Seen>
  {
    if mutated == [] then cache
    else
      var m := mutated[|mutated| - 1];
      var rest := Updated(cache, inputs, mutated[..|mutated| - 1]);
      if m.0 in IdSet(inputs) then rest[m.0 := Seen(m.2, m.1.AddressOwner?)] else rest
  }

  // ---------- What the filter answers ----------

  /** How a successful call judges an input, by the chain it asked: by the owner at the input's version,
      and when the chain has never had that version, by the latest owner. */
  predicate Judged(chain: Chain, o: Ref)
  {
    && o.id in chain
    && if o.version in chain[o.id].owned then chain[o.id].owned[o.version]
       else chain[o.id].latest in chain[o.id].owned && chain[o.id].owned[chain[o.id].latest]
  }

  predicate Exists(chain: Chain, o: Ref) { o.id in chain && o.version in chain[o.id].owned }

  /** Each input is judged, or else to be asked for; nothing else is. */
  ghost predicate Sorted(chain: Chain, objects: seq<Ref>, found: seq<ObjectId>, query: map<ObjectId, nat>)
  {
    && (forall id {:trigger id in query} :: id in query ==> Ref(id, query[id]) in objects)
    && (forall id {:trigger id in found} :: id in found ==> exists o :: o in objects && o.id == id)
    && (DistinctIds(objects) ==> forall o {:trigger o in objects} :: o in objects ==>
          if o.id in query then o.id !in found else o.id in chain && Judged(chain, o) == (o.id in found))
  }

  /** What the cache settles has a version that exists. */
  ghost predicate Settled(chain: Chain, objects: seq<Ref>, query: map<ObjectId, nat>)
  {
    DistinctIds(objects) ==> forall o {:trigger o in objects} :: o in objects && o.id !in query ==> Exists(chain, o)
  }

  /** The answer of the filter: exactly the inputs judged to be owned. */
  ghost predicate Filtered(chain: Chain, objects: seq<Ref>, found: seq<ObjectId>)
  {
    && (forall id {:trigger id in found} :: id in found ==> exists o :: o in objects && o.id == id)
    && (DistinctIds(objects) ==> forall o {:trigger o in objects} :: o in objects ==>
          o.id in chain && Judged(chain, o) == (o.id in found))
  }

  /** Exactly when the answer is that of a direct lookup at the inputs' versions: when no input has a
      version the chain has never had while an address owns the object's latest version. */
  lemma FilterIsExact(chain: Chain, objects: seq<Ref>, found: seq<ObjectId>)
    requires GoodChain(chain) && DistinctIds(objects) && Filtered(chain, objects, found)
    ensures (forall o :: o in objects ==> (o.id in found <==> OwnedAt(chain, o.id, o.version)))
            <==> (forall o :: o in objects && !Exists(chain, o) ==> !LatestOf(chain, o.id).owned)
  {
    forall o | o in objects
      ensures o.id in chain && ((o.id in found <==> OwnedAt(chain, o.id, o.version)) <==> (Exists(chain, o) || !LatestOf(chain, o.id).owned))
    {
    }
  }

  lemma SortOne(chain: Chain, objects: seq<Ref>, found: seq<ObjectId>, query: map<ObjectId, nat>, next: Ref,
                hit: bool, owned: bool)
    requires Sorted(chain, objects, found, query) && Settled(chain, objects, query)
    requires hit ==> TrueOf(chain, next.id, Seen(next.version, owned))
    ensures Sorted(chain, objects + [next], if hit && owned then found + [next.id] else found,
                   if hit then query else query[next.id := next.version])
    ensures Settled(chain, objects + [next], if hit then query else query[next.id := next.version])
  {
    var more := objects + [next];
    if DistinctIds(more) {
      forall o | o in objects ensures o in more && o.id != next.id {
        var i :| 0 <= i < |objects| && objects[i] == o;
        assert more[i].id != more[|objects|].id;
      }
      assert DistinctIds(objects) by {
        forall i, j | 0 <= i < j < |objects| ensures objects[i].id != objects[j].id { assert more[i].id != more[j].id; }
      }
    }
  }

  /** The latest owner judges an input that is not older. */
  lemma SortAnswer(chain: Chain, objects: seq<Ref>, found: seq<ObjectId>, pending: map<ObjectId, nat>, id: ObjectId)
    requires GoodChain(chain) && Sorted(chain, objects, found, pending)
    requires id in pending && id in chain && LatestOf(chain, id).version <= pending[id]
    ensures Sorted(chain, objects, if LatestOf(chain, id).owned then found + [id] else found, pending - {id})
  {
    if DistinctIds(objects) {
      forall o | o in objects && o.id == id ensures o.version == pending[id] {
        var i :| 0 <= i < |objects| && objects[i] == o;
        var j :| 0 <= j < |objects| && objects[j] == Ref(id, pending[id]);
        assert objects[i].id == objects[j].id;
      }
    }
  }

  /** While only the cache has settled inputs, the chain may move on. */
  lemma SortLasts(chain: Chain, next: Chain, objects: seq<Ref>, found: seq<ObjectId>, query: map<ObjectId, nat>)
    requires Sorted(chain, objects, found, query) && Settled(chain, objects, query) && Extends(chain, next)
    ensures Sorted(next, objects, found, query) && Settled(next, objects, query)
  {
    if DistinctIds(objects) {
      forall o | o in objects && o.id !in query ensures Exists(next, o) && Judged(next, o) == (o.id in found) {
        assert Exists(chain, o);
      }
    }
  }

  /** The transaction has this object as an owned or immutable input that does not pay for gas. */
  ghost predicate Names(tx: TransactionData, id: ObjectId)
  {
    tx.inputs.Some? && (exists v :: ImmOrOwnedMoveObject(id, v) in tx.inputs.value) && id !in tx.payment
  }

  lemma IdSetNames(tx: TransactionData)
    requires tx.inputs.Some?
    ensures forall id :: id in IdSet(NonGas(tx.inputs.value, tx.payment)) <==> Names(tx, id)
  {
    NonGasIsExact(tx.inputs.value, tx.payment);
    var inputs := NonGas(tx.inputs.value, tx.payment);
    forall id ensures id in IdSet(inputs) <==> Names(tx, id) {
      if v :| ImmOrOwnedMoveObject(id, v) in tx.inputs.value && id !in tx.payment { assert Ref(id, v) in inputs; }
      if id in IdSet(inputs) {
        var o :| o in inputs && o.id == id;
        assert ImmOrOwnedMoveObject(o.id, o.version) in tx.inputs.value;
      }
    }
  }

  /** Every mutated object that the transaction names is cached at its new version and owner; every
      other entry is as it was. */
  ghost predicate Refreshed(before: map<ObjectId, Seen>, after: map<ObjectId, Seen>, tx: TransactionData,
                            mutated: seq<(ObjectId, Owner, nat)>)
  {
    && (forall m {:trigger m in mutated} :: m in mutated && Names(tx, m.0) ==>
          m.0 in after && after[m.0] == Seen(m.2, m.1.AddressOwner?))
    && (forall id {:trigger Names(tx, id)} :: !Names(tx, id) || (forall m :: m in mutated ==> m.0 != id) ==>
          (id in after <==> id in before) && (id in before ==> after[id] == before[id]))
  }

  predicate DistinctMutated(mutated: seq<(ObjectId, Owner, nat)>)
  {
    forall i, j {:trigger mutated[i], mutated[j]} :: 0 <= i < j < |mutated| ==> mutated[i].0 != mutated[j].0
  }

  lemma UpdatedIsExact(cache: map<ObjectId, Seen>, tx: TransactionData, mutated: seq<(ObjectId, Owner, nat)>)
    requires tx.inputs.Some? && DistinctMutated(mutated)
    ensures Refreshed(cache, Updated(cache, NonGas(tx.inputs.value, tx.payment), mutated), tx, mutated)
  {
    IdSetNames(tx);
    UpdatedById(cache, NonGas(tx.inputs.value, tx.payment), mutated);
  }

  lemma {:induction false} UpdatedById(cache: map<ObjectId, Seen>, inputs: seq<Ref>, mutated: seq<(ObjectId, Owner, nat)>)
    requires DistinctMutated(mutated)
    ensures forall m :: m in mutated && m.0 in IdSet(inputs) ==>
              m.0 in Updated(cache, inputs, mutated)
              && Updated(cache, inputs, mutated)[m.0] == Seen(m.2, m.1.AddressOwner?)
    ensures forall id :: (id !in IdSet(inputs) || forall m :: m in mutated ==> m.0 != id) ==>
              (id in Updated(cache, inputs, mutated) <==> id in cache)
              && (id in cache ==> Updated(cache, inputs, mutated)[id] == cache[id])
  {
    if mutated != [] {
      var init, last := mutated[..|mutated| - 1], mutated[|mutated| - 1];
      UpdatedById(cache, inputs, init);
      assert mutated == init + [last];
    }
  }
}
