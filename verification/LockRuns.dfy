/** Any number of lock calls on one server, interleaved at every cache lookup, answer and lock
    operation, with evictions, cache updates and chain progress in between. */
module LockRuns {
  import opened Wrappers
  import opened CoinText
  import opened ObjectLocks

  datatype Phase =
    | Scanning(done: seq<Ref>, todo: seq<Ref>, found: seq<ObjectId>, query: map<ObjectId, nat>)
    | Absorbing(answer: map<ObjectId, Seen>, found: seq<ObjectId>, query: map<ObjectId, nat>)
    | Ready(found: seq<ObjectId>)
    | Holding(found: seq<ObjectId>)
    | Failed(error: Error)
    | Dropped

  /** A call: its objects, the chain when it began, the chain when it asked (or, having nothing to ask,
      got through the filter), and how far it is. */
  datatype Call = Call(objects: seq<Ref>, start: Chain, asked: Chain, phase: Phase)

  datatype World = World(chain: Chain, cache: map<ObjectId, Seen>, locked: set<ObjectId>, calls: seq<Call>)

  datatype Step =
    | Begin(objects: seq<Ref>)
    | Scan(call: nat)
    | Ask(call: nat, fails: bool)
    | Absorb(call: nat, id: ObjectId)
    | Filter(call: nat)
    | Lock(call: nat)
    | Drop(call: nat)
    | Evict(ids: set<ObjectId>)
    | Learn(id: ObjectId, seen: Seen)
    | Advance(next: Chain)

  predicate At(w: World, t: nat) { t < |w.calls| }

  ghost predicate Enabled(w: World, step: Step)
  {
    match step
    case Begin(_) => true
    case Scan(t) => At(w, t) && w.calls[t].phase.Scanning? && w.calls[t].phase.todo != []
    case Ask(t, _) => At(w, t) && w.calls[t].phase.Scanning? && w.calls[t].phase.todo == [] && w.calls[t].phase.query != map[]
    case Absorb(t, id) => At(w, t) && w.calls[t].phase.Absorbing? && id in w.calls[t].phase.query && id in w.calls[t].phase.answer
    case Filter(t) =>
      && At(w, t) && (w.calls[t].phase.Scanning? || w.calls[t].phase.Absorbing?) && w.calls[t].phase.query == map[]
      && (w.calls[t].phase.Scanning? ==> w.calls[t].phase.todo == [])
    case Lock(t) => At(w, t) && w.calls[t].phase.Ready?
    case Drop(t) => At(w, t) && w.calls[t].phase.Holding?
    case Evict(_) => true
    case Learn(id, seen) => TrueOf(w.chain, id, seen)
    case Advance(next) => GoodChain(next) && Extends(w.chain, next)
  }

  function Goto(w: World, t: nat, phase: Phase): World
    requires At(w, t)
  {
    w.(calls := w.calls[t := w.calls[t].(phase := phase)])
  }

  /** The call asks, or is done with the filter: the chain it is judged by is the one now. */
  function AskNow(w: World, t: nat, phase: Phase): World
    requires At(w, t)
  {
    w.(calls := w.calls[t := w.calls[t].(asked := w.chain, phase := phase)])
  }

  function ScanOne(cache: map<ObjectId, Seen>, p: Phase): Phase
    requires p.Scanning? && p.todo != []
  {
    var Ref(id, version) := p.todo[0];
    var done, todo := p.done + [p.todo[0]], p.todo[1..];
    if id in cache && version < cache[id].version then Failed(OutOfDate(id, version, cache[id].version))
    else if id in cache && version == cache[id].version then
      Scanning(done, todo, if cache[id].owned then p.found + [id] else p.found, p.query)
    else Scanning(done, todo, p.found, p.query[id := version])
  }

  function AbsorbOne(p: Phase, id: ObjectId): Phase
    requires p.Absorbing? && id in p.query && id in p.answer
  {
    var seen := p.answer[id];
    if seen.version > p.query[id] then Failed(OutOfDate(id, p.query[id], seen.version))
    else Absorbing(p.answer, if seen.owned then p.found + [id] else p.found, p.query - {id})
  }

  /** The first of the ids that is locked. */
  function FirstBusy(ids: seq<ObjectId>, locked: set<ObjectId>): Option<ObjectId>
  {
    if ids == [] then None
    else if ids[0] in locked then Some(ids[0])
    else FirstBusy(ids[1..], locked)
  }

  lemma {:induction false} FirstBusyIsExact(ids: seq<ObjectId>, locked: set<ObjectId>)
    ensures FirstBusy(ids, locked).None? <==> SetOf(ids) !! locked
  {
    if ids != [] {
      assert ids == [ids[0]] + ids[1..];
      FirstBusyIsExact(ids[1..], locked);
      assert SetOf(ids) == {ids[0]} + SetOf(ids[1..]);
    }
  }

  function RefIds(objects: seq<Ref>): seq<ObjectId>
  {
    seq(|objects|, i requires 0 <= i < |objects| => objects[i].id)
  }

  function BeginPhase(locked: set<ObjectId>, objects: seq<Ref>): Phase
  {
    var busy := FirstBusy(RefIds(objects), locked);
    if busy.Some? then Failed(AlreadyLocked(busy.value)) else Scanning([], objects, [], map[])
  }

  function AskPhase(chain: Chain, p: Phase, fails: bool): Phase
    requires GoodChain(chain) && p.Scanning?
  {
    if fails || !(p.query.Keys <= chain.Keys) then Failed(QueryFailed)
    else Absorbing(map id | id in p.query :: LatestOf(chain, id), p.found, p.query)
  }

  /** The write check and the insertion. */
  function LockAll(w: World, t: nat): World
    requires At(w, t) && w.calls[t].phase.Ready?
  {
    var found := w.calls[t].phase.found;
    var busy := FirstBusy(found, w.locked);
    if busy.Some? then Goto(w, t, Failed(AlreadyLocked(busy.value)))
    else Goto(w, t, Holding(found)).(locked := w.locked + SetOf(found))
  }

  ghost function Apply(w: World, step: Step): World
    requires GoodChain(w.chain) && Enabled(w, step)
  {
    match step
    case Begin(objects) => w.(calls := w.calls + [Call(objects, w.chain, w.chain, BeginPhase(w.locked, objects))])
    case Scan(t) => Goto(w, t, ScanOne(w.cache, w.calls[t].phase))
    case Ask(t, fails) => AskNow(w, t, AskPhase(w.chain, w.calls[t].phase, fails))
    case Absorb(t, id) =>
      var p := w.calls[t].phase;
      var next := Goto(w, t, AbsorbOne(p, id));
      if p.answer[id].version > p.query[id] then next else next.(cache := w.cache[id := p.answer[id]])
    case Filter(t) =>
      var ready := Ready(w.calls[t].phase.found);
      if w.calls[t].phase.Scanning? then AskNow(w, t, ready) else Goto(w, t, ready)
    case Lock(t) => LockAll(w, t)
    case Drop(t) => Goto(w, t, Dropped).(locked := w.locked - SetOf(w.calls[t].phase.found))
    case Evict(ids) => w.(cache := w.cache - ids)
    case Learn(id, seen) => w.(cache := w.cache[id := seen])
    case Advance(next) => w.(chain := next)
  }

  predicate Init(w: World)
  {
    GoodChain(w.chain) && w.cache == map[] && w.locked == {} && w.calls == []
  }

  // ---------- What every step keeps ----------

  /** How many live guards hold an object. */
  function Guards(calls: seq<Call>, id: ObjectId): nat
  {
    if calls == [] then 0
    else Guards(calls[..|calls| - 1], id) + Guarding(calls[|calls| - 1].phase, id)
  }

  function Guarding(p: Phase, id: ObjectId): nat { if p.Holding? && id in p.found then 1 else 0 }

  lemma GuardsMore(calls: seq<Call>, call: Call, id: ObjectId)
    ensures Guards(calls + [call], id) == Guards(calls, id) + Guarding(call.phase, id)
  {
    assert (calls + [call])[..|calls|] == calls;
  }

  lemma {:induction false} GuardsUpdate(calls: seq<Call>, t: nat, call: Call, id: ObjectId)
    requires t < |calls|
    ensures Guards(calls[t := call], id) == Guards(calls, id) - Guarding(calls[t].phase, id) + Guarding(call.phase, id)
  {
    var n := |calls| - 1;
    if t == n {
      assert calls[t := call][..n] == calls[..n];
    } else {
      assert calls[t := call][..n] == calls[..n][t := call];
      GuardsUpdate(calls[..n], t, call, id);
    }
  }

  /** The locked set is the disjoint union of the live guards' objects. */
  ghost predicate Exclusive(w: World)
  {
    forall id {:trigger Guards(w.calls, id)} :: Guards(w.calls, id) == if id in w.locked then 1 else 0
  }

  ghost predicate CallOk(chain: Chain, c: Call)
  {
    && GoodChain(c.start) && GoodChain(c.asked) && Extends(c.start, c.asked) && Extends(c.asked, chain)
    && match c.phase
       case Scanning(done, todo, found, query) =>
         done + todo == c.objects && Sorted(chain, done, found, query) && Settled(chain, done, query)
       case Absorbing(answer, found, query) => Answers(c.asked, answer, query) && Sorted(c.asked, c.objects, found, query)
       case Ready(found) => Filtered(c.asked, c.objects, found)
       case Holding(found) => Filtered(c.asked, c.objects, found)
       case Failed(error) => Sound(chain, c.objects, error)
       case Dropped => true
  }

  /** The answer is what the chain that was asked had to say of what is still to be looked at. */
  ghost predicate Answers(asked: Chain, answer: map<ObjectId, Seen>, query: map<ObjectId, nat>)
    requires GoodChain(asked)
  {
    forall id {:trigger id in query} :: id in query ==> id in asked && id in answer && answer[id] == LatestOf(asked, id)
  }

  ghost predicate CallsOk(w: World)
  {
    forall t {:trigger w.calls[t]} :: 0 <= t < |w.calls| ==> CallOk(w.chain, w.calls[t])
  }

  ghost predicate Inv(w: World)
  {
    GoodChain(w.chain) && Truthful(w.chain, w.cache) && Exclusive(w) && CallsOk(w)
  }

  lemma MoveKeepsExclusive(w: World, t: nat, c: Call)
    requires Exclusive(w) && At(w, t) && !c.phase.Holding? && !w.calls[t].phase.Holding?
    ensures Exclusive(w.(calls := w.calls[t := c]))
  {
    var next := w.(calls := w.calls[t := c]);
    forall id ensures Guards(next.calls, id) == if id in w.locked then 1 else 0 {
      GuardsUpdate(w.calls, t, next.calls[t], id);
      assert Guards(w.calls, id) == if id in w.locked then 1 else 0;
    }
  }

  lemma LockKeepsExclusive(w: World, t: nat)
    requires Exclusive(w) && At(w, t) && w.calls[t].phase.Ready?
    ensures Exclusive(LockAll(w, t))
  {
    var found := w.calls[t].phase.found;
    var next := LockAll(w, t);
    FirstBusyIsExact(found, w.locked);
    forall id ensures Guards(next.calls, id) == if id in next.locked then 1 else 0 {
      GuardsUpdate(w.calls, t, next.calls[t], id);
      assert Guards(w.calls, id) == if id in w.locked then 1 else 0;
    }
  }

  lemma DropKeepsExclusive(w: World, t: nat)
    requires GoodChain(w.chain) && Exclusive(w) && Enabled(w, Drop(t))
    ensures Exclusive(Apply(w, Drop(t)))
  {
    var next := Apply(w, Drop(t));
    forall id ensures Guards(next.calls, id) == if id in next.locked then 1 else 0 {
      GuardsUpdate(w.calls, t, next.calls[t], id);
      assert Guards(w.calls, id) == if id in w.locked then 1 else 0;
    }
  }

  lemma BeginKeepsExclusive(w: World, objects: seq<Ref>)
    requires GoodChain(w.chain) && Exclusive(w)
    ensures Exclusive(Apply(w, Begin(objects)))
  {
    var next := Apply(w, Begin(objects));
    forall id ensures Guards(next.calls, id) == if id in w.locked then 1 else 0 {
      GuardsMore(w.calls, next.calls[|w.calls|], id);
      assert Guards(w.calls, id) == if id in w.locked then 1 else 0;
    }
  }

  lemma StepKeepsExclusive(w: World, step: Step)
    requires GoodChain(w.chain) && Exclusive(w) && Enabled(w, step)
    ensures Exclusive(Apply(w, step))
  {
    match step
    case Begin(objects) => BeginKeepsExclusive(w, objects);
    case Scan(t) => MoveKeepsExclusive(w, t, Apply(w, step).calls[t]);
    case Ask(t, fails) => MoveKeepsExclusive(w, t, Apply(w, step).calls[t]);
    case Absorb(t, id) =>
      MoveKeepsExclusive(w, t, Apply(w, step).calls[t]);
      assert Apply(w, step).calls == w.calls[t := Apply(w, step).calls[t]];
    case Filter(t) => MoveKeepsExclusive(w, t, Apply(w, step).calls[t]);
    case Lock(t) => LockKeepsExclusive(w, t);
    case Drop(t) => DropKeepsExclusive(w, t);
    case Evict(_) => assert Apply(w, step).calls == w.calls;
    case Learn(_, _) => assert Apply(w, step).calls == w.calls;
    case Advance(_) => assert Apply(w, step).calls == w.calls;
  }

  // ---------- The calls ----------

  lemma ScanKeepsCall(w: World, c: Call)
    requires GoodChain(w.chain) && Truthful(w.chain, w.cache) && CallOk(w.chain, c)
    requires c.phase.Scanning? && c.phase.todo != []
    ensures CallOk(w.chain, c.(phase := ScanOne(w.cache, c.phase)))
  {
    var Scanning(done, todo, found, query) := c.phase;
    var next := todo[0];
    assert done + [next] + todo[1..] == c.objects;
    assert c.objects[|done|] == next;
    if next.id !in w.cache || next.version > w.cache[next.id].version {
      SortOne(w.chain, done, found, query, next, false, false);
    } else if next.version == w.cache[next.id].version {
      SortOne(w.chain, done, found, query, next, true, w.cache[next.id].owned);
    }
  }

  lemma AskKeepsCall(w: World, c: Call, fails: bool)
    requires GoodChain(w.chain) && CallOk(w.chain, c) && c.phase.Scanning? && c.phase.todo == []
    ensures CallOk(w.chain, c.(asked := w.chain, phase := AskPhase(w.chain, c.phase, fails)))
  {
    assert c.phase.done == c.objects by { assert c.phase.done + [] == c.phase.done; }
    ExtendsTrans(c.start, c.asked, w.chain);
  }

  lemma AbsorbKeepsCall(w: World, c: Call, id: ObjectId)
    requires GoodChain(w.chain) && CallOk(w.chain, c) && c.phase.Absorbing? && id in c.phase.query && id in c.phase.answer
    ensures CallOk(w.chain, c.(phase := AbsorbOne(c.phase, id)))
  {
    var Absorbing(answer, found, query) := c.phase;
    if answer[id].version <= query[id] {
      SortAnswer(c.asked, c.objects, found, query, id);
    } else {
      assert Ref(id, query[id]) in c.objects;
      assert id in c.asked && id in w.chain;
    }
  }

  lemma FilterKeepsCall(w: World, c: Call)
    requires GoodChain(w.chain) && CallOk(w.chain, c) && (c.phase.Scanning? || c.phase.Absorbing?) && c.phase.query == map[]
    requires c.phase.Scanning? ==> c.phase.todo == []
    ensures CallOk(w.chain, c.(asked := if c.phase.Scanning? then w.chain else c.asked, phase := Ready(c.phase.found)))
  {
    if c.phase.Scanning? {
      assert c.phase.done == c.objects by { assert c.phase.done + [] == c.phase.done; }
      ExtendsTrans(c.start, c.asked, w.chain);
    }
  }

  lemma LockKeepsCall(w: World, t: nat)
    requires CallsOk(w) && At(w, t) && w.calls[t].phase.Ready?
    ensures CallOk(w.chain, LockAll(w, t).calls[t])
  {
    assert CallOk(w.chain, w.calls[t]);
  }

  lemma BeginKeepsCall(w: World, objects: seq<Ref>)
    requires GoodChain(w.chain)
    ensures CallOk(w.chain, Call(objects, w.chain, w.chain, BeginPhase(w.locked, objects)))
  {
    assert [] + objects == objects;
  }

  lemma ExtendsTrans(a: Chain, b: Chain, c: Chain)
    requires Extends(a, b) && Extends(b, c)
    ensures Extends(a, c)
  {
    forall id | id in a ensures id in c && a[id].latest <= c[id].latest && Prolongs(a[id].owned, c[id].owned) {
      assert id in b;
      forall v | v in a[id].owned ensures v in c[id].owned && c[id].owned[v] == a[id].owned[v] { assert v in b[id].owned; }
    }
  }

  lemma AdvanceKeepsCall(chain: Chain, next: Chain, c: Call)
    requires CallOk(chain, c) && Extends(chain, next)
    ensures CallOk(next, c)
  {
    ExtendsTrans(c.asked, chain, next);
    match c.phase
    case Scanning(done, todo, found, query) => SortLasts(chain, next, done, found, query);
    case Failed(error) => if error.OutOfDate? { assert error.id in chain; }
    case _ =>
  }

  /** The step moves this one call, which stays as it should be. */
  ghost predicate Moves(w: World, next: World, t: nat)
  {
    At(w, t) && At(next, t) && next.chain == w.chain && next.calls == w.calls[t := next.calls[t]] && CallOk(w.chain, next.calls[t])
  }

  lemma ScanMoves(w: World, t: nat)
    requires GoodChain(w.chain) && Truthful(w.chain, w.cache) && CallsOk(w) && Enabled(w, Scan(t))
    ensures Moves(w, Apply(w, Scan(t)), t)
  {
    ScanKeepsCall(w, w.calls[t]);
  }

  lemma AskMoves(w: World, t: nat, fails: bool)
    requires GoodChain(w.chain) && CallsOk(w) && Enabled(w, Ask(t, fails))
    ensures Moves(w, Apply(w, Ask(t, fails)), t)
  {
    AskKeepsCall(w, w.calls[t], fails);
  }

  lemma AbsorbMoves(w: World, t: nat, id: ObjectId)
    requires GoodChain(w.chain) && CallsOk(w) && Enabled(w, Absorb(t, id))
    ensures Moves(w, Apply(w, Absorb(t, id)), t)
  {
    AbsorbKeepsCall(w, w.calls[t], id);
  }

  lemma FilterMoves(w: World, t: nat)
    requires GoodChain(w.chain) && CallsOk(w) && Enabled(w, Filter(t))
    ensures Moves(w, Apply(w, Filter(t)), t)
  {
    FilterKeepsCall(w, w.calls[t]);
  }

  lemma LockMoves(w: World, t: nat)
    requires GoodChain(w.chain) && CallsOk(w) && Enabled(w, Lock(t))
    ensures Moves(w, Apply(w, Lock(t)), t)
  {
    LockKeepsCall(w, t);
  }

  lemma DropMoves(w: World, t: nat)
    requires GoodChain(w.chain) && CallsOk(w) && Enabled(w, Drop(t))
    ensures Moves(w, Apply(w, Drop(t)), t)
  {
    assert CallOk(w.chain, w.calls[t]);
  }

  lemma MovesKeepCalls(w: World, next: World, t: nat)
    requires CallsOk(w) && Moves(w, next, t)
    ensures CallsOk(next)
  {
    forall u | 0 <= u < |next.calls| ensures CallOk(next.chain, next.calls[u]) {
      if u != t { assert CallOk(w.chain, w.calls[u]); }
    }
  }

  lemma StepKeepsCalls(w: World, step: Step)
    requires GoodChain(w.chain) && Truthful(w.chain, w.cache) && CallsOk(w) && Enabled(w, step)
    ensures CallsOk(Apply(w, step))
  {
    match step
    case Begin(objects) => BeginKeepsCall(w, objects);
    case Scan(t) => ScanMoves(w, t); MovesKeepCalls(w, Apply(w, step), t);
    case Ask(t, fails) => AskMoves(w, t, fails); MovesKeepCalls(w, Apply(w, step), t);
    case Absorb(t, id) => AbsorbMoves(w, t, id); MovesKeepCalls(w, Apply(w, step), t);
    case Filter(t) => FilterMoves(w, t); MovesKeepCalls(w, Apply(w, step), t);
    case Lock(t) => LockMoves(w, t); MovesKeepCalls(w, Apply(w, step), t);
    case Drop(t) => DropMoves(w, t); MovesKeepCalls(w, Apply(w, step), t);
    case Evict(_) =>
    case Learn(_, _) =>
    case Advance(next) =>
      forall t | 0 <= t < |w.calls| ensures CallOk(next, w.calls[t]) { AdvanceKeepsCall(w.chain, next, w.calls[t]); }
  }

  lemma StepKeepsCache(w: World, step: Step)
    requires GoodChain(w.chain) && Truthful(w.chain, w.cache) && CallsOk(w) && Enabled(w, step)
    ensures GoodChain(Apply(w, step).chain) && Truthful(Apply(w, step).chain, Apply(w, step).cache)
  {
    match step
    case Absorb(t, id) =>
      assert CallOk(w.chain, w.calls[t]);
      assert id in w.calls[t].asked && w.calls[t].asked[id].latest in w.chain[id].owned;
    case Advance(next) => TruthLasts(w.chain, next, w.cache);
    case _ =>
  }

  // ---------- Runs ----------

  ghost predicate Runs(w: World, steps: seq<Step>)
    ensures Runs(w, steps) ==> Init(w)
    decreases steps, 0
  {
    if steps == [] then Init(w)
    else
      && Runs(w, steps[..|steps| - 1])
      && GoodChain(After(w, steps[..|steps| - 1]).chain)
      && Enabled(After(w, steps[..|steps| - 1]), steps[|steps| - 1])
  }

  ghost function After(w: World, steps: seq<Step>): World
    requires Runs(w, steps)
    decreases steps, 1
  {
    if steps == [] then w else Apply(After(w, steps[..|steps| - 1]), steps[|steps| - 1])
  }

  lemma {:induction false} RunsKeepInv(w: World, steps: seq<Step>)
    requires Runs(w, steps)
    ensures Inv(After(w, steps))
  {
    if steps != [] {
      var before := steps[..|steps| - 1];
      RunsKeepInv(w, before);
      StepKeepsExclusive(After(w, before), steps[|steps| - 1]);
      StepKeepsCalls(After(w, before), steps[|steps| - 1]);
      StepKeepsCache(After(w, before), steps[|steps| - 1]);
    }
  }

  // ---------- Main results ----------

  lemma {:induction false} GuardsAtLeast(calls: seq<Call>, t: nat, id: ObjectId)
    requires t < |calls|
    ensures Guards(calls, id) >= Guarding(calls[t].phase, id)
  {
    if t < |calls| - 1 { GuardsAtLeast(calls[..|calls| - 1], t, id); }
  }

  lemma {:induction false} GuardsOfTwo(calls: seq<Call>, t: nat, u: nat, id: ObjectId)
    requires t < u < |calls|
    ensures Guards(calls, id) >= Guarding(calls[t].phase, id) + Guarding(calls[u].phase, id)
  {
    var init := calls[..|calls| - 1];
    if u == |calls| - 1 { GuardsAtLeast(init, t, id); } else { GuardsOfTwo(init, t, u, id); }
  }

  lemma {:induction false} FindGuard(calls: seq<Call>, id: ObjectId) returns (t: nat)
    requires Guards(calls, id) > 0
    ensures t < |calls| && calls[t].phase.Holding? && id in calls[t].phase.found
  {
    t := |calls| - 1;
    if Guarding(calls[t].phase, id) == 0 { t := FindGuard(calls[..t], id); }
  }

  ghost predicate HeldBySome(w: World, id: ObjectId)
  {
    exists t :: 0 <= t < |w.calls| && w.calls[t].phase.Holding? && id in w.calls[t].phase.found
  }

  /** Mutual exclusion: in every run, an object is locked exactly when a live guard holds it, and no
      two live guards hold the same one. */
  lemma LocksAreTheLiveGuards(w: World, steps: seq<Step>)
    requires Runs(w, steps)
    ensures var after := After(w, steps);
            && (forall id :: id in after.locked <==> HeldBySome(after, id))
            && (forall t, u :: 0 <= t < u < |after.calls| && after.calls[t].phase.Holding? && after.calls[u].phase.Holding?
                  ==> SetOf(after.calls[t].phase.found) !! SetOf(after.calls[u].phase.found))
  {
    RunsKeepInv(w, steps);
    var after := After(w, steps);
    forall id ensures id in after.locked <==> HeldBySome(after, id) {
      assert Guards(after.calls, id) == if id in after.locked then 1 else 0;
      if id in after.locked { var t := FindGuard(after.calls, id); }
      if t :| 0 <= t < |after.calls| && after.calls[t].phase.Holding? && id in after.calls[t].phase.found {
        GuardsAtLeast(after.calls, t, id);
      }
    }
    forall t, u | 0 <= t < u < |after.calls| && after.calls[t].phase.Holding? && after.calls[u].phase.Holding?
      ensures SetOf(after.calls[t].phase.found) !! SetOf(after.calls[u].phase.found)
    {
      forall id | id in after.calls[t].phase.found ensures id !in after.calls[u].phase.found {
        assert Guards(after.calls, id) == if id in after.locked then 1 else 0;
        GuardsOfTwo(after.calls, t, u, id);
      }
    }
  }

  /** Whatever happened since the read check: the write check succeeds exactly when no live guard
      holds one of the objects, and a failed acquisition leaves the locked set as it is. */
  lemma LockingIsAtomic(w: World, steps: seq<Step>, t: nat)
    requires Runs(w, steps) && Enabled(After(w, steps), Lock(t))
    ensures GoodChain(After(w, steps).chain)
    ensures var before, after := After(w, steps), Apply(After(w, steps), Lock(t));
            var found := before.calls[t].phase.found;
            && (after.calls[t].phase.Holding? <==> forall id :: id in found ==> !HeldBySome(before, id))
            && after.locked == before.locked + if after.calls[t].phase.Holding? then SetOf(found) else {}
  {
    RunsKeepInv(w, steps);
    LocksAreTheLiveGuards(w, steps);
    FirstBusyIsExact(After(w, steps).calls[t].phase.found, After(w, steps).locked);
  }

  /** Dropping a guard frees exactly its own objects: those of every other live guard stay locked. */
  lemma DroppingFreesItsOwn(w: World, steps: seq<Step>, t: nat, u: nat)
    requires Runs(w, steps) && Enabled(After(w, steps), Drop(t))
    requires u != t && At(After(w, steps), u) && After(w, steps).calls[u].phase.Holding?
    ensures GoodChain(After(w, steps).chain)
    ensures var before, after := After(w, steps), Apply(After(w, steps), Drop(t));
            && SetOf(before.calls[u].phase.found) <= after.locked
            && after.locked == before.locked - SetOf(before.calls[t].phase.found)
            && SetOf(before.calls[t].phase.found) <= before.locked
  {
    RunsKeepInv(w, steps);
    LocksAreTheLiveGuards(w, steps);
    var before := After(w, steps);
    forall id | id in before.calls[t].phase.found ensures id in before.locked { assert HeldBySome(before, id); }
    forall id | id in before.calls[u].phase.found ensures id in before.locked { assert HeldBySome(before, id); }
    assert SetOf(before.calls[t].phase.found) !! SetOf(before.calls[u].phase.found);
  }

  /** In every run the cache is true of the chain, and a call rejected as out of date named a version
      that the chain has left behind. */
  lemma RejectionsAreSound(w: World, steps: seq<Step>, t: nat)
    requires Runs(w, steps) && At(After(w, steps), t)
    requires After(w, steps).calls[t].phase.Failed? && After(w, steps).calls[t].phase.error.OutOfDate?
    ensures var after := After(w, steps);
            var OutOfDate(id, provided, latest) := after.calls[t].phase.error;
            && Truthful(after.chain, after.cache)
            && Ref(id, provided) in after.calls[t].objects
            && id in after.chain && provided < latest <= after.chain[id].latest
  {
    RunsKeepInv(w, steps);
    assert CallOk(After(w, steps).chain, After(w, steps).calls[t]);
  }

  /** What a call that gets through the filter has found, whatever earlier runs and evictions left in
      the cache: exactly the inputs that the chain it asked judges to be owned. */
  lemma CallsAreJudged(w: World, steps: seq<Step>, t: nat)
    requires Runs(w, steps) && At(After(w, steps), t)
    requires After(w, steps).calls[t].phase.Ready? || After(w, steps).calls[t].phase.Holding?
    requires DistinctIds(After(w, steps).calls[t].objects)
    ensures var after := After(w, steps); var c := after.calls[t];
            && GoodChain(c.asked) && Extends(c.start, c.asked) && Extends(c.asked, after.chain)
            && Filtered(c.asked, c.objects, c.phase.found)
            && forall id :: id in c.phase.found <==> exists o :: o in c.objects && o.id == id && Judged(c.asked, o)
  {
    RunsKeepInv(w, steps);
    var after := After(w, steps);
    assert CallOk(after.chain, after.calls[t]);
  }

  /** In every run the answer is that of a direct lookup at the chain asked if and only if no input has
      a version this chain has never had while an address owns the object's latest version. */
  lemma CacheIsExactlyTransparent(w: World, steps: seq<Step>, t: nat)
    requires Runs(w, steps) && At(After(w, steps), t)
    requires After(w, steps).calls[t].phase.Ready? || After(w, steps).calls[t].phase.Holding?
    requires DistinctIds(After(w, steps).calls[t].objects)
    ensures var c := After(w, steps).calls[t];
            && GoodChain(c.asked) && (forall o :: o in c.objects ==> o.id in c.asked)
            && ((forall o :: o in c.objects ==> (o.id in c.phase.found <==> OwnedAt(c.asked, o.id, o.version)))
                <==> (forall o :: o in c.objects && !Exists(c.asked, o) ==> !LatestOf(c.asked, o.id).owned))
  {
    CallsAreJudged(w, steps, t);
    var c := After(w, steps).calls[t];
    FilterIsExact(c.asked, c.objects, c.phase.found);
  }

  /** Cache transparency: a call that gets through the filter, with distinct inputs whose versions
      existed when it began, has found exactly the inputs that a direct lookup says an address owns. */
  lemma CacheIsTransparent(w: World, steps: seq<Step>, t: nat)
    requires Runs(w, steps) && At(After(w, steps), t)
    requires After(w, steps).calls[t].phase.Ready? || After(w, steps).calls[t].phase.Holding?
    requires DistinctIds(After(w, steps).calls[t].objects)
    requires Backed(After(w, steps).calls[t].start, After(w, steps).calls[t].objects)
    ensures var after := After(w, steps);
            forall id :: id in after.calls[t].phase.found
              <==> exists o :: o in after.calls[t].objects && o.id == id && OwnedAt(after.chain, o.id, o.version)
  {
    CallsAreJudged(w, steps, t);
    var after := After(w, steps);
    var c := after.calls[t];
    forall o | o in c.objects ensures Judged(c.asked, o) <==> OwnedAt(after.chain, o.id, o.version) {
      assert o.version in c.start[o.id].owned;
      assert o.version in c.asked[o.id].owned;
    }
  }

  // ---------- What the cache answers is not asked for ----------

  predicate Cached(w: World, o: Ref) { o.id in w.cache && w.cache[o.id].version == o.version }

  /** Every input of this call was in the cache at its version when the call came to it. */
  ghost predicate AlwaysCached(w: World, steps: seq<Step>, t: nat)
    requires Runs(w, steps)
  {
    steps == [] ||
    var before := steps[..|steps| - 1];
    && AlwaysCached(w, before, t)
    && (steps[|steps| - 1] == Scan(t) ==> Cached(After(w, before), After(w, before).calls[t].phase.todo[0]))
  }

  predicate NotAsking(w: World, t: nat)
  {
    At(w, t) ==>
      match w.calls[t].phase
      case Scanning(_, _, _, query) => query == map[]
      case Absorbing(_, _, _) => false
      case Failed(error) => error.AlreadyLocked?
      case _ => true
  }

  lemma StepKeepsNotAsking(w: World, step: Step, t: nat)
    requires GoodChain(w.chain) && Enabled(w, step) && NotAsking(w, t)
    requires step == Scan(t) ==> Cached(w, w.calls[t].phase.todo[0])
    ensures NotAsking(Apply(w, step), t) && !(step.Ask? && step.call == t)
  {
  }

  /** A call whose inputs are all in the cache at their versions never asks the node, and can only fail
      because an object is locked, whatever else happens. */
  lemma {:induction false} CachedInputsAreNotAskedFor(w: World, steps: seq<Step>, t: nat)
    requires Runs(w, steps) && AlwaysCached(w, steps, t)
    ensures forall i :: 0 <= i < |steps| ==> !(steps[i].Ask? && steps[i].call == t)
    ensures NotAsking(After(w, steps), t)
  {
    if steps != [] {
      var n := |steps| - 1;
      CachedInputsAreNotAskedFor(w, steps[..n], t);
      StepKeepsNotAsking(After(w, steps[..n]), steps[n], t);
      forall i | 0 <= i < |steps| ensures !(steps[i].Ask? && steps[i].call == t) {
        if i < n { assert steps[..n][i] == steps[i]; }
      }
    }
  }

  /** The three outcomes of a lookup: an older input fails at once, one at the cached version is settled
      by the cache, and a newer or unknown one is to be asked for. */
  lemma ScanIsExact(w: World, t: nat)
    requires GoodChain(w.chain) && Enabled(w, Scan(t))
    ensures var before, after := w.calls[t].phase, Apply(w, Scan(t)).calls[t].phase;
            var o := before.todo[0];
            if o.id in w.cache && o.version < w.cache[o.id].version then after == Failed(OutOfDate(o.id, o.version, w.cache[o.id].version))
            else
              && after.Scanning? && after.todo == before.todo[1..] && after.done == before.done + [o]
              && after.query == (if Cached(w, o) then before.query else before.query[o.id := o.version])
              && after.found == (if Cached(w, o) && w.cache[o.id].owned then before.found + [o.id] else before.found)
  {
  }

  /** A rejected answer leaves the cache alone; any other is cached, and settles its input by its owner. */
  lemma AbsorbIsExact(w: World, t: nat, id: ObjectId)
    requires GoodChain(w.chain) && Enabled(w, Absorb(t, id))
    ensures var Absorbing(answer, found, query) := w.calls[t].phase;
            var next := Apply(w, Absorb(t, id));
            if answer[id].version > query[id] then
              next.calls[t].phase == Failed(OutOfDate(id, query[id], answer[id].version)) && next.cache == w.cache
            else
              && next.cache == w.cache[id := answer[id]] && next.calls[t].phase.Absorbing?
              && next.calls[t].phase.query.Keys == query.Keys - {id}
              && next.calls[t].phase.found == if answer[id].owned then found + [id] else found
  {
  }

  // ---------- An input ahead of the chain ----------

  ghost predicate Reaches(w: World, u: World)
  {
    exists steps {:trigger After(w, steps)} :: Runs(w, steps) && After(w, steps) == u
  }

  lemma ReachesNext(w: World, u: World, step: Step)
    requires Reaches(w, u) && GoodChain(u.chain) && Enabled(u, step)
    ensures Reaches(w, Apply(u, step))
  {
    var steps :| Runs(w, steps) && After(w, steps) == u;
    assert (steps + [step])[..|steps|] == steps;
    assert After(w, steps + [step]) == Apply(u, step);
  }

  /** The chain has an object at version 1, owned by an address. A transaction that names version 2 gets
      through the filter with the object found, although an address owns no version 2 of it. */
  lemma AheadOfTheChain(id: ObjectId) returns (w: World, u: World)
    ensures Init(w) && Reaches(w, u) && At(u, 0)
    ensures u.calls[0].objects == [Ref(id, 2)] && u.calls[0].phase == Ready([id]) && !OwnedAt(u.chain, id, 2)
  {
    var chain: Chain := map[id := Life(1, map[1 := true])];
    w := World(chain, map[], {}, []);
    assert After(w, []) == w;
    var asking := AskAhead(w, id);
    var answer: map<ObjectId, Seen> := map[id := Seen(1, true)];
    ReachesNext(w, asking, Absorb(0, id));
    u := Apply(asking, Absorb(0, id));
    assert map[id := 2 as nat] - {id} == map[];
    assert [] + [id] == [id];
    assert u.calls[0].phase == Absorbing(answer, [id], map[]);
    ReachesNext(w, u, Filter(0));
    u := Apply(u, Filter(0));
  }

  lemma AskAhead(w: World, id: ObjectId) returns (u: World)
    requires w == World(map[id := Life(1, map[1 := true])], map[], {}, []) && Reaches(w, w)
    ensures Reaches(w, u)
    ensures u == w.(calls := [Call([Ref(id, 2)], w.chain, w.chain, Absorbing(map[id := Seen(1, true)], [], map[id := 2]))])
  {
    var objects := [Ref(id, 2)];
    u := ScanAhead(w, id);
    assert id in u.calls[0].phase.query;
    ReachesNext(w, u, Ask(0, false));
    u := Apply(u, Ask(0, false));
    assert (map i | i in map[id := 2 as nat] :: LatestOf(w.chain, i)) == map[id := Seen(1, true)];
  }

  lemma ScanAhead(w: World, id: ObjectId) returns (u: World)
    requires w == World(map[id := Life(1, map[1 := true])], map[], {}, []) && Reaches(w, w)
    ensures Reaches(w, u)
    ensures u == w.(calls := [Call([Ref(id, 2)], w.chain, w.chain, Scanning([Ref(id, 2)], [], [], map[id := 2]))])
  {
    var objects := [Ref(id, 2)];
    ReachesNext(w, w, Begin(objects));
    u := Apply(w, Begin(objects));
    FirstBusyIsExact(RefIds(objects), {});
    ReachesNext(w, u, Scan(0));
    assert objects[1..] == [] && [] + [objects[0]] == objects;
    u := Apply(u, Scan(0));
  }
}
