/** The initializer with its split tasks running at the same time. Actor 0 is the initializer itself;
    every other actor is a spawned split task. Taking a coin, spawning a task, pushing its handle,
    splitting, finishing and awaiting are separate steps, taken by any actor in any order. */
module SplitRuns {
  import opened Wrappers
  import opened Splitter

  /** Splitting: the transaction is pending. Handing: going through coins with enqueue_task, perhaps
      holding the handle of a task that was spawned but not pushed. Done: returned, not awaited. */
  datatype Actor =
    | Splitting(coin: nat)
    | Handing(todo: seq<nat>, kept: seq<nat>, handle: Option<nat>)
    | Done(kept: seq<nat>)
    | Collected

  datatype State = State(
    actors: seq<Actor>,
    queue: seq<nat>,          // handles pushed and not popped
    awaited: Option<nat>,     // the handle the drain loop awaits
    result: seq<nat>,
    stopped: bool,
    spent: int,
    splits: nat)

  datatype Step =
    | Take(actor: nat)
    | Push(actor: nat)
    | Split(actor: nat, net: nat, children: seq<nat>)
    | Finish(actor: nat)
    | StartDrain
    | Pop
    | Collect
    | Stop

  function Start(coins: seq<nat>): State
  {
    State([Handing(coins, [], None)], [], None, [], false, 0, 0)
  }

  predicate Draining(s: State)
  {
    |s.actors| > 0 && s.actors[0].Collected? && s.awaited.None? && !s.stopped
  }

  ghost predicate Enabled(e: Env, s: State, step: Step)
  {
    match step
    case Take(i) => i < |s.actors| && s.actors[i].Handing? && s.actors[i].handle.None? && s.actors[i].todo != []
    case Push(i) => i < |s.actors| && s.actors[i].Handing? && s.actors[i].handle.Some?
    case Split(i, net, children) =>
      i < |s.actors| && s.actors[i].Splitting? && SplitInto(e, s.actors[i].coin, net, children)
    case Finish(i) =>
      0 < i < |s.actors| && s.actors[i].Handing? && s.actors[i].handle.None? && s.actors[i].todo == []
    case StartDrain =>
      |s.actors| > 0 && s.actors[0].Handing? && s.actors[0].handle.None? && s.actors[0].todo == []
    case Pop => Draining(s) && s.queue != []
    case Collect => s.awaited.Some? && s.awaited.value < |s.actors| && s.actors[s.awaited.value].Done?
    case Stop => Draining(s) && s.queue == []
  }

  function Goto(s: State, i: nat, a: Actor): State
    requires i < |s.actors|
  {
    s.(actors := s.actors[i := a])
  }

  function Taken(e: Env, s: State, i: nat): State
    requires i < |s.actors| && s.actors[i].Handing? && s.actors[i].todo != []
  {
    var a := s.actors[i];
    if a.todo[0] <= e.Threshold() then Goto(s, i, Handing(a.todo[1..], a.kept + [a.todo[0]], None))
    else Spawned(Goto(s, i, Handing(a.todo[1..], a.kept, Some(|s.actors|))), a.todo[0])
  }

  function Spawned(s: State, coin: nat): State
  {
    s.(actors := s.actors + [Splitting(coin)])
  }

  function Apply(e: Env, s: State, step: Step): State
    requires Enabled(e, s, step)
  {
    match step
    case Take(i) => Taken(e, s, i)
    case Push(i) =>
      Goto(s, i, s.actors[i].(handle := None)).(queue := s.queue + [s.actors[i].handle.value])
    case Split(i, net, children) =>
      Goto(s, i, Handing(children, [], None)).(spent := s.spent + net, splits := s.splits + 1)
    case Finish(i) => Goto(s, i, Done(s.actors[i].kept))
    case StartDrain => Goto(s, 0, Collected).(result := s.actors[0].kept)
    case Pop => s.(queue := s.queue[1..], awaited := Some(s.queue[0]))
    case Collect =>
      Goto(s, s.awaited.value, Collected).(awaited := None, result := s.result + s.actors[s.awaited.value].kept)
    case Stop => s.(stopped := true)
  }

  /** Whether the steps can be taken one after the other from the start. */
  ghost predicate Runs(e: Env, coins: seq<nat>, steps: seq<Step>)
    decreases steps, 0
  {
    steps == [] || (Runs(e, coins, steps[..|steps| - 1])
                    && Enabled(e, After(e, coins, steps[..|steps| - 1]), steps[|steps| - 1]))
  }

  ghost function After(e: Env, coins: seq<nat>, steps: seq<Step>): State
    requires Runs(e, coins, steps)
    decreases steps, 1
  {
    if steps == [] then Start(coins)
    else Apply(e, After(e, coins, steps[..|steps| - 1]), steps[|steps| - 1])
  }

  // ---------- Sums over actors ----------

  /** What is read off an actor: a measure of its coins, whether it holds the handle of a task, or how
      many coins of a balance it has that are not for splitting. */
  datatype Gauge = Metered(meter: Meter) | Holding(task: nat) | Copies(balance: nat)

  function Read(e: Env, g: Gauge, a: Actor): int
    requires e.Valid()
  {
    match g
    case Holding(task) => if a.Handing? && a.handle == Some(task) then 1 else 0
    case Metered(m) => Metering(e, m, a)
    case Copies(b) => CopiesOf(b, a)
  }

  function CopiesOf(b: nat, a: Actor): nat
  {
    match a
    case Splitting(_) => 0
    case Handing(todo, kept, _) => multiset(todo)[b] + multiset(kept)[b]
    case Done(kept) => multiset(kept)[b]
    case Collected => 0
  }

  function Metering(e: Env, m: Meter, a: Actor): int
    requires e.Valid()
  {
    match a
    case Splitting(coin) => Weight(e, m, coin) - (if m == Steps then 3 else 0)
    case Handing(todo, kept, handle) =>
      Weigh(e, m, todo) + (if m == Value then Weigh(e, m, kept) else 0)
      + if m == Steps then (if handle.Some? then 4 else 2) else 0
    case Done(kept) => if m == Value then Weigh(e, m, kept) else if m == Steps then 1 else 0
    case Collected => 0
  }

  function Sum(e: Env, g: Gauge, actors: seq<Actor>): int
    requires e.Valid()
  {
    if actors == [] then 0 else Sum(e, g, actors[..|actors| - 1]) + Read(e, g, actors[|actors| - 1])
  }

  lemma SumMore(e: Env, g: Gauge, actors: seq<Actor>, a: Actor)
    requires e.Valid()
    ensures Sum(e, g, actors + [a]) == Sum(e, g, actors) + Read(e, g, a)
  {
    assert (actors + [a])[..|actors|] == actors;
  }

  lemma {:induction false} SumUpdate(e: Env, g: Gauge, actors: seq<Actor>, i: nat, a: Actor)
    requires e.Valid() && i < |actors|
    ensures Sum(e, g, actors[i := a]) == Sum(e, g, actors) - Read(e, g, actors[i]) + Read(e, g, a)
  {
    var n := |actors| - 1;
    var updated := actors[i := a];
    if i == n {
      assert updated[..n] == actors[..n];
    } else {
      assert updated[..n] == actors[..n][i := a];
      SumUpdate(e, g, actors[..n], i, a);
    }
  }

  lemma {:induction false} SumFindsHolder(e: Env, actors: seq<Actor>, task: nat) returns (j: nat)
    requires e.Valid() && Sum(e, Holding(task), actors) > 0
    ensures j < |actors| && actors[j].Handing? && actors[j].handle == Some(task)
  {
    j := |actors| - 1;
    if Read(e, Holding(task), actors[j]) == 0 { j := SumFindsHolder(e, actors[..j], task); }
  }

  /** Steps that can still follow. */
  function Potential(e: Env, s: State): int
    requires e.Valid()
  {
    Sum(e, Metered(Steps), s.actors) + |s.queue| + if s.stopped then 0 else 1
  }

  // ---------- What every step keeps ----------

  predicate Meters(e: Env, coins: seq<nat>, s: State)
    requires e.Valid()
  {
    && s.spent >= 0
    && Sum(e, Metered(Value), s.actors) + Weigh(e, Value, s.result) == Total(coins) - s.spent
    && Sum(e, Metered(Splits), s.actors) + s.splits <= Total(coins) / e.target
  }

  function InQueue(queue: seq<nat>, task: nat): nat
  {
    if queue == [] then 0 else InQueue(queue[..|queue| - 1], task) + if queue[|queue| - 1] == task then 1 else 0
  }

  lemma PushQueue(queue: seq<nat>, h: nat, task: nat)
    ensures InQueue(queue + [h], task) == InQueue(queue, task) + if h == task then 1 else 0
  {
    assert (queue + [h])[..|queue|] == queue;
  }

  lemma {:induction false} PopQueue(queue: seq<nat>, task: nat)
    requires queue != []
    ensures InQueue(queue, task) == InQueue(queue[1..], task) + if queue[0] == task then 1 else 0
  {
    var n := |queue| - 1;
    if n > 0 {
      PopQueue(queue[..n], task);
      assert queue[..n][1..] == queue[1..][..n - 1];
    }
  }

  /** The places a handle is in: held by its spawner, queued, or awaited. */
  function Places(e: Env, s: State, task: nat): int
    requires e.Valid()
  {
    Sum(e, Holding(task), s.actors) + InQueue(s.queue, task) + if s.awaited == Some(task) then 1 else 0
  }

  predicate Alive(s: State, task: nat)
  {
    0 < task < |s.actors| && !s.actors[task].Collected?
  }

  /** The handle of a spawned task is in one place until the task is collected. */
  ghost predicate Owned(e: Env, s: State)
    requires e.Valid()
  {
    forall i: nat {:trigger Places(e, s, i)} :: Places(e, s, i) == if Alive(s, i) then 1 else 0
  }

  /** A spawner comes before the task whose handle it holds. */
  predicate Ordered(s: State)
  {
    forall j {:trigger s.actors[j]} :: 0 <= j < |s.actors| && s.actors[j].Handing? && s.actors[j].handle.Some?
      ==> j < s.actors[j].handle.value < |s.actors|
  }

  predicate Sane(e: Env, coins: seq<nat>, b: nat) { (b >= e.target || b in coins) && b <= Total(coins) }

  predicate AllSane(e: Env, coins: seq<nat>, balances: seq<nat>)
  {
    forall b {:trigger b in balances} :: b in balances ==> Sane(e, coins, b)
  }

  predicate AllSmall(e: Env, coins: seq<nat>, balances: seq<nat>)
  {
    forall b {:trigger b in balances} :: b in balances ==> Sane(e, coins, b) && b <= e.Threshold()
  }

  predicate SoundActor(e: Env, coins: seq<nat>, a: Actor)
  {
    match a
    case Splitting(coin) => coin > e.Threshold() && Sane(e, coins, coin)
    case Handing(todo, kept, _) => AllSane(e, coins, todo) && AllSmall(e, coins, kept)
    case Done(kept) => AllSmall(e, coins, kept)
    case Collected => true
  }

  predicate Sound(e: Env, coins: seq<nat>, s: State)
  {
    && (forall j {:trigger s.actors[j]} :: 0 <= j < |s.actors| ==> SoundActor(e, coins, s.actors[j]))
    && AllSmall(e, coins, s.result)
  }

  predicate AllCollected(s: State)
  {
    forall j {:trigger s.actors[j]} :: 0 <= j < |s.actors| ==> s.actors[j].Collected?
  }

  predicate Phased(s: State)
  {
    && |s.actors| > 0 && !s.actors[0].Splitting? && !s.actors[0].Done?
    && (!s.actors[0].Collected? ==> s.awaited.None? && !s.stopped && s.result == [])
    && (s.stopped ==> s.awaited.None? && s.queue == [] && AllCollected(s))
  }

  ghost predicate Inv(e: Env, coins: seq<nat>, s: State)
    requires e.Valid()
  {
    Meters(e, coins, s) && Owned(e, s) && Ordered(s) && Sound(e, coins, s) && Phased(s)
  }

  /** What taking a coin does to a measure. */
  lemma TakeReads(e: Env, m: Meter, s: State, i: nat)
    requires e.Valid() && Enabled(e, s, Take(i))
    ensures var before, after := Sum(e, Metered(m), s.actors), Sum(e, Metered(m), Taken(e, s, i).actors);
            after == before - if m == Value then 0
                              else if s.actors[i].todo[0] <= e.Threshold() then Weight(e, m, s.actors[i].todo[0])
                              else if m == Splits then 0 else 1
  {
    var a := s.actors[i];
    WeighFirst(e, m, a.todo);
    WeighLast(e, m, a.kept, a.todo[0]);
    if a.todo[0] <= e.Threshold() {
      SumUpdate(e, Metered(m), s.actors, i, Handing(a.todo[1..], a.kept + [a.todo[0]], None));
    } else {
      var b := Handing(a.todo[1..], a.kept, Some(|s.actors|));
      SumUpdate(e, Metered(m), s.actors, i, b);
      SumMore(e, Metered(m), s.actors[i := b], Splitting(a.todo[0]));
    }
  }

  lemma SplitReads(e: Env, s: State, i: nat, net: nat, children: seq<nat>)
    requires e.Valid() && Enabled(e, s, Split(i, net, children))
    ensures var after := Apply(e, s, Split(i, net, children)).actors;
            && Sum(e, Metered(Value), after) == Sum(e, Metered(Value), s.actors) - net
            && Sum(e, Metered(Splits), after) + 1 <= Sum(e, Metered(Splits), s.actors)
            && Sum(e, Metered(Steps), after) + 1 <= Sum(e, Metered(Steps), s.actors)
  {
    SplitIntoWeighs(e, s.actors[i].coin, net, children);
    SumUpdate(e, Metered(Value), s.actors, i, Handing(children, [], None));
    SumUpdate(e, Metered(Splits), s.actors, i, Handing(children, [], None));
    SumUpdate(e, Metered(Steps), s.actors, i, Handing(children, [], None));
  }

  lemma StepKeepsMeters(e: Env, coins: seq<nat>, s: State, step: Step)
    requires e.Valid() && Meters(e, coins, s) && Phased(s) && Enabled(e, s, step)
    ensures Meters(e, coins, Apply(e, s, step))
  {
    match step
    case Take(i) =>
      TakeReads(e, Value, s, i);
      TakeReads(e, Splits, s, i);
    case Push(i) => MoveMeters(e, s, i, s.actors[i].(handle := None));
    case Split(i, net, children) => SplitReads(e, s, i, net, children);
    case Finish(i) => MoveMeters(e, s, i, Done(s.actors[i].kept));
    case StartDrain => MoveMeters(e, s, 0, Collected);
    case Pop =>
    case Collect =>
      MoveMeters(e, s, s.awaited.value, Collected);
      WeighConcat(e, Value, s.result, s.actors[s.awaited.value].kept);
    case Stop =>
  }

  lemma MoveMeters(e: Env, s: State, i: nat, a: Actor)
    requires e.Valid() && i < |s.actors|
    ensures Sum(e, Metered(Value), s.actors[i := a])
            == Sum(e, Metered(Value), s.actors) - Read(e, Metered(Value), s.actors[i]) + Read(e, Metered(Value), a)
    ensures Sum(e, Metered(Splits), s.actors[i := a])
            == Sum(e, Metered(Splits), s.actors) - Read(e, Metered(Splits), s.actors[i]) + Read(e, Metered(Splits), a)
    ensures Sum(e, Metered(Steps), s.actors[i := a])
            == Sum(e, Metered(Steps), s.actors) - Read(e, Metered(Steps), s.actors[i]) + Read(e, Metered(Steps), a)
  {
    SumUpdate(e, Metered(Value), s.actors, i, a);
    SumUpdate(e, Metered(Splits), s.actors, i, a);
    SumUpdate(e, Metered(Steps), s.actors, i, a);
  }

  /** Every step uses up potential: no run goes on for ever. */
  lemma StepShrinks(e: Env, s: State, step: Step)
    requires e.Valid() && Enabled(e, s, step)
    ensures Potential(e, Apply(e, s, step)) < Potential(e, s)
  {
    match step
    case Take(i) => TakeReads(e, Steps, s, i); LightCoin(e, s.actors[i].todo[0]);
    case Push(i) => MoveMeters(e, s, i, s.actors[i].(handle := None));
    case Split(i, net, children) => SplitReads(e, s, i, net, children);
    case Finish(i) => MoveMeters(e, s, i, Done(s.actors[i].kept));
    case StartDrain => MoveMeters(e, s, 0, Collected); 
    case Pop =>
    case Collect => MoveMeters(e, s, s.awaited.value, Collected);
    case Stop =>
  }

  lemma LightCoin(e: Env, b: nat)
    requires e.Valid()
    ensures Weight(e, Steps, b) >= 1
  {
  }

  // ---------- Handles ----------

  /** The places of a handle after an actor moves on. */
  lemma MovePlaces(e: Env, s: State, i: nat, a: Actor, task: nat)
    requires e.Valid() && i < |s.actors|
    ensures Sum(e, Holding(task), Goto(s, i, a).actors)
            == Sum(e, Holding(task), s.actors) - Read(e, Holding(task), s.actors[i]) + Read(e, Holding(task), a)
  {
    SumUpdate(e, Holding(task), s.actors, i, a);
  }

  lemma StepKeepsPlaces(e: Env, s: State, step: Step, task: nat)
    requires e.Valid() && Phased(s) && Enabled(e, s, step)
    requires Places(e, s, task) == if Alive(s, task) then 1 else 0
    ensures Places(e, Apply(e, s, step), task) == if Alive(Apply(e, s, step), task) then 1 else 0
  {
    match step
    case Take(i) => TakeKeepsPlaces(e, s, i, task);
    case Push(i) => PushKeepsPlaces(e, s, i, task);
    case Split(i, net, children) => ActKeepsPlaces(e, s, i, Handing(children, [], None), task);
    case Finish(i) => ActKeepsPlaces(e, s, i, Done(s.actors[i].kept), task);
    case StartDrain => ActKeepsPlaces(e, s, 0, Collected, task);
    case Pop => PopQueue(s.queue, task);
    case Collect => CollectKeepsPlaces(e, s, task);
    case Stop =>
  }

  /** An actor that neither holds nor gets a handle moves on. */
  lemma ActKeepsPlaces(e: Env, s: State, i: nat, a: Actor, task: nat)
    requires e.Valid() && i < |s.actors| && !Holds(s.actors[i]) && !Holds(a)
    requires s.actors[i].Collected? == a.Collected? || i == 0
    ensures Sum(e, Holding(task), s.actors[i := a]) == Sum(e, Holding(task), s.actors)
    ensures Alive(Goto(s, i, a), task) == Alive(s, task)
  {
    MovePlaces(e, s, i, a, task);
  }

  predicate Holds(a: Actor) { a.Handing? && a.handle.Some? }

  lemma PushKeepsPlaces(e: Env, s: State, i: nat, task: nat)
    requires e.Valid() && Enabled(e, s, Push(i))
    ensures Places(e, Apply(e, s, Push(i)), task) == Places(e, s, task)
    ensures Alive(Apply(e, s, Push(i)), task) == Alive(s, task)
  {
    MovePlaces(e, s, i, s.actors[i].(handle := None), task);
    PushQueue(s.queue, s.actors[i].handle.value, task);
  }

  lemma TakeKeepsPlaces(e: Env, s: State, i: nat, task: nat)
    requires e.Valid() && Enabled(e, s, Take(i))
    requires Places(e, s, task) == if Alive(s, task) then 1 else 0
    ensures Places(e, Taken(e, s, i), task) == if Alive(Taken(e, s, i), task) then 1 else 0
  {
    var a := s.actors[i];
    if a.todo[0] <= e.Threshold() {
      MovePlaces(e, s, i, Handing(a.todo[1..], a.kept + [a.todo[0]], None), task);
    } else {
      var b := Handing(a.todo[1..], a.kept, Some(|s.actors|));
      MovePlaces(e, s, i, b, task);
      SumMore(e, Holding(task), s.actors[i := b], Splitting(a.todo[0]));
    }
  }

  lemma CollectKeepsPlaces(e: Env, s: State, task: nat)
    requires e.Valid() && Phased(s) && Enabled(e, s, Collect)
    requires Places(e, s, task) == if Alive(s, task) then 1 else 0
    ensures Places(e, Apply(e, s, Collect), task) == if Alive(Apply(e, s, Collect), task) then 1 else 0
  {
    MovePlaces(e, s, s.awaited.value, Collected, task);
    HeldIsNatural(e, s.actors, task);
  }

  lemma {:induction false} HeldIsNatural(e: Env, actors: seq<Actor>, task: nat)
    requires e.Valid()
    ensures Sum(e, Holding(task), actors) >= 0
  {
    if actors != [] { HeldIsNatural(e, actors[..|actors| - 1], task); }
  }

  lemma StepKeepsOwned(e: Env, s: State, step: Step)
    requires e.Valid() && Owned(e, s) && Phased(s) && Enabled(e, s, step)
    ensures Owned(e, Apply(e, s, step))
  {
    var t := Apply(e, s, step);
    forall i: nat ensures Places(e, t, i) == if Alive(t, i) then 1 else 0 {
      assert Places(e, s, i) == if Alive(s, i) then 1 else 0;
      StepKeepsPlaces(e, s, step, i);
    }
  }

  lemma StepKeepsOrder(e: Env, s: State, step: Step)
    requires Ordered(s) && Enabled(e, s, step)
    ensures Ordered(Apply(e, s, step))
  {
  }

  // ---------- Sizes and phases ----------

  lemma TakeKeepsSound(e: Env, coins: seq<nat>, s: State, i: nat)
    requires Sound(e, coins, s) && Enabled(e, s, Take(i))
    ensures Sound(e, coins, Taken(e, s, i))
  {
    var a := s.actors[i];
    assert SoundActor(e, coins, a);
    assert a.todo[0] in a.todo;
    assert forall b {:trigger b in a.todo[1..]} :: b in a.todo[1..] ==> b in a.todo;
    assert SoundActor(e, coins, Handing(a.todo[1..], a.kept, Some(|s.actors|)));
    if a.todo[0] <= e.Threshold() {
      assert SoundActor(e, coins, Handing(a.todo[1..], a.kept + [a.todo[0]], None));
    }
  }

  lemma SplitKeepsSound(e: Env, coins: seq<nat>, s: State, i: nat, net: nat, children: seq<nat>)
    requires e.Valid() && Sound(e, coins, s) && Enabled(e, s, Split(i, net, children))
    ensures Sound(e, coins, Apply(e, s, Split(i, net, children)))
  {
    assert SoundActor(e, coins, s.actors[i]);
    SplitIntoSizes(e, s.actors[i].coin, net, children);
  }

  lemma StepKeepsSound(e: Env, coins: seq<nat>, s: State, step: Step)
    requires e.Valid() && Sound(e, coins, s) && Enabled(e, s, step)
    ensures Sound(e, coins, Apply(e, s, step))
  {
    match step
    case Take(i) => TakeKeepsSound(e, coins, s, i);
    case Split(i, net, children) => SplitKeepsSound(e, coins, s, i, net, children);
    case Collect => assert SoundActor(e, coins, s.actors[s.awaited.value]);
    case Push(i) => assert SoundActor(e, coins, s.actors[i]);
    case Finish(i) => assert SoundActor(e, coins, s.actors[i]);
    case StartDrain => assert SoundActor(e, coins, s.actors[0]);
    case Pop =>
    case Stop =>
  }

  /** When the drain loop finds the queue empty, every task ever spawned has been collected: an
      uncollected one would be held by an earlier task, which is itself uncollected. */
  lemma {:induction false} UncollectedNeedsAnEarlierOne(e: Env, s: State, i: nat)
    requires e.Valid() && Owned(e, s) && Ordered(s) && Draining(s) && s.queue == [] && i < |s.actors|
    ensures s.actors[i].Collected?
    decreases i
  {
    if !s.actors[i].Collected? {
      assert Places(e, s, i) == 1;
      var j := SumFindsHolder(e, s.actors, i);
      UncollectedNeedsAnEarlierOne(e, s, j);
    }
  }

  lemma StepKeepsPhases(e: Env, s: State, step: Step)
    requires e.Valid() && Owned(e, s) && Ordered(s) && Phased(s) && Enabled(e, s, step)
    ensures Phased(Apply(e, s, step))
  {
    match step
    case Stop => forall i | 0 <= i < |s.actors| ensures s.actors[i].Collected? { UncollectedNeedsAnEarlierOne(e, s, i); }
    case Collect => CollectsASpawnedTask(e, s);
    case _ =>
  }

  lemma CollectsASpawnedTask(e: Env, s: State)
    requires e.Valid() && Owned(e, s) && s.awaited.Some?
    ensures Alive(s, s.awaited.value)
  {
    var i := s.awaited.value;
    assert Places(e, s, i) == if Alive(s, i) then 1 else 0;
    HeldIsNatural(e, s.actors, i);
  }

  lemma StepKeepsInv(e: Env, coins: seq<nat>, s: State, step: Step)
    requires e.Valid() && Inv(e, coins, s) && Enabled(e, s, step)
    ensures Inv(e, coins, Apply(e, s, step))
  {
    StepKeepsMeters(e, coins, s, step);
    StepKeepsOwned(e, s, step);
    StepKeepsOrder(e, s, step);
    StepKeepsSound(e, coins, s, step);
    StepKeepsPhases(e, s, step);
  }

  lemma {:induction false} MemberBelowTotal(balances: seq<nat>, b: nat)
    requires b in balances
    ensures b <= Total(balances)
  {
    var n := |balances| - 1;
    if b != balances[n] {
      assert balances == balances[..n] + [balances[n]];
      MemberBelowTotal(balances[..n], b);
    }
  }

  lemma StartHasInv(e: Env, coins: seq<nat>)
    requires e.Valid()
    ensures Inv(e, coins, Start(coins))
    ensures Potential(e, Start(coins)) == Weigh(e, Steps, coins) + 3
  {
    var s := Start(coins);
    forall g: Gauge ensures Sum(e, g, s.actors) == Read(e, g, s.actors[0]) { SumMore(e, g, [], s.actors[0]); assert [] + [s.actors[0]] == s.actors; }
    WeighValue(e, coins);
    SplitsBound(e, coins);
    forall b | b in coins ensures Sane(e, coins, b) { MemberBelowTotal(coins, b); }
    forall i: nat ensures Places(e, s, i) == 0 { }
  }

  lemma {:induction false} RunsKeepInv(e: Env, coins: seq<nat>, steps: seq<Step>)
    requires e.Valid() && Runs(e, coins, steps)
    ensures Inv(e, coins, After(e, coins, steps))
    ensures Potential(e, After(e, coins, steps)) + |steps| <= Weigh(e, Steps, coins) + 3
  {
    if steps == [] {
      StartHasInv(e, coins);
    } else {
      var before := steps[..|steps| - 1];
      RunsKeepInv(e, coins, before);
      StepKeepsInv(e, coins, After(e, coins, before), steps[|steps| - 1]);
      StepShrinks(e, After(e, coins, before), steps[|steps| - 1]);
    }
  }

  // ---------- What the steps of a run add up to ----------

  function SplitsIn(steps: seq<Step>): nat
  {
    if steps == [] then 0 else SplitsIn(steps[..|steps| - 1]) + if steps[|steps| - 1].Split? then 1 else 0
  }

  function NetIn(steps: seq<Step>): nat
  {
    if steps == [] then 0
    else NetIn(steps[..|steps| - 1]) + if steps[|steps| - 1].Split? then steps[|steps| - 1].net else 0
  }

  /** How many coins of a balance the splits have left. */
  function MadeIn(steps: seq<Step>, b: nat): nat
  {
    if steps == [] then 0 else MadeIn(steps[..|steps| - 1], b) + MadeBy(steps[|steps| - 1], b)
  }

  function MadeBy(step: Step, b: nat): nat { if step.Split? then multiset(step.children)[b] else 0 }

  function Copied(e: Env, s: State, b: nat): int
    requires e.Valid()
  {
    Sum(e, Copies(b), s.actors) + multiset(s.result)[b]
  }

  lemma FirstCopy(balances: seq<nat>, b: nat)
    requires balances != []
    ensures multiset(balances)[b] == multiset(balances[1..])[b] + if balances[0] == b then 1 else 0
  {
    assert balances == [balances[0]] + balances[1..];
  }

  lemma TakeKeepsCopies(e: Env, s: State, i: nat, b: nat)
    requires e.Valid() && Enabled(e, s, Take(i)) && b <= e.Threshold()
    ensures Copied(e, Taken(e, s, i), b) == Copied(e, s, b)
  {
    var a := s.actors[i];
    FirstCopy(a.todo, b);
    if a.todo[0] <= e.Threshold() {
      SumUpdate(e, Copies(b), s.actors, i, Handing(a.todo[1..], a.kept + [a.todo[0]], None));
    } else {
      var c := Handing(a.todo[1..], a.kept, Some(|s.actors|));
      SumUpdate(e, Copies(b), s.actors, i, c);
      SumMore(e, Copies(b), s.actors[i := c], Splitting(a.todo[0]));
    }
  }

  lemma StepKeepsCopies(e: Env, s: State, step: Step, b: nat)
    requires e.Valid() && Phased(s) && Enabled(e, s, step) && b <= e.Threshold()
    ensures Copied(e, Apply(e, s, step), b) == Copied(e, s, b) + MadeBy(step, b)
  {
    match step
    case Take(i) => TakeKeepsCopies(e, s, i, b);
    case Push(i) => SumUpdate(e, Copies(b), s.actors, i, s.actors[i].(handle := None));
    case Split(i, net, children) => SumUpdate(e, Copies(b), s.actors, i, Handing(children, [], None));
    case Finish(i) => SumUpdate(e, Copies(b), s.actors, i, Done(s.actors[i].kept));
    case StartDrain => SumUpdate(e, Copies(b), s.actors, 0, Collected);
    case Pop =>
    case Collect => SumUpdate(e, Copies(b), s.actors, s.awaited.value, Collected);
    case Stop =>
  }

  lemma {:induction false} NoCopiesOnceCollected(e: Env, b: nat, actors: seq<Actor>)
    requires e.Valid() && forall j {:trigger actors[j]} :: 0 <= j < |actors| ==> actors[j].Collected?
    ensures Sum(e, Copies(b), actors) == 0
  {
    if actors != [] { NoCopiesOnceCollected(e, b, actors[..|actors| - 1]); }
  }

  /** The counters are the sums over the steps, and no coin up to the threshold is lost or made twice. */
  lemma {:induction false} RunsAddUp(e: Env, coins: seq<nat>, steps: seq<Step>, b: nat)
    requires e.Valid() && Runs(e, coins, steps)
    ensures After(e, coins, steps).splits == SplitsIn(steps) && After(e, coins, steps).spent == NetIn(steps)
    ensures b <= e.Threshold() ==> Copied(e, After(e, coins, steps), b) == multiset(coins)[b] + MadeIn(steps, b)
  {
    if steps == [] {
      var actor := Handing(coins, [], None);
      SumMore(e, Copies(b), [], actor);
      assert [] + [actor] == [actor];
    } else {
      var n := |steps| - 1;
      RunsAddUp(e, coins, steps[..n], b);
      RunsKeepInv(e, coins, steps[..n]);
      if b <= e.Threshold() { StepKeepsCopies(e, After(e, coins, steps[..n]), steps[n], b); }
    }
  }

  // ---------- Main results ----------

  /** Drain completeness: in every run, when the drain loop finds the queue empty, every task ever
      spawned has been awaited and its coins collected. */
  lemma DrainIsComplete(e: Env, coins: seq<nat>, steps: seq<Step>)
    requires e.Valid() && Runs(e, coins, steps)
    requires var s := After(e, coins, steps); Draining(s) && s.queue == []
    ensures AllCollected(After(e, coins, steps))
  {
    RunsKeepInv(e, coins, steps);
    var s := After(e, coins, steps);
    forall i | 0 <= i < |s.actors| ensures s.actors[i].Collected? { UncollectedNeedsAnEarlierOne(e, s, i); }
  }

  lemma {:induction false} NothingOnceCollected(e: Env, m: Meter, actors: seq<Actor>)
    requires e.Valid() && forall j {:trigger actors[j]} :: 0 <= j < |actors| ==> actors[j].Collected?
    ensures Sum(e, Metered(m), actors) == 0
  {
    if actors != [] { NothingOnceCollected(e, m, actors[..|actors| - 1]); }
  }

  /** The initializer's result, whatever the schedule. Its balances are the initial total less the net
      usage of the splits that ran, of which there were at most total over target. Every coin is at
      most the threshold and, unless it was there at the start, at least the target; and the coins up
      to the threshold that were there or that a split left are in it, each as often as it was. */
  lemma FinishedSplitting(e: Env, coins: seq<nat>, steps: seq<Step>)
    requires e.Valid() && Runs(e, coins, steps) && After(e, coins, steps).stopped
    ensures var s := After(e, coins, steps);
            && s.spent == NetIn(steps) >= 0 && Total(s.result) <= Total(coins)
            && Total(s.result) == Total(coins) - NetIn(steps)
            && s.splits == SplitsIn(steps) <= Total(coins) / e.target
            && (forall b :: b in s.result ==> b <= e.Threshold() && (b >= e.target || b in coins))
            && (forall b: nat :: multiset(s.result)[b]
                            == if b <= e.Threshold() then multiset(coins)[b] + MadeIn(steps, b) else 0)
  {
    RunsKeepInv(e, coins, steps);
    RunsAddUp(e, coins, steps, 0);
    var s := After(e, coins, steps);
    NothingOnceCollected(e, Value, s.actors);
    NothingOnceCollected(e, Splits, s.actors);
    WeighValue(e, s.result);
    forall b | b in s.result ensures b <= e.Threshold() && (b >= e.target || b in coins) { }
    forall b: nat ensures multiset(s.result)[b] == if b <= e.Threshold() then multiset(coins)[b] + MadeIn(steps, b) else 0 {
      RunsAddUp(e, coins, steps, b);
      NoCopiesOnceCollected(e, b, s.actors);
      assert b in multiset(s.result) <==> b in s.result;
    }
  }

  /** Whatever the schedule, at every moment of it no more splits have run than total over target. */
  lemma SplitsAreFew(e: Env, coins: seq<nat>, steps: seq<Step>)
    requires e.Valid() && Runs(e, coins, steps)
    ensures SplitsIn(steps) <= Total(coins) / e.target
  {
    RunsKeepInv(e, coins, steps);
    RunsAddUp(e, coins, steps, 0);
    var s := After(e, coins, steps);
    SplitsAreNatural(e, s.actors);
  }

  lemma {:induction false} SplitsAreNatural(e: Env, actors: seq<Actor>)
    requires e.Valid()
    ensures Sum(e, Metered(Splits), actors) >= 0
  {
    if actors != [] { SplitsAreNatural(e, actors[..|actors| - 1]); }
  }

  // ---------- Progress ----------

  /** What an actor that is not done can do next. */
  ghost function NextOf(e: Env, s: State, i: nat): Step
    requires e.Valid() && i < |s.actors|
    requires s.actors[i].Splitting? ==> s.actors[i].coin > e.Threshold()
  {
    match s.actors[i]
    case Splitting(coin) => Split(i, 0, Children(e, coin, 0))
    case Handing(todo, _, handle) =>
      if handle.Some? then Push(i) else if todo != [] then Take(i) else if i == 0 then StartDrain else Finish(i)
    case _ => Stop
  }

  lemma NextIsEnabled(e: Env, coins: seq<nat>, s: State, i: nat)
    requires e.Valid() && Inv(e, coins, s) && i < |s.actors| && !s.actors[i].Done? && !s.actors[i].Collected?
    ensures s.actors[i].Splitting? ==> s.actors[i].coin > e.Threshold()
    ensures Enabled(e, s, NextOf(e, s, i))
  {
    assert SoundActor(e, coins, s.actors[i]);
    if s.actors[i].Splitting? { SplitIntoIs(e, s.actors[i].coin, 0, Children(e, s.actors[i].coin, 0)); }
  }

  /** Until it stops, something can always happen. */
  lemma SomeStepIsEnabled(e: Env, coins: seq<nat>, s: State) returns (step: Step)
    requires e.Valid() && Inv(e, coins, s) && !s.stopped
    ensures Enabled(e, s, step)
  {
    if i: nat :| i < |s.actors| && !s.actors[i].Done? && !s.actors[i].Collected? {
      NextIsEnabled(e, coins, s, i);
      step := NextOf(e, s, i);
    } else if s.awaited.Some? {
      CollectsASpawnedTask(e, s);
      step := Collect;
    } else {
      step := if s.queue == [] then Stop else Pop;
    }
  }

  /** Splitting terminates on every schedule: a run has at most this many steps, and it is stuck only
      once the initializer has stopped. */
  lemma SplittingTerminates(e: Env, coins: seq<nat>, steps: seq<Step>)
    requires e.Valid() && Runs(e, coins, steps)
    ensures |steps| <= 7 * (Total(coins) / e.target) + |coins| + 3
    ensures (exists step :: Enabled(e, After(e, coins, steps), step)) <==> !After(e, coins, steps).stopped
  {
    RunsKeepInv(e, coins, steps);
    StepsBound(e, coins);
    var s := After(e, coins, steps);
    PotentialIsNatural(e, coins, s);
    if !s.stopped {
      var step := SomeStepIsEnabled(e, coins, s);
    } else if step :| Enabled(e, s, step) {
      StoppedIsFinal(e, s, step);
    }
  }

  lemma StoppedIsFinal(e: Env, s: State, step: Step)
    requires s.stopped && Phased(s)
    ensures !Enabled(e, s, step)
  {
  }

  lemma PotentialIsNatural(e: Env, coins: seq<nat>, s: State)
    requires e.Valid() && Sound(e, coins, s)
    ensures Potential(e, s) >= 0
  {
    forall i | 0 <= i < |s.actors| && s.actors[i].Splitting? ensures Weight(e, Steps, s.actors[i].coin) >= 3 {
      assert SoundActor(e, coins, s.actors[i]);
      HeavyCoin(e, s.actors[i].coin);
    }
    StepsAreNatural(e, s.actors);
  }

  lemma HeavyCoin(e: Env, b: nat)
    requires e.Valid() && b > e.Threshold()
    ensures Weight(e, Steps, b) >= 3
  {
    QuotientBounds(b, e.target);
    var q := Whole(b, e.target);
    if q < 2 {
      MulMono(e.target, q + 1, 2);
      assert false;
    }
  }

  lemma {:induction false} StepsAreNatural(e: Env, actors: seq<Actor>)
    requires e.Valid()
    requires forall i {:trigger actors[i]} :: 0 <= i < |actors| && actors[i].Splitting? ==> Weight(e, Steps, actors[i].coin) >= 3
    ensures Sum(e, Metered(Steps), actors) >= 0
  {
    if actors != [] { StepsAreNatural(e, actors[..|actors| - 1]); }
  }

  lemma {:induction false} StepsBound(e: Env, balances: seq<nat>)
    requires e.Valid()
    ensures Weigh(e, Steps, balances) <= 7 * (Total(balances) / e.target) + |balances|
  {
    StepsByWholes(e, balances);
    WholesBound(balances, e.target);
    QuotientBounds(Total(balances), e.target);
    var n, q := Wholes(balances, e.target), Total(balances) / e.target;
    if n > q {
      MulMono(e.target, q + 1, n);
      assert false;
    }
  }

  lemma {:induction false} StepsByWholes(e: Env, balances: seq<nat>)
    requires e.Valid()
    ensures Weigh(e, Steps, balances) <= 7 * Wholes(balances, e.target) + |balances|
  {
    if balances != [] { StepsByWholes(e, balances[..|balances| - 1]); }
  }

  /** When the initial total fits in i64, no split in any run wraps. */
  lemma NoSplitWraps(e: Env, coins: seq<nat>, steps: seq<Step>, i: nat, net: int)
    requires e.Valid() && Runs(e, coins, steps) && Total(coins) < I64
    requires var s := After(e, coins, steps); i < |s.actors| && s.actors[i].Splitting?
    requires e.Threshold() < After(e, coins, steps).actors[i].coin ==>
               0 <= net <= e.Budget(After(e, coins, steps).actors[i].coin)
    ensures var b := After(e, coins, steps).actors[i].coin;
            && e.Threshold() < b && 0 <= e.Budget(b) <= b && e.SplitCount(b) > 0
            && 0 <= e.NewCoinBalance(b) * (e.SplitCount(b) - 1) <= b
            && 0 < e.RemainingBalance(b, net) < I64
  {
    RunsKeepInv(e, coins, steps);
    var s := After(e, coins, steps);
    assert SoundActor(e, coins, s.actors[i]);
    SplitBounds(e, s.actors[i].coin);
    RemainingBounds(e, s.actors[i].coin, net);
  }
}
