/** The load-completion barrier of the launcher: `loadModels` requests
    every model of the model table; each completion callback records the
    model's scene, increments `numLoadedModels`, and runs `setupScene` when
    the counter equals the length of the model table. */
module LoadBarrier {
  import opened SceneSetup

  /** Length of the model table (high, medium and low detail cube). */
  const ModelCount: nat := 3

  /** The indices of the model table. */
  function AllModels(): set<nat>
  {
    {0, 1, 2}
  }

  /** The barrier's state as a value: the completion counter, the models
      whose scene has been assigned, and how often `setupScene` has run. */
  datatype Barrier = Barrier(numLoaded: nat, ready: set<nat>, setupRuns: nat)

  /** The state before any completion. */
  function Start(): Barrier
  {
    Barrier(0, {}, 0)
  }

  /** Does the completion that takes the counter from `numLoaded` fire
      `setupScene`? The test is an equality, not `>=`. */
  predicate Fires(numLoaded: nat)
  {
    numLoaded + 1 == ModelCount
  }

  /** One completion callback, for the model at index `model`: it records
      its model and keeps what was recorded, and it runs `setupScene` at most
      once, exactly when the counter becomes the model count. */
  function Complete(b: Barrier, model: nat): (r: Barrier)
    ensures model in r.ready && b.ready <= r.ready
    ensures r.numLoaded > b.numLoaded
    ensures b.setupRuns <= r.setupRuns <= b.setupRuns + 1
    ensures r.setupRuns > b.setupRuns <==> r.numLoaded == ModelCount
  {
    Barrier(b.numLoaded + 1, b.ready + {model},
            if Fires(b.numLoaded) then b.setupRuns + 1 else b.setupRuns)
  }

  /** The completions `events` (model indices, in completion order),
      delivered one after another from `b`. */
  function Deliver(b: Barrier, events: seq<nat>): Barrier
  {
    if events == [] then b
    else Complete(Deliver(b, events[..|events| - 1]), events[|events| - 1])
  }

  /** The models named in `events`. */
  function Elements(events: seq<nat>): set<nat>
  {
    set m | m in events
  }

  /** Each completion adds exactly one to the counter and records its own
      model, whatever else has completed. */
  lemma {:induction false} DeliverCounts(b: Barrier, events: seq<nat>)
    ensures Deliver(b, events).numLoaded == b.numLoaded + |events|
    ensures Deliver(b, events).ready == b.ready + Elements(events)
  {
    if events != [] {
      var init := events[..|events| - 1];
      DeliverCounts(b, init);
      assert events == init + [events[|events| - 1]];
      assert Elements(events) == Elements(init) + {events[|events| - 1]};
    }
  }

  /** `setupScene` runs once during `events` exactly when the counter
      crosses from below the model count to at least the model count. */
  lemma {:induction false} DeliverSetupRuns(b: Barrier, events: seq<nat>)
    ensures Deliver(b, events).setupRuns == b.setupRuns +
      (if b.numLoaded < ModelCount <= b.numLoaded + |events| then 1 else 0)
  {
    if events != [] {
      var init := events[..|events| - 1];
      DeliverSetupRuns(b, init);
      DeliverCounts(b, init);
    }
  }

  /** From the start, `setupScene` has run once after at least three
      completions and never before the third one. */
  lemma FiresExactlyOnce(events: seq<nat>)
    ensures Deliver(Start(), events).setupRuns == if |events| >= ModelCount then 1 else 0
  {
    DeliverSetupRuns(Start(), events);
  }

  /** The order of completion does not matter: any reordering of the same
      completions reaches the same state. */
  lemma OrderIrrelevant(events: seq<nat>, reordered: seq<nat>)
    requires multiset(events) == multiset(reordered)
    ensures Deliver(Start(), events) == Deliver(Start(), reordered)
  {
    DeliverCounts(Start(), events);
    DeliverCounts(Start(), reordered);
    DeliverSetupRuns(Start(), events);
    DeliverSetupRuns(Start(), reordered);
    assert |events| == |multiset(events)| == |multiset(reordered)| == |reordered|;
    forall m ensures m in events <==> m in reordered {
      assert m in events <==> m in multiset(events);
      assert m in reordered <==> m in multiset(reordered);
    }
    assert Elements(events) == Elements(reordered);
  }

  /** When every model of the table completes once, in any order,
      `setupScene` runs on the last completion and finds every model's
      scene assigned; it has not run after any earlier completion. */
  lemma ScenesReadyAtSetup(events: seq<nat>)
    requires |events| == ModelCount
    requires forall i :: 0 <= i < |events| ==> events[i] in AllModels()
    requires forall i, j :: 0 <= i < j < |events| ==> events[i] != events[j]
    ensures Deliver(Start(), events).setupRuns == 1
    ensures Deliver(Start(), events).ready == AllModels()
    ensures forall k :: 0 <= k < |events| ==> Deliver(Start(), events[..k]).setupRuns == 0
  {
    FiresExactlyOnce(events);
    DeliverCounts(Start(), events);
    forall k | 0 <= k < |events| ensures Deliver(Start(), events[..k]).setupRuns == 0 {
      FiresExactlyOnce(events[..k]);
    }
    assert events == [events[0], events[1], events[2]];
    assert Elements(events) == {events[0], events[1], events[2]};
  }

  /** A set of model indices that holds three of them is the whole table. */
  lemma AllModelsWhenFull(r: set<nat>)
    requires r <= AllModels() && |r| >= ModelCount
    ensures r == AllModels()
  {
    var missing := AllModels() - r;
    assert AllModels() == r + missing && r !! missing;
    assert |missing| == 0;
  }

  /** The launcher's module-level state around the barrier: the requests
      issued and not yet completed, the completion counter, the models
      whose scene is assigned, and the world scene that `setupScene` fills. */
  class Launcher {
    /** Model indices whose load has been requested, in request order. */
    var requested: seq<nat>
    /** Requests whose completion callback has not run yet; the loader
        calls each callback once. */
    ghost var pending: set<nat>
    /** The completion counter `numLoadedModels`. */
    var numLoadedModels: nat
    /** Models whose `scene` has been assigned by their completion. */
    var ready: set<nat>
    /** How often `setupScene` has run. */
    ghost var setupRuns: nat
    /** The world scene. */
    const world: World

    /** The barrier part of the state as a value. */
    ghost function State(): Barrier
      reads this
    {
      Barrier(numLoadedModels, ready, setupRuns)
    }

    /** The object invariant. Before `loadModels` nothing is pending or
        assigned; afterwards every model is either pending or assigned, and
        the counter counts the assigned ones. `setupScene` has run once if the
        counter has reached the model count and never otherwise; once it has
        run every model's scene is assigned, the world holds the grid of
        clones exactly when it has run, and the render loop has been started
        once, on the finished grid, exactly when it has run. */
    ghost predicate Valid()
      reads this, world
    {
      ((requested == [] && pending == {} && ready == {} && numLoadedModels == 0) ||
       (requested == [0, 1, 2] && pending + ready == AllModels() && pending !! ready &&
        numLoadedModels == |ready|)) &&
      setupRuns == (if numLoadedModels >= ModelCount then 1 else 0) &&
      (setupRuns == 1 ==> ready == AllModels()) &&
      world.children == (if setupRuns == 1 then Grid(LevelTable(LevelCount, BaseDistance)) else []) &&
      world.animating == (setupRuns == 1) &&
      world.starts == setupRuns &&
      (setupRuns == 1 ==> world.firstFrame == world.children)
    }

    constructor ()
      ensures Valid() && fresh(world)
      ensures requested == [] && pending == {} && State() == Start()
    {
      requested := [];
      pending := {};
      numLoadedModels := 0;
      ready := {};
      setupRuns := 0;
      world := new World();
    }

    /** `loadModels`, run once from `setup`: request every model of the
        table, in table order. */
    method LoadModels()
      requires Valid() && requested == []
      modifies this`requested, this`pending
      ensures Valid()
      ensures requested == [0, 1, 2] && pending == AllModels()
      ensures State() == old(State())
    {
      for i := 0 to ModelCount
        invariant requested == seq(i, (k: int) => k)
        invariant pending == Elements(requested)
      {
        requested := requested + [i];
        pending := pending + {i};
      }
      assert requested == [0, 1, 2];
      assert pending == AllModels();
    }

    /** The completion callback of the request for model `model`, run once
        per request: assign its scene, count it, and run `setupScene` when the
        counter equals the model count. */
    method OnModelLoaded(model: nat)
      requires Valid() && model in pending
      modifies this, world
      ensures Valid()
      ensures State() == Complete(old(State()), model)
      ensures requested == old(requested) && pending == old(pending) - {model}
      ensures world.children == if Fires(old(numLoadedModels)) then Grid(LevelTable(LevelCount, BaseDistance)) else old(world.children)
    {
      ready := ready + {model};
      pending := pending - {model};
      numLoadedModels := numLoadedModels + 1;
      if numLoadedModels == ModelCount {
        AllModelsWhenFull(ready);
        world.SetupScene();
        setupRuns := setupRuns + 1;
      }
    }
  }
}
