/** The reaction wrapper (src/createReaction.ts): a MobX reaction whose
    tracked expression calls `def` and keeps what it returns in the
    `andThen` slot, and whose effect calls whatever the slot holds.
    MobX's reaction engine is reduced to the events it delivers: a tracked
    run, a firing of the effect, and disposal. What `def` returns on each
    run is caller code, so it is a parameter of the tracked-run event. */
module CreateReaction {
  import opened Values

  /** What the engine does to the reaction. */
  datatype Event = TrackedRun(defReturned: Option<Fn>) | EffectFired | Disposed

  /** The reaction's state: the `andThen` slot, how often `def` has run, the
      callbacks the effect has called, in order, and whether the engine has
      disposed of the reaction. */
  datatype ReactionState = ReactionState(andThen: Fn, defCalls: nat, invoked: seq<Fn>, disposed: bool)

  /** `let andThen = () => {}` */
  function Initial(): (st: ReactionState)
    ensures st.andThen == SlotValue(None)
    ensures st.defCalls == 0 && st.invoked == [] && !st.disposed
  {
    ReactionState(Noop, 0, [], false)
  }

  /** `def() || (() => {})`: a returned function, or the no-op. */
  function SlotValue(defReturned: Option<Fn>): (f: Fn)
    ensures defReturned.Some? ==> f == defReturned.value
    ensures f == Noop <==> defReturned.None? || defReturned.value == Noop
  {
    if defReturned.Some? then defReturned.value else Noop
  }

  /** One event. A disposed reaction is never run again by the engine. An
      event calls at most one callback, the one already in the slot, and
      counts at most one run of `def`. */
  function Apply(st: ReactionState, e: Event): (st': ReactionState)
    ensures st.disposed ==> st' == st
    ensures st'.disposed == (st.disposed || e.Disposed?)
    ensures st.defCalls <= st'.defCalls <= st.defCalls + 1
    ensures st'.invoked == st.invoked || st'.invoked == st.invoked + [st.andThen]
    ensures st'.andThen != st.andThen ==> e.TrackedRun?
  {
    if st.disposed then st
    else match e
      case TrackedRun(r) => st.(andThen := SlotValue(r), defCalls := st.defCalls + 1)
      case EffectFired => st.(invoked := st.invoked + [st.andThen])
      case Disposed => st.(disposed := true)
  }

  /** A sequence of events, in order. */
  function Run(st: ReactionState, events: seq<Event>): ReactionState
    decreases |events|
  {
    if events == [] then st else Apply(Run(st, events[..|events| - 1]), events[|events| - 1])
  }

  /** The events of registration when `createReaction` is called outside
      any batch: `fireImmediately: true` makes the engine run the tracked
      expression and then the effect before `reaction` returns. Inside an
      action, or while reactions are running, MobX delays that first run
      until the batch ends; the events are then the same, only later. */
  function Registration(firstReturn: Option<Fn>): seq<Event> {
    [TrackedRun(firstReturn), EffectFired]
  }

  /** Whether a disposal occurs in `events`. */
  predicate DisposedIn(events: seq<Event>) {
    exists i :: 0 <= i < |events| && events[i].Disposed?
  }

  /** The value the most recent tracked run before any disposal left in
      the slot, or the initial no-op. */
  function LatestCallback(events: seq<Event>): Fn
    decreases |events|
  {
    if events == [] then Noop
    else
      var front := events[..|events| - 1];
      if DisposedIn(front) then LatestCallback(front)
      else match events[|events| - 1]
        case TrackedRun(r) => SlotValue(r)
        case _ => LatestCallback(front)
  }

  /** The number of tracked runs before any disposal. */
  function TrackedRuns(events: seq<Event>): nat
    decreases |events|
  {
    if events == [] then 0
    else
      var front := events[..|events| - 1];
      TrackedRuns(front) + (if !DisposedIn(front) && events[|events| - 1].TrackedRun? then 1 else 0)
  }

  /** From the initial state, the slot holds what the latest tracked run
      stored, `def` has run once per tracked run, and the reaction is
      disposed exactly when a disposal event came. */
  lemma {:induction false} RunFacts(events: seq<Event>)
    ensures Run(Initial(), events).andThen == LatestCallback(events)
    ensures Run(Initial(), events).defCalls == TrackedRuns(events)
    ensures Run(Initial(), events).disposed == DisposedIn(events)
    decreases |events|
  {
    if events != [] {
      var front := events[..|events| - 1];
      RunFacts(front);
      if !DisposedIn(front) && events[|events| - 1].Disposed? {
        assert DisposedIn(events);
      }
      if DisposedIn(front) {
        var i :| 0 <= i < |front| && front[i].Disposed?;
        assert events[i].Disposed?;
      }
      if DisposedIn(events) && !DisposedIn(front) {
        var i :| 0 <= i < |events| && events[i].Disposed?;
        assert i == |events| - 1;
      }
    }
  }

  /** The effect calls the callback stored by the most recent tracked run,
      and nothing else, until the reaction is disposed. */
  lemma EffectCallsLatest(events: seq<Event>)
    requires !DisposedIn(events)
    ensures Run(Initial(), events + [EffectFired]).invoked
              == Run(Initial(), events).invoked + [LatestCallback(events)]
  {
    RunFacts(events);
    assert (events + [EffectFired])[..|events|] == events;
  }

  /** Registration runs `def` once and, because the effect fires
      immediately after, calls the callback that first run returned. */
  lemma RegistrationRunsDefOnce(firstReturn: Option<Fn>)
    ensures Run(Initial(), Registration(firstReturn)).defCalls == 1
    ensures Run(Initial(), Registration(firstReturn)).andThen == SlotValue(firstReturn)
    ensures Run(Initial(), Registration(firstReturn)).invoked == [SlotValue(firstReturn)]
  {
    var evs := Registration(firstReturn);
    assert evs[..1] == [TrackedRun(firstReturn)];
    assert evs[..1][..0] == [];
    var tracked := Apply(Initial(), TrackedRun(firstReturn));
    assert Run(Initial(), evs[..1]) == tracked;
    assert Run(Initial(), evs) == Apply(tracked, EffectFired);
  }

  /** After disposal nothing more happens: neither `def` nor any stored
      callback runs again, whatever the engine delivers. */
  lemma {:induction false} NothingAfterDisposal(st: ReactionState, events: seq<Event>)
    requires st.disposed
    ensures Run(st, events) == st
    decreases |events|
  {
    if events != [] {
      NothingAfterDisposal(st, events[..|events| - 1]);
    }
  }

  /** A registered reaction. */
  class Reaction {
    var andThen: Fn
    var defCalls: nat
    var invoked: seq<Fn>
    var disposed: bool

    function State(): ReactionState
      reads this
    {
      ReactionState(andThen, defCalls, invoked, disposed)
    }

    /** `createReaction(def)` called outside any batch, where the first run
        of `def` returns `firstReturn`: the slot starts as the no-op, then the
        engine runs the tracked expression and, with `fireImmediately`, the
        effect. (Inside a batch MobX runs these two once the batch ends.) */
    constructor (firstReturn: Option<Fn>)
      ensures State() == Run(Initial(), Registration(firstReturn))
    {
      andThen := Noop;
      defCalls := 0;
      invoked := [];
      disposed := false;
      new;
      ghost var evs := Registration(firstReturn);
      assert evs[..1] == [TrackedRun(firstReturn)] && evs[..1][..0] == [];
      assert State() == Initial() == Run(Initial(), evs[..1][..0]);
      var _ := Track(firstReturn);
      assert State() == Run(Initial(), evs[..1]);
      Effect();
    }

    /** The tracked expression `() => { andThen = def() || (() => {}) }`;
        it always yields `undefined`, so its value never differs between
        runs. */
    method Track(defReturned: Option<Fn>) returns (value: Value)
      requires !disposed
      modifies this
      ensures value == Undefined
      ensures State() == Apply(old(State()), TrackedRun(defReturned))
    {
      andThen := if defReturned.Some? then defReturned.value else Noop;
      defCalls := defCalls + 1;
      value := Undefined;
    }

    /** The effect `() => andThen()`. */
    method Effect()
      requires !disposed
      modifies this
      ensures State() == Apply(old(State()), EffectFired)
    {
      invoked := invoked + [andThen];
    }

    /** The returned disposer `() => dispose()`: it forwards to the engine
        and does not itself call the stored callback. */
    method Dispose()
      modifies this
      ensures State() == Apply(old(State()), Disposed)
      ensures invoked == old(invoked) && andThen == old(andThen)
    {
      disposed := true;
    }
  }
}
