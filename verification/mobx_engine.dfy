/** The part of MobX's state that the store code relies on, kept abstract:
    whether a derivation is being computed (`_isComputingDerivation`), the
    depth of open transactions (`runInAction` batches), and one dependent
    reaction, with the number of times it has been notified. The batching
    rule below is an assumption about MobX, not code of this repository:
    a write that changes an observable's value notifies the reaction at once
    outside any transaction, and inside one only marks it stale, closing the
    outermost transaction then notifying it once. A write of a value equal
    to the old one changes nothing and notifies nobody; it is not a write in
    this model. */
module MobxEngine {
  import opened Values

  datatype State = State(computingDerivation: bool, depth: nat, pending: bool, reactionRuns: nat)

  /** Nothing is left pending once every transaction is closed. */
  ghost predicate Settled(st: State) {
    st.depth == 0 ==> !st.pending
  }

  /** One value-changing write to an observable the reaction depends on. */
  function AfterWrite(st: State): (st': State)
    ensures Settled(st) ==> Settled(st')
    ensures st'.depth == st.depth && st'.computingDerivation == st.computingDerivation
  {
    if st.depth == 0 then st.(reactionRuns := st.reactionRuns + 1) else st.(pending := true)
  }

  /** `n` such value-changing writes in a row: they change neither the depth nor the
      derivation flag, and keep the state settled. */
  function AfterWrites(st: State, n: nat): (st': State)
    ensures st'.depth == st.depth && st'.computingDerivation == st.computingDerivation
    ensures Settled(st) ==> Settled(st')
    decreases n
  {
    if n == 0 then st else AfterWrite(AfterWrites(st, n - 1))
  }

  /** Opening a transaction. */
  function StartBatch(st: State): State {
    st.(depth := st.depth + 1)
  }

  /** Closing a transaction: the outermost one flushes a pending notification. */
  function EndBatch(st: State): State
    requires st.depth > 0
  {
    if st.depth == 1 && st.pending then st.(depth := 0, pending := false, reactionRuns := st.reactionRuns + 1)
    else st.(depth := st.depth - 1)
  }

  /** Outside any transaction, every write notifies the reaction once. */
  lemma {:induction false} UnbatchedWrites(st: State, n: nat)
    requires st.depth == 0
    ensures AfterWrites(st, n) == st.(reactionRuns := st.reactionRuns + n)
    decreases n
  {
    if n > 0 {
      UnbatchedWrites(st, n - 1);
    }
  }

  /** Inside a transaction, writes notify nobody; they only mark the
      reaction stale. */
  lemma {:induction false} WritesInBatch(st: State, n: nat)
    requires st.depth > 0
    ensures AfterWrites(st, n) == st.(pending := st.pending || n > 0)
    decreases n
  {
    if n > 0 {
      WritesInBatch(st, n - 1);
    }
  }

  /** Any number of writes inside one outermost transaction notify the
      reaction once (or not at all when there are none). */
  lemma BatchedWrites(st: State, n: nat)
    requires st.depth == 0 && !st.pending
    ensures EndBatch(AfterWrites(StartBatch(st), n)) == st.(reactionRuns := st.reactionRuns + (if n > 0 then 1 else 0))
  {
    WritesInBatch(StartBatch(st), n);
  }

  /** What the engine saw, in order. */
  datatype Event = ActionStarted | Materialized(fn: Fn, args: seq<Value>) | ActionEnded

  /** What evaluating a field's memoized form does in the current state: how
      many value-changing observable writes it makes, and how it returns. MobX's cache
      decides whether the body runs at all; that is folded into this. */
  datatype Effect = Effect(writes: nat, outcome: Outcome)

  /** The engine, as mutable state. */
  class Engine {
    var computingDerivation: bool
    var depth: nat
    var pending: bool
    var reactionRuns: nat
    var trace: seq<Event>

    function Snapshot(): State
      reads this
    {
      State(computingDerivation, depth, pending, reactionRuns)
    }

    ghost predicate Valid()
      reads this
    {
      Settled(Snapshot())
    }

    constructor (computing: bool)
      ensures Valid()
      ensures Snapshot() == State(computing, 0, false, 0) && trace == []
    {
      computingDerivation, depth, pending, reactionRuns, trace := computing, 0, false, 0, [];
    }

    /** A value-changing write to an observable the reaction depends on. */
    method Write()
      modifies this
      ensures Snapshot() == AfterWrite(old(Snapshot())) && trace == old(trace)
    {
      if depth == 0 {
        reactionRuns := reactionRuns + 1;
      } else {
        pending := true;
      }
    }

    /** Calling the memoized form of `fn` (`asMaterialization(...args)`). */
    method Materialize(fn: Fn, args: seq<Value>, behaviour: (Fn, seq<Value>) -> Effect) returns (o: Outcome)
      modifies this
      ensures o == behaviour(fn, args).outcome
      ensures Snapshot() == AfterWrites(old(Snapshot()), behaviour(fn, args).writes)
      ensures trace == old(trace) + [Materialized(fn, args)]
    {
      trace := trace + [Materialized(fn, args)];
      var effect := behaviour(fn, args);
      for i := 0 to effect.writes
        invariant Snapshot() == AfterWrites(old(Snapshot()), i)
        invariant trace == old(trace) + [Materialized(fn, args)]
      {
        Write();
      }
      o := effect.outcome;
    }

    /** `runInAction(() => { result = asMaterialization(...args) })`: the
        transaction is closed whether the call returns or throws, and the
        call's outcome is passed on. */
    method RunInAction(fn: Fn, args: seq<Value>, behaviour: (Fn, seq<Value>) -> Effect) returns (o: Outcome)
      modifies this
      ensures o == behaviour(fn, args).outcome
      ensures Snapshot() == EndBatch(AfterWrites(StartBatch(old(Snapshot())), behaviour(fn, args).writes))
      ensures trace == old(trace) + [ActionStarted, Materialized(fn, args), ActionEnded]
    {
      depth := depth + 1;
      trace := trace + [ActionStarted];
      o := Materialize(fn, args, behaviour);
      if depth == 1 && pending {
        depth, pending, reactionRuns := 0, false, reactionRuns + 1;
      } else {
        depth := depth - 1;
      }
      trace := trace + [ActionEnded];
    }
  }
}
