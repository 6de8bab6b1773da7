/** Store construction (typescript-library-boilerplate/src/createStore.ts):
    synthesize setters in place, annotate every key whose own descriptor has
    a defined `value` as observable, replace every function field with a
    dispatcher, and hand the record and annotations to `makeObservable`. */
module CreateStore {
  import opened Values
  import opened AddSetters
  import opened MobxEngine

  /** The annotation `createStore` gives a key (`mobxObservable`). */
  datatype Annotation = Observable

  /** The `value` of an own descriptor: an accessor has none. */
  function OwnValue(p: Prop): (v: Value)
    ensures p.Accessor? ==> v == Undefined
    ensures v != Undefined ==> p == Data(v) && ReadProp(p) == v
  {
    if p.Data? then p.value else Undefined
  }

  /** The annotation map `createStore` builds for record `r`. */
  function Annotations(r: Record): (a: map<string, Annotation>)
    ensures a.Keys <= r.props.Keys
    ensures forall k :: k in a ==> r.props[k].Data? && r.props[k].value != Undefined
    ensures forall k :: k in r.props && r.props[k].Data? && r.props[k].value != Undefined ==> k in a
  {
    map k | k in r.props && OwnValue(r.props[k]) != Undefined :: Observable
  }

  /** A descriptor after the loop: a function value becomes its dispatcher. */
  function WrapProp(p: Prop): Prop {
    if OwnValue(p).IsFunction() then Data(Function(Dispatcher(p.value.fn))) else p
  }

  /** Record `r` with every function field replaced by its dispatcher. */
  function Wrapped(r: Record): (w: Record)
    ensures w.keys == r.keys && w.props.Keys == r.props.Keys
    ensures forall k :: k in r.props && !OwnValue(r.props[k]).IsFunction() ==> w.props[k] == r.props[k]
    ensures forall k :: k in w.props && OwnValue(w.props[k]).IsFunction() ==> OwnValue(w.props[k]).fn.Dispatcher?
  {
    Record(r.keys, map k | k in r.props :: WrapProp(r.props[k]))
  }

  /** The store `createStore` makes from definition `t`, before `makeObservable`. */
  function StoreOf(t: Record): Record {
    Wrapped(WithSetters(t))
  }

  /** The annotations `createStore` passes to `makeObservable` for definition `t`. */
  function StoreAnnotations(t: Record): map<string, Annotation> {
    Annotations(WithSetters(t))
  }

  /** What the store holds under each key of the definition and under each
      synthesized setter name: non-function fields (data and accessors) are
      left as they were, function fields hold a dispatcher around the
      original function, and every synthesized setter is itself wrapped in a
      dispatcher. Keys and their order are those after setter synthesis. */
  lemma StoreFields(t: Record)
    requires WellFormed(t)
    ensures StoreOf(t).keys == WithSetters(t).keys
    ensures StoreOf(t).props.Keys == WithSetters(t).props.Keys
    ensures t.props.Keys <= StoreOf(t).props.Keys
    ensures forall k :: k in t.props && !OwnValue(t.props[k]).IsFunction() ==>
              StoreOf(t).props[k] == t.props[k]
    ensures forall k :: k in t.props && OwnValue(t.props[k]).IsFunction() ==>
              StoreOf(t).props[k] == Data(Function(Dispatcher(OwnValue(t.props[k]).fn)))
    ensures forall n :: n in StoreOf(t).props && n !in t.props ==>
              exists k :: k in t.props && !ReadKey(t, k).IsFunction() && n == SetterName(k)
                          && StoreOf(t).props[n] == Data(Function(Dispatcher(SynthesizedSetter(t, k))))
  {
    NoOverwrite(t);
    forall n | n in StoreOf(t).props && n !in t.props
      ensures exists k :: k in t.props && !ReadKey(t, k).IsFunction() && n == SetterName(k)
                          && StoreOf(t).props[n] == Data(Function(Dispatcher(SynthesizedSetter(t, k))))
    {
      SynthesizedEntry(t, n);
      var i :| 0 <= i < |t.keys| && Claims(t, t.keys[i], n)
               && WithSetters(t).props[n] == Data(Function(SynthesizedSetter(t, t.keys[i])));
      assert t.keys[i] in t.props;
    }
  }

  /** The annotated keys: every key of the definition whose own `value` is
      defined (data or function; not accessors, not `undefined`), and every
      synthesized setter. */
  lemma AnnotatedKeys(t: Record)
    requires WellFormed(t)
    ensures StoreAnnotations(t).Keys
              == (set k | k in t.props && OwnValue(t.props[k]) != Undefined)
                 + (WithSetters(t).props.Keys - t.props.Keys)
  {
    NoOverwrite(t);
    forall n | n in WithSetters(t).props && n !in t.props
      ensures OwnValue(WithSetters(t).props[n]) != Undefined
    {
      SynthesizedEntry(t, n);
    }
  }

  /** Every function the store holds, after construction, is a dispatcher. */
  lemma OnlyDispatchersRemain(t: Record)
    requires WellFormed(t)
    ensures forall k :: k in StoreOf(t).props && OwnValue(StoreOf(t).props[k]).IsFunction() ==>
              OwnValue(StoreOf(t).props[k]).fn.Dispatcher?
  {
  }

  /** `makeObservable(obj, annotations)`: instruments the annotated keys in
      place. What instrumenting does to reads and writes is MobX's. */
  method MakeObservable(obj: StoreObject, annotations: map<string, Annotation>) returns (same: StoreObject)
    modifies obj
    ensures same == obj
    ensures obj.observableKeys == annotations.Keys
    ensures obj.keys == old(obj.keys) && obj.props == old(obj.props)
  {
    obj.observableKeys := annotations.Keys;
    same := obj;
  }

  /** The annotations for the keys in `done`. */
  function AnnotationsFor(r: Record, done: seq<string>): map<string, Annotation> {
    map k | k in done && k in r.props && OwnValue(r.props[k]) != Undefined :: Observable
  }

  /** The descriptors of `r` with the keys in `done` wrapped. */
  function WrappedFor(r: Record, done: seq<string>): map<string, Prop> {
    map k | k in r.props :: if k in done then WrapProp(r.props[k]) else r.props[k]
  }

  lemma NotYetVisited(r: Record, i: nat)
    requires WellFormed(r) && i < |r.keys|
    ensures r.keys[i] in r.props && r.keys[i] !in r.keys[..i]
  {
  }

  lemma AnnotateStep(r: Record, done: seq<string>, key: string)
    requires key in r.props && key !in done
    ensures AnnotationsFor(r, done + [key])
              == if OwnValue(r.props[key]) != Undefined then AnnotationsFor(r, done)[key := Observable]
                 else AnnotationsFor(r, done)
    ensures WrappedFor(r, done + [key]) == WrappedFor(r, done)[key := WrapProp(r.props[key])]
  {
  }

  /** The `forEach` loop of `createStore`: over the keys present after setter
      synthesis, skip a key whose own `value` is undefined, annotate every
      other key, and replace a function value by its dispatcher. */
  method AnnotateAndWrap(obj: StoreObject) returns (annotations: map<string, Annotation>)
    requires obj.Valid()
    modifies obj
    ensures obj.Valid()
    ensures obj.Rec() == Wrapped(old(obj.Rec()))
    ensures annotations == Annotations(old(obj.Rec()))
    ensures obj.observableKeys == old(obj.observableKeys)
  {
    annotations := map[];
    ghost var s := obj.Rec();
    var ks := obj.keys;
    assert obj.props == WrappedFor(s, ks[..0]);
    for i := 0 to |ks|
      invariant obj.keys == s.keys
      invariant obj.props == WrappedFor(s, ks[..i])
      invariant annotations == AnnotationsFor(s, ks[..i])
      invariant obj.observableKeys == old(obj.observableKeys)
    {
      var key := ks[i];
      ghost var done := ks[..i];
      assert ks[..i + 1] == done + [key];
      NotYetVisited(s, i);
      AnnotateStep(s, done, key);
      var value := OwnValue(obj.props[key]);
      if value != Undefined {
        annotations := annotations[key := Observable];
        if value.IsFunction() {
          // `obj[key] = dispatcher` on a data property replaces its value
          obj.props := obj.props[key := Data(Function(Dispatcher(value.fn)))];
        }
      }
    }
    assert ks[..|ks|] == ks;
    AllVisited(s);
  }

  lemma AllVisited(r: Record)
    requires WellFormed(r)
    ensures WrappedFor(r, r.keys) == Wrapped(r).props
    ensures AnnotationsFor(r, r.keys) == Annotations(r)
    ensures WellFormed(Wrapped(r))
  {
    WrappedWellFormed(r);
  }

  lemma WrappedWellFormed(r: Record)
    requires WellFormed(r)
    ensures WellFormed(Wrapped(r))
  {
    assert Wrapped(r).props.Keys == r.props.Keys;
  }

  /** `createStore(observableBase)`: returns the object it was given, made
      into a store in place. */
  method CreateStore(observableBase: StoreObject) returns (store: StoreObject)
    requires observableBase.Valid()
    modifies observableBase
    ensures store == observableBase
    ensures store.Valid()
    ensures store.Rec() == StoreOf(old(observableBase.Rec()))
    ensures store.observableKeys == StoreAnnotations(old(observableBase.Rec())).Keys
  {
    var hasHadSettersAdded := observableBase.AddValueSettersWhereNoExist();
    var annotations := AnnotateAndWrap(hasHadSettersAdded);
    store := MakeObservable(hasHadSettersAdded, annotations);
  }

  /** How a dispatcher ran its field's memoized form. */
  datatype Mode = DerivationMode | ActionMode

  /** The mode a dispatcher chooses: direct while a derivation is being
      computed, inside `runInAction` otherwise. */
  function ModeFor(computingDerivation: bool): (m: Mode)
    ensures m == ActionMode <==> !computingDerivation
  {
    if computingDerivation then DerivationMode else ActionMode
  }

  /** The engine state after a dispatcher call whose memoized form makes
      `writes` value-changing observable writes. */
  function AfterDispatch(st: State, writes: nat): (st': State)
    ensures st'.depth == st.depth && st'.computingDerivation == st.computingDerivation
    ensures !st.computingDerivation ==> st.reactionRuns <= st'.reactionRuns <= st.reactionRuns + 1
  {
    if st.computingDerivation then AfterWrites(st, writes)
    else
      WritesInBatch(StartBatch(st), writes);
      EndBatch(AfterWrites(StartBatch(st), writes))
  }

  /** A dispatcher call leaves the transaction depth and the derivation flag
      as it found them, in either mode, and leaves nothing pending once no
      transaction is open. */
  lemma DispatchRestoresDepth(st: State, writes: nat)
    requires Settled(st)
    ensures AfterDispatch(st, writes).depth == st.depth
    ensures AfterDispatch(st, writes).computingDerivation == st.computingDerivation
    ensures Settled(AfterDispatch(st, writes))
  {
  }

  /** Called from outside any transaction, a dispatcher's writes reach the
      dependent reaction as one notification, however many there are. */
  lemma ActionDispatchNotifiesOnce(st: State, writes: nat)
    requires !st.computingDerivation && st.depth == 0 && !st.pending
    ensures AfterDispatch(st, writes) == st.(reactionRuns := st.reactionRuns + (if writes > 0 then 1 else 0))
  {
    BatchedWrites(st, writes);
  }

  /** Called inside an open transaction (a store method calling another),
      a dispatcher notifies nobody; the outer transaction will. */
  lemma NestedDispatchDefers(st: State, writes: nat)
    requires !st.computingDerivation && st.depth > 0
    ensures AfterDispatch(st, writes) == st.(pending := st.pending || writes > 0)
  {
    WritesInBatch(StartBatch(st), writes);
  }

  /** The action-batching scenario: three one-write setter calls made through
      a store method notify the reaction once, while three plain writes made
      outside any action notify it three times. */
  lemma ThreeWritesInOneAction(st: State)
    requires !st.computingDerivation && st.depth == 0 && !st.pending
    ensures EndBatch(AfterDispatch(AfterDispatch(AfterDispatch(StartBatch(st), 1), 1), 1)).reactionRuns
              == st.reactionRuns + 1
    ensures AfterWrites(st, 3).reactionRuns == st.reactionRuns + 3
  {
    var a := StartBatch(st);
    NestedDispatchDefers(a, 1);
    NestedDispatchDefers(AfterDispatch(a, 1), 1);
    NestedDispatchDefers(AfterDispatch(AfterDispatch(a, 1), 1), 1);
    UnbatchedWrites(st, 3);
  }

  /** The dispatcher `createStore` installs for function `fn`, called with
      `args`: the memoized form is called directly while a derivation is
      being computed, and otherwise inside exactly one `runInAction`; either
      way its outcome (result or exception) is returned unchanged. */
  method Dispatch(engine: Engine, fn: Fn, args: seq<Value>, behaviour: (Fn, seq<Value>) -> Effect)
    returns (o: Outcome, mode: Mode)
    requires engine.Valid()
    modifies engine
    ensures engine.Valid()
    ensures mode == ModeFor(old(engine.computingDerivation))
    ensures o == behaviour(fn, args).outcome
    ensures engine.Snapshot() == AfterDispatch(old(engine.Snapshot()), behaviour(fn, args).writes)
    ensures engine.depth == old(engine.depth)
    ensures mode == DerivationMode ==> engine.trace == old(engine.trace) + [Materialized(fn, args)]
    ensures mode == ActionMode ==>
              engine.trace == old(engine.trace) + [ActionStarted, Materialized(fn, args), ActionEnded]
  {
    if engine.computingDerivation {
      mode := DerivationMode;
      o := engine.Materialize(fn, args, behaviour);
    } else {
      mode := ActionMode;
      o := engine.RunInAction(fn, args, behaviour);
    }
  }
}
