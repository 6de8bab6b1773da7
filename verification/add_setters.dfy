/** Setter synthesis (src/addSetters.ts): for every own key of a store
    definition whose value is not a function and whose setter name is not
    yet a key, add one setter. The object is changed in place. */
module AddSetters {
  import opened Values

  /** An own property descriptor: a data property holding a value, or an
      accessor. For an accessor, `getter` is `Some(v)` when it has a `get`
      function, `v` being what that function returns when it is read
      (the getter is caller code, so its value is a parameter here). */
  datatype Prop =
    | Data(value: Value)
    | Accessor(getter: Option<Value>, hasSetter: bool)

  /** An object as the core sees it: its own enumerable keys in insertion
      order (the order `Object.keys` reports) and their descriptors. */
  datatype Record = Record(keys: seq<string>, props: map<string, Prop>)

  /** Keys are listed once each, and exactly the keys that have descriptors. */
  ghost predicate WellFormed(r: Record) {
    && (forall i, j :: 0 <= i < j < |r.keys| ==> r.keys[i] != r.keys[j])
    && (forall k :: k in r.props <==> k in r.keys)
  }

  /** What `obj[key]` reads through a descriptor. */
  function ReadProp(p: Prop): Value {
    match p
    case Data(v) => v
    case Accessor(getter, _) => if getter.Some? then getter.value else Undefined
  }

  /** `obj[key]`: a missing key reads as `undefined`. */
  function ReadKey(r: Record, k: string): Value {
    if k in r.props then ReadProp(r.props[k]) else Undefined
  }

  /** `toUpperCase` of one character, on the ASCII letters. */
  function Upper(c: char): (u: char)
    ensures 'a' <= c <= 'z' ==> 'A' <= u <= 'Z' && u as int == c as int - 32
    ensures !('a' <= c <= 'z') ==> u == c
  {
    if 'a' <= c <= 'z' then (c as int - 32) as char else c
  }

  /** `getSetterName`: "set", the first character upper-cased, then the rest. */
  function SetterName(key: string): (name: string)
    ensures |name| == |key| + 3
    ensures name[..3] == "set"
    ensures |key| > 0 ==> name[3] == Upper(key[0]) && name[4..] == key[1..]
  {
    "set" + (if |key| == 0 then "" else [Upper(key[0])] + key[1..])
  }

  /** Two keys share a setter name exactly when they have the same length and
      differ at most in the case of their first character. */
  lemma SetterNameCollision(a: string, b: string)
    ensures SetterName(a) == SetterName(b) <==>
              |a| == |b| && (|a| == 0 || (Upper(a[0]) == Upper(b[0]) && a[1..] == b[1..]))
  {
    var na, nb := SetterName(a), SetterName(b);
    if na == nb && |a| > 0 {
      assert na[3] == nb[3];
      assert na[4..] == nb[4..];
    }
    if |a| == |b| && |a| > 0 && Upper(a[0]) == Upper(b[0]) && a[1..] == b[1..] {
      assert na == "set" + [Upper(a[0])] + a[1..];
    }
  }

  /** `hasGetterButNoSetter`: the own descriptor has a `get` function and no
      `set`; a missing key has no descriptor (`|| {}`). */
  predicate HasGetterButNoSetter(r: Record, k: string): (b: bool)
    ensures b ==> k in r.props && r.props[k].Accessor? && r.props[k].getter.Some?
                  && ReadKey(r, k) == r.props[k].getter.value
    ensures b ==> forall v :: Assign(r, k, v).Failed?
    ensures !b && k in r.props && r.props[k].Accessor? && !r.props[k].hasSetter ==> ReadKey(r, k) == Undefined
  {
    k in r.props && r.props[k].Accessor? && r.props[k].getter.Some? && !r.props[k].hasSetter
  }

  /** The error thrown by the setter synthesized for a getter-only field. */
  function GetterOnlyMessage(key: string): (m: string)
    ensures |m| > 10 + |key|
    ensures m[..10] == "property \"" && m[10..10 + |key|] == key
  {
    "property \"" + key + "\" has a \"get\" function defined but no \"set\" function, "
      + "so we have no way of setting the value using auto-generated setter"
  }

  /** The setter synthesized for key `k`. */
  function SynthesizedSetter(r: Record, k: string): (f: Fn)
    ensures (f.AssignSetter? || f.GetterOnlySetter?) && f.field == k
    ensures f.GetterOnlySetter? <==> HasGetterButNoSetter(r, k)
  {
    if HasGetterButNoSetter(r, k) then GetterOnlySetter(k) else AssignSetter(k)
  }

  /** One iteration of the `forEach` callback for key `k`. */
  function Step(r: Record, k: string): (r': Record)
    ensures r' != r <==> !ReadKey(r, k).IsFunction() && SetterName(k) !in r.props
  {
    if ReadKey(r, k).IsFunction() then r
    else if SetterName(k) in r.props then r
    else Record(r.keys + [SetterName(k)], r.props[SetterName(k) := Data(Function(SynthesizedSetter(r, k)))])
  }

  /** The callback applied to the keys `ks` in order, starting from `r`. */
  function Fold(r: Record, ks: seq<string>): Record
    decreases |ks|
  {
    if ks == [] then r else Step(Fold(r, ks[..|ks| - 1]), ks[|ks| - 1])
  }

  /** The record after `addValueSettersWhereNoExist`: the callback over the
      keys present when iteration starts. */
  function WithSetters(r: Record): (r': Record)
    ensures forall n :: n in r.props ==> n in r'.props && r'.props[n] == r.props[n]
    ensures |r.keys| <= |r'.keys| <= 2 * |r.keys| && r'.keys[..|r.keys|] == r.keys
  {
    FoldKeeps(r, r.keys);
    Fold(r, r.keys)
  }

  /** Folding the callback never changes a descriptor already there, keeps
      the existing keys first and in order, and adds at most one key per
      visited key. */
  lemma {:induction false} FoldKeeps(r: Record, ks: seq<string>)
    ensures forall n :: n in r.props ==> n in Fold(r, ks).props && Fold(r, ks).props[n] == r.props[n]
    ensures |r.keys| <= |Fold(r, ks).keys| <= |r.keys| + |ks| && Fold(r, ks).keys[..|r.keys|] == r.keys
    decreases |ks|
  {
    if ks != [] {
      FoldKeeps(r, ks[..|ks| - 1]);
    }
  }

  /** Key `k` of `r` would have its setter called `n` if nothing else claimed it. */
  predicate Claims(r: Record, k: string, n: string) {
    !ReadKey(r, k).IsFunction() && SetterName(k) == n
  }

  /** The first key of `ks` that claims setter name `n`, if any. */
  function FirstClaimant(r: Record, ks: seq<string>, n: string): Option<string>
    decreases |ks|
  {
    if ks == [] then None
    else
      var prev := FirstClaimant(r, ks[..|ks| - 1], n);
      if prev.Some? then prev
      else if Claims(r, ks[|ks| - 1], n) then Some(ks[|ks| - 1])
      else None
  }

  /** `FirstClaimant` is the earliest key of `ks` that claims `n`. */
  lemma {:induction false} FirstClaimantIsEarliest(r: Record, ks: seq<string>, n: string)
    ensures FirstClaimant(r, ks, n).None? <==> forall i :: 0 <= i < |ks| ==> !Claims(r, ks[i], n)
    ensures FirstClaimant(r, ks, n).Some? ==>
              exists i :: 0 <= i < |ks| && ks[i] == FirstClaimant(r, ks, n).value && Claims(r, ks[i], n)
                          && forall j :: 0 <= j < i ==> !Claims(r, ks[j], n)
    decreases |ks|
  {
    if ks != [] {
      var front := ks[..|ks| - 1];
      FirstClaimantIsEarliest(r, front, n);
      assert forall i :: 0 <= i < |front| ==> ks[i] == front[i];
      if FirstClaimant(r, front, n).Some? {
        var i :| 0 <= i < |front| && front[i] == FirstClaimant(r, front, n).value && Claims(r, front[i], n)
                 && forall j :: 0 <= j < i ==> !Claims(r, front[j], n);
        assert ks[i] == front[i];
      } else if Claims(r, ks[|ks| - 1], n) {
        assert forall j :: 0 <= j < |ks| - 1 ==> !Claims(r, ks[j], n);
      }
    }
  }

  /** Over keys of the original record, a setter name is added exactly when
      some visited key claims it, and it holds the setter of the first such
      key. */
  lemma {:induction false} FoldDomain(t: Record, ks: seq<string>)
    requires forall i :: 0 <= i < |ks| ==> ks[i] in t.props
    ensures forall n :: n in Fold(t, ks).props <==> n in t.props || FirstClaimant(t, ks, n).Some?
    ensures forall n :: n !in t.props && FirstClaimant(t, ks, n).Some? ==>
              Fold(t, ks).props[n] == Data(Function(SynthesizedSetter(t, FirstClaimant(t, ks, n).value)))
    decreases |ks|
  {
    if ks != [] {
      var front, k := ks[..|ks| - 1], ks[|ks| - 1];
      FoldDomain(t, front);
      FoldKeeps(t, front);
      var s := Fold(t, front);
      assert s.props[k] == t.props[k];
      assert ReadKey(s, k) == ReadKey(t, k);
      assert SynthesizedSetter(s, k) == SynthesizedSetter(t, k);
      var name := SetterName(k);
      if !ReadKey(t, k).IsFunction() && name !in s.props {
        assert FirstClaimant(t, ks, name) == Some(k);
        forall n | n != name ensures FirstClaimant(t, ks, n) == FirstClaimant(t, front, n) {
        }
      } else {
        forall n ensures FirstClaimant(t, ks, n).Some? <==> FirstClaimant(t, front, n).Some? || Claims(t, k, n) {
        }
      }
    }
  }

  /** The callback keeps a record well-formed. */
  lemma {:induction false} FoldWellFormed(t: Record, ks: seq<string>)
    requires WellFormed(t)
    ensures WellFormed(Fold(t, ks))
    decreases |ks|
  {
    if ks != [] {
      var front := ks[..|ks| - 1];
      FoldWellFormed(t, front);
      var s := Fold(t, front);
      assert forall i :: 0 <= i < |s.keys| ==> s.keys[i] in s.props;
    }
  }

  /** What the callback does over a sequence of keys of the original record:
      descriptors already there are kept; a setter name is added exactly when
      some visited key claims it, and it holds the setter of the first such
      key; the original keys stay first and in order. */
  lemma FoldFacts(t: Record, ks: seq<string>)
    requires forall i :: 0 <= i < |ks| ==> ks[i] in t.props
    ensures forall n :: n in t.props ==> n in Fold(t, ks).props && Fold(t, ks).props[n] == t.props[n]
    ensures forall n :: n in Fold(t, ks).props <==> n in t.props || FirstClaimant(t, ks, n).Some?
    ensures forall n :: n !in t.props && FirstClaimant(t, ks, n).Some? ==>
              Fold(t, ks).props[n] == Data(Function(SynthesizedSetter(t, FirstClaimant(t, ks, n).value)))
    ensures |Fold(t, ks).keys| >= |t.keys| && Fold(t, ks).keys[..|t.keys|] == t.keys
    ensures WellFormed(t) ==> WellFormed(Fold(t, ks))
  {
    FoldKeeps(t, ks);
    FoldDomain(t, ks);
    if WellFormed(t) {
      FoldWellFormed(t, ks);
    }
  }

  /** No key that existed before synthesis is overwritten, whatever its type,
      and the original keys keep their order at the front. */
  lemma NoOverwrite(t: Record)
    requires WellFormed(t)
    ensures WellFormed(WithSetters(t))
    ensures forall n :: n in t.props ==> n in WithSetters(t).props && WithSetters(t).props[n] == t.props[n]
    ensures |WithSetters(t).keys| >= |t.keys| && WithSetters(t).keys[..|t.keys|] == t.keys
  {
    FoldFacts(t, t.keys);
  }

  /** The keys after synthesis: the original keys plus the setter name of every
      original key whose value is not a function. */
  lemma WithSettersKeys(t: Record)
    requires WellFormed(t)
    ensures WithSetters(t).props.Keys
              == t.props.Keys + (set k | k in t.keys && !ReadKey(t, k).IsFunction() :: SetterName(k))
  {
    FoldFacts(t, t.keys);
    var added := set k | k in t.keys && !ReadKey(t, k).IsFunction() :: SetterName(k);
    forall n | n in WithSetters(t).props && n !in t.props ensures n in added {
      FirstClaimantIsEarliest(t, t.keys, n);
      var i :| 0 <= i < |t.keys| && Claims(t, t.keys[i], n);
      AddedByClaim(t, t.keys[i]);
    }
    forall n | n in added ensures n in WithSetters(t).props {
      var k :| k in t.keys && !ReadKey(t, k).IsFunction() && SetterName(k) == n;
      var i :| 0 <= i < |t.keys| && t.keys[i] == k;
      assert Claims(t, t.keys[i], n);
      FirstClaimantIsEarliest(t, t.keys, n);
    }
  }

  lemma AddedByClaim(t: Record, k: string)
    requires k in t.keys && !ReadKey(t, k).IsFunction()
    ensures SetterName(k) in (set k' | k' in t.keys && !ReadKey(t, k').IsFunction() :: SetterName(k'))
  {
  }

  /** A key absent before synthesis is present afterwards exactly when some
      non-function key claims it, and it then holds the setter of the
      earliest such key (of `a` and `A`, the one first in key order wins). */
  lemma SynthesizedEntry(t: Record, n: string)
    requires WellFormed(t)
    requires n !in t.props
    ensures n in WithSetters(t).props <==> exists i :: 0 <= i < |t.keys| && Claims(t, t.keys[i], n)
    ensures n in WithSetters(t).props ==>
              exists i :: 0 <= i < |t.keys| && Claims(t, t.keys[i], n)
                          && (forall j :: 0 <= j < i ==> !Claims(t, t.keys[j], n))
                          && WithSetters(t).props[n] == Data(Function(SynthesizedSetter(t, t.keys[i])))
  {
    FoldFacts(t, t.keys);
    FirstClaimantIsEarliest(t, t.keys, n);
  }

  /** A key whose value is a function never gets a setter of its own. */
  lemma FunctionFieldGetsNoSetter(t: Record, k: string)
    requires WellFormed(t)
    requires ReadKey(t, k).IsFunction()
    ensures forall n :: n in WithSetters(t).props && n !in t.props ==>
              WithSetters(t).props[n] != Data(Function(AssignSetter(k)))
              && WithSetters(t).props[n] != Data(Function(GetterOnlySetter(k)))
  {
    forall n | n in WithSetters(t).props && n !in t.props
      ensures WithSetters(t).props[n] != Data(Function(AssignSetter(k)))
      ensures WithSetters(t).props[n] != Data(Function(GetterOnlySetter(k)))
    {
      SynthesizedEntry(t, n);
      var i :| 0 <= i < |t.keys| && Claims(t, t.keys[i], n)
               && WithSetters(t).props[n] == Data(Function(SynthesizedSetter(t, t.keys[i])));
      assert t.keys[i] != k;
    }
  }

  /** A stand-in for the message of the `TypeError` that strict-mode
      assignment to an accessor without a `set` function raises; engines word
      it differently, and the model only keeps that it names the key. */
  function ReadOnlyMessage(key: string): (m: string)
    ensures |m| > 20 + |key| && m[20..20 + |key|] == key
  {
    "Cannot set property " + key + " of #<Object> which has only a getter"
  }

  /** The effect of a call: a new record, or an error thrown. */
  datatype Result = Ok(rec: Record) | Failed(error: string)

  /** `obj[key] = value`. A data property takes the value; a missing key is
      added at the end; an accessor with a `set` function runs that function,
      which is caller code whose effect is not modelled (the descriptors are
      unchanged); an accessor without one throws. */
  function Assign(r: Record, key: string, v: Value): (res: Result)
    ensures res.Failed? <==> key in r.props && r.props[key].Accessor? && !r.props[key].hasSetter
    ensures res.Ok? ==> ReadKey(res.rec, key) == v || (key in r.props && r.props[key].Accessor?)
    ensures res.Ok? ==> res.rec.keys == if key in r.props then r.keys else r.keys + [key]
    ensures res.Ok? ==> forall n :: n in r.props && n != key ==> n in res.rec.props && res.rec.props[n] == r.props[n]
  {
    if key !in r.props then Ok(Record(r.keys + [key], r.props[key := Data(v)]))
    else match r.props[key]
      case Data(_) => Ok(Record(r.keys, r.props[key := Data(v)]))
      case Accessor(_, hasSetter) => if hasSetter then Ok(r) else Failed(ReadOnlyMessage(key))
  }

  /** Calling a synthesized setter with argument `v`. */
  function CallSetter(r: Record, setter: Fn, v: Value): (res: Result)
    requires setter.AssignSetter? || setter.GetterOnlySetter?
    ensures res.Failed? ==>
              (setter.GetterOnlySetter?
               || (setter.field in r.props && r.props[setter.field].Accessor? && !r.props[setter.field].hasSetter))
    ensures setter.AssignSetter? && (setter.field !in r.props || r.props[setter.field].Data?) ==> res.Ok?
    ensures res.Ok? ==> setter.AssignSetter?
    ensures res.Ok? ==>
              ReadKey(res.rec, setter.field) == v || (setter.field in r.props && r.props[setter.field].Accessor?)
    ensures res.Ok? ==> forall n :: n in r.props && n != setter.field ==>
              n in res.rec.props && res.rec.props[n] == r.props[n]
  {
    match setter
    case AssignSetter(field) => Assign(r, field, v)
    case GetterOnlySetter(field) => Failed(GetterOnlyMessage(field))
  }

  /** A setter keeps working on the store it has changed: calling it again
      with `w` succeeds, the field then reads `w`, and the keys stay as the
      first call left them. */
  lemma RepeatedSetterCalls(r: Record, key: string, v: Value, w: Value)
    requires key !in r.props || r.props[key].Data?
    ensures CallSetter(r, AssignSetter(key), v).Ok?
    ensures CallSetter(CallSetter(r, AssignSetter(key), v).rec, AssignSetter(key), w).Ok?
    ensures ReadKey(CallSetter(CallSetter(r, AssignSetter(key), v).rec, AssignSetter(key), w).rec, key) == w
    ensures CallSetter(CallSetter(r, AssignSetter(key), v).rec, AssignSetter(key), w).rec.keys
              == CallSetter(r, AssignSetter(key), v).rec.keys
  {
    var once := CallSetter(r, AssignSetter(key), v).rec;
    assert key in once.props && once.props[key].Data?;
  }

  /** The earliest key claiming its own setter name, when that name was not
      already a key, gets exactly its synthesized setter under that name. */
  lemma WinnerGetsSetter(t: Record, i: nat)
    requires WellFormed(t)
    requires i < |t.keys|
    requires !ReadKey(t, t.keys[i]).IsFunction()
    requires SetterName(t.keys[i]) !in t.props
    requires forall j :: 0 <= j < i ==> !Claims(t, t.keys[j], SetterName(t.keys[i]))
    ensures SetterName(t.keys[i]) in WithSetters(t).props
    ensures WithSetters(t).props[SetterName(t.keys[i])] == Data(Function(SynthesizedSetter(t, t.keys[i])))
  {
    var n := SetterName(t.keys[i]);
    EarliestIsFirstClaimant(t.keys, t, i, n);
    FoldFacts(t, t.keys);
  }

  /** The converse of `FirstClaimantIsEarliest`: a claim with none before it
      is the first claimant. */
  lemma EarliestIsFirstClaimant(ks: seq<string>, t: Record, i: nat, n: string)
    requires i < |ks| && Claims(t, ks[i], n)
    requires forall j :: 0 <= j < i ==> !Claims(t, ks[j], n)
    ensures FirstClaimant(t, ks, n) == Some(ks[i])
  {
    FirstClaimantIsEarliest(t, ks, n);
    var c := FirstClaimant(t, ks, n).value;
    var i' :| 0 <= i' < |ks| && ks[i'] == c && Claims(t, ks[i'], n)
              && forall j :: 0 <= j < i' ==> !Claims(t, ks[j], n);
    assert i' == i;
  }

  /** Setter round trip: for a plain data field with no pre-existing setter
      and no earlier key claiming the same setter name, calling the
      synthesized setter with `v` and then reading the field gives `v`, and
      no other field changes. */
  lemma SetterRoundTrip(t: Record, i: nat, v: Value)
    requires WellFormed(t)
    requires i < |t.keys|
    requires t.props[t.keys[i]].Data? && !t.props[t.keys[i]].value.IsFunction()
    requires SetterName(t.keys[i]) !in t.props
    requires forall j :: 0 <= j < i ==> !Claims(t, t.keys[j], SetterName(t.keys[i]))
    ensures SetterName(t.keys[i]) in WithSetters(t).props
    ensures WithSetters(t).props[SetterName(t.keys[i])] == Data(Function(AssignSetter(t.keys[i])))
    ensures CallSetter(WithSetters(t), AssignSetter(t.keys[i]), v).Ok?
    ensures ReadKey(CallSetter(WithSetters(t), AssignSetter(t.keys[i]), v).rec, t.keys[i]) == v
    ensures CallSetter(WithSetters(t), AssignSetter(t.keys[i]), v).rec.keys == WithSetters(t).keys
    ensures forall n :: n in WithSetters(t).props && n != t.keys[i] ==>
              n in CallSetter(WithSetters(t), AssignSetter(t.keys[i]), v).rec.props
              && CallSetter(WithSetters(t), AssignSetter(t.keys[i]), v).rec.props[n] == WithSetters(t).props[n]
  {
    WinnerGetsSetter(t, i);
    NoOverwrite(t);
    assert WithSetters(t).props[t.keys[i]] == t.props[t.keys[i]];
  }

  /** A getter-only field whose getter does not yield a function: its
      synthesized setter always throws an error that names the field (and,
      throwing, changes nothing). */
  lemma GetterOnlySetterThrows(t: Record, i: nat, v: Value)
    requires WellFormed(t)
    requires i < |t.keys|
    requires HasGetterButNoSetter(t, t.keys[i]) && !t.props[t.keys[i]].getter.value.IsFunction()
    requires SetterName(t.keys[i]) !in t.props
    requires forall j :: 0 <= j < i ==> !Claims(t, t.keys[j], SetterName(t.keys[i]))
    ensures SetterName(t.keys[i]) in WithSetters(t).props
    ensures WithSetters(t).props[SetterName(t.keys[i])] == Data(Function(GetterOnlySetter(t.keys[i])))
    ensures CallSetter(WithSetters(t), GetterOnlySetter(t.keys[i]), v).Failed?
    ensures CallSetter(WithSetters(t), GetterOnlySetter(t.keys[i]), v).error[10..10 + |t.keys[i]|] == t.keys[i]
  {
    WinnerGetsSetter(t, i);
  }

  /** A definition with a field `a` and its own `setA` function is left
      exactly as it was: `setA` is not replaced, and no `setSetA` is made. */
  lemma CustomSetterKept()
    ensures var t := Record(["a", "setA"], map["a" := Data(Json(Num(2))), "setA" := Data(Function(UserFn(0)))]);
            WithSetters(t) == t
  {
    var t := Record(["a", "setA"], map["a" := Data(Json(Num(2))), "setA" := Data(Function(UserFn(0)))]);
    assert SetterName("a") == "setA";
    assert t.keys[..1] == ["a"] && t.keys[..1][..0] == [];
    assert Fold(t, t.keys[..1]) == Step(t, "a") == t;
    assert Fold(t, t.keys) == Step(t, "setA");
  }

  /** Keys `a` and `A` share the setter name `setA`; the first in key order
      gets it. */
  lemma FirstKeyWinsCollision()
    ensures var t := Record(["a", "A"], map["a" := Data(Json(Num(1))), "A" := Data(Json(Num(2)))]);
            WithSetters(t) == Record(["a", "A", "setA"], t.props["setA" := Data(Function(AssignSetter("a")))])
  {
    var t := Record(["a", "A"], map["a" := Data(Json(Num(1))), "A" := Data(Json(Num(2)))]);
    assert SetterName("a") == "setA" && SetterName("A") == "setA";
    assert t.keys[..1] == ["a"] && t.keys[..1][..0] == [];
    var s1 := Record(["a", "A", "setA"], t.props["setA" := Data(Function(AssignSetter("a")))]);
    assert Fold(t, t.keys[..1]) == Step(t, "a") == s1;
    assert Fold(t, t.keys) == Step(s1, "A") == s1;
  }

  /** The object a store definition becomes in place: its keys, its own
      descriptors, and the keys `makeObservable` has instrumented. Setter
      synthesis and `createStore` mutate the same JavaScript object, so the
      one class lives here, beside the first code that changes it;
      `observableKeys` is only ever set by `CreateStore.MakeObservable`, and
      setter synthesis leaves it alone. */
  class StoreObject {
    var keys: seq<string>
    var props: map<string, Prop>
    var observableKeys: set<string>

    function Rec(): Record
      reads this
    {
      Record(keys, props)
    }

    ghost predicate Valid()
      reads this
    {
      WellFormed(Rec())
    }

    constructor (r: Record)
      requires WellFormed(r)
      ensures Valid() && Rec() == r && observableKeys == {}
    {
      keys, props, observableKeys := r.keys, r.props, {};
    }

    /** `addValueSettersWhereNoExist(obj)`: returns the object it was given,
        with the setters added in place. */
    method AddValueSettersWhereNoExist() returns (same: StoreObject)
      requires Valid()
      modifies this
      ensures same == this
      ensures Valid()
      ensures Rec() == WithSetters(old(Rec()))
      ensures observableKeys == old(observableKeys)
    {
      ghost var start := Rec();
      var snapshot := keys;
      for i := 0 to |snapshot|
        invariant Rec() == Fold(start, snapshot[..i])
        invariant observableKeys == old(observableKeys)
      {
        assert snapshot[..i + 1][..i] == snapshot[..i];
        var key := snapshot[i];
        if !ReadKey(Rec(), key).IsFunction() {
          var setterName := SetterName(key);
          if setterName !in props {
            var setter := if HasGetterButNoSetter(Rec(), key) then GetterOnlySetter(key) else AssignSetter(key);
            keys := keys + [setterName];
            props := props[setterName := Data(Function(setter))];
          }
        }
      }
      assert snapshot[..|snapshot|] == snapshot;
      FoldFacts(start, start.keys);
      same := this;
    }

    /** `obj[key] = value` on this object. */
    method Put(key: string, v: Value) returns (error: Option<string>)
      requires Valid()
      modifies this
      ensures Valid()
      ensures Assign(old(Rec()), key, v).Ok? ==> error == None && Rec() == Assign(old(Rec()), key, v).rec
      ensures Assign(old(Rec()), key, v).Failed? ==>
                error == Some(Assign(old(Rec()), key, v).error) && Rec() == old(Rec())
      ensures observableKeys == old(observableKeys)
    {
      if key !in props {
        keys := keys + [key];
        props := props[key := Data(v)];
        error := None;
      } else if props[key].Data? || props[key].hasSetter {
        if props[key].Data? {
          props := props[key := Data(v)];
        }
        error := None;
      } else {
        error := Some(ReadOnlyMessage(key));
      }
    }

    /** Calling a synthesized setter stored on this object. */
    method Invoke(setter: Fn, v: Value) returns (error: Option<string>)
      requires Valid()
      requires setter.AssignSetter? || setter.GetterOnlySetter?
      modifies this
      ensures Valid()
      ensures CallSetter(old(Rec()), setter, v).Ok? ==> error == None && Rec() == CallSetter(old(Rec()), setter, v).rec
      ensures CallSetter(old(Rec()), setter, v).Failed? ==>
                error == Some(CallSetter(old(Rec()), setter, v).error) && Rec() == old(Rec())
      ensures observableKeys == old(observableKeys)
    {
      match setter
      case AssignSetter(field) =>
        error := Put(field, v);
      case GetterOnlySetter(field) =>
        error := Some(GetterOnlyMessage(field));
    }
  }
}
