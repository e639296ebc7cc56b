/** What the registration trace of Initialize promises. */
module WrapLemmas {
  import opened Wrappers
  import opened Seqs
  import opened Prepare
  import opened PrepareLemmas
  import opened Wrap

  /** Method k is bound through the virtual path exactly when it is virtual, with its own names and arguments. */
  lemma {:induction false} MethodCallsAt(ms: seq<ClassMethod>)
    ensures |MethodCalls(ms)| == |ms|
    ensures forall k :: 0 <= k < |ms| ==>
              MethodCalls(ms)[k] == if ms[k].isVirtual then BindVirtualMethod(ms[k].goName, ms[k].gdName, ms[k].gdArgs)
                                    else BindMethod(ms[k].goName, ms[k].gdName, ms[k].gdArgs)
  {
    if ms != [] {
      var init := ms[..|ms| - 1];
      MethodCallsAt(init);
      assert forall k :: 0 <= k < |init| ==> init[k] == ms[k];
    }
  }

  /** Signal k is added once, with its name and its parameters. */
  lemma {:induction false} SignalCallsAt(ss: seq<ClassSignal>)
    ensures |SignalCalls(ss)| == |ss|
    ensures forall k :: 0 <= k < |ss| ==> SignalCalls(ss)[k] == AddSignal(ss[k].gdName, ss[k].gdArgs)
  {
    if ss != [] {
      var init := ss[..|ss| - 1];
      SignalCallsAt(init);
      assert forall k :: 0 <= k < |init| ==> init[k] == ss[k];
    }
  }

  /** The property calls of a concatenation are those of each part, in order. */
  lemma {:induction false} PropertyCallsAppend(a: seq<ClassProperty>, b: seq<ClassProperty>)
    ensures PropertyCalls(a + b) == PropertyCalls(a) + PropertyCalls(b)
  {
    if b == [] {
      assert a + b == a;
    } else {
      var ab := a + b;
      var b' := b[..|b| - 1];
      var last := b[|b| - 1];
      assert ab[..|ab| - 1] == a + b';
      assert ab[|ab| - 1] == last;
      PropertyCallsAppend(a, b');
      calc {
        PropertyCalls(ab);
        PropertyCalls(a + b') + PropertyBlock(last);
        (PropertyCalls(a) + PropertyCalls(b')) + PropertyBlock(last);
        PropertyCalls(a) + (PropertyCalls(b') + PropertyBlock(last));
        PropertyCalls(a) + PropertyCalls(b);
      }
    }
  }

  /** Property k's block sits between the blocks of the properties before it and after it. */
  lemma PropertyCallsAt(ps: seq<ClassProperty>, k: nat)
    requires k < |ps|
    ensures PropertyCalls(ps) == PropertyCalls(ps[..k]) + PropertyBlock(ps[k]) + PropertyCalls(ps[k + 1..])
  {
    var front, rest := ps[..k + 1], ps[k + 1..];
    assert ps == front + rest;
    PropertyCallsAppend(front, rest);
    assert front[..|front| - 1] == ps[..k];
    assert PropertyCalls(front) == PropertyCalls(ps[..k]) + PropertyBlock(ps[k]);
  }

  /** Property registration only binds methods and adds properties. */
  lemma {:induction false} PropertyCallsKinds(ps: seq<ClassProperty>)
    ensures forall i :: 0 <= i < |PropertyCalls(ps)| ==> PropertyCalls(ps)[i].BindMethod? || PropertyCalls(ps)[i].AddProperty?
  {
    if ps != [] {
      PropertyCallsKinds(ps[..|ps| - 1]);
    }
  }

  /**
   * The order of the trace: first one binding per method, in descriptor
   * order; then only getter/setter bindings and property additions; then one
   * signal addition per signal, in descriptor order.
   */
  lemma TraceLayout(info: ClassInfo)
    ensures var t := RegistrationTrace(info);
            var m, p := |info.methods|, |PropertyCalls(info.properties)|;
            && |t| == m + p + |info.signals|
            && (forall k :: 0 <= k < m ==> t[k] == MethodCall(info.methods[k]))
            && (forall i :: m <= i < m + p ==> t[i].BindMethod? || t[i].AddProperty?)
            && (forall k :: 0 <= k < |info.signals| ==> t[m + p + k] == SignalCall(info.signals[k]))
  {
    MethodCallsAt(info.methods);
    PropertyCallsKinds(info.properties);
    SignalCallsAt(info.signals);
    var t := RegistrationTrace(info);
    var m, p := |info.methods|, |PropertyCalls(info.properties)|;
    forall i | m <= i < m + p ensures t[i].BindMethod? || t[i].AddProperty? {
      assert t[i] == PropertyCalls(info.properties)[i - m];
    }
    forall k | 0 <= k < |info.signals| ensures t[m + p + k] == SignalCall(info.signals[k]) {
      assert t[m + p + k] == SignalCalls(info.signals)[k];
    }
  }

  /**
   * In trace t, the getter of p is bound, then its setter when it has one,
   * and the property that names their bridges is added right after.
   */
  predicate AccessorsBound(t: seq<HostCall>, p: ClassProperty)
  {
    exists j, i :: 0 <= j < i < |t|
                   && t[j] == BindMethod(p.goGetter, p.gdGetter, [])
                   && t[i] == AddProperty(p.gdTyp, p.gdName, p.gdSetter, p.gdGetter)
                   && (p.goSetter != "" ==> i == j + 2 && t[j + 1] == BindMethod(p.goSetter, p.gdSetter, p.gdSetterArgs))
                   && (p.goSetter == "" ==> i == j + 1)
  }

  /** Each property's accessors are bound right before the property is added. */
  lemma AccessorsBoundBeforeProperty(info: ClassInfo, k: nat)
    requires k < |info.properties|
    ensures AccessorsBound(RegistrationTrace(info), info.properties[k])
  {
    var p := info.properties[k];
    PropertyCallsAt(info.properties, k);
    var before := MethodCalls(info.methods) + PropertyCalls(info.properties[..k]);
    var after := PropertyCalls(info.properties[k + 1..]) + SignalCalls(info.signals);
    Regroup(MethodCalls(info.methods), PropertyCalls(info.properties[..k]), PropertyBlock(p),
            PropertyCalls(info.properties[k + 1..]), SignalCalls(info.signals));
    BlockAccessorsBound(before, p, after);
  }

  /** Concatenation regrouped around its middle part. */
  lemma Regroup<T>(a: seq<T>, b: seq<T>, c: seq<T>, d: seq<T>, e: seq<T>)
    ensures a + (b + c + d) + e == (a + b) + c + (d + e)
  {
  }

  /** A property's block, wherever it sits in a trace, binds its accessors before adding it. */
  lemma BlockAccessorsBound(before: seq<HostCall>, p: ClassProperty, after: seq<HostCall>)
    ensures AccessorsBound(before + PropertyBlock(p) + after, p)
  {
    var t, block := before + PropertyBlock(p) + after, PropertyBlock(p);
    var j := |before|;
    var i := j + |block| - 1;
    BlockShape(p);
    InBlock(before, block, after, 0);
    InBlock(before, block, after, |block| - 1);
    if p.goSetter != "" {
      InBlock(before, block, after, 1);
    }
    assert 0 <= j < i < |t| && t[j] == block[0] && t[i] == block[|block| - 1];
  }

  /** An element of the middle part of a concatenation. */
  lemma InBlock<T>(before: seq<T>, block: seq<T>, after: seq<T>, n: nat)
    requires n < |block|
    ensures |before| + n < |before + block + after|
    ensures (before + block + after)[|before| + n] == block[n]
  {
  }

  /** One property's calls: getter bind first, property addition last, the setter bind between when there is a setter. */
  lemma BlockShape(p: ClassProperty)
    ensures var block := PropertyBlock(p);
            && |block| == (if p.goSetter != "" then 3 else 2)
            && block[0] == BindMethod(p.goGetter, p.gdGetter, [])
            && block[|block| - 1] == AddProperty(p.gdTyp, p.gdName, p.gdSetter, p.gdGetter)
            && (p.goSetter != "" ==> block[1] == BindMethod(p.goSetter, p.gdSetter, p.gdSetterArgs))
  {
  }

  /** The signal a call adds, if it adds one. */
  function SignalAdded(h: HostCall): Option<ClassSignal>
  {
    if h.AddSignal? then Some(ClassSignal(h.gdName, h.params)) else None
  }

  /** Every signal is added exactly once, in descriptor order, and nothing else adds a signal. */
  lemma SignalsAddedOnce(info: ClassInfo)
    ensures Collect(RegistrationTrace(info), SignalAdded) == info.signals
  {
    var mc, pc, sc := MethodCalls(info.methods), PropertyCalls(info.properties), SignalCalls(info.signals);
    CollectAppend(mc + pc, sc, SignalAdded);
    CollectAppend(mc, pc, SignalAdded);
    MethodCallsAt(info.methods);
    CollectNone(mc, SignalAdded);
    PropertyCallsKinds(info.properties);
    CollectNone(pc, SignalAdded);
    SignalCallsAt(info.signals);
    CollectTotal(sc, SignalAdded);
  }

  /** The property a call adds, if it adds one. */
  function PropertyAdded(h: HostCall): Option<HostCall>
  {
    if h.AddProperty? then Some(h) else None
  }

  /** Every property is added exactly once, in descriptor order, with its bridge names. */
  lemma {:induction false} PropertiesAddedOnce(ps: seq<ClassProperty>)
    ensures var added := Collect(PropertyCalls(ps), PropertyAdded);
            && |added| == |ps|
            && forall k :: 0 <= k < |ps| ==> added[k] == Addition(ps[k])
  {
    if ps != [] {
      var init := ps[..|ps| - 1];
      var p := ps[|ps| - 1];
      PropertiesAddedOnce(init);
      var before := Collect(PropertyCalls(init), PropertyAdded);
      var added := Collect(PropertyCalls(ps), PropertyAdded);
      CollectAppend(PropertyCalls(init), PropertyBlock(p), PropertyAdded);
      BlockAddsProperty(p);
      assert added == before + [Addition(p)];
      forall k | 0 <= k < |ps| ensures added[k] == Addition(ps[k]) {
        if k < |init| {
          assert added[k] == before[k] && init[k] == ps[k];
        }
      }
    }
  }

  /** The call that adds property p. */
  function Addition(p: ClassProperty): HostCall
  {
    AddProperty(p.gdTyp, p.gdName, p.gdSetter, p.gdGetter)
  }

  /** One property's calls add exactly that property. */
  lemma BlockAddsProperty(p: ClassProperty)
    ensures Collect(PropertyBlock(p), PropertyAdded) == [Addition(p)]
  {
    var block := PropertyBlock(p);
    var prefix := block[..|block| - 1];
    CollectNone(prefix, PropertyAdded);
  }

  /**
   * End to end: for a prepared class, property k is registered as the bind of
   * its getter under "_get_property_<name>" with no arguments, then the bind of
   * its setter under "_set_property_<name>" with ["value"] unless the setter is
   * disabled, then the property with those bridge names ("" for no setter).
   */
  lemma PreparedPropertyRegistration(c: ClassDesc, naming: Naming, k: nat)
    requires HasElem(c.kind) && Prepared(c, naming).Success?
    requires k < |Prepared(c, naming).value.properties|
    ensures var p := Prepared(c, naming).value.properties[k];
            PropertyBlock(p) == PreparedBlock(p)
  {
    var p := Prepared(c, naming).value.properties[k];
    PreparedProperties(c, naming);
    assert p in Prepared(c, naming).value.properties;
    var i :| 0 <= i < |c.fields| && PropertyFromField(c, naming, c.fields[i], p);
    PreparedBlockShape(p);
  }

  /** The calls expected for a prepared property, written out from its names alone. */
  function PreparedBlock(p: ClassProperty): seq<HostCall>
  {
    var getter := GetterPrefix + p.gdName;
    if p.goSetter == "" then
      [BindMethod(p.goGetter, getter, []), AddProperty(p.gdTyp, p.gdName, "", getter)]
    else
      [BindMethod(p.goGetter, getter, []),
       BindMethod(p.goSetter, SetterPrefix + p.gdName, ["value"]),
       AddProperty(p.gdTyp, p.gdName, SetterPrefix + p.gdName, getter)]
  }

  lemma PreparedBlockShape(p: ClassProperty)
    requires p.gdGetter == GetterPrefix + p.gdName && p.gdSetterArgs == ["value"]
    requires p.goSetter == "" <==> p.gdSetter == ""
    requires p.goSetter != "" ==> p.gdSetter == SetterPrefix + p.gdName
    ensures PropertyBlock(p) == PreparedBlock(p)
  {
  }
}
