/**
 * What class preparation promises, stated about the Prepare specification
 * (and so, through PrepareClass's postcondition, about prepareClass).
 */
module PrepareLemmas {
  import opened Wrappers
  import opened Strings
  import opened Tags
  import opened Seqs
  import opened Prepare

  /** A field the field loop looks at: exported and not embedded. */
  predicate Examined(f: FieldDesc)
  {
    f.exported && !f.anonymous
  }

  /** The argument placeholders are arg0 … arg{n-1}. */
  lemma {:induction false} ArgNamesAt(n: nat)
    ensures |ArgNames(n)| == n
    ensures forall k :: 0 <= k < n ==> ArgNames(n)[k] == "arg" + NatToString(k)
  {
    if n > 0 {
      ArgNamesAt(n - 1);
    }
  }

  /** No two placeholders of one method coincide. */
  lemma ArgNamesDistinct(n: nat, i: nat, j: nat)
    requires i < j < n
    ensures ArgNames(n)[i] != ArgNames(n)[j]
  {
    ArgNamesAt(n);
    NatToStringInjective(i, j);
    assert ArgNames(n)[i][3..] == NatToString(i);
    assert ArgNames(n)[j][3..] == NatToString(j);
  }

  /**
   * The method rules: virtual exactly when snake_case(name) starts with "x_",
   * and then only the "x" is trimmed (X_Ready becomes "_ready"); otherwise
   * the plain snake name; one placeholder per input after the receiver.
   */
  lemma MethodDescriptorRules(naming: Naming, m: MethodDesc)
    ensures var d := MethodOf(naming, m);
            var snake := naming.snake(m.name);
            && d.goName == m.name
            && (d.isVirtual <==> HasPrefix(snake, "x_"))
            && (d.isVirtual ==> "x" + d.gdName == snake && HasPrefix(d.gdName, "_"))
            && (!d.isVirtual ==> d.gdName == snake)
            && |d.gdArgs| == m.numIn - 1
            && (forall k :: 0 <= k < |d.gdArgs| ==> d.gdArgs[k] == "arg" + NatToString(k))
  {
    ArgNamesAt(m.numIn - 1);
    var snake := naming.snake(m.name);
    if HasPrefix(snake, "x_") {
      assert snake == "x" + snake[1..];
    }
  }

  /** A name is excluded as embedded exactly when an anonymous visible field's method sets export it. */
  lemma {:induction false} EmbeddedNamesExactly(fields: seq<VisibleField>, name: string)
    ensures name in EmbeddedNames(fields) <==>
            exists i, m :: 0 <= i < |fields| && fields[i].anonymous
                           && m in fields[i].valueMethods + fields[i].pointerMethods
                           && m.exported && m.name == name
  {
    if fields != [] {
      var init := fields[..|fields| - 1];
      EmbeddedNamesExactly(init, name);
      assert forall i :: 0 <= i < |init| ==> init[i] == fields[i];
      var f := fields[|fields| - 1];
      if f.anonymous && name in ExportedNames(f.valueMethods) + ExportedNames(f.pointerMethods) {
        var m :| (m in f.valueMethods || m in f.pointerMethods) && m.exported && m.name == name;
        assert m in fields[|fields| - 1].valueMethods + fields[|fields| - 1].pointerMethods;
      }
    }
  }

  /** The shape error is returned exactly when the class is not a pointer to a struct. */
  lemma PrepareShapeError(c: ClassDesc, naming: Naming)
    requires HasElem(c.kind)
    ensures (Prepared(c, naming).Failure? && Prepared(c, naming).error.NotPointerToStruct?)
            <==> !(c.kind.Pointer? && c.elemKind.Struct?)
  {
    var err := FirstSome(c.fields, ErrorOf(c, naming));
    if !ShapeRejected(c.kind, c.elemKind) && err.Some? {
      FirstSomeIsEarliest(c.fields, ErrorOf(c, naming));
      var i :| 0 <= i < |c.fields| && ErrorOf(c, naming)(c.fields[i]) == err;
      FieldErrorIsAccessorError(c, naming, c.fields[i]);
    }
  }

  /** A field only ever fails over its getter or setter. */
  lemma FieldErrorIsAccessorError(c: ClassDesc, naming: Naming, f: FieldDesc)
    ensures ErrorOf(c, naming)(f).Some? ==> !ErrorOf(c, naming)(f).value.NotPointerToStruct?
  {
  }

  /**
   * For a well-shaped class, preparation fails exactly when some examined
   * field fails, and the error is that of the first failing field: no partial
   * descriptor is ever returned.
   */
  lemma PrepareFailsOnFirstBadField(c: ClassDesc, naming: Naming)
    requires HasElem(c.kind) && c.kind.Pointer? && c.elemKind.Struct?
    ensures Prepared(c, naming).Failure? <==>
            exists i :: 0 <= i < |c.fields| && ResolveField(c, naming, c.fields[i]).Failed?
    ensures Prepared(c, naming).Failure? ==>
            exists i :: 0 <= i < |c.fields| && ResolveField(c, naming, c.fields[i]) == Failed(Prepared(c, naming).error)
                        && forall j :: 0 <= j < i ==> !ResolveField(c, naming, c.fields[j]).Failed?
  {
    var e := ErrorOf(c, naming);
    FirstSomeNone(c.fields, e);
    if FirstSome(c.fields, e).Some? {
      FirstSomeIsEarliest(c.fields, e);
      var i :| 0 <= i < |c.fields| && e(c.fields[i]) == FirstSome(c.fields, e)
                && forall j :: 0 <= j < i ==> e(c.fields[j]).None?;
      assert ResolveField(c, naming, c.fields[i]) == Failed(Prepared(c, naming).error);
    } else {
      forall i | 0 <= i < |c.fields| ensures !ResolveField(c, naming, c.fields[i]).Failed? {
        assert e(c.fields[i]).None?;
      }
    }
  }

  /** The getter failures: missing, or not exactly one input (the receiver) and one output. */
  lemma GetterChecked(c: ClassDesc, naming: Naming, f: FieldDesc)
    requires Examined(f) && !f.isSignal
    ensures var g := FindMethod(c.methods, GetterName(naming, f));
            && (ResolveField(c, naming, f) == Failed(GetterNotFound(c.name, GetterName(naming, f))) <==> g.None?)
            && (ResolveField(c, naming, f) == Failed(GetterWrongSignature(c.name, GetterName(naming, f)))
                <==> g.Some? && (g.value.numIn != 1 || g.value.numOut != 1))
  {
  }

  /** The setter failures, checked only when the tag does not say `set=nil`. */
  lemma SetterChecked(c: ClassDesc, naming: Naming, f: FieldDesc)
    requires Examined(f) && !f.isSignal
    requires var g := FindMethod(c.methods, GetterName(naming, f)); g.Some? && g.value.numIn == 1 && g.value.numOut == 1
    ensures var s := FindMethod(c.methods, SetterName(naming, f));
            && (ResolveField(c, naming, f).Failed? ==> SetterName(naming, f) != "")
            && (ResolveField(c, naming, f) == Failed(SetterNotFound(c.name, SetterName(naming, f)))
                <==> SetterName(naming, f) != "" && s.None?)
            && (ResolveField(c, naming, f) == Failed(SetterWrongSignature(c.name, SetterName(naming, f)))
                <==> SetterName(naming, f) != "" && s.Some? && (s.value.numIn != 2 || s.value.numOut != 0))
  {
  }

  /** `set=nil` gives a read-only property: no setter accessor and no setter bridge. */
  lemma NilSetterIsReadOnly(c: ClassDesc, naming: Naming, f: FieldDesc)
    requires ParsedTag(f.tag).Some? && ParsedTag(f.tag).value.setter == "nil"
    requires ResolveField(c, naming, f).AsProperty?
    ensures ResolveField(c, naming, f).property.goSetter == ""
    ensures ResolveField(c, naming, f).property.gdSetter == ""
  {
  }

  /** What every property of a prepared class satisfies, in terms of the class it came from. */
  ghost predicate PropertyFromField(c: ClassDesc, naming: Naming, f: FieldDesc, p: ClassProperty)
  {
    && Examined(f) && !f.isSignal
    && p.gdName == ExposedName(naming, f)
    && p.gdGetter == GetterPrefix + p.gdName
    && p.goGetter == GetterName(naming, f)
    && p.goSetter == SetterName(naming, f)
    && (p.goSetter == "" <==> p.gdSetter == "")
    && (p.goSetter != "" ==> p.gdSetter == SetterPrefix + p.gdName)
    && p.gdSetterArgs == ["value"]
    && p.gdTyp == f.variantType
    && (var g := FindMethod(c.methods, p.goGetter); g.Some? && g.value.numIn == 1 && g.value.numOut == 1)
    && (p.goSetter != "" ==>
          var s := FindMethod(c.methods, p.goSetter); s.Some? && s.value.numIn == 2 && s.value.numOut == 0)
  }

  /** A successful preparation is built from the three collections. */
  lemma PreparedParts(c: ClassDesc, naming: Naming)
    requires HasElem(c.kind) && Prepared(c, naming).Success?
    ensures !ShapeRejected(c.kind, c.elemKind)
    ensures forall i :: 0 <= i < |c.fields| ==> !ResolveField(c, naming, c.fields[i]).Failed?
    ensures Prepared(c, naming).value.properties == Collect(c.fields, PropertyOf(c, naming))
    ensures Prepared(c, naming).value.signals == Collect(c.fields, SignalOf(c, naming))
    ensures Prepared(c, naming).value.methods == Collect(c.methods, MethodPart(naming, Ignored(c, naming)))
  {
    FirstSomeNone(c.fields, ErrorOf(c, naming));
    forall i | 0 <= i < |c.fields| ensures !ResolveField(c, naming, c.fields[i]).Failed? {
      assert ErrorOf(c, naming)(c.fields[i]).None?;
    }
  }

  /** The property a field resolves to satisfies the property rules. */
  lemma PropertyRules(c: ClassDesc, naming: Naming, f: FieldDesc)
    requires ResolveField(c, naming, f).AsProperty?
    ensures PropertyFromField(c, naming, f, ResolveField(c, naming, f).property)
  {
  }

  /** A field yields a signal exactly when it is an examined signal field; no accessor is checked. */
  lemma SignalRules(c: ClassDesc, naming: Naming, f: FieldDesc)
    ensures ResolveField(c, naming, f).AsSignal? <==> Examined(f) && f.isSignal
    ensures ResolveField(c, naming, f).AsSignal? ==>
              ResolveField(c, naming, f).signal == ClassSignal(ExposedName(naming, f), [])
  {
  }

  /**
   * Properties: of a successfully prepared class, every property comes from an
   * examined non-signal field with validated accessors and the bridge names
   * derived from its exposed name, and every such field yields its property.
   */
  lemma PreparedProperties(c: ClassDesc, naming: Naming)
    requires HasElem(c.kind) && Prepared(c, naming).Success?
    ensures var props := Prepared(c, naming).value.properties;
            && (forall p :: p in props ==> exists i :: 0 <= i < |c.fields| && PropertyFromField(c, naming, c.fields[i], p))
            && (forall i :: 0 <= i < |c.fields| && Examined(c.fields[i]) && !c.fields[i].isSignal ==>
                  ResolveField(c, naming, c.fields[i]).AsProperty?
                  && ResolveField(c, naming, c.fields[i]).property in props)
  {
    PreparedParts(c, naming);
    var props := Collect(c.fields, PropertyOf(c, naming));
    forall p | p in props ensures exists i :: 0 <= i < |c.fields| && PropertyFromField(c, naming, c.fields[i], p) {
      CollectMembership(c.fields, PropertyOf(c, naming), p);
      var i :| 0 <= i < |c.fields| && PropertyOf(c, naming)(c.fields[i]) == Some(p);
      PropertyRules(c, naming, c.fields[i]);
    }
    forall i | 0 <= i < |c.fields| && Examined(c.fields[i]) && !c.fields[i].isSignal
      ensures ResolveField(c, naming, c.fields[i]).AsProperty? && ResolveField(c, naming, c.fields[i]).property in props
    {
      DataFieldIsProperty(c, naming, c.fields[i]);
      CollectMembership(c.fields, PropertyOf(c, naming), ResolveField(c, naming, c.fields[i]).property);
    }
  }

  /** An examined data field that does not fail is a property. */
  lemma DataFieldIsProperty(c: ClassDesc, naming: Naming, f: FieldDesc)
    requires Examined(f) && !f.isSignal && !ResolveField(c, naming, f).Failed?
    ensures ResolveField(c, naming, f).AsProperty?
    ensures PropertyOf(c, naming)(f) == Some(ResolveField(c, naming, f).property)
  {
  }

  /** Signals: one per examined signal field, named like a property, with no arguments. */
  lemma PreparedSignals(c: ClassDesc, naming: Naming)
    requires HasElem(c.kind) && Prepared(c, naming).Success?
    ensures var sigs := Prepared(c, naming).value.signals;
            && (forall s :: s in sigs ==>
                  && s.gdArgs == []
                  && exists i :: 0 <= i < |c.fields| && Examined(c.fields[i]) && c.fields[i].isSignal
                                 && s.gdName == ExposedName(naming, c.fields[i]))
            && (forall i :: 0 <= i < |c.fields| && Examined(c.fields[i]) && c.fields[i].isSignal ==>
                  ClassSignal(ExposedName(naming, c.fields[i]), []) in sigs)
  {
    PreparedParts(c, naming);
    var sigs := Collect(c.fields, SignalOf(c, naming));
    forall s | s in sigs
      ensures && s.gdArgs == []
              && exists i :: 0 <= i < |c.fields| && Examined(c.fields[i]) && c.fields[i].isSignal
                             && s.gdName == ExposedName(naming, c.fields[i])
    {
      CollectMembership(c.fields, SignalOf(c, naming), s);
      var i :| 0 <= i < |c.fields| && SignalOf(c, naming)(c.fields[i]) == Some(s);
      SignalRules(c, naming, c.fields[i]);
    }
    forall i | 0 <= i < |c.fields| && Examined(c.fields[i]) && c.fields[i].isSignal
      ensures ClassSignal(ExposedName(naming, c.fields[i]), []) in sigs
    {
      SignalRules(c, naming, c.fields[i]);
      CollectMembership(c.fields, SignalOf(c, naming), ClassSignal(ExposedName(naming, c.fields[i]), []));
    }
  }

  /** Property and signal lists follow field declaration order. */
  lemma PreparedFieldOrder(c: ClassDesc, naming: Naming, i: nat, j: nat)
    requires HasElem(c.kind) && Prepared(c, naming).Success?
    requires i < j < |c.fields|
    ensures var oi, oj := ResolveField(c, naming, c.fields[i]), ResolveField(c, naming, c.fields[j]);
            var info := Prepared(c, naming).value;
            && (oi.AsProperty? && oj.AsProperty? ==>
                  exists k1, k2 :: 0 <= k1 < k2 < |info.properties|
                                   && info.properties[k1] == oi.property && info.properties[k2] == oj.property)
            && (oi.AsSignal? && oj.AsSignal? ==>
                  exists k1, k2 :: 0 <= k1 < k2 < |info.signals|
                                   && info.signals[k1] == oi.signal && info.signals[k2] == oj.signal)
  {
    var oi, oj := ResolveField(c, naming, c.fields[i]), ResolveField(c, naming, c.fields[j]);
    if oi.AsProperty? && oj.AsProperty? {
      CollectOrder(c.fields, PropertyOf(c, naming), i, j);
    }
    if oi.AsSignal? && oj.AsSignal? {
      CollectOrder(c.fields, SignalOf(c, naming), i, j);
    }
  }

  /**
   * Methods: exactly the exported methods outside the ignore set, each
   * described by MethodOf; none of them is reserved, reachable through an
   * embedded field, or a getter or setter a property consumed.
   */
  lemma PreparedMethods(c: ClassDesc, naming: Naming)
    requires HasElem(c.kind) && Prepared(c, naming).Success?
    ensures var info := Prepared(c, naming).value;
            && (forall d :: d in info.methods <==>
                  exists j :: 0 <= j < |c.methods| && c.methods[j].exported
                              && c.methods[j].name !in Ignored(c, naming) && d == MethodOf(naming, c.methods[j]))
            && (forall d :: d in info.methods ==>
                  && d.goName !in ReservedMethods
                  && d.goName !in EmbeddedNames(c.visibleFields)
                  && forall p :: p in info.properties ==>
                       d.goName != p.goGetter && (p.goSetter != "" ==> d.goName != p.goSetter))
  {
    PreparedParts(c, naming);
    var props := Collect(c.fields, PropertyOf(c, naming));
    var ignored := Ignored(c, naming);
    assert ignored == BaseIgnored(c) + AccessorNames(props);
    var ms := Collect(c.methods, MethodPart(naming, ignored));
    forall d ensures d in ms <==>
                  exists j :: 0 <= j < |c.methods| && c.methods[j].exported
                              && c.methods[j].name !in ignored && d == MethodOf(naming, c.methods[j])
    {
      CollectMembership(c.methods, MethodPart(naming, ignored), d);
    }
    MethodsAvoidIgnored(naming, c.methods, ignored);
    forall d | d in ms
      ensures && d.goName !in ReservedMethods
              && d.goName !in EmbeddedNames(c.visibleFields)
              && forall p :: p in props ==> d.goName != p.goGetter && (p.goSetter != "" ==> d.goName != p.goSetter)
    {
      forall p | p in props ensures d.goName != p.goGetter && (p.goSetter != "" ==> d.goName != p.goSetter) {
        NotAnAccessor(props, p, d.goName);
      }
    }
  }

  /** No collected method carries an ignored name. */
  lemma MethodsAvoidIgnored(naming: Naming, ms: seq<MethodDesc>, ignored: set<string>)
    ensures forall d :: d in Collect(ms, MethodPart(naming, ignored)) ==> d.goName !in ignored
  {
    forall d | d in Collect(ms, MethodPart(naming, ignored)) ensures d.goName !in ignored {
      CollectMembership(ms, MethodPart(naming, ignored), d);
    }
  }

  /** A name outside a property list's accessor names is neither its getter nor its setter. */
  lemma NotAnAccessor(props: seq<ClassProperty>, p: ClassProperty, name: string)
    requires p in props && name !in AccessorNames(props)
    ensures name != p.goGetter && (p.goSetter != "" ==> name != p.goSetter)
  {
  }

  /** The method list follows method-set order. */
  lemma PreparedMethodOrder(c: ClassDesc, naming: Naming, i: nat, j: nat)
    requires HasElem(c.kind) && Prepared(c, naming).Success?
    requires i < j < |c.methods|
    requires c.methods[i].exported && c.methods[i].name !in Ignored(c, naming)
    requires c.methods[j].exported && c.methods[j].name !in Ignored(c, naming)
    ensures var ms := Prepared(c, naming).value.methods;
            exists k1, k2 :: 0 <= k1 < k2 < |ms| && ms[k1] == MethodOf(naming, c.methods[i])
                             && ms[k2] == MethodOf(naming, c.methods[j])
  {
    CollectOrder(c.methods, MethodPart(naming, Ignored(c, naming)), i, j);
  }

  /**
   * A class whose fields are all exported, untagged, non-embedded data
   * fields: if preparation succeeds, each field becomes exactly one property,
   * in order, named snake_case(field) with the conventional accessors.
   */
  lemma UntaggedFieldsBecomeProperties(c: ClassDesc, naming: Naming)
    requires HasElem(c.kind) && Prepared(c, naming).Success?
    requires forall i :: 0 <= i < |c.fields| ==> Examined(c.fields[i]) && !c.fields[i].isSignal && c.fields[i].tag == ""
    ensures var props := Prepared(c, naming).value.properties;
            && |props| == |c.fields|
            && Prepared(c, naming).value.signals == []
            && forall k :: 0 <= k < |c.fields| ==> UntaggedNames(naming, c.fields[k], props[k])
  {
    PreparedParts(c, naming);
    var prop, sig := PropertyOf(c, naming), SignalOf(c, naming);
    forall i | 0 <= i < |c.fields|
      ensures prop(c.fields[i]).Some? && sig(c.fields[i]).None?
      ensures UntaggedNames(naming, c.fields[i], prop(c.fields[i]).value)
    {
      UntaggedField(c, naming, c.fields[i]);
    }
    CollectTotal(c.fields, prop);
    CollectNone(c.fields, sig);
  }

  /** The conventional names of an untagged field's property. */
  predicate UntaggedNames(naming: Naming, f: FieldDesc, p: ClassProperty)
  {
    && p.gdName == naming.snake(f.name)
    && p.goGetter == "Get" + naming.camel(f.name)
    && p.goSetter == "Set" + naming.camel(f.name)
  }

  /** An untagged data field that does not fail is a property with the conventional names. */
  lemma UntaggedField(c: ClassDesc, naming: Naming, f: FieldDesc)
    requires Examined(f) && !f.isSignal && f.tag == ""
    requires !ResolveField(c, naming, f).Failed?
    ensures ResolveField(c, naming, f).AsProperty?
    ensures UntaggedNames(naming, f, ResolveField(c, naming, f).property)
  {
  }

  /** The shape check as written lets a pointer to a non-struct through, and a slice of structs. */
  lemma ShapeCheckAsWrittenAdmitsNonStructs()
    ensures !ShapeRejectedAsWritten(Pointer, OtherKind) && ShapeRejected(Pointer, OtherKind)
    ensures !ShapeRejectedAsWritten(Slice, Struct) && ShapeRejected(Slice, Struct)
  {
  }
}
