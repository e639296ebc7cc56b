/**
 * Class preparation (pkg/wrapper/prepare.go, prepareClass): from the
 * structural description of a user class to the descriptor the registrar
 * binds, or to the first error met.
 *
 * Go reflection is replaced by an explicit ClassDesc: the kind of the
 * class's type and of its element, the struct's own fields in declaration
 * order, the visible (possibly promoted) fields with the method sets of the
 * anonymous ones, and the method set of the pointer type in reflection's
 * order. strcase.ToSnake and strcase.ToCamel come in as the two functions of
 * a Naming record, and the host variant type of a field is carried as an
 * opaque number.
 */
module Prepare {
  import opened Wrappers
  import opened Strings
  import opened Tags
  import opened Seqs

  /** A host variant-type code, as the host mapping assigns it to a field's type. */
  type VariantType = int

  /** Reflection's count of a method's inputs, which always includes the receiver. */
  type InCount = n: nat | n >= 1 witness 1

  datatype Kind = Pointer | Struct | Slice | Array | Map | Chan | OtherKind

  /** The kinds whose reflect.Type has an element type (Elem does not panic). */
  predicate HasElem(k: Kind)
  {
    k.Pointer? || k.Slice? || k.Array? || k.Map? || k.Chan?
  }

  /** A method as reflection describes it. */
  datatype MethodDesc = MethodDesc(name: string, exported: bool, numIn: InCount, numOut: nat)

  /** One of the struct's own fields; tag is the value of its `godot` tag key. */
  datatype FieldDesc = FieldDesc(name: string, exported: bool, anonymous: bool, tag: string,
                                 isSignal: bool, variantType: VariantType)

  /** A visible field with the method sets of its type and of a pointer to its type. */
  datatype VisibleField = VisibleField(anonymous: bool, valueMethods: seq<MethodDesc>,
                                       pointerMethods: seq<MethodDesc>)

  /** What reflection reveals about the instance a class constructor returns. */
  datatype ClassDesc = ClassDesc(name: string, kind: Kind, elemKind: Kind, fields: seq<FieldDesc>,
                                 visibleFields: seq<VisibleField>, methods: seq<MethodDesc>)

  /** strcase.ToSnake and strcase.ToCamel. */
  datatype Naming = Naming(snake: string -> string, camel: string -> string)

  datatype ClassProperty = ClassProperty(gdName: string, goGetter: string, gdGetter: string,
                                         goSetter: string, gdSetter: string, gdTyp: VariantType,
                                         gdSetterArgs: seq<string>)

  datatype ClassMethod = ClassMethod(gdName: string, goName: string, gdArgs: seq<string>, isVirtual: bool)

  /** A signal argument as the host receives it (the wrapper never produces one). */
  datatype SignalParam = SignalParam(name: string, typ: VariantType)

  datatype ClassSignal = ClassSignal(gdName: string, gdArgs: seq<SignalParam>)

  datatype ClassInfo = ClassInfo(name: string, properties: seq<ClassProperty>,
                                 methods: seq<ClassMethod>, signals: seq<ClassSignal>)

  /** The errors prepareClass returns, with the class name and the offending accessor. */
  datatype PrepareError =
    | NotPointerToStruct(className: string, kind: Kind)
    | GetterNotFound(className: string, accessor: string)
    | GetterWrongSignature(className: string, accessor: string)
    | SetterNotFound(className: string, accessor: string)
    | SetterWrongSignature(className: string, accessor: string)

  /** Host lifecycle hooks that are never registered as methods. */
  const ReservedMethods: seq<string> := ["Destroy"]

  const GetterPrefix: string := "_get_property_"
  const SetterPrefix: string := "_set_property_"
  /** The tag value of `set` that makes a property read-only. */
  const NoSetter: string := "nil"
  /** The snake-case prefix that marks a virtual method. */
  const VirtualPrefix: string := "x_"

  /** The shape check as the source writes it: an error only if neither test passes. */
  predicate ShapeRejectedAsWritten(kind: Kind, elemKind: Kind)
  {
    !kind.Pointer? && !elemKind.Struct?
  }

  /** The shape check its error message describes: anything but a pointer to a struct. */
  predicate ShapeRejected(kind: Kind, elemKind: Kind)
  {
    !kind.Pointer? || !elemKind.Struct?
  }

  /** reflect.Type.MethodByName: the exported method of that name, if any. */
  function FindMethod(methods: seq<MethodDesc>, name: string): (r: Option<MethodDesc>)
    ensures r.Some? ==> r.value in methods && r.value.exported && r.value.name == name
    ensures r.None? ==> forall m :: m in methods && m.exported ==> m.name != name
  {
    if methods == [] then None
    else if methods[0].exported && methods[0].name == name then Some(methods[0])
    else FindMethod(methods[1..], name)
  }

  /** Names of the exported methods in a method set. */
  function ExportedNames(methods: seq<MethodDesc>): set<string>
  {
    set m | m in methods && m.exported :: m.name
  }

  /** Every exported method reachable through an anonymous visible field. */
  function EmbeddedNames(fields: seq<VisibleField>): set<string>
  {
    if fields == [] then {}
    else
      var f := fields[|fields| - 1];
      EmbeddedNames(fields[..|fields| - 1])
        + (if f.anonymous then ExportedNames(f.valueMethods) + ExportedNames(f.pointerMethods) else {})
  }

  /** Method names excluded before any field is looked at: the reserved ones and the embedded ones. */
  function BaseIgnored(c: ClassDesc): set<string>
  {
    (set r | r in ReservedMethods) + EmbeddedNames(c.visibleFields)
  }

  /** Getter and setter names that properties consume. */
  function AccessorNames(properties: seq<ClassProperty>): set<string>
  {
    (set p | p in properties :: p.goGetter) + (set p | p in properties && p.goSetter != "" :: p.goSetter)
  }

  /** What one of the struct's own fields turns into. */
  datatype FieldOutcome =
    | Skipped
    | AsSignal(signal: ClassSignal)
    | AsProperty(property: ClassProperty)
    | Failed(error: PrepareError)

  /** The exposed name of a field: the tag's `name`, else snake_case of the field name. */
  function ExposedName(naming: Naming, f: FieldDesc): string
  {
    var tag := ParsedTag(f.tag);
    if tag.Some? && tag.value.name != "" then tag.value.name else naming.snake(f.name)
  }

  /** The getter a field names: the tag's `get`, else "Get" + CamelCase of the field name. */
  function GetterName(naming: Naming, f: FieldDesc): string
  {
    var tag := ParsedTag(f.tag);
    if tag.Some? && tag.value.getter != "" then tag.value.getter else "Get" + naming.camel(f.name)
  }

  /** The setter a field names ("" when the tag says `set=nil`). */
  function SetterName(naming: Naming, f: FieldDesc): string
  {
    var tag := ParsedTag(f.tag);
    if tag.Some? && tag.value.setter != "" then
      (if tag.value.setter == NoSetter then "" else tag.value.setter)
    else "Set" + naming.camel(f.name)
  }

  /** The rules of the field loop, for one field, with the class's method set to look accessors up in. */
  function ResolveField(c: ClassDesc, naming: Naming, f: FieldDesc): FieldOutcome
  {
    if !f.exported || f.anonymous then Skipped
    else
      var gdName := ExposedName(naming, f);
      if f.isSignal then AsSignal(ClassSignal(gdName, []))
      else
        var goGetter := GetterName(naming, f);
        var getter := FindMethod(c.methods, goGetter);
        if getter.None? then Failed(GetterNotFound(c.name, goGetter))
        else if getter.value.numIn != 1 || getter.value.numOut != 1 then
          Failed(GetterWrongSignature(c.name, goGetter))
        else
          var goSetter := SetterName(naming, f);
          var gdSetter := if goSetter == "" then "" else SetterPrefix + gdName;
          var property := ClassProperty(gdName, goGetter, GetterPrefix + gdName, goSetter, gdSetter,
                                        f.variantType, ["value"]);
          if goSetter == "" then AsProperty(property)
          else
            var setter := FindMethod(c.methods, goSetter);
            if setter.None? then Failed(SetterNotFound(c.name, goSetter))
            else if setter.value.numIn != 2 || setter.value.numOut != 0 then
              Failed(SetterWrongSignature(c.name, goSetter))
            else AsProperty(property)
  }

  function PropertyOf(c: ClassDesc, naming: Naming): FieldDesc -> Option<ClassProperty>
  {
    (f: FieldDesc) => var o := ResolveField(c, naming, f); if o.AsProperty? then Some(o.property) else None
  }

  function SignalOf(c: ClassDesc, naming: Naming): FieldDesc -> Option<ClassSignal>
  {
    (f: FieldDesc) => var o := ResolveField(c, naming, f); if o.AsSignal? then Some(o.signal) else None
  }

  function ErrorOf(c: ClassDesc, naming: Naming): FieldDesc -> Option<PrepareError>
  {
    (f: FieldDesc) => var o := ResolveField(c, naming, f); if o.Failed? then Some(o.error) else None
  }

  /** The positional placeholders "arg0", "arg1", ... for n arguments. */
  function ArgNames(n: nat): (names: seq<string>)
    ensures |names| == n
  {
    if n == 0 then [] else ArgNames(n - 1) + ["arg" + NatToString(n - 1)]
  }

  /** The descriptor of a method that is registered. */
  function MethodOf(naming: Naming, m: MethodDesc): ClassMethod
  {
    var snake := naming.snake(m.name);
    var isVirtual := HasPrefix(snake, VirtualPrefix);
    ClassMethod(if isVirtual then snake[1..] else snake, m.name, ArgNames(m.numIn - 1), isVirtual)
  }

  function MethodPart(naming: Naming, ignored: set<string>): MethodDesc -> Option<ClassMethod>
  {
    (m: MethodDesc) => if m.exported && m.name !in ignored then Some(MethodOf(naming, m)) else None
  }

  /** Every method name excluded from the method list. */
  function Ignored(c: ClassDesc, naming: Naming): set<string>
  {
    BaseIgnored(c) + AccessorNames(Collect(c.fields, PropertyOf(c, naming)))
  }

  /**
   * What preparing a class yields: a shape error; else the error of the
   * first field that fails; else properties and signals in field order and
   * the methods that are neither reserved, embedded nor accessors, in
   * method-set order.
   */
  function Prepared(c: ClassDesc, naming: Naming): Result<ClassInfo, PrepareError>
    requires HasElem(c.kind)
  {
    if ShapeRejected(c.kind, c.elemKind) then Failure(NotPointerToStruct(c.name, c.kind))
    else
      var err := FirstSome(c.fields, ErrorOf(c, naming));
      if err.Some? then Failure(err.value)
      else
        Success(ClassInfo(c.name, Collect(c.fields, PropertyOf(c, naming)),
                          Collect(c.methods, MethodPart(naming, Ignored(c, naming))),
                          Collect(c.fields, SignalOf(c, naming))))
  }

  lemma AccessorNamesAppend(properties: seq<ClassProperty>, p: ClassProperty)
    ensures AccessorNames(properties + [p])
            == AccessorNames(properties) + {p.goGetter} + (if p.goSetter != "" then {p.goSetter} else {})
  {
    var ps := properties + [p];
    assert forall q :: q in ps <==> q in properties || q == p;
  }

  /** Lines 91-113: the reserved names, then every exported method of each anonymous visible field. */
  method CollectIgnored(c: ClassDesc) returns (ignored: set<string>)
    ensures ignored == BaseIgnored(c)
  {
    ignored := {};
    for k := 0 to |ReservedMethods|
      invariant ignored == set r | r in ReservedMethods[..k]
    {
      assert ReservedMethods[..k + 1] == ReservedMethods[..k] + [ReservedMethods[k]];
      ignored := ignored + {ReservedMethods[k]};
    }
    assert ReservedMethods[..|ReservedMethods|] == ReservedMethods;
    ghost var reserved := ignored;

    for v := 0 to |c.visibleFields|
      invariant ignored == reserved + EmbeddedNames(c.visibleFields[..v])
    {
      var field := c.visibleFields[v];
      assert c.visibleFields[..v + 1][..v] == c.visibleFields[..v];
      ghost var before := ignored;
      if field.anonymous {
        for m := 0 to |field.valueMethods|
          invariant ignored == before + ExportedNames(field.valueMethods[..m])
        {
          assert field.valueMethods[..m + 1] == field.valueMethods[..m] + [field.valueMethods[m]];
          var meth := field.valueMethods[m];
          if meth.exported {
            ignored := ignored + {meth.name};
          }
        }
        assert field.valueMethods[..|field.valueMethods|] == field.valueMethods;
        ghost var middle := ignored;
        for m := 0 to |field.pointerMethods|
          invariant ignored == middle + ExportedNames(field.pointerMethods[..m])
        {
          assert field.pointerMethods[..m + 1] == field.pointerMethods[..m] + [field.pointerMethods[m]];
          var meth := field.pointerMethods[m];
          if meth.exported {
            ignored := ignored + {meth.name};
          }
        }
        assert field.pointerMethods[..|field.pointerMethods|] == field.pointerMethods;
      }
    }
    assert c.visibleFields[..|c.visibleFields|] == c.visibleFields;
  }

  /** Lines 116-184: one field of the struct, as the body of the field loop handles it. */
  method ResolveOneField(c: ClassDesc, naming: Naming, field: FieldDesc) returns (o: FieldOutcome)
    ensures o == ResolveField(c, naming, field)
  {
    var name := c.name;
    if !field.exported || field.anonymous {
      return Skipped;
    }

    var fieldName := naming.snake(field.name);
    var info := ParseTag(field.tag);
    if info.Some? && info.value.name != "" {
      fieldName := info.value.name;
    }

    if field.isSignal {
      return AsSignal(ClassSignal(fieldName, []));
    }

    var getterName := GetterPrefix + fieldName;
    var goGetter := "Get" + naming.camel(field.name);
    if info.Some? && info.value.getter != "" {
      goGetter := info.value.getter;
    }
    var meth := FindMethod(c.methods, goGetter);
    if meth.None? {
      return Failed(GetterNotFound(name, goGetter));
    }
    if meth.value.numIn != 1 || meth.value.numOut != 1 {
      return Failed(GetterWrongSignature(name, goGetter));
    }

    var setterName := SetterPrefix + fieldName;
    var goSetter := "Set" + naming.camel(field.name);
    if info.Some? && info.value.setter != "" {
      goSetter := info.value.setter;
      if goSetter == NoSetter {
        goSetter := "";
        setterName := "";
      }
    }
    if goSetter != "" {
      meth := FindMethod(c.methods, goSetter);
      if meth.None? {
        return Failed(SetterNotFound(name, goSetter));
      }
      if meth.value.numIn != 2 || meth.value.numOut != 0 {
        return Failed(SetterWrongSignature(name, goSetter));
      }
    }

    return AsProperty(ClassProperty(fieldName, goGetter, getterName, goSetter, setterName,
                                    field.variantType, ["value"]));
  }

  /** How the three field-loop accumulators grow by one field. */
  lemma FieldStep(c: ClassDesc, naming: Naming, f: nat)
    requires f < |c.fields|
    ensures var o := ResolveField(c, naming, c.fields[f]);
            && Collect(c.fields[..f + 1], PropertyOf(c, naming))
               == Collect(c.fields[..f], PropertyOf(c, naming)) + (if o.AsProperty? then [o.property] else [])
            && Collect(c.fields[..f + 1], SignalOf(c, naming))
               == Collect(c.fields[..f], SignalOf(c, naming)) + (if o.AsSignal? then [o.signal] else [])
            && (FirstSome(c.fields[..f], ErrorOf(c, naming)).None? ==>
                  FirstSome(c.fields[..f + 1], ErrorOf(c, naming)) == (if o.Failed? then Some(o.error) else None))
  {
    var prefix := c.fields[..f + 1];
    assert prefix[..f] == c.fields[..f];
    assert prefix[f] == c.fields[f];
  }

  /**
   * Lines 115-185: the field loop. It stops at the first failing field;
   * otherwise it appends properties and signals in field order and adds every
   * consumed getter and setter to the ignore set.
   */
  method ResolveFields(c: ClassDesc, naming: Naming, ignored0: set<string>)
    returns (r: Result<(seq<ClassProperty>, seq<ClassSignal>, set<string>), PrepareError>)
    ensures r.Failure? <==> FirstSome(c.fields, ErrorOf(c, naming)).Some?
    ensures r.Failure? ==> r.error == FirstSome(c.fields, ErrorOf(c, naming)).value
    ensures r.Success? ==> r.value.0 == Collect(c.fields, PropertyOf(c, naming))
    ensures r.Success? ==> r.value.1 == Collect(c.fields, SignalOf(c, naming))
    ensures r.Success? ==> r.value.2 == ignored0 + AccessorNames(r.value.0)
  {
    var properties: seq<ClassProperty> := [];
    var signals: seq<ClassSignal> := [];
    var ignored := ignored0;
    for f := 0 to |c.fields|
      invariant FirstSome(c.fields[..f], ErrorOf(c, naming)).None?
      invariant properties == Collect(c.fields[..f], PropertyOf(c, naming))
      invariant signals == Collect(c.fields[..f], SignalOf(c, naming))
      invariant ignored == ignored0 + AccessorNames(properties)
    {
      var field := c.fields[f];
      var outcome := ResolveOneField(c, naming, field);
      FieldStep(c, naming, f);
      match outcome
      case Skipped =>
      case AsSignal(signal) =>
        signals := signals + [signal];
      case Failed(e) =>
        FirstSomeSticks(c.fields, f + 1, ErrorOf(c, naming));
        return Failure(e);
      case AsProperty(property) =>
        ignored := ignored + {property.goGetter};
        if property.goSetter != "" {
          ignored := ignored + {property.goSetter};
        }
        AccessorNamesAppend(properties, property);
        properties := properties + [property];
    }
    assert c.fields[..|c.fields|] == c.fields;
    return Success((properties, signals, ignored));
  }

  /** Lines 187-211: the method loop over the pointer type's method set. */
  method DescribeMethods(naming: Naming, ms: seq<MethodDesc>, ignored: set<string>)
    returns (methods: seq<ClassMethod>)
    ensures methods == Collect(ms, MethodPart(naming, ignored))
  {
    methods := [];
    for m := 0 to |ms|
      invariant methods == Collect(ms[..m], MethodPart(naming, ignored))
    {
      var meth := ms[m];
      assert ms[..m + 1][..m] == ms[..m];
      assert ms[..m + 1][m] == meth;
      if !meth.exported {
        continue;
      }
      if meth.name in ignored {
        continue;
      }
      var methodName := naming.snake(meth.name);
      var isVirtual := false;
      if HasPrefix(methodName, VirtualPrefix) {
        methodName := methodName[1..];
        isVirtual := true;
      }
      var args: seq<string> := [];
      for i := 1 to meth.numIn
        invariant args == ArgNames(i - 1)
      {
        args := args + ["arg" + NatToString(i - 1)];
      }
      methods := methods + [ClassMethod(methodName, meth.name, args, isVirtual)];
    }
    assert ms[..|ms|] == ms;
  }

  /** prepareClass (lines 78-220). */
  method PrepareClass(c: ClassDesc, naming: Naming) returns (r: Result<ClassInfo, PrepareError>)
    requires HasElem(c.kind)
    ensures r == Prepared(c, naming)
  {
    if ShapeRejected(c.kind, c.elemKind) {
      return Failure(NotPointerToStruct(c.name, c.kind));
    }
    var ignored := CollectIgnored(c);
    var fields := ResolveFields(c, naming, ignored);
    if fields.Failure? {
      return Failure(fields.error);
    }
    var (properties, signals, allIgnored) := fields.value;
    var methods := DescribeMethods(naming, c.methods, allIgnored);
    return Success(ClassInfo(c.name, properties, methods, signals));
  }
}
