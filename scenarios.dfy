/**
 * The two example classes of the repository, as class descriptions, and
 * what preparing and registering them yields. Reflection lists a method set
 * sorted by name; the embedded Node2DImpl is represented by two of its
 * exported methods (GetPosition, SetPosition) and its Destroy hook.
 */
module Scenarios {
  import opened Wrappers
  import opened Strings
  import opened Seqs
  import opened Tags
  import opened Prepare
  import opened Wrap

  /** The strcase results the scenarios depend on. */
  predicate ExampleNaming(naming: Naming)
  {
    && naming.snake("Speed") == "speed" && naming.camel("Speed") == "Speed"
    && naming.snake("Direction") == "direction" && naming.camel("Direction") == "Direction"
    && naming.snake("SecretPrinted") == "secret_printed"
    && naming.snake("Move") == "move"
    && naming.snake("X_Ready") == "x_ready"
  }

  function BaseMethods(): seq<MethodDesc>
  {
    [MethodDesc("Destroy", true, 1, 0), MethodDesc("GetPosition", true, 1, 1), MethodDesc("SetPosition", true, 2, 0)]
  }

  /** examples/complete/lib.go: MyNode2D with a renamed property, a read-only property and a signal. */
  function CompleteClass(intType: VariantType, vectorType: VariantType): ClassDesc
  {
    ClassDesc(
      "MyNode2D", Pointer, Struct,
      [ FieldDesc("Node2DImpl", true, true, "", false, 0),
        FieldDesc("Speed", true, false, "name=speed2", false, intType),
        FieldDesc("Direction", true, false, "get=MyDirection,set=nil", false, vectorType),
        FieldDesc("secret", false, false, "", false, 0),
        FieldDesc("SecretPrinted", true, false, "", true, 0) ],
      [ VisibleField(true, [], BaseMethods()) ],
      [ MethodDesc("Destroy", true, 1, 0), MethodDesc("GetPosition", true, 1, 1), MethodDesc("GetSpeed", true, 1, 1),
        MethodDesc("Move", true, 2, 0), MethodDesc("MyDirection", true, 1, 1), MethodDesc("SetPosition", true, 2, 0),
        MethodDesc("SetSpeed", true, 2, 0), MethodDesc("X_Ready", true, 1, 0) ])
  }

  function CompleteInfo(intType: VariantType, vectorType: VariantType): ClassInfo
  {
    ClassInfo(
      "MyNode2D",
      [ ClassProperty("speed2", "GetSpeed", "_get_property_speed2", "SetSpeed", "_set_property_speed2", intType, ["value"]),
        ClassProperty("direction", "MyDirection", "_get_property_direction", "", "", vectorType, ["value"]) ],
      [ ClassMethod("move", "Move", ["arg0"], false), ClassMethod("_ready", "X_Ready", [], true) ],
      [ ClassSignal("secret_printed", []) ])
  }

  /** A tag made of one or two assignments splits into those segments. */
  lemma AssignmentsTag(k1: string, v1: string, k2: string, v2: string)
    requires '=' !in k1 && '=' !in v1 && ',' !in k1 && ',' !in v1
    requires '=' !in k2 && '=' !in v2 && ',' !in k2 && ',' !in v2
    ensures Assignment(k1 + "=" + v1) == Some((k1, v1))
    ensures Split(k1 + "=" + v1, ',') == [k1 + "=" + v1]
    ensures Split(k1 + "=" + v1 + "," + (k2 + "=" + v2), ',') == [k1 + "=" + v1, k2 + "=" + v2]
  {
    AssignmentOf(k1, v1);
    SplitNoSep(k1 + "=" + v1, ',');
    SplitNoSep(k2 + "=" + v2, ',');
    SegmentsAppend(k1 + "=" + v1, k2 + "=" + v2);
  }

  /** Speed's tag renames the property. */
  lemma RenameTag(tag: string)
    requires tag == "name=speed2"
    ensures ParsedTag(tag) == Some(TagData("speed2", "", ""))
  {
    var nameSeg := "name" + "=" + "speed2";
    AssignmentsTag("name", "speed2", "", "");
    assert [nameSeg][..0] == [];
    assert LastValue([nameSeg], "name") == "speed2";
    assert LastValue([nameSeg], "get") == "";
    assert LastValue([nameSeg], "set") == "";
    assert tag == nameSeg;
  }

  /** Two segments that assign different keys: each key keeps its own value, any other key none. */
  lemma TwoAssignments(a: string, b: string, k1: string, v1: string, k2: string, v2: string, other: string)
    requires Assignment(a) == Some((k1, v1)) && Assignment(b) == Some((k2, v2))
    requires k1 != k2 && other != k1 && other != k2
    ensures LastValue([a, b], k1) == v1 && LastValue([a, b], k2) == v2 && LastValue([a, b], other) == ""
  {
    assert [a, b][..1] == [a] && [a][..0] == [];
    assert LastValue([a], k1) == v1 && LastValue([a], other) == "";
    assert LastValue([a, b], k1) == LastValue([a], k1);
    assert LastValue([a, b], other) == LastValue([a], other);
  }

  /** Direction's tag names its getter and marks it read-only. */
  lemma AccessorTag(tag: string)
    requires tag == "get=MyDirection,set=nil"
    ensures ParsedTag(tag) == Some(TagData("", "MyDirection", "nil"))
  {
    var getSeg, setSeg := "get" + "=" + "MyDirection", "set" + "=" + "nil";
    AccessorSegments(tag);
    AssignmentsTag("set", "nil", "", "");
    TwoAssignments(getSeg, setSeg, "get", "MyDirection", "set", "nil", "name");
  }

  /** Direction's tag splits into its two assignments. */
  lemma AccessorSegments(tag: string)
    requires tag == "get=MyDirection,set=nil"
    ensures Split(tag, ',') == ["get" + "=" + "MyDirection", "set" + "=" + "nil"]
    ensures Assignment("get" + "=" + "MyDirection") == Some(("get", "MyDirection"))
  {
    DirectionTagSpelling(tag);
    AssignmentsTag("get", "MyDirection", "set", "nil");
  }

  /** Direction's tag, spelt as its two assignments. */
  lemma DirectionTagSpelling(tag: string)
    requires tag == "get=MyDirection,set=nil"
    ensures tag == "get" + "=" + "MyDirection" + "," + ("set" + "=" + "nil")
  {
  }

  /** Looking up a method whose name no other method of the set carries finds that method. */
  lemma FindUnique(ms: seq<MethodDesc>, k: nat)
    requires k < |ms| && ms[k].exported
    requires forall j :: 0 <= j < |ms| && ms[j].name == ms[k].name ==> j == k
    ensures FindMethod(ms, ms[k].name) == Some(ms[k])
  {
  }

  /** Looking up a name no method of the set carries finds nothing. */
  lemma FindAbsent(ms: seq<MethodDesc>, name: string)
    requires forall j :: 0 <= j < |ms| ==> ms[j].name != name
    ensures FindMethod(ms, name) == None
  {
  }

  /** The accessor names the complete example spells out. */
  lemma Spelling()
    ensures "Get" + "Speed" == "GetSpeed" && "Set" + "Speed" == "SetSpeed"
    ensures GetterPrefix + "speed2" == "_get_property_speed2" && SetterPrefix + "speed2" == "_set_property_speed2"
    ensures GetterPrefix + "direction" == "_get_property_direction"
  {
  }

  /** The names Speed's tag gives: exposed as speed2, accessors from the field name. */
  lemma SpeedNames(naming: Naming, f: FieldDesc)
    requires ExampleNaming(naming) && f.name == "Speed"
    requires ParsedTag(f.tag) == Some(TagData("speed2", "", ""))
    ensures ExposedName(naming, f) == "speed2"
    ensures GetterName(naming, f) == "GetSpeed" && SetterName(naming, f) == "SetSpeed"
  {
    Spelling();
  }

  /** The names Direction's tag gives: getter MyDirection, no setter. */
  lemma DirectionNames(naming: Naming, f: FieldDesc)
    requires ExampleNaming(naming) && f.name == "Direction"
    requires ParsedTag(f.tag) == Some(TagData("", "MyDirection", "nil"))
    ensures ExposedName(naming, f) == "direction"
    ensures GetterName(naming, f) == "MyDirection" && SetterName(naming, f) == ""
  {
  }

  /** The accessors the complete example's fields name (GetSpeed, MyDirection, SetSpeed) are found in its method set. */
  lemma CompleteLookup(intType: VariantType, vectorType: VariantType, k: nat)
    requires k == 2 || k == 4 || k == 6
    ensures var ms := CompleteClass(intType, vectorType).methods;
            FindMethod(ms, ms[k].name) == Some(ms[k])
  {
    FindUnique(CompleteClass(intType, vectorType).methods, k);
  }

  /** Speed: renamed to speed2, read through GetSpeed and written through SetSpeed. */
  lemma SpeedField(naming: Naming, intType: VariantType, vectorType: VariantType)
    requires ExampleNaming(naming)
    ensures var c := CompleteClass(intType, vectorType);
            ResolveField(c, naming, c.fields[1]) == AsProperty(CompleteInfo(intType, vectorType).properties[0])
  {
    var c := CompleteClass(intType, vectorType);
    RenameTag(c.fields[1].tag);
    SpeedNames(naming, c.fields[1]);
    CompleteLookup(intType, vectorType, 2);
    CompleteLookup(intType, vectorType, 6);
    Spelling();
  }

  /** Direction: read through MyDirection, no setter. */
  lemma DirectionField(naming: Naming, intType: VariantType, vectorType: VariantType)
    requires ExampleNaming(naming)
    ensures var c := CompleteClass(intType, vectorType);
            ResolveField(c, naming, c.fields[2]) == AsProperty(CompleteInfo(intType, vectorType).properties[1])
  {
    var c := CompleteClass(intType, vectorType);
    AccessorTag(c.fields[2].tag);
    DirectionNames(naming, c.fields[2]);
    CompleteLookup(intType, vectorType, 4);
    Spelling();
  }

  /** What each field of the complete example turns into. */
  lemma CompleteOutcomes(naming: Naming, intType: VariantType, vectorType: VariantType)
    requires ExampleNaming(naming)
    ensures var c := CompleteClass(intType, vectorType);
            var info := CompleteInfo(intType, vectorType);
            && ResolveField(c, naming, c.fields[0]) == Skipped
            && ResolveField(c, naming, c.fields[1]) == AsProperty(info.properties[0])
            && ResolveField(c, naming, c.fields[2]) == AsProperty(info.properties[1])
            && ResolveField(c, naming, c.fields[3]) == Skipped
            && ResolveField(c, naming, c.fields[4]) == AsSignal(info.signals[0])
  {
    SpeedField(naming, intType, vectorType);
    DirectionField(naming, intType, vectorType);
  }

  /** The list an optional value contributes to a collection. */
  function Listed<U>(o: Option<U>): seq<U>
  {
    if o.Some? then [o.value] else []
  }

  /** Collecting over one element. */
  lemma CollectOne<T, U>(x: T, f: T -> Option<U>)
    ensures Collect([x], f) == Listed(f(x))
  {
    assert [x][..0] == [];
  }

  /** Collecting over five elements, one at a time. */
  lemma CollectFive<T, U>(s: seq<T>, f: T -> Option<U>)
    requires |s| == 5
    ensures Collect(s, f) == Listed(f(s[0])) + Listed(f(s[1])) + Listed(f(s[2])) + Listed(f(s[3])) + Listed(f(s[4]))
  {
    assert s == [s[0]] + [s[1]] + [s[2]] + [s[3]] + [s[4]];
    CollectAppend([s[0]], [s[1]], f);
    CollectAppend([s[0]] + [s[1]], [s[2]], f);
    CollectAppend([s[0]] + [s[1]] + [s[2]], [s[3]], f);
    CollectAppend([s[0]] + [s[1]] + [s[2]] + [s[3]], [s[4]], f);
    CollectOne(s[0], f);
    CollectOne(s[1], f);
    CollectOne(s[2], f);
    CollectOne(s[3], f);
    CollectOne(s[4], f);
  }

  /** No field of the complete example fails. */
  lemma CompleteNoError(naming: Naming, intType: VariantType, vectorType: VariantType)
    requires ExampleNaming(naming)
    ensures var c := CompleteClass(intType, vectorType);
            FirstSome(c.fields, ErrorOf(c, naming)).None?
  {
    var c := CompleteClass(intType, vectorType);
    var e := ErrorOf(c, naming);
    CompleteOutcomes(naming, intType, vectorType);
    forall i | 0 <= i < |c.fields| ensures e(c.fields[i]).None? {
      assert i == 0 || i == 1 || i == 2 || i == 3 || i == 4;
    }
    FirstSomeNone(c.fields, e);
  }

  /** A two-element sequence is the pair of its elements. */
  lemma PairElements<T>(s: seq<T>)
    requires |s| == 2
    ensures s == [s[0], s[1]]
  {
  }

  /** The complete example's properties, in field order. */
  lemma CompleteProperties(naming: Naming, intType: VariantType, vectorType: VariantType)
    requires ExampleNaming(naming)
    ensures var c := CompleteClass(intType, vectorType);
            Collect(c.fields, PropertyOf(c, naming)) == CompleteInfo(intType, vectorType).properties
  {
    var c, info := CompleteClass(intType, vectorType), CompleteInfo(intType, vectorType);
    var p0, p1 := info.properties[0], info.properties[1];
    assert Collect(c.fields, PropertyOf(c, naming)) == [p0, p1] by {
      CompleteOutcomes(naming, intType, vectorType);
      CollectTwoOfFive(c.fields, PropertyOf(c, naming), p0, p1);
    }
    PairElements(info.properties);
  }

  /** Collecting over five elements of which only the second and third yield something. */
  lemma CollectTwoOfFive<T, U>(s: seq<T>, f: T -> Option<U>, a: U, b: U)
    requires |s| == 5 && f(s[0]).None? && f(s[1]) == Some(a) && f(s[2]) == Some(b) && f(s[3]).None? && f(s[4]).None?
    ensures Collect(s, f) == [a, b]
  {
    CollectFive(s, f);
    assert [] + [a] + [b] + [] + [] == [a, b];
  }

  /** The complete example's one signal. */
  lemma CompleteSignals(naming: Naming, intType: VariantType, vectorType: VariantType)
    requires ExampleNaming(naming)
    ensures var c := CompleteClass(intType, vectorType);
            Collect(c.fields, SignalOf(c, naming)) == CompleteInfo(intType, vectorType).signals
  {
    var c, info := CompleteClass(intType, vectorType), CompleteInfo(intType, vectorType);
    var s0 := info.signals[0];
    assert Collect(c.fields, SignalOf(c, naming)) == [s0] by {
      CompleteOutcomes(naming, intType, vectorType);
      CollectLastOfFive(c.fields, SignalOf(c, naming), s0);
    }
  }

  /** Collecting over five elements of which only the last yields something. */
  lemma CollectLastOfFive<T, U>(s: seq<T>, f: T -> Option<U>, a: U)
    requires |s| == 5 && f(s[0]).None? && f(s[1]).None? && f(s[2]).None? && f(s[3]).None? && f(s[4]) == Some(a)
    ensures Collect(s, f) == [a]
  {
    CollectFive(s, f);
    assert [] + [] + [] + [] + [a] == [a];
  }

  /** Reserved, embedded and accessor names of the complete example. */
  lemma CompleteIgnored(naming: Naming, intType: VariantType, vectorType: VariantType)
    requires ExampleNaming(naming)
    ensures Ignored(CompleteClass(intType, vectorType), naming) ==
            {"Destroy", "GetPosition", "SetPosition", "GetSpeed", "SetSpeed", "MyDirection"}
  {
    CompleteProperties(naming, intType, vectorType);
    EmbeddedExample(intType, vectorType);
    AccessorExample(intType, vectorType);
  }

  /** Node2DImpl contributes its exported methods, Destroy included. */
  lemma EmbeddedExample(intType: VariantType, vectorType: VariantType)
    ensures EmbeddedNames(CompleteClass(intType, vectorType).visibleFields) == {"Destroy", "GetPosition", "SetPosition"}
  {
    var vs := CompleteClass(intType, vectorType).visibleFields;
    assert vs[..0] == [];
    assert ExportedNames(BaseMethods()) == {"Destroy", "GetPosition", "SetPosition"};
  }

  /** The accessors the two properties consume. */
  lemma AccessorExample(intType: VariantType, vectorType: VariantType)
    ensures AccessorNames(CompleteInfo(intType, vectorType).properties) == {"GetSpeed", "SetSpeed", "MyDirection"}
  {
  }

  /** Which of the complete example's method names are ignored. */
  lemma IgnoredMembership(ignored: set<string>)
    requires ignored == {"Destroy", "GetPosition", "SetPosition", "GetSpeed", "SetSpeed", "MyDirection"}
    ensures "Destroy" in ignored && "GetPosition" in ignored && "SetPosition" in ignored
    ensures "GetSpeed" in ignored && "SetSpeed" in ignored && "MyDirection" in ignored
    ensures "Move" !in ignored && "X_Ready" !in ignored
  {
    assert "X_Ready"[0] != "Destroy"[0];
  }

  /** Collecting over eight elements, one at a time. */
  lemma CollectEight<T, U>(s: seq<T>, f: T -> Option<U>)
    requires |s| == 8
    ensures Collect(s, f) == Listed(f(s[0])) + Listed(f(s[1])) + Listed(f(s[2])) + Listed(f(s[3]))
                             + Listed(f(s[4])) + Listed(f(s[5])) + Listed(f(s[6])) + Listed(f(s[7]))
  {
    var front, back := s[..4], s[4..];
    assert s == front + back;
    assert front[0] == s[0] && front[1] == s[1] && front[2] == s[2] && front[3] == s[3];
    assert back[0] == s[4] && back[1] == s[5] && back[2] == s[6] && back[3] == s[7];
    CollectAppend(front, back, f);
    CollectFour(front, f);
    CollectFour(back, f);
  }

  /** Collecting over four elements, one at a time. */
  lemma CollectFour<T, U>(s: seq<T>, f: T -> Option<U>)
    requires |s| == 4
    ensures Collect(s, f) == Listed(f(s[0])) + Listed(f(s[1])) + Listed(f(s[2])) + Listed(f(s[3]))
  {
    assert s == [s[0]] + [s[1]] + [s[2]] + [s[3]];
    CollectAppend([s[0]], [s[1]], f);
    CollectAppend([s[0]] + [s[1]], [s[2]], f);
    CollectAppend([s[0]] + [s[1]] + [s[2]], [s[3]], f);
    CollectOne(s[0], f);
    CollectOne(s[1], f);
    CollectOne(s[2], f);
    CollectOne(s[3], f);
  }

  /** The descriptors of Move (one argument) and X_Ready (virtual, no argument). */
  lemma ExampleDescriptors(naming: Naming)
    requires ExampleNaming(naming)
    ensures MethodOf(naming, MethodDesc("Move", true, 2, 0)) == ClassMethod("move", "Move", ["arg0"], false)
    ensures MethodOf(naming, MethodDesc("X_Ready", true, 1, 0)) == ClassMethod("_ready", "X_Ready", [], true)
  {
    assert NatToString(0) == "0" by { assert Digit(0) == '0'; }
    assert ArgNames(1) == ["arg0"] by {
      assert ArgNames(0) == [];
      assert "arg" + "0" == "arg0";
      assert ArgNames(1) == ArgNames(0) + ["arg" + NatToString(0)];
    }
    assert !HasPrefix("move", VirtualPrefix) by { assert "move"[..2][0] == 'm'; }
    assert HasPrefix("x_ready", VirtualPrefix) by { assert "x_ready"[..2] == "x_"; }
    assert "x_ready"[1..] == "_ready";
  }

  /** Which methods of the complete example are registered, method by method. */
  lemma MethodParts(naming: Naming, intType: VariantType, vectorType: VariantType, ignored: set<string>)
    requires ExampleNaming(naming)
    requires ignored == {"Destroy", "GetPosition", "SetPosition", "GetSpeed", "SetSpeed", "MyDirection"}
    ensures var ms, f := CompleteClass(intType, vectorType).methods, MethodPart(naming, ignored);
            var info := CompleteInfo(intType, vectorType);
            && f(ms[0]).None? && f(ms[1]).None? && f(ms[2]).None? && f(ms[4]).None? && f(ms[5]).None? && f(ms[6]).None?
            && f(ms[3]) == Some(info.methods[0]) && f(ms[7]) == Some(info.methods[1])
  {
    ExampleDescriptors(naming);
    IgnoredMembership(ignored);
  }

  /** Move and X_Ready are the only methods left; X_Ready is virtual. */
  lemma CompleteMethods(naming: Naming, intType: VariantType, vectorType: VariantType)
    requires ExampleNaming(naming)
    ensures var c := CompleteClass(intType, vectorType);
            Collect(c.methods, MethodPart(naming, Ignored(c, naming))) == CompleteInfo(intType, vectorType).methods
  {
    var c, info := CompleteClass(intType, vectorType), CompleteInfo(intType, vectorType);
    var d0, d1 := info.methods[0], info.methods[1];
    assert Collect(c.methods, MethodPart(naming, Ignored(c, naming))) == [d0, d1] by {
      CompleteIgnored(naming, intType, vectorType);
      MethodParts(naming, intType, vectorType, Ignored(c, naming));
      CollectFourthAndLast(c.methods, MethodPart(naming, Ignored(c, naming)), d0, d1);
    }
    PairElements(info.methods);
  }

  /** Collecting over eight elements of which only the fourth and the last yield something. */
  lemma CollectFourthAndLast<T, U>(s: seq<T>, f: T -> Option<U>, a: U, b: U)
    requires |s| == 8 && f(s[0]).None? && f(s[1]).None? && f(s[2]).None? && f(s[3]) == Some(a)
    requires f(s[4]).None? && f(s[5]).None? && f(s[6]).None? && f(s[7]) == Some(b)
    ensures Collect(s, f) == [a, b]
  {
    CollectEight(s, f);
    assert [] + [] + [] + [a] + [] + [] + [] + [b] == [a, b];
  }

  /**
   * Speed becomes property "speed2" with GetSpeed/SetSpeed; Direction a
   * read-only property read through MyDirection; SecretPrinted a signal;
   * Move an ordinary method with one argument; X_Ready the virtual "_ready".
   */
  lemma CompleteExamplePrepared(naming: Naming, intType: VariantType, vectorType: VariantType)
    requires ExampleNaming(naming)
    ensures Prepared(CompleteClass(intType, vectorType), naming) == Success(CompleteInfo(intType, vectorType))
  {
    CompleteNoError(naming, intType, vectorType);
    CompleteProperties(naming, intType, vectorType);
    CompleteSignals(naming, intType, vectorType);
    CompleteMethods(naming, intType, vectorType);
  }

  /** What Initialize asks of the host for the complete example, call by call. */
  lemma CompleteExampleRegistered(intType: VariantType, vectorType: VariantType)
    ensures RegistrationTrace(CompleteInfo(intType, vectorType)) ==
      [ BindMethod("Move", "move", ["arg0"]),
        BindVirtualMethod("X_Ready", "_ready", []),
        BindMethod("GetSpeed", "_get_property_speed2", []),
        BindMethod("SetSpeed", "_set_property_speed2", ["value"]),
        AddProperty(intType, "speed2", "_set_property_speed2", "_get_property_speed2"),
        BindMethod("MyDirection", "_get_property_direction", []),
        AddProperty(vectorType, "direction", "", "_get_property_direction"),
        AddSignal("secret_printed", []) ]
  {
    var info := CompleteInfo(intType, vectorType);
    TraceOfTwoTwoOne(info);
    var m0, m1, p0, p1 := info.methods[0], info.methods[1], info.properties[0], info.properties[1];
    var a, b := MethodCall(m0), MethodCall(m1);
    var g0, s0, add0 := BindMethod(p0.goGetter, p0.gdGetter, []), BindMethod(p0.goSetter, p0.gdSetter, p0.gdSetterArgs),
                        AddProperty(p0.gdTyp, p0.gdName, p0.gdSetter, p0.gdGetter);
    var g1, add1 := BindMethod(p1.goGetter, p1.gdGetter, []), AddProperty(p1.gdTyp, p1.gdName, p1.gdSetter, p1.gdGetter);
    assert PropertyBlock(p0) == [g0, s0, add0];
    assert PropertyBlock(p1) == [g1, add1];
    var sig := SignalCall(info.signals[0]);
    assert [a, b] + [g0, s0, add0] + [g1, add1] + [sig] == [a, b, g0, s0, add0, g1, add1, sig];
  }

  /** The trace of a class with two methods, two properties and one signal, block by block. */
  lemma TraceOfTwoTwoOne(info: ClassInfo)
    requires |info.methods| == 2 && |info.properties| == 2 && |info.signals| == 1
    ensures RegistrationTrace(info) ==
            [MethodCall(info.methods[0]), MethodCall(info.methods[1])]
            + PropertyBlock(info.properties[0]) + PropertyBlock(info.properties[1])
            + [SignalCall(info.signals[0])]
  {
    var ms, ps, ss := info.methods, info.properties, info.signals;
    assert ms[..1] == [ms[0]] && [ms[0]][..0] == [];
    assert ps[..1] == [ps[0]] && [ps[0]][..0] == [];
    assert ss[..0] == [];
    assert MethodCalls([ms[0]]) == MethodCalls([]) + [MethodCall(ms[0])];
    assert MethodCalls(ms) == [MethodCall(ms[0]), MethodCall(ms[1])];
    assert PropertyCalls([ps[0]]) == PropertyCalls([]) + PropertyBlock(ps[0]);
    assert PropertyCalls(ps) == PropertyBlock(ps[0]) + PropertyBlock(ps[1]);
    assert SignalCalls(ss) == [SignalCall(ss[0])];
  }

  /** examples/simple/lib.go: Speed has no tag and the class has no GetSpeed. */
  function SimpleClass(intType: VariantType): ClassDesc
  {
    ClassDesc(
      "MyNode2D", Pointer, Struct,
      [ FieldDesc("Node2DImpl", true, true, "", false, 0),
        FieldDesc("Speed", true, false, "", false, intType),
        FieldDesc("secret", false, false, "", false, 0) ],
      [ VisibleField(true, [], BaseMethods()) ],
      [ MethodDesc("Destroy", true, 1, 0), MethodDesc("GetPosition", true, 1, 1), MethodDesc("Move", true, 2, 0),
        MethodDesc("SetPosition", true, 2, 0), MethodDesc("X_Ready", true, 1, 0) ])
  }

  /** Preparing the simple example fails: getter "GetSpeed" not found. */
  lemma SimpleExampleFails(naming: Naming, intType: VariantType)
    requires ExampleNaming(naming)
    ensures Prepared(SimpleClass(intType), naming) == Failure(GetterNotFound("MyNode2D", "GetSpeed"))
  {
    var c := SimpleClass(intType);
    var e := ErrorOf(c, naming);
    assert GetterName(naming, c.fields[1]) == "GetSpeed";
    FindAbsent(c.methods, "GetSpeed");
    var fs := c.fields;
    assert e(fs[0]) == None;
    assert e(fs[1]) == Some(GetterNotFound("MyNode2D", "GetSpeed"));
    assert fs[..2][..1] == [fs[0]] && [fs[0]][..0] == [];
    assert FirstSome([fs[0]], e) == None;
    assert FirstSome(fs[..2], e) == Some(GetterNotFound("MyNode2D", "GetSpeed"));
    FirstSomeSticks(fs, 2, e);
  }
}
