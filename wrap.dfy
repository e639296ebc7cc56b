/**
 * The registrar (pkg/wrapper/wrap.go): Wrap prepares a class and keeps its
 * descriptor; Initialize registers the class with the host and then binds
 * its methods, its properties and its signals, in that order; Terminate does
 * nothing.
 *
 * The host's class database is seen only through the calls made to it: a
 * Host object records each registration call in order. ClassDBRegisterClass
 * runs the registration callback it is given; the model runs that callback
 * right after recording the class registration.
 */
module Wrap {
  import opened Wrappers
  import opened Seqs
  import opened Prepare

  /** One call into the host's registration interface. */
  datatype HostCall =
    | RegisterClass(className: string)
    | BindMethod(goName: string, gdName: string, args: seq<string>)
    | BindVirtualMethod(goName: string, gdName: string, args: seq<string>)
    | AddProperty(variantType: VariantType, gdName: string, setter: string, getter: string)
    | AddSignal(gdName: string, params: seq<SignalParam>)

  /** The host's class database, as the sequence of calls it has received. */
  class Host {
    var calls: seq<HostCall>

    constructor ()
      ensures calls == []
    {
      calls := [];
    }

    method ClassDBRegisterClass(className: string)
      modifies this
      ensures calls == old(calls) + [RegisterClass(className)]
    {
      calls := calls + [RegisterClass(className)];
    }

    method ClassDBBindMethod(goName: string, gdName: string, args: seq<string>)
      modifies this
      ensures calls == old(calls) + [BindMethod(goName, gdName, args)]
    {
      calls := calls + [BindMethod(goName, gdName, args)];
    }

    method ClassDBBindMethodVirtual(goName: string, gdName: string, args: seq<string>)
      modifies this
      ensures calls == old(calls) + [BindVirtualMethod(goName, gdName, args)]
    {
      calls := calls + [BindVirtualMethod(goName, gdName, args)];
    }

    method ClassDBAddProperty(variantType: VariantType, gdName: string, setter: string, getter: string)
      modifies this
      ensures calls == old(calls) + [AddProperty(variantType, gdName, setter, getter)]
    {
      calls := calls + [AddProperty(variantType, gdName, setter, getter)];
    }

    method ClassDBAddSignal(gdName: string, params: seq<SignalParam>)
      modifies this
      ensures calls == old(calls) + [AddSignal(gdName, params)]
    {
      calls := calls + [AddSignal(gdName, params)];
    }
  }

  /** The binding of one method: the virtual path exactly for virtual methods. */
  function MethodCall(m: ClassMethod): HostCall
  {
    if m.isVirtual then BindVirtualMethod(m.goName, m.gdName, m.gdArgs) else BindMethod(m.goName, m.gdName, m.gdArgs)
  }

  function MethodCalls(ms: seq<ClassMethod>): seq<HostCall>
  {
    if ms == [] then [] else MethodCalls(ms[..|ms| - 1]) + [MethodCall(ms[|ms| - 1])]
  }

  /** The calls for one property: its getter, its setter if it has one, then the property itself. */
  function PropertyBlock(p: ClassProperty): seq<HostCall>
  {
    [BindMethod(p.goGetter, p.gdGetter, [])]
    + (if p.goSetter != "" then [BindMethod(p.goSetter, p.gdSetter, p.gdSetterArgs)] else [])
    + [AddProperty(p.gdTyp, p.gdName, p.gdSetter, p.gdGetter)]
  }

  function PropertyCalls(ps: seq<ClassProperty>): seq<HostCall>
  {
    if ps == [] then [] else PropertyCalls(ps[..|ps| - 1]) + PropertyBlock(ps[|ps| - 1])
  }

  function SignalCall(s: ClassSignal): HostCall
  {
    AddSignal(s.gdName, s.gdArgs)
  }

  function SignalCalls(ss: seq<ClassSignal>): seq<HostCall>
  {
    if ss == [] then [] else SignalCalls(ss[..|ss| - 1]) + [SignalCall(ss[|ss| - 1])]
  }

  /** Everything the registration callback asks of the host, in order. */
  function RegistrationTrace(info: ClassInfo): seq<HostCall>
  {
    MethodCalls(info.methods) + PropertyCalls(info.properties) + SignalCalls(info.signals)
  }

  /** classRegister: the constructor and the descriptor prepared from it. */
  class ClassRegister {
    const ctr: ClassDesc
    const info: ClassInfo

    constructor (ctr: ClassDesc, info: ClassInfo)
      ensures this.ctr == ctr && this.info == info
    {
      this.ctr := ctr;
      this.info := info;
    }

    /** Registers the class, then runs the registration callback (wrap.go:34-61). */
    method Initialize(host: Host)
      modifies host
      ensures host.calls == old(host.calls) + [RegisterClass(info.name)] + RegistrationTrace(info)
    {
      host.ClassDBRegisterClass(info.name);
      BindMethods(host);
      BindProperties(host);
      AddSignals(host);
    }

    /** The callback's first loop (wrap.go:38-45): every method, through the virtual path if virtual. */
    method BindMethods(host: Host)
      modifies host
      ensures host.calls == old(host.calls) + MethodCalls(info.methods)
    {
      for i := 0 to |info.methods|
        invariant host.calls == old(host.calls) + MethodCalls(info.methods[..i])
      {
        assert info.methods[..i + 1][..i] == info.methods[..i];
        var m := info.methods[i];
        if m.isVirtual {
          host.ClassDBBindMethodVirtual(m.goName, m.gdName, m.gdArgs);
        } else {
          host.ClassDBBindMethod(m.goName, m.gdName, m.gdArgs);
        }
      }
      assert info.methods[..|info.methods|] == info.methods;
    }

    /** The callback's second loop (wrap.go:47-54): getter, optional setter, then the property. */
    method BindProperties(host: Host)
      modifies host
      ensures host.calls == old(host.calls) + PropertyCalls(info.properties)
    {
      for i := 0 to |info.properties|
        invariant host.calls == old(host.calls) + PropertyCalls(info.properties[..i])
      {
        assert info.properties[..i + 1][..i] == info.properties[..i];
        var prop := info.properties[i];
        host.ClassDBBindMethod(prop.goGetter, prop.gdGetter, []);
        if prop.goSetter != "" {
          host.ClassDBBindMethod(prop.goSetter, prop.gdSetter, prop.gdSetterArgs);
        }
        host.ClassDBAddProperty(prop.gdTyp, prop.gdName, prop.gdSetter, prop.gdGetter);
      }
      assert info.properties[..|info.properties|] == info.properties;
    }

    /** The callback's third loop (wrap.go:56-59): every signal with its parameters. */
    method AddSignals(host: Host)
      modifies host
      ensures host.calls == old(host.calls) + SignalCalls(info.signals)
    {
      for i := 0 to |info.signals|
        invariant host.calls == old(host.calls) + SignalCalls(info.signals[..i])
      {
        assert info.signals[..i + 1][..i] == info.signals[..i];
        var signal := info.signals[i];
        host.ClassDBAddSignal(signal.gdName, signal.gdArgs);
      }
      assert info.signals[..|info.signals|] == info.signals;
    }

    /** Terminate (wrap.go:63-64): issues no host call. */
    method Terminate(host: Host)
      ensures host.calls == old(host.calls)
    {
    }
  }

  /** Wrap (wrap.go:17-27): the preparation error, or a register holding the descriptor. */
  method Wrap(ctr: ClassDesc, naming: Naming) returns (r: Result<ClassRegister, PrepareError>)
    requires HasElem(ctr.kind)
    ensures r.Failure? <==> Prepared(ctr, naming).Failure?
    ensures r.Failure? ==> r.error == Prepared(ctr, naming).error
    ensures r.Success? ==> r.value.ctr == ctr && r.value.info == Prepared(ctr, naming).value
  {
    var info := PrepareClass(ctr, naming);
    if info.Failure? {
      return Failure(info.error);
    }
    var register := new ClassRegister(ctr, info.value);
    return Success(register);
  }
}
