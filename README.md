# godot-go-plus class wrapper, modelled in Dafny

godot-go-plus lets a Go program expose its own struct types to the Godot
engine as classes. The user registers class constructors with `Register`.
The extension entry point then passes each registered constructor to
`wrapper.Wrap`. `Wrap` prepares a descriptor of the class using reflection: `prepareClass` in
`pkg/wrapper/prepare.go`.

- **Fields.** Unexported and embedded (anonymous) fields are skipped. Each remaining field is looked at in turn:
  - a field whose type is a signal becomes a signal, with no accessor lookup;
  - any other field becomes a property. Its getter is found by name and must exist with the right signature. So must its setter, unless the tag says `set=nil`; then the property is read-only.
- **Methods.** Every remaining exported method becomes a bindable method. It is virtual when its snake_case name starts with `x_`.

The descriptor is kept in a `classRegister`. Its `Initialize` registers the
class with the engine. The registration callback then binds every method,
every property (getter, optional setter, then the property itself) and
every signal, in that order. `Terminate` does nothing.

The project has these modules:

- `Wrappers`: `Option` and `Result`.
- `Strings`: Go's `strings.Split` and `strings.HasPrefix`, and `%d` formatting of a natural number.
- `Seqs`: two folds that the Go loops are specified by. `Collect` is an order-preserving filter-map; `FirstSome` is the first error.
- `Tags`: the `godot:"..."` struct-tag parser `parseTag`.
- `Prepare`: `prepareClass`. The descriptor records are datatypes. `Prepared` is the specification function. `PrepareClass` is the imperative version, with the source's loops, proved equal to it.
- `PrepareLemmas`: what preparation promises about properties, signals, methods, errors and order.
- `Wrap`: `Wrap`, plus `classRegister` as a class with `Initialize` and `Terminate`. The engine is a `Host` object that records every registration call it receives. `Initialize` is proved to append exactly `RegistrationTrace(info)` after the class registration.
- `WrapLemmas`: the shape of that trace.
- `Scenarios`: the repository's two example classes worked through end to end.
  - The complete example prepares to its expected descriptor and registers with an eight-call trace. The embedded `Node2DImpl` is not part of the repository. The scenario assumes it exports exactly `Destroy`, `GetPosition` and `SetPosition`. Any further exported method of it would join the ignore set and change the method list and the trace.
  - The simple example fails with "getter GetSpeed not found".

Go reflection appears as a `ClassDesc` value:

- the kind of the constructed value and of its element;
- the struct's own fields in declaration order, each with the value of its `godot` tag key;
- the visible fields, with the method sets of the anonymous ones;
- the pointer type's method set, with input and output counts.

`strcase.ToSnake` and `strcase.ToCamel` are the two functions of a `Naming`
record. They are parameters, so every result holds for any case conversion.

Three details of the code the model keeps:

- The bridge names are `_get_property_<name>` and `_set_property_<name>`, with a leading underscore (prepare.go:142, 156).
- A virtual method keeps the underscore left after trimming the `x`, so `X_Ready` is exposed as `_ready` (prepare.go:198).
- Names are not checked for uniqueness. Two fields with the same exposed name give two properties with that name.

## Model

| member | source | states |
|---|---|---|
| Tags.ParseTag | pkg/wrapper/prepare.go:51-72 | An empty tag gives no record. Otherwise each of `name`, `get` and `set` holds the value of the last segment that assigns it, or "" when no segment does. The loop keeps that property for every prefix of the segments. |
| Tags.AssignmentExact | pkg/wrapper/prepare.go:58-61 | A segment counts as an assignment exactly when it holds one '='. It is then `key=value` with no '=' in either part. |
| Tags.LastValueIsLast | pkg/wrapper/prepare.go:57-69 | A key's last assignment decides its value, whatever comes before it. |
| Tags.LastValueAbsent | pkg/wrapper/prepare.go:56-69 | A key that no segment assigns is read as "". |
| Tags.SegmentsAppend | pkg/wrapper/prepare.go:55 | Appending `,segment` to a tag appends exactly one segment to its split. |
| Tags.ParseTagIgnoresSegment | pkg/wrapper/prepare.go:59-69 | A malformed segment (no '=' or several) changes nothing, and so does a segment with an unknown key. |
| Tags.AssignmentOf | pkg/wrapper/prepare.go:58-61 | `key=value` with no '=' in either part splits back into that key and value. |
| Tags.ParseTagLastWins | pkg/wrapper/prepare.go:62-69 | After appending `key=v` for a recognised key, the parsed record's field for that key is v. |
| Strings.JoinSplit | pkg/wrapper/prepare.go:55 | Joining the pieces of a split with the separator gives back the original string. |
| Strings.SplitPiecesAvoidSep | pkg/wrapper/prepare.go:55 | No piece of a split contains the separator. |
| Strings.SplitLength | pkg/wrapper/prepare.go:58-59 | A split has one more piece than the string has separators. |
| Strings.SplitNoSep | pkg/wrapper/prepare.go:58 | A string without the separator splits into itself alone. |
| Strings.SplitAppend | pkg/wrapper/prepare.go:55 | Splitting `a + sep + b` gives a's pieces followed by b's pieces. |
| Strings.NatToString | pkg/wrapper/prepare.go:203 | Decimal `%d` formatting of a natural number gives at least one digit, only digits, and no leading zero. |
| Strings.NatToStringRoundTrip | pkg/wrapper/prepare.go:203 | Reading the decimal digits back gives the number. |
| Strings.NatToStringInjective | pkg/wrapper/prepare.go:203 | Different numbers format differently. |
| Seqs.CollectAppend | pkg/wrapper/prepare.go:115-211 | The descriptors appended over a concatenation are those of each part, in order. |
| Seqs.CollectMembership | pkg/wrapper/prepare.go:115-211 | A descriptor is collected exactly when some element yields it. |
| Seqs.CollectOrder | pkg/wrapper/prepare.go:115-211 | Collected descriptors keep the order of the elements they come from. |
| Seqs.FirstSomeNone | pkg/wrapper/prepare.go:148-172 | No error is found exactly when no element yields one. |
| Seqs.FirstSomeIsEarliest | pkg/wrapper/prepare.go:148-172 | The error found is that of the earliest element that yields one. |
| Seqs.FirstSomeSticks | pkg/wrapper/prepare.go:115-185 | Once an error is found, later elements do not change it. |
| Prepare.FindMethod | pkg/wrapper/prepare.go:147-172 | `MethodByName` finds an exported method of that name exactly when the method set holds one. |
| Prepare.ArgNames | pkg/wrapper/prepare.go:201-204 | There is one placeholder per input after the receiver. |
| Prepare.CollectIgnored | pkg/wrapper/prepare.go:91-113 | The initial ignore set holds exactly the reserved names and the exported methods of each anonymous visible field's value and pointer method sets. |
| Prepare.ResolveOneField | pkg/wrapper/prepare.go:116-184 | The loop body for one field gives exactly the outcome the field rules define: skipped, signal, property, or the first getter or setter error. |
| Prepare.ResolveFields | pkg/wrapper/prepare.go:115-185 | The field loop fails exactly when some field fails, with the earliest field's error. Otherwise it returns the properties and signals in field order, and the ignore set grows by exactly the consumed getters and setters. |
| Prepare.DescribeMethods | pkg/wrapper/prepare.go:187-211 | The method loop describes, in method-set order, exactly the exported methods outside the ignore set. |
| Prepare.PrepareClass | pkg/wrapper/prepare.go:78-220 | prepareClass returns exactly the specification `Prepared`: the shape error, else the first field error, else the three descriptor lists. |
| PrepareLemmas.ArgNamesAt | pkg/wrapper/prepare.go:201-204 | The placeholders are `arg0` … `arg{n-1}`, in order. |
| PrepareLemmas.ArgNamesDistinct | pkg/wrapper/prepare.go:201-204 | No two placeholders of one method coincide. |
| PrepareLemmas.MethodDescriptorRules | pkg/wrapper/prepare.go:195-210 | A method is virtual exactly when snake_case(name) starts with `x_`. A virtual method's exposed name drops only the leading `x`; any other keeps its snake name. The Go name is kept and the placeholders match the input count. |
| PrepareLemmas.EmbeddedNamesExactly | pkg/wrapper/prepare.go:96-113 | A name is ignored as embedded exactly when an anonymous visible field's value or pointer method set exports it. |
| PrepareLemmas.PrepareShapeError | pkg/wrapper/prepare.go:83-85 | The shape error is returned exactly when the class is not a pointer to a struct. |
| PrepareLemmas.FieldErrorIsAccessorError | pkg/wrapper/prepare.go:148-172 | A field fails only over its getter or setter, never with a shape error. |
| PrepareLemmas.PrepareFailsOnFirstBadField | pkg/wrapper/prepare.go:115-185 | A pointer to a struct fails to prepare exactly when some field fails, with the first failing field's error. No partial descriptor is returned. |
| PrepareLemmas.GetterChecked | pkg/wrapper/prepare.go:142-153 | A data field fails on its getter exactly when the getter is missing ("not found") or does not take just the receiver and return one value ("wrong signature"). |
| PrepareLemmas.SetterChecked | pkg/wrapper/prepare.go:156-174 | Once the getter is valid, a setter other than `nil` fails when missing. It also fails unless it takes the receiver plus one argument and returns nothing. |
| PrepareLemmas.NilSetterIsReadOnly | pkg/wrapper/prepare.go:158-163 | `set=nil` gives a property with no Go setter and no setter bridge name. |
| PrepareLemmas.PreparedParts | pkg/wrapper/prepare.go:213-219 | A successful preparation passed the shape check and no field failed. Its lists are the collected properties, methods and signals. |
| PrepareLemmas.PropertyRules | pkg/wrapper/prepare.go:122-184 | A field's property is exposed under the tag's name or snake_case, and its accessors are validated. Its bridges are `_get_property_`/`_set_property_` plus the name, and its setter arguments are `["value"]`. |
| PrepareLemmas.SignalRules | pkg/wrapper/prepare.go:131-140 | A field yields a signal exactly when it is an exported, non-embedded signal field. The signal has the field's exposed name and no parameters, and no accessor is looked up. |
| PrepareLemmas.PreparedProperties | pkg/wrapper/prepare.go:115-185 | Every property of a prepared class comes from an examined data field by the property rules, and every examined data field yields its property. |
| PrepareLemmas.DataFieldIsProperty | pkg/wrapper/prepare.go:133-184 | An examined non-signal field that does not fail becomes a property. |
| PrepareLemmas.PreparedSignals | pkg/wrapper/prepare.go:131-140 | The signals of a prepared class are exactly those of its examined signal fields, with no parameters. |
| PrepareLemmas.PreparedFieldOrder | pkg/wrapper/prepare.go:115-185 | Properties, and also signals, appear in the order their fields are declared. |
| PrepareLemmas.PreparedMethods | pkg/wrapper/prepare.go:187-211 | The methods of a prepared class are exactly its exported methods outside the ignore set, each described by the method rules. None is reserved, embedded, or a consumed getter or setter. |
| PrepareLemmas.MethodsAvoidIgnored | pkg/wrapper/prepare.go:192-194 | No registered method carries an ignored name. |
| PrepareLemmas.PreparedMethodOrder | pkg/wrapper/prepare.go:187-211 | Registered methods keep method-set order. |
| PrepareLemmas.UntaggedFieldsBecomeProperties | pkg/wrapper/prepare.go:115-185 | If every field is an exported, untagged data field, a successful preparation has one property per field, in order. Each is named snake_case(field), with accessors `Get`/`Set` + CamelCase(field), and there are no signals. |
| PrepareLemmas.UntaggedField | pkg/wrapper/prepare.go:122-184 | An untagged data field that does not fail gets the conventional names. |
| PrepareLemmas.ShapeCheckAsWrittenAdmitsNonStructs | pkg/wrapper/prepare.go:83 | The shape check as written lets a pointer to a non-struct through, and a slice of structs too; the corrected check rejects both. |
| Wrap.Host.ClassDBRegisterClass | pkg/wrapper/wrap.go:35 | Registering a class appends exactly one RegisterClass call. |
| Wrap.Host.ClassDBBindMethod | pkg/wrapper/wrap.go:43-51 | Binding a method appends exactly one BindMethod call. |
| Wrap.Host.ClassDBBindMethodVirtual | pkg/wrapper/wrap.go:41 | Binding a virtual method appends exactly one BindVirtualMethod call. |
| Wrap.Host.ClassDBAddProperty | pkg/wrapper/wrap.go:53 | Adding a property appends exactly one AddProperty call. |
| Wrap.Host.ClassDBAddSignal | pkg/wrapper/wrap.go:58 | Adding a signal appends exactly one AddSignal call. |
| Wrap.Wrap | pkg/wrapper/wrap.go:17-27 | Wrap fails exactly when preparation fails, with its error. Otherwise it returns a register holding the constructor and the prepared descriptor. |
| Wrap.ClassRegister.constructor | pkg/wrapper/wrap.go:23-26 | The register keeps the constructor and descriptor it is given. |
| Wrap.ClassRegister.Initialize | pkg/wrapper/wrap.go:34-61 | The host receives the class registration, then exactly the registration trace of the descriptor, and nothing else. |
| Wrap.ClassRegister.BindMethods | pkg/wrapper/wrap.go:38-45 | The method loop appends one binding per method, in order. The virtual path is used exactly for virtual methods. |
| Wrap.ClassRegister.BindProperties | pkg/wrapper/wrap.go:47-54 | The property loop appends each property's block in order: getter bind with no arguments, setter bind if there is a setter, then the property. |
| Wrap.ClassRegister.AddSignals | pkg/wrapper/wrap.go:56-59 | The signal loop appends one addition per signal, in order. |
| Wrap.ClassRegister.Terminate | pkg/wrapper/wrap.go:63-64 | Terminate sends the host nothing. |
| WrapLemmas.MethodCallsAt | pkg/wrapper/wrap.go:38-45 | The k-th method call binds the k-th method with its names and arguments, through the virtual path exactly when that method is virtual. |
| WrapLemmas.SignalCallsAt | pkg/wrapper/wrap.go:56-59 | The k-th signal call adds the k-th signal with its name and parameters. |
| WrapLemmas.PropertyCallsAppend | pkg/wrapper/wrap.go:47-54 | The property calls of a concatenation are those of each part, in order. |
| WrapLemmas.PropertyCallsAt | pkg/wrapper/wrap.go:47-54 | Property k's block sits between the blocks of the properties before and after it. |
| WrapLemmas.PropertyCallsKinds | pkg/wrapper/wrap.go:47-54 | The property loop only binds methods and adds properties. |
| WrapLemmas.TraceLayout | pkg/wrapper/wrap.go:38-59 | The trace is one binding per method in order, then only accessor bindings and property additions, then one addition per signal in order. |
| WrapLemmas.AccessorsBoundBeforeProperty | pkg/wrapper/wrap.go:49-53 | Every property's getter is bound, and its setter when it has one, immediately before the property naming their bridges is added. |
| WrapLemmas.BlockAccessorsBound | pkg/wrapper/wrap.go:49-53 | A property's block binds its accessors before adding it, wherever the block sits in a trace. |
| WrapLemmas.BlockShape | pkg/wrapper/wrap.go:49-53 | A block starts with the getter bind and ends with the property addition, with the setter bind between them when there is a setter. |
| WrapLemmas.SignalsAddedOnce | pkg/wrapper/wrap.go:56-59 | Every signal is added exactly once, in descriptor order, and no other call adds a signal. |
| WrapLemmas.PropertiesAddedOnce | pkg/wrapper/wrap.go:47-54 | Every property is added exactly once, in descriptor order, with its type, name and bridge names. |
| WrapLemmas.BlockAddsProperty | pkg/wrapper/wrap.go:53 | One property's calls add exactly that property. |
| WrapLemmas.PreparedPropertyRegistration | pkg/wrapper/wrap.go:47-54 | For a prepared class, property k is registered in order: its getter under `_get_property_<name>` with no arguments; its setter under `_set_property_<name>` with `["value"]` unless disabled; then the property with those bridges, "" for no setter. |
| WrapLemmas.PreparedBlockShape | pkg/wrapper/prepare.go:176-184 | A property built by the property rules has exactly that block. |
| Scenarios.RenameTag | examples/complete/lib.go:14 | `name=speed2` only renames. |
| Scenarios.AccessorTag | examples/complete/lib.go:15 | `get=MyDirection,set=nil` names the getter and disables the setter. |
| Scenarios.AccessorSegments | examples/complete/lib.go:15 | That tag splits into its two assignments. |
| Scenarios.TwoAssignments | pkg/wrapper/prepare.go:57-69 | With two segments assigning different keys, each key keeps its own value and any other key is "". |
| Scenarios.SpeedNames | examples/complete/lib.go:14 | Speed is exposed as `speed2`, with accessors GetSpeed and SetSpeed and bridges `_get_property_speed2` and `_set_property_speed2`. |
| Scenarios.DirectionNames | examples/complete/lib.go:15 | Direction is exposed as `direction`, read through MyDirection, with no setter. |
| Scenarios.CompleteLookup | examples/complete/lib.go:21-31 | GetSpeed, MyDirection and SetSpeed are found in the example's method set. |
| Scenarios.SpeedField | examples/complete/lib.go:14-27 | Speed becomes the property speed2 with both accessors. |
| Scenarios.DirectionField | examples/complete/lib.go:15-31 | Direction becomes a read-only property. |
| Scenarios.CompleteOutcomes | examples/complete/lib.go:11-19 | The embedded base and the unexported `secret` are skipped. Speed and Direction are properties, and SecretPrinted is a signal. |
| Scenarios.CompleteNoError | examples/complete/lib.go:11-19 | No field of the complete example fails. |
| Scenarios.CompleteProperties | examples/complete/lib.go:14-15 | The properties are speed2 and then direction. |
| Scenarios.CompleteSignals | examples/complete/lib.go:18 | The one signal is `secret_printed`, with no parameters. |
| Scenarios.CompleteIgnored | examples/complete/lib.go:12-31 | The ignore set is Destroy, the embedded GetPosition and SetPosition, and the accessors GetSpeed, SetSpeed and MyDirection. |
| Scenarios.EmbeddedExample | examples/complete/lib.go:12 | The embedded base contributes its exported methods. |
| Scenarios.AccessorExample | examples/complete/lib.go:21-31 | The two properties consume GetSpeed, SetSpeed and MyDirection. |
| Scenarios.ExampleDescriptors | examples/complete/lib.go:33-40 | Move becomes `move` with `["arg0"]`; X_Ready becomes the virtual `_ready` with no arguments. |
| Scenarios.MethodParts | examples/complete/lib.go:21-40 | Method by method, only Move and X_Ready are described. |
| Scenarios.CompleteMethods | examples/complete/lib.go:21-40 | The methods are move, then the virtual `_ready`. |
| Scenarios.CompleteExamplePrepared | examples/complete/lib.go:11-40 | Preparing the complete example gives exactly its expected descriptor. |
| Scenarios.CompleteExampleRegistered | examples/complete/lib.go:11-40 | Registering it sends eight calls: bind move, bind virtual `_ready`; bind GetSpeed and SetSpeed, add speed2; bind MyDirection, add read-only direction; add secret_printed. |
| Scenarios.TraceOfTwoTwoOne | pkg/wrapper/wrap.go:38-59 | With two methods, two properties and one signal, the trace lists them block by block. |
| Scenarios.SimpleExampleFails | examples/simple/lib.go:11-25 | The simple example has no GetSpeed, so preparing it fails with GetterNotFound("MyNode2D", "GetSpeed"). |

## Left out

- Reflection itself (`reflect.TypeOf`, `VisibleFields`, `NumMethod`, `Implements`) is not modelled. Its results are the inputs of a `ClassDesc`, including the order of the method set. The signal check at prepare.go:131 is the field's `isSignal` flag.
- `StructTag.Get` is not modelled: a field carries the value of its `godot` key directly.
- `strcase.ToSnake` and `strcase.ToCamel` are the functions of a `Naming` parameter. Their own behaviour is assumed only in the scenarios (`ExampleNaming`).
- `core.ReflectTypeToGDExtensionVariantType` is not modelled: a field carries its variant type as an opaque number.
- The constructed `instance` kept in the descriptor, and passed to `ClassDBRegisterClass`, is left out. So are the empty property-info list and the nil callbacks.
- Error values carry the error kind, the class name and the accessor name, not the formatted message text.
- `fmt.Printf` and `log.Debug` output is left out.
- The Go capacity hints to `make` are left out; they do not change any result.
- Prepare.PrepareClass: `typ.Elem()` panics for a kind without an element type, so the model requires a kind that has one (`HasElem`). The model uses the corrected shape check instead of the one written at prepare.go:83 (see Findings). The two differ on two kinds of input:
  - A pointer to a non-struct passes the written check, and then `NumField` panics at prepare.go:87.
  - A slice, array, map or channel whose element is a struct also passes the written check. The code then goes on to describe it, since `NumField`, `VisibleFields` and `MethodByName` all work on it, and it succeeds when the type's methods supply the accessors. The model returns `NotPointerToStruct` for such a type instead.
- Wrap.ClassRegister.Initialize: the engine runs the registration callback inside `ClassDBRegisterClass`. The model runs the callback right after recording the registration, as one synchronous sequence, and ignores what the engine does with the calls.
- Name uniqueness within a class, and non-collision with the embedded base, are not enforced by the code, so the model proves neither. It proves the exclusions the code performs: no method has a reserved, embedded or accessor name.
- PrepareLemmas.PreparedMethods: its setter clause only covers properties that have a setter. A read-only property's empty setter name is never compared with a method name.
- `pkg/wrapper/class.go` (the `Class` and `ClassConstructor` types), `pkg/entry/entry.go` (the extension entry point) and `pkg/entry/register.go` (registration of class constructors) are not part of this model. The `Signal` type of package `wrapper` is replaced by the field's `isSignal` flag.

## Findings

| source | as written | input that shows it | evidently intended | confidence | as-written member | corrected member |
|---|---|---|---|---|---|---|
| pkg/wrapper/prepare.go:83 | `typ.Kind() != reflect.Pointer && typ.Elem().Kind() != reflect.Struct` rejects only values that are neither pointers nor have a struct element | a constructor returning a pointer to an int (kind Pointer, element Int), or a slice of structs (kind Slice, element Struct): both pass the check | a logical or in place of the and, as the message "expected a pointer to struct" says: reject anything that is not a pointer to a struct | not executed | Prepare.ShapeRejectedAsWritten, PrepareLemmas.ShapeCheckAsWrittenAdmitsNonStructs | Prepare.ShapeRejected, PrepareLemmas.PrepareShapeError |
