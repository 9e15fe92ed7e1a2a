# Converter resolution of the jnr-ffi invoker type mapper

This project models `InvokerTypeMapper`, the signature type mapper of
jnr-ffi's JFFI invoker. For the declared Java type of a parameter or result,
the mapper picks a converter. `getFromNativeConverter` picks one that turns a
native value into a Java one. `getToNativeConverter` picks one that turns a
Java value into a native one. `getFromNativeType` and `getToNativeType` wrap
the chosen converter in a signature type object.

Each resolver is a chain of type tests in which the first match wins. It
ends in `null`, meaning "no conversion". The model has five parts:

- `JavaTypes` (`java_types.dfy`) models the Java types the tests can tell apart:
  - primitives;
  - the library classes the chains name;
  - any other class or interface, described by which of those classes and
    interfaces it extends or implements;
  - arrays.

  It also defines `isAssignableFrom` on these types, with covariant arrays of
  reference types and invariant arrays of primitives.
- `InvokerTypeMapper` (`invoker_type_mapper.dfy`) holds both resolvers as
  functions that follow the source chains test by test, plus the two
  wrappers. Several answers come from code outside this class:
  - whether a type is a delegate;
  - `ASM_ENABLED`;
  - the two `EnumSetConverter` lookups;
  - the native `sizeof` of an array's component;
  - the runtime's address size.

  They arrive as a `Facts` value. The mapper itself is reduced to whether its
  closure manager is non-null, since that is the only part of it that affects
  the choice: the class loader and the mapper itself are only passed on to
  converter factories, and the closure manager is called at line 71 only to
  build the closure site.
- `DispatchTable` (`dispatch_table.dfy`) restates the from-native resolver as
  an ordered table of rules, each pairing a test with the factory it calls.
  A generic first-match interpreter runs the table. Lemmas say which rule an
  input reaches and prove that the hand-written chain is the table.
- `ShapeDispatch` (`shape_dispatch.dfy`) restates the to-native resolver by
  the shape of the type: a primitive, an array (decided by its component
  type), or a class or interface. A lemma proves that the single chain agrees
  with it on every input.
- `ResolverProperties` (`resolver_properties.dfy`) states what the resolvers
  promise, over all inputs:
  - enum comes first;
  - the delegate test depends on the closure manager;
  - from native matches exact classes, and to native matches by
    assignability;
  - what happens when an enum-set lookup finds nothing;
  - the builder checks come before the `CharSequence` check;
  - how array widths are chosen;
  - which facts each direction ignores.

## Errors

Neither resolver raises an error for an unsupported type: it returns `null`,
modelled as `NoConversion`. The one exception path is the to-native delegate
branch (InvokerTypeMapper.java:70-71): a delegate type reaches
`closureManager.newClosureSite` without a null check, so a mapper built
without a closure manager throws a `NullPointerException` there. The model
records that outcome as `Throws(NullPointerException)`. From native checks
the manager first (line 42) and never throws.

## Model

| member | source | states |
|---|---|---|
| InvokerTypeMapper.GetFromNativeConverter | src/main/java/jnr/ffi/provider/jffi/InvokerTypeMapper.java:28-58 | the from-native resolver never throws; its full behaviour is pinned down by `FromNativeFollowsTable` |
| InvokerTypeMapper.GetToNativeConverter | src/main/java/jnr/ffi/provider/jffi/InvokerTypeMapper.java:60-136 | the to-native resolver throws only for a delegate when the mapper has no closure manager; its full behaviour is pinned down by `ToNativeFollowsShape` |
| InvokerTypeMapper.GetFromNativeType | src/main/java/jnr/ffi/provider/jffi/InvokerTypeMapper.java:139-142 | the from-native signature type carries exactly the converter the from-native resolver picks, and never an exception |
| InvokerTypeMapper.GetToNativeType | src/main/java/jnr/ffi/provider/jffi/InvokerTypeMapper.java:144-147 | the to-native signature type carries exactly the converter the to-native resolver picks; it fails only for a delegate without a closure manager |
| JavaTypes.IsAssignableFrom | src/main/java/jnr/ffi/provider/jffi/InvokerTypeMapper.java:31-89 | the `Target.class.isAssignableFrom(type)` tests: only class and interface types pass, never a primitive or an array type |
| JavaTypes.IsArrayOf | src/main/java/jnr/ffi/provider/jffi/InvokerTypeMapper.java:91-130 | the `Target[]` tests and the `isArray()` plus component tests: only array types pass, by their component, so reference arrays are covariant |
| JavaTypes.IsPrimitiveArray | src/main/java/jnr/ffi/provider/jffi/InvokerTypeMapper.java:124-125 | the `long[]` test: only an array of that primitive passes |
| JavaTypes.TypeTestBasics | src/main/java/jnr/ffi/provider/jffi/InvokerTypeMapper.java:31-130 | a named type is assignable to itself, a declared type to each supertype it lists, `Target[]` passes its own array test, and no primitive array passes a `Target[]` test |
| JavaTypes.ArraysCovariant | src/main/java/jnr/ffi/provider/jffi/InvokerTypeMapper.java:91-130 | an array passes the `Target[]` test exactly when its component passes the `Target` test, so an array that passes for a class also passes for its supertypes (`String[]` is a `CharSequence[]`) |
| JavaTypes.PrimitiveArraysInvariant | src/main/java/jnr/ffi/provider/jffi/InvokerTypeMapper.java:124-125 | primitive arrays are invariant: `p[]` passes the `q[]` test exactly when `p` and `q` are the same primitive |
| JavaTypes.AssignableUpwards | src/main/java/jnr/ffi/provider/jffi/InvokerTypeMapper.java:82-89 | assignability is transitive through the named types (a StringBuilder is also a CharSequence), which is why the order of the builder and CharSequence tests matters |
| DispatchTable.Apply | src/main/java/jnr/ffi/provider/jffi/InvokerTypeMapper.java:31-52 | every factory of a from-native rule yields a converter; the struct factory yields the ASM-generated converter exactly when ASM_ENABLED holds |
| DispatchTable.FirstHoldingFrom | src/main/java/jnr/ffi/provider/jffi/InvokerTypeMapper.java:28-58 | the index it returns is in range; the rule there holds if it is not the end; no rule between the start and it holds |
| DispatchTable.Branch | src/main/java/jnr/ffi/provider/jffi/InvokerTypeMapper.java:28-58 | every input reaches exactly one branch: the first rule whose test holds, or the final `null` when none does |
| DispatchTable.FirstMatchFromIsFirstHolding | src/main/java/jnr/ffi/provider/jffi/InvokerTypeMapper.java:28-58 | first match from a position gives the factory result of the first holding rule; it is "no conversion" exactly when no rule from there on holds |
| DispatchTable.FirstMatchIsBranch | src/main/java/jnr/ffi/provider/jffi/InvokerTypeMapper.java:28-58 | the branch an input reaches decides the outcome; "no conversion" exactly when no rule holds |
| DispatchTable.EarlierRuleWins | src/main/java/jnr/ffi/provider/jffi/InvokerTypeMapper.java:28-58 | a rule that holds, with none before it holding, decides the outcome whatever the later rules say |
| DispatchTable.FromNativeRules | src/main/java/jnr/ffi/provider/jffi/InvokerTypeMapper.java:31-55 | the from-native table has six rules, one per non-`null` branch of the chain |
| DispatchTable.FromNativeFollowsTable | src/main/java/jnr/ffi/provider/jffi/InvokerTypeMapper.java:28-58 | on every input, the hand-written from-native chain gives what first match over its table gives |
| ShapeDispatch.DelegateOr | src/main/java/jnr/ffi/provider/jffi/InvokerTypeMapper.java:70-71 | a delegate gets a closure site exactly when there is a closure manager and throws exactly when there is none; a non-delegate is left to the later tests |
| ShapeDispatch.PrimitiveByShape | src/main/java/jnr/ffi/provider/jffi/InvokerTypeMapper.java:60-136 | on a primitive type only the delegate test can fire; otherwise no conversion |
| ShapeDispatch.ArrayByShape | src/main/java/jnr/ffi/provider/jffi/InvokerTypeMapper.java:64-134 | on an array no class-level test except the delegate test fires; after it, the component type alone decides |
| ShapeDispatch.NonDelegateArrayByShape | src/main/java/jnr/ffi/provider/jffi/InvokerTypeMapper.java:91-134 | for a non-delegate array, the array tests of the chain are the component-type tests of the shape resolver |
| ShapeDispatch.ClassByShape | src/main/java/jnr/ffi/provider/jffi/InvokerTypeMapper.java:64-89 | on a class or interface type no array test fires; the class-level tests alone decide |
| ShapeDispatch.ToNativeFollowsShape | src/main/java/jnr/ffi/provider/jffi/InvokerTypeMapper.java:60-136 | on every input, the to-native chain agrees with the shape-directed resolver |
| ResolverProperties.FromNativeConvertersOnly | src/main/java/jnr/ffi/provider/jffi/InvokerTypeMapper.java:28-58 | from native hands out only the enum, NativeLong, enum-set, struct-by-reference, closure and string-result converters |
| ResolverProperties.ToNativeConvertersOnly | src/main/java/jnr/ffi/provider/jffi/InvokerTypeMapper.java:60-136 | to native never hands out a from-native-only converter |
| ResolverProperties.FromNativeIgnoresToNativeFacts | src/main/java/jnr/ffi/provider/jffi/InvokerTypeMapper.java:28-58 | the from-native choice does not depend on the to-native enum-set lookup, the component sizeof or the address size |
| ResolverProperties.ToNativeIgnoresFromNativeFacts | src/main/java/jnr/ffi/provider/jffi/InvokerTypeMapper.java:60-136 | the to-native choice does not depend on ASM_ENABLED or the from-native enum-set lookup |
| ResolverProperties.EnumFirst | src/main/java/jnr/ffi/provider/jffi/InvokerTypeMapper.java:31-65 | in both directions a type gets the enum converter exactly when it is assignable to Enum, whatever it also matches |
| ResolverProperties.StructFromNative | src/main/java/jnr/ffi/provider/jffi/InvokerTypeMapper.java:34-40 | a non-enum struct type gets the ASM struct converter exactly when ASM is enabled, and the reflective one exactly when it is not |
| ResolverProperties.FromNativeClosureNeedsManager | src/main/java/jnr/ffi/provider/jffi/InvokerTypeMapper.java:42-43 | from native, the closure converter is chosen exactly for a non-enum, non-struct delegate when there is a closure manager |
| ResolverProperties.FromNativeWithoutManagerIgnoresDelegate | src/main/java/jnr/ffi/provider/jffi/InvokerTypeMapper.java:42-55 | without a closure manager, from native resolves a delegate exactly as if it were not one, by the later exact-class tests |
| ResolverProperties.ToNativeDelegate | src/main/java/jnr/ffi/provider/jffi/InvokerTypeMapper.java:64-71 | to native, a delegate that is not an enum and not a found enum set gets a closure site exactly when there is a manager, and throws exactly when there is none; nothing else throws |
| ResolverProperties.DelegateWithoutManager | src/main/java/jnr/ffi/provider/jffi/InvokerTypeMapper.java:42-71 | for a delegate interface with no named supertypes and no closure manager, from native needs no conversion while to native throws a NullPointerException, also through the wrappers |
| ResolverProperties.FromNativeExactClassOnly | src/main/java/jnr/ffi/provider/jffi/InvokerTypeMapper.java:45-52 | from native, for every type (subclasses, implementations, StringBuilder and StringBuffer included), the NativeLong converter goes only to NativeLong itself, the string-result converter only to String and CharSequence themselves, and the enum-set converter only to Set and EnumSet themselves |
| ResolverProperties.BuildersExactFromNative | src/main/java/jnr/ffi/provider/jffi/InvokerTypeMapper.java:45-89 | StringBuilder and StringBuffer need no conversion from native, since they are neither String nor CharSequence itself, but get their own converters to native |
| ResolverProperties.FromNativeExactClasses | src/main/java/jnr/ffi/provider/jffi/InvokerTypeMapper.java:45-55 | from native, NativeLong, String, CharSequence and (when the lookup finds one) Set and EnumSet get their converters unless the closure converter takes them first |
| ResolverProperties.ExactFromNativeAssignableToNative | src/main/java/jnr/ffi/provider/jffi/InvokerTypeMapper.java:45-88 | a NativeLong subclass, a CharSequence implementation and a Set implementation, with no other named supertypes and not delegates, need no conversion from native; to native they get the NativeLong and char-sequence converters, and the enum-set converter when the lookup finds one |
| ResolverProperties.ToNativeSetWithoutEnumSetConverter | src/main/java/jnr/ffi/provider/jffi/InvokerTypeMapper.java:67-89 | to native, when the enum-set lookup finds nothing, being a Set changes nothing: the later tests decide, e.g. a Set that is a ByReference gets the by-reference converter |
| ResolverProperties.FromNativeSetWithoutEnumSetConverter | src/main/java/jnr/ffi/provider/jffi/InvokerTypeMapper.java:51-55 | from native, Set and EnumSet end at "no conversion" when the lookup finds nothing |
| ResolverProperties.BuildersNeverCharSequence | src/main/java/jnr/ffi/provider/jffi/InvokerTypeMapper.java:82-89 | nothing assignable to StringBuilder or StringBuffer gets the char-sequence converter |
| ResolverProperties.CharacterSequencesToNative | src/main/java/jnr/ffi/provider/jffi/InvokerTypeMapper.java:82-89 | StringBuilder and StringBuffer get their own converters; String and CharSequence get the char-sequence converter |
| ResolverProperties.BoxedLongArrayWidth | src/main/java/jnr/ffi/provider/jffi/InvokerTypeMapper.java:100-103 | `Long[]` gets the 32-bit converter exactly when the native sizeof is 4, and the 64-bit one exactly when it is not |
| ResolverProperties.NativeLongArrayWidth | src/main/java/jnr/ffi/provider/jffi/InvokerTypeMapper.java:105-108 | an array of NativeLong (or of a subclass the earlier array tests do not take) gets the 32-bit converter exactly when the native sizeof is 4, and the 64-bit one exactly when it is not |
| ResolverProperties.PointerArrayWidth | src/main/java/jnr/ffi/provider/jffi/InvokerTypeMapper.java:119-122 | an array of Pointer (or of a subclass the earlier array tests do not take) gets the 32-bit converter exactly when the address size is 4, and the 64-bit one exactly when it is not |
| ResolverProperties.PrimitiveLongArray | src/main/java/jnr/ffi/provider/jffi/InvokerTypeMapper.java:124-134 | `long[]` gets the 32-bit converter exactly when the native sizeof is 4; with any other width it needs no conversion |
| ResolverProperties.OtherPrimitiveArrays | src/main/java/jnr/ffi/provider/jffi/InvokerTypeMapper.java:124-134 | arrays of primitives other than long need no conversion |
| ResolverProperties.StructArrayKeepsComponent | src/main/java/jnr/ffi/provider/jffi/InvokerTypeMapper.java:91-128 | every array whose component is assignable to Struct, and which no earlier array test (the boxed arrays, NativeLong, Pointer) takes, gets the struct-array converter for that same component type |
| ResolverProperties.FromNativeBranch | src/main/java/jnr/ffi/provider/jffi/InvokerTypeMapper.java:28-58 | every from-native input reaches exactly one rule of the table, or none; "no conversion" exactly when no rule holds |
| ResolverProperties.PlainTypesNeedNoConversion | src/main/java/jnr/ffi/provider/jffi/InvokerTypeMapper.java:54-134 | primitives, and classes with none of the named supertypes, need no conversion in either direction unless they are delegates |

## Left out

- Converter internals. Every converter is an opaque tag, from `EnumConverter` through `StringArrayParameterConverter`. How they marshal values, and the singleton caching behind each `getInstance`, are not part of this model.
- `AsmUtil.isDelegate`, `InvokerUtil.getNativeType`, `NumberUtil.sizeof`, `EnumSetConverter`'s two lookups, `NativeLibraryLoader.ASM_ENABLED` and `Runtime.addressSize` are calls into other jnr-ffi classes, outside this model. Their answers are fields of `Facts`, and nothing ties them to the declared type. For example, the model does not assume that an array is never a delegate.
- `FromNativeTypes.create` and `ToNativeTypes.create` are not part of this model. The signature type objects are modelled only by the converter they carry. A `Throws` inside a `ToNativeType` stands for the exception of line 146 passing through; in Java no signature type object exists then.
- The class loader and the ASM code generation behind the struct converter. Only the `ASM_ENABLED` choice between the two converters is modelled.
- Rule tables (`DispatchTable`) are given for the from-native resolver only. The to-native resolver's independent statement is the shape-directed one in `ShapeDispatch`. No twenty-one-rule table is given for the to-native chain; `ShapeDispatch` takes its place as the independent statement.
- Java's rules on which types can exist are not imposed. Examples are final classes having no subclasses, a class not extending both `Enum` and `Struct`, and `NativeLong` possibly being subclassed. Both resolvers are defined on every value of the type model. The width lemmas for component types that are not named state as preconditions that the earlier array tests do not match.
- `NestedStructTest` (struct layout and aliasing through a native library) and `TypeDefinitionTest` (unsigned 8-bit truncation in native calls) test code outside this class. That logic is not part of this model.
- Closure trampolines, thread attachment and memory allocation are native and concurrent concerns that these resolvers do not touch.
