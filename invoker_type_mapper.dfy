/** The invoker's signature type mapper: for a declared parameter or result
    type it chooses the converter that turns a native value into a managed one
    (from native) or a managed value into a native one (to native).

    Each resolver is a first-match-wins chain of type tests that ends in
    "no conversion" (`null` in the source). What the chains learn from
    collaborators outside this model arrives as `Facts`.
 */
module InvokerTypeMapper {
  import opened JavaTypes

  /** The converter classes handed out; each tag stands for the factory call
      (`getInstance`, `newClosureSite`, ...) that builds or finds an instance.
      A tag names the converter class chosen, not the instance: the type
      argument of the factory call (the enum class, the struct class, the
      closure interface) is not carried, except by `StructArray`, whose
      component type the proofs follow. */
  datatype Converter =
    // used in both directions
    | EnumConverter
    | NativeLongConverter
    | EnumSetConverter
    // from native only
    | AsmStructByReferenceFromNative
    | StructByReferenceFromNative
    | ClosureFromNative
    | StringResult
    // to native only
    | ClosureSite
    | ByReferenceParameter
    | StructByReferenceToNative
    | StringBuilderParameter
    | StringBufferParameter
    | CharSequenceParameter
    | BoxedByteArray | BoxedShortArray | BoxedIntegerArray
    | BoxedLong32Array | BoxedLong64Array
    | NativeLong32Array | NativeLong64Array
    | BoxedFloatArray | BoxedDoubleArray | BoxedBooleanArray
    | Pointer32Array | Pointer64Array
    | Long32Array
    | StructArray(elementType: JType)
    | StringArray

  /** The exceptions a resolver itself can raise. */
  datatype Failure = NullPointerException

  /** The outcome of one resolver call: a converter, `null` (the value needs no
      conversion), or an exception thrown by the resolver. */
  datatype Resolution = Use(converter: Converter) | NoConversion | Throws(failure: Failure)

  /** The mapper object; of its two final fields only whether the closure
      manager is non-null affects the choice (the class loader is only passed
      on to converter factories). */
  datatype Mapper = Mapper(hasClosureManager: bool)

  /** What the resolvers learn from outside collaborators about one declared
      type in one context. */
  datatype Facts = Facts(
    isDelegate: bool,           // AsmUtil.isDelegate(declared type)
    asmEnabled: bool,           // NativeLibraryLoader.ASM_ENABLED
    enumSetFromNative: bool,    // EnumSetConverter.getFromNativeConverter(...) != null
    enumSetToNative: bool,      // EnumSetConverter.getToNativeConverter(...) != null
    componentSizeof: int,       // sizeof(getNativeType(runtime, component type, annotations))
    addressSize: int)           // runtime.addressSize()

  /** getFromNativeConverter: Enum and Struct by assignability, a delegate only
      when there is a closure manager, then NativeLong, String/CharSequence and
      Set/EnumSet by exact class. It never throws. */
  function GetFromNativeConverter(m: Mapper, t: JType, f: Facts): (r: Resolution)
    ensures !r.Throws?
  {
    if IsAssignableFrom(EnumClass, t) then Use(EnumConverter)
    else if IsAssignableFrom(StructClass, t) then
      Use(if f.asmEnabled then AsmStructByReferenceFromNative else StructByReferenceFromNative)
    else if m.hasClosureManager && f.isDelegate then Use(ClosureFromNative)
    else if t == Named(NativeLongClass) then Use(NativeLongConverter)
    else if t == Named(StringClass) || t == Named(CharSequenceInterface) then Use(StringResult)
    else if (t == Named(SetInterface) || t == Named(EnumSetClass)) && f.enumSetFromNative then
      Use(EnumSetConverter)
    else NoConversion
  }

  /** getToNativeConverter: every test by assignability. A delegate reaches
      `closureManager.newClosureSite` whether or not the manager is null, which
      is the only way the resolver throws. */
  function GetToNativeConverter(m: Mapper, t: JType, f: Facts): (r: Resolution)
    ensures r.Throws? ==> !m.hasClosureManager && f.isDelegate
  {
    if IsAssignableFrom(EnumClass, t) then Use(EnumConverter)
    else if IsAssignableFrom(SetInterface, t) && f.enumSetToNative then Use(EnumSetConverter)
    else if f.isDelegate then
      (if m.hasClosureManager then Use(ClosureSite) else Throws(NullPointerException))
    else if IsAssignableFrom(ByReferenceInterface, t) then Use(ByReferenceParameter)
    else if IsAssignableFrom(StructClass, t) then Use(StructByReferenceToNative)
    else if IsAssignableFrom(NativeLongClass, t) then Use(NativeLongConverter)
    else if IsAssignableFrom(StringBuilderClass, t) then Use(StringBuilderParameter)
    else if IsAssignableFrom(StringBufferClass, t) then Use(StringBufferParameter)
    else if IsAssignableFrom(CharSequenceInterface, t) then Use(CharSequenceParameter)
    else if IsArrayOf(ByteBox, t) then Use(BoxedByteArray)
    else if IsArrayOf(ShortBox, t) then Use(BoxedShortArray)
    else if IsArrayOf(IntegerBox, t) then Use(BoxedIntegerArray)
    else if IsArrayOf(LongBox, t) then
      Use(if f.componentSizeof == 4 then BoxedLong32Array else BoxedLong64Array)
    else if IsArrayOf(NativeLongClass, t) then
      Use(if f.componentSizeof == 4 then NativeLong32Array else NativeLong64Array)
    else if IsArrayOf(FloatBox, t) then Use(BoxedFloatArray)
    else if IsArrayOf(DoubleBox, t) then Use(BoxedDoubleArray)
    else if IsArrayOf(BooleanBox, t) then Use(BoxedBooleanArray)
    else if IsArrayOf(PointerClass, t) then
      Use(if f.addressSize == 4 then Pointer32Array else Pointer64Array)
    else if IsPrimitiveArray(LongType, t) && f.componentSizeof == 4 then Use(Long32Array)
    else if IsArrayOf(StructClass, t) then Use(StructArray(t.component))
    else if IsArrayOf(StringClass, t) then Use(StringArray)
    else NoConversion
  }

  /** The signature type objects built around a chosen converter; how
      `FromNativeTypes.create` and `ToNativeTypes.create` build them is not part
      of this model, only which converter they carry. */
  datatype FromNativeType = FromNativeType(fromConverter: Resolution)
  datatype ToNativeType = ToNativeType(toConverter: Resolution)

  /** getFromNativeType: wraps the converter getFromNativeConverter chooses. */
  function GetFromNativeType(m: Mapper, t: JType, f: Facts): (r: FromNativeType)
    ensures r.fromConverter == GetFromNativeConverter(m, t, f)
    ensures !r.fromConverter.Throws?
  {
    FromNativeType(GetFromNativeConverter(m, t, f))
  }

  /** getToNativeType: wraps the converter getToNativeConverter chooses. A
      `Throws` inside the result stands for the resolver's exception passing
      through the call before `ToNativeTypes.create` runs; no signature type
      object is built in that case. */
  function GetToNativeType(m: Mapper, t: JType, f: Facts): (r: ToNativeType)
    ensures r.toConverter == GetToNativeConverter(m, t, f)
    ensures r.toConverter.Throws? ==> !m.hasClosureManager && f.isDelegate
  {
    ToNativeType(GetToNativeConverter(m, t, f))
  }
}
