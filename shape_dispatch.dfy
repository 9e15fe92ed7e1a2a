/** A second statement of the to-native resolver, organised by the shape of
    the declared type rather than as one chain: a primitive type can only be
    a delegate or need no conversion, an array is decided by the delegate test
    and then by its component type alone, and a class or interface by the
    class-level tests alone. The lemma at the end shows that the mapper's
    single chain agrees with it on every input, i.e. that no array test ever
    fires for a non-array and no class-level test other than the delegate
    test ever fires for an array or a primitive.
 */
module ShapeDispatch {
  import opened JavaTypes
  import opened InvokerTypeMapper

  /** The delegate test: a delegate gets a closure site, which needs a closure
      manager; anything else is decided by `otherwise`. */
  function DelegateOr(m: Mapper, f: Facts, otherwise: Resolution): (r: Resolution)
    ensures f.isDelegate ==> (r.Throws? <==> !m.hasClosureManager)
    ensures f.isDelegate ==> (r == Use(ClosureSite) <==> m.hasClosureManager)
    ensures !f.isDelegate ==> r == otherwise
  {
    if f.isDelegate then
      (if m.hasClosureManager then Use(ClosureSite) else Throws(NullPointerException))
    else otherwise
  }

  /** The converter for an array, in terms of its component type `c`: the
      boxed arrays, NativeLong[], Pointer[], long[] with a 4-byte native
      element, Struct[] and String[]. */
  function ComponentConverter(c: JType, f: Facts): Resolution {
    if IsAssignableFrom(ByteBox, c) then Use(BoxedByteArray)
    else if IsAssignableFrom(ShortBox, c) then Use(BoxedShortArray)
    else if IsAssignableFrom(IntegerBox, c) then Use(BoxedIntegerArray)
    else if IsAssignableFrom(LongBox, c) then
      Use(if f.componentSizeof == 4 then BoxedLong32Array else BoxedLong64Array)
    else if IsAssignableFrom(NativeLongClass, c) then
      Use(if f.componentSizeof == 4 then NativeLong32Array else NativeLong64Array)
    else if IsAssignableFrom(FloatBox, c) then Use(BoxedFloatArray)
    else if IsAssignableFrom(DoubleBox, c) then Use(BoxedDoubleArray)
    else if IsAssignableFrom(BooleanBox, c) then Use(BoxedBooleanArray)
    else if IsAssignableFrom(PointerClass, c) then
      Use(if f.addressSize == 4 then Pointer32Array else Pointer64Array)
    else if c == Prim(LongType) && f.componentSizeof == 4 then Use(Long32Array)
    else if IsAssignableFrom(StructClass, c) then Use(StructArray(c))
    else if IsAssignableFrom(StringClass, c) then Use(StringArray)
    else NoConversion
  }

  /** The converter for a class or interface type: enum, enum set, delegate,
      then the by-reference, struct, NativeLong and character-sequence
      parameters. */
  function ClassConverter(m: Mapper, t: JType, f: Facts): Resolution {
    if IsAssignableFrom(EnumClass, t) then Use(EnumConverter)
    else if IsAssignableFrom(SetInterface, t) && f.enumSetToNative then Use(EnumSetConverter)
    else DelegateOr(m, f,
      if IsAssignableFrom(ByReferenceInterface, t) then Use(ByReferenceParameter)
      else if IsAssignableFrom(StructClass, t) then Use(StructByReferenceToNative)
      else if IsAssignableFrom(NativeLongClass, t) then Use(NativeLongConverter)
      else if IsAssignableFrom(StringBuilderClass, t) then Use(StringBuilderParameter)
      else if IsAssignableFrom(StringBufferClass, t) then Use(StringBufferParameter)
      else if IsAssignableFrom(CharSequenceInterface, t) then Use(CharSequenceParameter)
      else NoConversion)
  }

  /** The to-native converter by the shape of the declared type. */
  function ToNativeByShape(m: Mapper, t: JType, f: Facts): Resolution {
    match t
    case Prim(_) => DelegateOr(m, f, NoConversion)
    case ArrayOf(c) => DelegateOr(m, f, ComponentConverter(c, f))
    case _ => ClassConverter(m, t, f)
  }

  /** On a primitive type only the delegate test can fire. */
  lemma PrimitiveByShape(m: Mapper, p: Primitive, f: Facts)
    ensures GetToNativeConverter(m, Prim(p), f) == DelegateOr(m, f, NoConversion)
  {
  }

  /** On an array, the enum, enum-set and other class-level tests never fire;
      after the delegate test the component type alone decides. */
  lemma ArrayByShape(m: Mapper, c: JType, f: Facts)
    ensures GetToNativeConverter(m, ArrayOf(c), f) == DelegateOr(m, f, ComponentConverter(c, f))
  {
    if !f.isDelegate {
      NonDelegateArrayByShape(m, c, f);
    }
  }

  /** The array tests of the chain are tests on the component type. */
  lemma NonDelegateArrayByShape(m: Mapper, c: JType, f: Facts)
    requires !f.isDelegate
    ensures GetToNativeConverter(m, ArrayOf(c), f) == ComponentConverter(c, f)
  {
  }

  /** On a class or interface type none of the array tests fires. */
  lemma ClassByShape(m: Mapper, t: JType, f: Facts)
    requires t.Named? || t.Declared?
    ensures GetToNativeConverter(m, t, f) == ClassConverter(m, t, f)
  {
  }

  /** The mapper's to-native chain is the shape-directed resolver. */
  lemma ToNativeFollowsShape(m: Mapper, t: JType, f: Facts)
    ensures GetToNativeConverter(m, t, f) == ToNativeByShape(m, t, f)
  {
    match t
    case Prim(p) => PrimitiveByShape(m, p, f);
    case ArrayOf(c) => ArrayByShape(m, c, f);
    case _ => ClassByShape(m, t, f);
  }
}
