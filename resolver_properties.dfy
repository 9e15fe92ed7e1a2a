/** What the two resolvers promise, stated over all inputs: the order of the
    tests (enum first, builders before CharSequence), how the delegate test
    depends on the closure manager in each direction, exact-class versus
    assignability matching, enum-set lookups that find nothing, the width
    choices for arrays, and which facts each direction ignores.
 */
module ResolverProperties {
  import opened JavaTypes
  import opened InvokerTypeMapper
  import opened DispatchTable
  import opened ShapeDispatch

  // ---------------------------------------------------------------------
  // Which converters each direction can hand out
  // ---------------------------------------------------------------------

  /** From native hands out only from-native converters. */
  lemma FromNativeConvertersOnly(m: Mapper, t: JType, f: Facts)
    ensures var r := GetFromNativeConverter(m, t, f);
      r.Use? ==> r.converter in {EnumConverter, NativeLongConverter, EnumSetConverter,
                                 AsmStructByReferenceFromNative, StructByReferenceFromNative,
                                 ClosureFromNative, StringResult}
  {
  }

  /** To native never hands out a from-native-only converter. */
  lemma ToNativeConvertersOnly(m: Mapper, t: JType, f: Facts)
    ensures var r := GetToNativeConverter(m, t, f);
      r.Use? ==> r.converter !in {AsmStructByReferenceFromNative, StructByReferenceFromNative,
                                  ClosureFromNative, StringResult}
  {
  }

  /** Each direction depends only on its own facts: from native ignores the
      to-native enum-set lookup and the native sizes, to native ignores
      ASM_ENABLED and the from-native enum-set lookup. */
  lemma FromNativeIgnoresToNativeFacts(m: Mapper, t: JType, f: Facts, found: bool, size: int, address: int)
    ensures GetFromNativeConverter(m, t, f) ==
      GetFromNativeConverter(m, t, f.(enumSetToNative := found, componentSizeof := size, addressSize := address))
  {
  }

  lemma ToNativeIgnoresFromNativeFacts(m: Mapper, t: JType, f: Facts, asm: bool, found: bool)
    ensures GetToNativeConverter(m, t, f) ==
      GetToNativeConverter(m, t, f.(asmEnabled := asm, enumSetFromNative := found))
  {
  }

  // ---------------------------------------------------------------------
  // Enum first, in both directions
  // ---------------------------------------------------------------------

  /** A type gets the enum converter exactly when it is assignable to Enum,
      whatever later test it would also pass. */
  lemma EnumFirst(m: Mapper, t: JType, f: Facts)
    ensures GetFromNativeConverter(m, t, f) == Use(EnumConverter) <==> IsAssignableFrom(EnumClass, t)
    ensures GetToNativeConverter(m, t, f) == Use(EnumConverter) <==> IsAssignableFrom(EnumClass, t)
  {
  }

  // ---------------------------------------------------------------------
  // Structs from native
  // ---------------------------------------------------------------------

  /** A non-enum struct type gets a by-reference struct converter from
      native, the ASM-generated one exactly when ASM is enabled. */
  lemma StructFromNative(m: Mapper, t: JType, f: Facts)
    ensures GetFromNativeConverter(m, t, f) == Use(AsmStructByReferenceFromNative) <==>
      !IsAssignableFrom(EnumClass, t) && IsAssignableFrom(StructClass, t) && f.asmEnabled
    ensures GetFromNativeConverter(m, t, f) == Use(StructByReferenceFromNative) <==>
      !IsAssignableFrom(EnumClass, t) && IsAssignableFrom(StructClass, t) && !f.asmEnabled
  {
  }

  // ---------------------------------------------------------------------
  // Delegates and the closure manager
  // ---------------------------------------------------------------------

  /** From native, a closure converter needs a closure manager. */
  lemma FromNativeClosureNeedsManager(m: Mapper, t: JType, f: Facts)
    ensures GetFromNativeConverter(m, t, f) == Use(ClosureFromNative) <==>
      !IsAssignableFrom(EnumClass, t) && !IsAssignableFrom(StructClass, t) &&
      m.hasClosureManager && f.isDelegate
  {
  }

  /** Without a closure manager the delegate test is skipped from native:
      a delegate is resolved as if it were not one, by the exact-class tests
      that follow. */
  lemma FromNativeWithoutManagerIgnoresDelegate(m: Mapper, t: JType, f: Facts)
    requires !m.hasClosureManager
    ensures GetFromNativeConverter(m, t, f) == GetFromNativeConverter(m, t, f.(isDelegate := false))
  {
  }

  /** To native does not look at the manager before the delegate test: a
      delegate that is neither an enum nor a found enum set gets a closure
      site when there is a manager, and the resolver throws when there is
      none. These are the only two ways to either outcome. */
  lemma ToNativeDelegate(m: Mapper, t: JType, f: Facts)
    ensures var reached := !IsAssignableFrom(EnumClass, t) &&
                           !(IsAssignableFrom(SetInterface, t) && f.enumSetToNative) && f.isDelegate;
      && (GetToNativeConverter(m, t, f) == Use(ClosureSite) <==> reached && m.hasClosureManager)
      && (GetToNativeConverter(m, t, f) == Throws(NullPointerException) <==> reached && !m.hasClosureManager)
      && (GetToNativeConverter(m, t, f).Throws? <==> reached && !m.hasClosureManager)
  {
  }

  /** The two directions disagree on a delegate interface with no named
      supertypes when there is no closure manager: from native needs no
      conversion, to native throws. */
  lemma DelegateWithoutManager(m: Mapper, name: string, f: Facts)
    requires !m.hasClosureManager && f.isDelegate
    ensures GetFromNativeConverter(m, Declared(name, {}), f) == NoConversion
    ensures GetToNativeConverter(m, Declared(name, {}), f) == Throws(NullPointerException)
    ensures GetFromNativeType(m, Declared(name, {}), f).fromConverter == NoConversion
    ensures GetToNativeType(m, Declared(name, {}), f).toConverter.Throws?
  {
  }

  // ---------------------------------------------------------------------
  // Exact class from native, assignability to native
  // ---------------------------------------------------------------------

  /** From native, NativeLong, String/CharSequence and Set/EnumSet are matched
      by the exact class: only those classes themselves get their converters,
      so no subclass or implementation (StringBuilder and StringBuffer
      included), no primitive and no array does. */
  lemma FromNativeExactClassOnly(m: Mapper, t: JType, f: Facts)
    ensures var r := GetFromNativeConverter(m, t, f);
      && (r == Use(NativeLongConverter) ==> t == Named(NativeLongClass))
      && (r == Use(StringResult) ==> t == Named(StringClass) || t == Named(CharSequenceInterface))
      && (r == Use(EnumSetConverter) ==> t == Named(SetInterface) || t == Named(EnumSetClass))
  {
  }

  /** StringBuilder and StringBuffer are CharSequences, yet from native they
      need no conversion, while to native they get their own converters. */
  lemma BuildersExactFromNative(m: Mapper, f: Facts)
    requires !f.isDelegate
    ensures GetFromNativeConverter(m, Named(StringBuilderClass), f) == NoConversion
    ensures GetFromNativeConverter(m, Named(StringBufferClass), f) == NoConversion
    ensures GetToNativeConverter(m, Named(StringBuilderClass), f) == Use(StringBuilderParameter)
    ensures GetToNativeConverter(m, Named(StringBufferClass), f) == Use(StringBufferParameter)
  {
  }

  /** The exact classes themselves get their from-native converters unless a
      closure converter takes them first. */
  lemma FromNativeExactClasses(m: Mapper, f: Facts)
    requires !(m.hasClosureManager && f.isDelegate)
    ensures GetFromNativeConverter(m, Named(NativeLongClass), f) == Use(NativeLongConverter)
    ensures GetFromNativeConverter(m, Named(StringClass), f) == Use(StringResult)
    ensures GetFromNativeConverter(m, Named(CharSequenceInterface), f) == Use(StringResult)
    ensures GetFromNativeConverter(m, Named(SetInterface), f) ==
      if f.enumSetFromNative then Use(EnumSetConverter) else NoConversion
    ensures GetFromNativeConverter(m, Named(EnumSetClass), f) ==
      if f.enumSetFromNative then Use(EnumSetConverter) else NoConversion
  {
  }

  /** A subclass of NativeLong, an implementation of CharSequence and an
      implementation of Set, each with no other named supertype and not a
      delegate, need no conversion from native; to native they get the
      NativeLong and char-sequence converters, and the enum-set converter when
      the to-native lookup finds one. */
  lemma ExactFromNativeAssignableToNative(m: Mapper, name: string, f: Facts)
    requires !f.isDelegate
    ensures GetFromNativeConverter(m, Declared(name, {NativeLongClass}), f) == NoConversion
    ensures GetToNativeConverter(m, Declared(name, {NativeLongClass}), f) == Use(NativeLongConverter)
    ensures GetFromNativeConverter(m, Declared(name, {CharSequenceInterface}), f) == NoConversion
    ensures GetToNativeConverter(m, Declared(name, {CharSequenceInterface}), f) == Use(CharSequenceParameter)
    ensures GetFromNativeConverter(m, Declared(name, {SetInterface}), f) == NoConversion
    ensures f.enumSetToNative ==>
      GetToNativeConverter(m, Declared(name, {SetInterface}), f) == Use(EnumSetConverter)
  {
  }

  // ---------------------------------------------------------------------
  // Enum-set lookups that find nothing
  // ---------------------------------------------------------------------

  /** To native, a Set type whose enum-set lookup finds nothing carries on
      through the later tests: dropping Set and EnumSet from its supertypes
      changes nothing, and a Set that is also a ByReference gets the
      by-reference converter. */
  lemma ToNativeSetWithoutEnumSetConverter(m: Mapper, name: string, supers: set<Known>, f: Facts)
    requires !f.enumSetToNative
    ensures GetToNativeConverter(m, Declared(name, supers), f) ==
      GetToNativeConverter(m, Declared(name, supers - {SetInterface, EnumSetClass}), f)
    ensures !f.isDelegate ==>
      GetToNativeConverter(m, Declared(name, {SetInterface, ByReferenceInterface}), f) == Use(ByReferenceParameter)
    ensures !f.isDelegate ==> GetToNativeConverter(m, Named(SetInterface), f) == NoConversion
  {
  }

  /** From native, Set and EnumSet end at "no conversion" when the lookup
      finds nothing. */
  lemma FromNativeSetWithoutEnumSetConverter(m: Mapper, f: Facts)
    requires !f.enumSetFromNative && !(m.hasClosureManager && f.isDelegate)
    ensures GetFromNativeConverter(m, Named(SetInterface), f) == NoConversion
    ensures GetFromNativeConverter(m, Named(EnumSetClass), f) == NoConversion
  {
  }

  // ---------------------------------------------------------------------
  // StringBuilder and StringBuffer before CharSequence
  // ---------------------------------------------------------------------

  /** Nothing assignable to StringBuilder or StringBuffer gets the
      char-sequence converter. */
  lemma BuildersNeverCharSequence(m: Mapper, t: JType, f: Facts)
    ensures GetToNativeConverter(m, t, f) == Use(CharSequenceParameter) ==>
      !IsAssignableFrom(StringBuilderClass, t) && !IsAssignableFrom(StringBufferClass, t)
  {
  }

  /** The builders get their own converters; String and CharSequence get the
      char-sequence converter. */
  lemma CharacterSequencesToNative(m: Mapper, f: Facts)
    requires !f.isDelegate
    ensures GetToNativeConverter(m, Named(StringBuilderClass), f) == Use(StringBuilderParameter)
    ensures GetToNativeConverter(m, Named(StringBufferClass), f) == Use(StringBufferParameter)
    ensures GetToNativeConverter(m, Named(StringClass), f) == Use(CharSequenceParameter)
    ensures GetToNativeConverter(m, Named(CharSequenceInterface), f) == Use(CharSequenceParameter)
  {
  }

  // ---------------------------------------------------------------------
  // Width selection for arrays
  // ---------------------------------------------------------------------

  /** Long[] takes the 32-bit converter exactly when the native element is
      4 bytes wide, and the 64-bit one otherwise. */
  lemma BoxedLongArrayWidth(m: Mapper, f: Facts)
    requires !f.isDelegate
    ensures GetToNativeConverter(m, ArrayOf(Named(LongBox)), f) == Use(BoxedLong32Array) <==> f.componentSizeof == 4
    ensures GetToNativeConverter(m, ArrayOf(Named(LongBox)), f) == Use(BoxedLong64Array) <==> f.componentSizeof != 4
  {
  }

  /** An array of NativeLong, or of a subclass of it that is none of the boxed
      types, takes the 32-bit converter exactly when the native element is
      4 bytes wide. */
  lemma NativeLongArrayWidth(m: Mapper, c: JType, f: Facts)
    requires !f.isDelegate && IsAssignableFrom(NativeLongClass, c)
    requires !IsAssignableFrom(ByteBox, c) && !IsAssignableFrom(ShortBox, c)
    requires !IsAssignableFrom(IntegerBox, c) && !IsAssignableFrom(LongBox, c)
    ensures GetToNativeConverter(m, ArrayOf(c), f) == Use(NativeLong32Array) <==> f.componentSizeof == 4
    ensures GetToNativeConverter(m, ArrayOf(c), f) == Use(NativeLong64Array) <==> f.componentSizeof != 4
  {
    ArrayByShape(m, c, f);
  }

  /** An array of Pointer, or of a subclass of it that is none of the boxed
      types nor a NativeLong, takes the 32-bit converter exactly when
      addresses are 4 bytes wide. */
  lemma PointerArrayWidth(m: Mapper, c: JType, f: Facts)
    requires !f.isDelegate && IsAssignableFrom(PointerClass, c)
    requires !IsAssignableFrom(ByteBox, c) && !IsAssignableFrom(ShortBox, c)
    requires !IsAssignableFrom(IntegerBox, c) && !IsAssignableFrom(LongBox, c)
    requires !IsAssignableFrom(NativeLongClass, c) && !IsAssignableFrom(FloatBox, c)
    requires !IsAssignableFrom(DoubleBox, c) && !IsAssignableFrom(BooleanBox, c)
    ensures GetToNativeConverter(m, ArrayOf(c), f) == Use(Pointer32Array) <==> f.addressSize == 4
    ensures GetToNativeConverter(m, ArrayOf(c), f) == Use(Pointer64Array) <==> f.addressSize != 4
  {
    ArrayByShape(m, c, f);
  }

  /** A primitive long[] gets the 32-bit converter exactly when the native
      element is 4 bytes wide; with any other width no later test matches and
      it needs no conversion. */
  lemma PrimitiveLongArray(m: Mapper, f: Facts)
    requires !f.isDelegate
    ensures GetToNativeConverter(m, ArrayOf(Prim(LongType)), f) == Use(Long32Array) <==> f.componentSizeof == 4
    ensures f.componentSizeof != 4 ==> GetToNativeConverter(m, ArrayOf(Prim(LongType)), f) == NoConversion
  {
  }

  /** Arrays of the other primitive types need no conversion. */
  lemma OtherPrimitiveArrays(m: Mapper, p: Primitive, f: Facts)
    requires !f.isDelegate && p != LongType
    ensures GetToNativeConverter(m, ArrayOf(Prim(p)), f) == NoConversion
  {
  }

  /** An array whose component is a struct type that none of the earlier
      component tests take (the boxed types, NativeLong, Pointer) gets the
      struct-array converter for that same component type. */
  lemma StructArrayKeepsComponent(m: Mapper, c: JType, f: Facts)
    requires !f.isDelegate && IsAssignableFrom(StructClass, c)
    requires !IsAssignableFrom(ByteBox, c) && !IsAssignableFrom(ShortBox, c)
    requires !IsAssignableFrom(IntegerBox, c) && !IsAssignableFrom(LongBox, c)
    requires !IsAssignableFrom(NativeLongClass, c) && !IsAssignableFrom(FloatBox, c)
    requires !IsAssignableFrom(DoubleBox, c) && !IsAssignableFrom(BooleanBox, c)
    requires !IsAssignableFrom(PointerClass, c)
    ensures GetToNativeConverter(m, ArrayOf(c), f) == Use(StructArray(c))
  {
  }

  // ---------------------------------------------------------------------
  // No conversion
  // ---------------------------------------------------------------------

  /** From native, "no conversion" is exactly the case where no rule of the
      table applies, and otherwise the one rule the input reaches decides. */
  lemma FromNativeBranch(m: Mapper, t: JType, f: Facts)
    ensures var k := Branch(FromNativeRules(), m, t, f);
      GetFromNativeConverter(m, t, f) == if k < 6 then Apply(FromNativeRules()[k].make, f) else NoConversion
    ensures GetFromNativeConverter(m, t, f) == NoConversion <==>
      forall j :: 0 <= j < 6 ==> !Holds(FromNativeRules()[j].test, m, t, f)
  {
    FromNativeFollowsTable(m, t, f);
    FirstMatchIsBranch(FromNativeRules(), m, t, f);
  }

  /** A primitive type, and a class or interface with none of the named
      supertypes, needs no conversion in either direction unless it is a
      delegate. */
  lemma PlainTypesNeedNoConversion(m: Mapper, p: Primitive, name: string, f: Facts)
    requires !f.isDelegate
    ensures GetFromNativeConverter(m, Prim(p), f) == NoConversion
    ensures GetToNativeConverter(m, Prim(p), f) == NoConversion
    ensures GetFromNativeConverter(m, Declared(name, {}), f) == NoConversion
    ensures GetToNativeConverter(m, Declared(name, {}), f) == NoConversion
  {
  }
}
