/** Java types as far as the converter resolvers of the invoker can tell them apart.

    A declared type is a primitive, one of the library or platform classes that
    the resolvers name in a type test, some other class (described by which of
    the named classes and interfaces it extends or implements), or an array.
 */
module JavaTypes {

  /** Java's eight primitive types. */
  datatype Primitive =
    | BooleanType | ByteType | CharType | ShortType | IntType | LongType | FloatType | DoubleType

  /** The classes and interfaces that appear in a type test of the resolvers. */
  datatype Known =
    | EnumClass              // java.lang.Enum
    | SetInterface           // java.util.Set
    | EnumSetClass           // java.util.EnumSet, an implementation of Set
    | StructClass            // jnr.ffi.Struct
    | ByReferenceInterface   // jnr.ffi.byref.ByReference
    | NativeLongClass        // jnr.ffi.NativeLong
    | StringClass            // java.lang.String, a CharSequence
    | CharSequenceInterface  // java.lang.CharSequence
    | StringBuilderClass     // java.lang.StringBuilder, a CharSequence
    | StringBufferClass      // java.lang.StringBuffer, a CharSequence
    | PointerClass           // jnr.ffi.Pointer
    | ByteBox | ShortBox | IntegerBox | LongBox | FloatBox | DoubleBox | BooleanBox

  /** A declared Java type. `Named(k)` is the class or interface `k` itself;
      `Declared(n, s)` is any other class or interface, whose supertypes among
      the named ones (direct or indirect) are `s`; a user enum `E` is
      `Declared("E", {EnumClass})`. */
  datatype JType =
    | Prim(primitive: Primitive)
    | Named(known: Known)
    | Declared(name: string, supertypes: set<Known>)
    | ArrayOf(component: JType)

  /** `target.class.isAssignableFrom(k.class)` among the named types: EnumSet
      implements Set, and String, StringBuilder and StringBuffer implement
      CharSequence; no other named type extends another. */
  predicate IsSubtypeOf(k: Known, target: Known) {
    || k == target
    || (target == SetInterface && k == EnumSetClass)
    || (target == CharSequenceInterface && (k == StringClass || k == StringBuilderClass || k == StringBufferClass))
  }

  /** `target.class.isAssignableFrom(t)`, for a named `target`: class and
      interface types only, so a primitive or an array type is assignable to
      none of the named types; a named type is assignable to itself, and a
      declared type to each of its supertypes. */
  predicate IsAssignableFrom(target: Known, t: JType)
    ensures IsAssignableFrom(target, t) ==> t.Named? || t.Declared?
  {
    match t
    case Named(k) => IsSubtypeOf(k, target)
    case Declared(_, supers) =>
      || target in supers
      || (target == SetInterface && EnumSetClass in supers)
      || (target == CharSequenceInterface &&
          (StringClass in supers || StringBuilderClass in supers || StringBufferClass in supers))
    case _ => false
  }

  /** Both `Target[].class.isAssignableFrom(t)` and
      `t.isArray() && Target.class.isAssignableFrom(t.getComponentType())`:
      Java arrays of reference types are covariant in their component type.
      Only arrays of reference types pass; `Target[]` itself does. */
  predicate IsArrayOf(target: Known, t: JType)
    ensures IsArrayOf(target, t) ==> t.ArrayOf?
  {
    t.ArrayOf? && IsAssignableFrom(target, t.component)
  }

  /** `p[].class.isAssignableFrom(t)`: an array of primitives is assignable
      only to itself (see `PrimitiveArraysInvariant`); it passes no `Target[]`
      test (see `TypeTestBasics`). */
  predicate IsPrimitiveArray(p: Primitive, t: JType)
    ensures IsPrimitiveArray(p, t) ==> t.ArrayOf? && t.component.Prim?
  {
    t == ArrayOf(Prim(p))
  }

  /** Assignability is transitive through the named types: what is assignable
      to `k` is assignable to every supertype of `k`. */
  lemma AssignableUpwards(k: Known, target: Known, t: JType)
    requires IsSubtypeOf(k, target) && IsAssignableFrom(k, t)
    ensures IsAssignableFrom(target, t)
  {
  }

  /** Array covariance: an array passes the `Target[]` test exactly when its
      component passes the `Target` test, and so an array that passes the test
      for `k` also passes it for every supertype of `k` (an `EnumSet[]` is a
      `Set[]`, a `String[]` a `CharSequence[]`). */
  lemma ArraysCovariant(k: Known, target: Known, c: JType)
    ensures IsArrayOf(target, ArrayOf(c)) <==> IsAssignableFrom(target, c)
    ensures IsSubtypeOf(k, target) && IsArrayOf(k, ArrayOf(c)) ==> IsArrayOf(target, ArrayOf(c))
  {
    if IsSubtypeOf(k, target) && IsArrayOf(k, ArrayOf(c)) {
      AssignableUpwards(k, target, c);
    }
  }

  /** Arrays of primitives are invariant: `p[]` passes the `q[]` test only
      when `p` and `q` are the same primitive. */
  lemma PrimitiveArraysInvariant(p: Primitive, q: Primitive)
    ensures IsPrimitiveArray(p, ArrayOf(Prim(q))) <==> p == q
  {
  }

  /** The tests hold where Java's would: every named type is assignable to
      itself, a declared type to each supertype it lists, `Target[]` passes
      its own array test, and an array of primitives passes no `Target[]`
      test. */
  lemma TypeTestBasics(k: Known, name: string, supers: set<Known>, p: Primitive)
    ensures IsAssignableFrom(k, Named(k))
    ensures k in supers ==> IsAssignableFrom(k, Declared(name, supers))
    ensures IsArrayOf(k, ArrayOf(Named(k)))
    ensures !IsArrayOf(k, ArrayOf(Prim(p)))
  {
  }
}
