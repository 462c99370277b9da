/**
 * Descriptors standing in for java.lang.Class and java.lang.reflect.Method:
 * the reflection scans of the Valkyrien Skies adapters only look at a method's
 * name, modifiers, parameter types and return type.
 */
module Reflect {
  import opened Text

  /** A Java type: its binary name, whether it is primitive (void counts, as in Java),
      and the names of every type it is assignable to (its supertypes). */
  datatype JType = JType(name: string, primitive: bool, supertypes: set<string>)

  /** `target.isAssignableFrom(t)` for a target type named `target`. */
  predicate AssignableTo(t: JType, target: string)
  {
    t.name == target || target in t.supertypes
  }

  const VOID := JType("void", true, {})

  datatype MethodDesc = MethodDesc(
    name: string,
    isPublic: bool,
    isStatic: bool,
    params: seq<JType>,
    returnType: JType)

  /** `m.getName().toLowerCase(Locale.ROOT)` */
  function LowerName(m: MethodDesc): string { Lower(m.name) }
}
