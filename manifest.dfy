/** What Kotlin reflection yields about a host class, given explicitly: its
    member properties (name, declaring class, return type) in `memberProperties`
    order, its enum constants, and whether it has a primary constructor. */
module Manifest {

  /** A Kotlin `KType`: its classifier and whether it is marked nullable. */
  datatype KType = KType(classifier: Classifier, nullable: bool)

  /** A classifier is either `List` with its element type or some named class. */
  datatype Classifier = ListClass(element: KType) | NamedClass(simpleName: string)

  /** `(returnType.classifier as KClass).simpleName`: list wrapping and nullability are dropped. */
  function ClassifierName(t: KType): string
  {
    match t.classifier
    case ListClass(_) => "List"
    case NamedClass(n) => n
  }

  /** A `KProperty1`: its name, the simple name of its declaring class, and its return type. */
  datatype Property = Property(name: string, declaringClass: string, returnType: KType)

  /** A host class as the type builders see it. */
  datatype HostClass = HostClass(
    simpleName: string,
    memberProperties: seq<Property>,
    enumConstants: seq<string>,
    hasPrimaryConstructor: bool)
}
