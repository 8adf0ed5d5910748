/**
 * The part of the host's UML model that the exporters read. The host owns
 * these objects and answers queries about them; here they are plain values,
 * and the host's runtime type tests (`instanceof type.UMLClass`, ...) become
 * the constructors of the tagged datatypes below.
 */
module Uml {

  /** One literal of an enumeration. */
  datatype Literal = Literal(id: string, name: string)

  /** A UML enumeration: identity, name and its literals in declaration order. */
  datatype Enum = Enum(id: string, name: string, literals: seq<Literal>)

  /** A UML class: identity, name and its attributes in declaration order. */
  datatype Class = Class(id: string, name: string, attributes: seq<Attribute>)

  /**
   * An attribute. `parentName` is the name of the owning class (the host's
   * `attr._parent.name` back-reference, kept as a name only).
   */
  datatype Attribute = Attribute(id: string, name: string, doc: string, parentName: string, typ: AttrType)

  /**
   * The type of an attribute: a primitive type given by its name (a JavaScript
   * string), a reference to a class or an enumeration of the model, or a
   * reference to any other classifier (a data type, an interface, a primitive
   * type element), of which only the name is read.
   */
  datatype AttrType = Prim(typeName: string) | ClassRef(cls: Class) | EnumRef(enum: Enum) | OtherRef(name: string)

  /** A directed association end1 -> end2; only the ids and names the exporters read are kept. */
  datatype Association = Association(end1Id: string, end2Name: string, name: string)

  /** An inheritance edge from the class with id `sourceId` to the class named `targetName`. */
  datatype Generalization = Generalization(sourceId: string, targetName: string)

  /** An owned element of a package, discriminated by its UML kind. */
  datatype Element =
    | ClassElement(cls: Class)
    | InterfaceElement(interfaceName: string)
    | EnumerationElement(enum: Enum)
    | OtherElement(kind: string)
  {
    /** The kinds that make a package worth exporting. */
    predicate IsTypeElement() {
      ClassElement? || InterfaceElement? || EnumerationElement?
    }
  }

  /** A UML package with its owned elements in model order. */
  datatype Package = Package(name: string, ownedElements: seq<Element>)

  /** A diagram view of a model element, as returned by the host's `getViewsOf`. */
  datatype View = View(modelId: string, visible: bool)
}
