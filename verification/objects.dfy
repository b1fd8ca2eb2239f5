/** The remote objects the printer works on: an object has a type, an identifier,
    a map of dynamically typed attributes and a map of named relationships. */
module Objects {

  /** A dynamically typed attribute value. `Strings` is a Go `[]string`, the shape
      a folded one-to-many relationship takes; `Dict` is a nested map. */
  datatype Value =
    | Null
    | Bool(b: bool)
    | Number(n: int)
    | Str(s: string)
    | Strings(items: seq<string>)
    | List(elems: seq<Value>)
    | Dict(fields: map<string, Value>)

  type Attributes = map<string, Value>

  /** A remote object: `kind` is the object's type ("file", "url", ...). */
  datatype Object = Object(
    kind: string,
    id: string,
    attributes: Attributes,
    relationships: map<string, Relationship>)

  /** A named link from one object to others; a one-to-one relationship
      surfaces only its first related object. */
  datatype Relationship = Relationship(isOneToOne: bool, related: seq<Object>)
}
