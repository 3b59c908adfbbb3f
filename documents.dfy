/** JSON-like documents: the dictionaries the engine reads from spreadsheets, writes to
    DynamoDB and exchanges as tag files. */
module Documents {

  datatype Option<T> = None | Some(value: T)

  datatype Value =
    | Null
    | Bool(b: bool)
    | Int(i: int)
    | Str(s: string)
    | List(elems: seq<Value>)
    | Dict(entries: map<string, Value>)

  /** A flat dictionary: one spreadsheet row, or one item handed to DynamoDB. */
  type Row = map<string, Value>

  /** Python truthiness of a document value. */
  predicate Truthy(v: Value) {
    match v
    case Null => false
    case Bool(b) => b
    case Int(i) => i != 0
    case Str(s) => s != ""
    case List(es) => es != []
    case Dict(m) => m != map[]
  }
}
