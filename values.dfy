/** Values shared by the change-detection job and the billing webhook:
    an optional value, the field values a Firestore document holds, and
    JavaScript truthiness over both. */
module Values {

  datatype Option<+T> = None | Some(value: T)

  /** A field value of a Firestore document, as far as the modelled code
      reads or writes one. */
  datatype Value = Str(s: string) | Num(n: int) | Bool(b: bool) | Null

  /** A Firestore document: its top-level fields by name. */
  type Doc = map<string, Value>

  /** JavaScript truthiness of an optional string field: a missing (or null)
      field and the empty string are both falsy. */
  predicate TruthyStr(o: Option<string>)
  {
    o.Some? && o.value != ""
  }

  /** JavaScript truthiness of a field value. */
  predicate TruthyValue(v: Value)
  {
    match v
    case Str(s) => s != ""
    case Num(n) => n != 0
    case Bool(b) => b
    case Null => false
  }

  /** JavaScript truthiness of `doc.name` (a missing field reads as undefined). */
  predicate TruthyField(d: Doc, name: string)
  {
    name in d && TruthyValue(d[name])
  }

  /** Concatenation is associative. Both the collapse proof and the scan
      proof call it as a lemma: asserting the equation in place makes the
      solver search the surrounding context and run out of resource. */
  lemma AppendAssoc<T>(a: seq<T>, b: seq<T>, c: seq<T>)
    ensures a + (b + c) == (a + b) + c
  {
  }
}
