/** JSON-encoded text fields. The encoder and decoder are not modelled
    character by character: a field that holds JSON text is either exactly
    what `json.dumps` wrote for some value, or text that `json.loads`
    rejects. Decoding the first gives the value back; the second fails. */
module Json {
  import opened Wrappers

  datatype JsonText<T> = Dumps(value: T) | Malformed(raw: string)

  /** `json.loads(text)`: None stands for the raised JSONDecodeError. */
  function Loads<T>(text: JsonText<T>): (r: Option<T>)
    ensures r.Some? <==> text.Dumps?
  {
    match text
    case Dumps(v) => Some(v)
    case Malformed(_) => None
  }

  /** A list-valued field as read back from a backend: absent, already a
      list, or a string holding JSON. */
  datatype ListField<T> = Absent | Native(items: seq<T>) | Encoded(text: JsonText<seq<T>>)

  /** The recurring idiom
        v = d.get(key, "[]"); if isinstance(v, str): try v = json.loads(v) except: v = []
      A missing key reads the default text "[]", which decodes to []. */
  function ListOrEmpty<T>(field: ListField<T>): seq<T>
  {
    match field
    case Absent => []
    case Native(xs) => xs
    case Encoded(t) =>
      match Loads(t)
      case Some(xs) => xs
      case None => []
  }

  lemma LoadsDumps<T>(x: T)
    ensures Loads(Dumps(x)) == Some(x)
  {
  }
}
