/** JSON-like values carried by raw and annotated items. */
module Values {

  datatype Option<+T> = None | Some(value: T)

  /** A field value of an item: strings, integers, decimals, booleans, and
      `None`/`null` for a missing attribute. */
  datatype Value = Str(s: string) | Int(i: int) | Num(r: real) | Bool(b: bool) | Null

  /** A dictionary item as the back end emits it and the front end receives it. */
  type Entry = map<string, Value>
}
