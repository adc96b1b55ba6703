/** Values shared by the pages: optional fields (a property that is
    `undefined` in the program) and the cells of the report tables. */
module Common {

  datatype Option<T> = None | Some(value: T)

  /** JavaScript truthiness of an optional string: absent and "" are falsy. */
  predicate Truthy(s: Option<string>)
  {
    s.Some? && s.value != ""
  }

  /** One cell of a report table. `Percent(x)` stands for the numeral that
      `x.toFixed(2)` prints followed by "%"; `Num(x)` for a number printed as is. */
  datatype Cell = Str(text: string) | Num(x: real) | Percent(x: real)

  /** A two-column table row: a label and a value. */
  type Row = (string, Cell)
}
