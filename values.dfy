/** Value types shared by the rest of the model. */
module Values {

  /** An optional value; `None` stands for "absent" or "rejected". */
  datatype Option<+T> = None | Some(value: T)

  /** Either a value or an error; replaces the thrown exceptions of the handlers. */
  datatype Result<+T, +E> = Ok(value: T) | Err(error: E)

  /** A raw JSON value, as a tool call's `arguments` arrive before validation.
      Numbers are reals: there is no NaN in JSON, and only vector lengths matter here. */
  datatype Json =
    | JNull
    | JBool(b: bool)
    | JNum(n: real)
    | JStr(str: string)
    | JArr(items: seq<Json>)
    | JObj(fields: map<string, Json>)
}
