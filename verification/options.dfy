/** The JavaScript `null`/`undefined` of the portal's request and session
    objects, as an explicit optional value. */
module Options {

  datatype Option<+T> = None | Some(value: T)
}
