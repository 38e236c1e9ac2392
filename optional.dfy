/** An optional value: `None` stands for JavaScript's `undefined`/`null` where a
    value may be absent. */
module Optional {

  datatype Option<+T> = None | Some(value: T)
}
