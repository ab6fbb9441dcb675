/** Optional values: `None` stands for JavaScript's `undefined` (a `let` never assigned)
    or `null`, `Some(v)` for an assigned value. */
module Values {
  datatype Option<+T> = None | Some(value: T)
}
