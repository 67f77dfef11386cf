/** An optional value: stands for a TypeScript parameter that may be left `undefined`. */
module Options {
  datatype Option<+T> = None | Some(value: T)
}
