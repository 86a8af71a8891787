/** The TypeScript `T | undefined` of the component's fields and getters. */
module Optional {
  datatype Option<T> = None | Some(value: T)
}
