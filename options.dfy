/** Optional values: stands for a Java reference that may be null, or an
    `Optional<T>` that may be empty. */
module Options {

  datatype Option<+T> = None | Some(value: T)

}
