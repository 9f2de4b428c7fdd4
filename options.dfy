/** A value that may be absent: a DOM lookup that finds nothing, a storage key
    that was never written, an image source that is `undefined`. */
module Options {

  datatype Option<+T> = None | Some(value: T)
}
