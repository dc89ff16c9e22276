/** Optional values: a JavaScript `undefined`/`null`/`NaN` becomes `None`. */
module Options {

  datatype Option<+T> = None | Some(value: T)

}
