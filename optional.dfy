/** The absent-or-present value that the components express with `null`,
    `undefined` and the result of `Array.prototype.find`. */
module Optional {

  datatype Option<+T> = None | Some(value: T)
}
