/** The absent-or-present value used wherever the dashboard's code may find nothing
    (`Array.prototype.find`, a missing `row` element, a field `Number` cannot read). */
module Optional {

  datatype Option<+T> = None | Some(value: T)
}
