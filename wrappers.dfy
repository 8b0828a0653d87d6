// Value wrappers shared by every module of the model.
module Wrappers {

  datatype Option<+T> = None | Some(value: T)

  /** A JSON field of a journal row, as JavaScript sees it: the key may be
      missing (`undefined`), present with `null` (an empty database column),
      or present with a value. */
  datatype Field<+T> = Undefined | Null | Value(v: T) {

    /** `field ?? d`: both `undefined` and `null` fall back to `d`. */
    function Or(d: T): T {
      if Value? then v else d
    }

    /** `field !== undefined`: a `null` column counts as defined. */
    predicate Defined() {
      !Undefined?
    }
  }
}
