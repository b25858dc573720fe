/** The optional value used throughout the model: a JavaScript value that may be
    `null`/`undefined`, a parse that may yield `NaN`, a store lookup that may miss. */
module Options {

  datatype Option<+T> = None | Some(value: T) {

    predicate IsFailure() {
      None?
    }

    function PropagateFailure<U>(): Option<U>
      requires None?
    {
      None
    }

    function Extract(): T
      requires Some?
    {
      value
    }
  }
}
