/// Outcome types shared by every module of the model.
module Status {
  /// An optional value (Rust's `Option`).
  datatype Option<T> = None | Some(value: T)

  /// A value or an error message (Rust's `Result<T, &'static str>`). The three members let
  /// Dafny's `:-` pass an error on the way Rust's `?` does.
  datatype Result<T> = Ok(value: T) | Err(error: string)
  {
    predicate IsFailure() { Err? }

    function PropagateFailure<U>(): Result<U>
      requires Err?
    {
      Err(error)
    }

    function Extract(): T
      requires Ok?
    {
      value
    }
  }

  /// A success without a value is `Ok(())`: the unit value is unique.
  lemma UnitSuccess(r: Result<()>)
    requires r.Ok?
    ensures r == Ok(())
  {
    var u: () := r.value;
    assert u == ();
  }
}
