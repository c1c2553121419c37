/** The optional-value datatype shared by the three solvers. `None` stands for a
    Rust `None`, and for a panic of the Rust program where a whole computation fails. */
module Options {

  datatype Option<+T> = None | Some(value: T)
}
