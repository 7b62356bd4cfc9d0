/** Types shared by the models of the stores. */
module Common {
  datatype Option<T> = None | Some(value: T)

  /** What became of a database statement: done, refused, or done with its answer
      lost, which the code sees as an error. */
  datatype Db = Done | Refused | Lost
}
