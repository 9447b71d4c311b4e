/** Values that tasks compute: any type at all, with any binary operator. */
module Values {
  type Value(!new)

  /** One contribution per thread and the operator that combines them. */
  datatype Reduction = Reduction(x: nat -> Value, op: (Value, Value) -> Value)
}
