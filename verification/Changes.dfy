/** Change events and the outcome of applying one. */
module Changes {
  import opened Identity

  datatype ChangeType = ChangeUpsert | ChangeDelete

  datatype ChangeEvent = ChangeEvent(kind: string, namespace: Text, name: Text, change: ChangeType)

  datatype Outcome<T> = Done(result: T) | Failed(error: string)
}
