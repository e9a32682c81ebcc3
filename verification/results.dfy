/** Shapes shared by every tool: optional values and the `{ success, ... }`
    objects the tools hand back to the language model. */
module Results {

  /** An optional value: a JavaScript `undefined` is `None`. */
  datatype Option<+T> = None | Some(value: T) {

    /** The wrapped value, or `default` when there is none. */
    function GetOr(default: T): T {
      match this
      case Some(v) => v
      case None => default
    }
  }

  /** Which identifier field a successful tool result carries. */
  datatype IdField = ReplyId | MessageId | MemoryId

  /** The `{ success, ... }` objects returned by the action and memory tools:
      - `Succeeded`              is `{ success: true }`
      - `SucceededWith(f, id)`   is `{ success: true, <f>: id }`
      - `Unsuccessful`           is `{ success: false }` (no error text)
      - `FailedWith(e)`          is `{ success: false, error: e }` */
  datatype Status =
    | Succeeded
    | SucceededWith(field: IdField, id: string)
    | Unsuccessful
    | FailedWith(error: string)
  {
    /** The value of the `success` field. */
    predicate Success() {
      Succeeded? || SucceededWith?
    }
  }

  /** An awaited call that either completes with a value or throws. */
  datatype Attempt<T> = Done(value: T) | Threw
}
