/** The wire-level event records the timeline consumes. They belong to the
    external `rtic_scope_api` crate; only the parts the span model looks at
    are kept, and the diagnostic payloads are reduced to text. */
module Api {

  datatype TaskAction = Entered | Exited | Returned

  datatype EventType =
    | Overflow
    | Task(name: string, action: TaskAction)
    | Unknown(detail: string)
    | Unmappable(detail: string, reason: string)
    | Invalid(detail: string)

  /** One decoded message: a single timestamp (in nanoseconds) shared by an
      ordered list of events. */
  datatype EventChunk = EventChunk(timestamp: nat, events: seq<EventType>)
}
