/** The values the framework puts into the ledger. The ledger itself only compares them and asks
    whether one is `Null`; the other shapes are what the journal, the runtime and the input queue
    write and read back. */
module Values {
  import opened Wrappers

  datatype ParkState = Waiting | Resuming

  /** One parked call: its id in the round, and the id the outside world knows it by. */
  datatype ParkedCall = ParkedCall(callId: string, pendingId: string)

  /** What a person said about a parked call: run it, perhaps with other arguments, or do not. */
  datatype Consent = Approve(args: Option<string>) | Refuse(message: string)

  /** One tool call of a round: its id, the tool and the arguments. */
  datatype Call = Call(id: string, name: string, args: string)

  /** One part of a model request. */
  datatype Part = UserPrompt(text: string) | OtherPart(text: string)

  datatype Value =
    | Null
    | Text(text: string)                                       // any other JSON value
    | Record(ok: bool, body: string)                           // {"ok": .., "value" | "error": ..}
    | Marker(shown: Value)                                     // {"hooked": true, "record": ..}
    | Round(calls: seq<Call>)                                  // the latest model-issued round
    | Parked(state: ParkState, parked: seq<ParkedCall>, answers: map<string, Consent>)
    | Finished(callIds: seq<string>)                           // {"state": "completed", ..}
    | SuspendIndex(activeCallId: string)                       // suspend:<call>
    | Queued(kind: string, part: Part, origin: Option<string>) // one encoded PendingInput
}
