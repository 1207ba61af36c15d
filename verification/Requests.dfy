/** What a model boundary does with an ordered group of inputs, on values: what it offers to the screen,
    what the screen let through, the request that is sent and the queue that is left. */
module Requests {
  import opened Wrappers
  import opened Values
  import opened Ledger
  import opened Inputs

  /** A model request: its parts, and the queued inputs its metadata says it carried. */
  datatype Request = Request(parts: seq<Part>, inputIds: seq<InputId>)

  datatype Screening = Halts(reason: string) | Keeps(items: seq<PendingInput>)
  datatype Steering = Stop(reason: string) | Steer(parts: seq<Part>)

  /** The decision points of one attempt, as far as this boundary asks them. */
  datatype Controls = Controls(screen: seq<PendingInput> -> Screening, steering: Steering)

  datatype Outcome =
    | Proceeds(request: Request)      // the model is asked with this request
    | Halted(reason: string)          // the attempt ends without asking
    | FencedOut                       // the lease was lost

  function Users(parts: seq<Part>): seq<PendingInput> {
    if parts == [] then [] else
    var n := |parts| - 1;
    Users(parts[..n]) + if parts[n].UserPrompt? then [PendingInput("user", parts[n], None)] else []
  }

  function NonUsers(parts: seq<Part>): seq<Part> {
    if parts == [] then [] else
    var n := |parts| - 1;
    NonUsers(parts[..n]) + if parts[n].UserPrompt? then [] else [parts[n]]
  }

  function PartsOf(items: seq<PendingInput>): seq<Part> {
    seq(|items|, i requires 0 <= i < |items| => items[i].part)
  }

  /** The pending inputs whose id the screen let no item keep. */
  function Lost(pending: seq<PendingInput>, kept: seq<PendingInput>): seq<PendingInput> {
    if pending == [] then [] else
    var n := |pending| - 1;
    Lost(pending[..n], kept)
    + if pending[n].origin.Some? && pending[n].origin.value != "" && pending[n].origin.value !in Origins(kept)
      then [pending[n]] else []
  }

  function Surviving(controls: Option<Controls>, offered: seq<PendingInput>): Screening {
    if controls.Some? && offered != [] then controls.value.screen(offered) else Keeps(offered)
  }

  function Steered(controls: Option<Controls>): Steering {
    if controls.Some? then controls.value.steering else Steer([])
  }

  function Sent(request: Request, kept: seq<PendingInput>, steers: seq<Part>): Request {
    Request(NonUsers(request.parts) + PartsOf(kept) + steers,
            if Origins(kept) != [] then Origins(kept) else request.inputIds)
  }

  function Gathered(prefetched: seq<PendingInput>, s: BranchState, represented: set<InputId>, seen: set<InputId>)
    : seq<PendingInput>
    requires QueueOk(s)
  {
    prefetched + Items(Due(ListInputs(s), represented, seen))
  }

  /** The queue after an attempt claimed `due` and discarded `lost`. */
  function Screened(s: BranchState, due: seq<Listed>, lost: seq<PendingInput>, token: int): BranchState {
    DiscardEach(ClaimEach(s, Ids(due), token), Origins(lost))
  }

  /** The queue after an attempt claimed `due`, discarded `lost` and admitted `kept`. */
  function Delivered(s: BranchState, due: seq<Listed>, lost: seq<PendingInput>, kept: seq<PendingInput>, token: int): BranchState {
    AdmitEach(Screened(s, due, lost, token), Origins(kept))
  }
}
