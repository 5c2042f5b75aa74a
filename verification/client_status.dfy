/** The per-client record of flags the server keeps in its `clients` map. */
module Status {

  datatype Operation = Dump | Restore

  datatype ClientStatus = ClientStatus(
    connected: bool,
    ready: bool,
    localCheckpoint: bool,
    networkLocked: bool,
    networkUnlocked: bool,
    operation: Operation)
  {
    /** Only `ready` takes the given value; every other flag is kept. */
    function SetReady(value: bool): (r: ClientStatus)
      ensures r.ready == value
      ensures r.connected == connected && r.localCheckpoint == localCheckpoint
      ensures r.networkLocked == networkLocked && r.networkUnlocked == networkUnlocked
      ensures r.operation == operation
    {
      this.(ready := value)
    }

    function SetLocalCheckpoint(): (r: ClientStatus)
      ensures r.localCheckpoint
      ensures r.connected == connected && r.ready == ready
      ensures r.networkLocked == networkLocked && r.networkUnlocked == networkUnlocked
      ensures r.operation == operation
    {
      this.(localCheckpoint := true)
    }

    function SetNetworkLocked(): (r: ClientStatus)
      ensures r.networkLocked
      ensures r.connected == connected && r.ready == ready
      ensures r.localCheckpoint == localCheckpoint && r.networkUnlocked == networkUnlocked
      ensures r.operation == operation
    {
      this.(networkLocked := true)
    }

    function SetNetworkUnlocked(): (r: ClientStatus)
      ensures r.networkUnlocked
      ensures r.connected == connected && r.ready == ready
      ensures r.localCheckpoint == localCheckpoint && r.networkLocked == networkLocked
      ensures r.operation == operation
    {
      this.(networkUnlocked := true)
    }
  }

  /** A freshly registered client: connected, every other flag down. */
  function New(operation: Operation): (r: ClientStatus)
    ensures r.connected
    ensures !r.ready && !r.localCheckpoint && !r.networkLocked && !r.networkUnlocked
    ensures r.operation == operation
  {
    ClientStatus(true, false, false, false, false, operation)
  }

  /** The mutations the type offers; no mutation touches `connected` or `operation`. */
  datatype Mutation =
    | SetReadyTo(value: bool)
    | RaiseLocalCheckpoint
    | RaiseNetworkLocked
    | RaiseNetworkUnlocked

  function Apply(s: ClientStatus, m: Mutation): ClientStatus {
    match m
    case SetReadyTo(v) => s.SetReady(v)
    case RaiseLocalCheckpoint => s.SetLocalCheckpoint()
    case RaiseNetworkLocked => s.SetNetworkLocked()
    case RaiseNetworkUnlocked => s.SetNetworkUnlocked()
  }

  /** A status after a history of mutations, oldest first. */
  function ApplyAll(s: ClientStatus, ms: seq<Mutation>): ClientStatus
    decreases |ms|
  {
    if |ms| == 0 then s else ApplyAll(Apply(s, ms[0]), ms[1..])
  }

  /** Whatever happens to a status, it keeps its connection flag, its
      operation, and any local checkpoint or network flag once raised. */
  lemma {:induction false} HistoryPreserves(s: ClientStatus, ms: seq<Mutation>)
    ensures ApplyAll(s, ms).connected == s.connected
    ensures ApplyAll(s, ms).operation == s.operation
    ensures s.localCheckpoint ==> ApplyAll(s, ms).localCheckpoint
    ensures s.networkLocked ==> ApplyAll(s, ms).networkLocked
    ensures s.networkUnlocked ==> ApplyAll(s, ms).networkUnlocked
    decreases |ms|
  {
    if |ms| > 0 {
      HistoryPreserves(Apply(s, ms[0]), ms[1..]);
    }
  }

  /** Every status ever created reports itself connected and keeps the
      operation it was created with. */
  lemma {:induction false} CreatedStatusStaysConnected(op: Operation, ms: seq<Mutation>)
    ensures ApplyAll(New(op), ms).connected
    ensures ApplyAll(New(op), ms).operation == op
  {
    HistoryPreserves(New(op), ms);
  }

  /** Raising the local-checkpoint flag twice is the same as raising it once. */
  lemma SetLocalCheckpointIdempotent(s: ClientStatus)
    ensures s.SetLocalCheckpoint().SetLocalCheckpoint() == s.SetLocalCheckpoint()
  {
  }
}
