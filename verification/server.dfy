/** The coordination server: two shared maps, one request per connection,
    and a handler that runs as a sequence of short critical sections.

    Every critical section of the handler is one atomic `Step` on the shared
    state. Between two steps of one handler, other handlers may change the
    shared state arbitrarily; the poll loops are counters in the handler's
    program counter, and each poll is one step that looks at the shared state
    as it is at that moment. */
module Server {
  import opened Common
  import opened Status
  import opened Constants

  type U16 = x: int | 0 <= x < 0x1_0000

  /** id -> flags of every registered client. */
  type Clients = map<string, ClientStatus>

  /** id -> dependency list stored by the Kubernetes helper. */
  type DependencyTable = map<string, seq<string>>

  /** The two maps the server keeps behind its mutexes. */
  datatype Shared = Shared(clients: Clients, containerDependencies: DependencyTable)

  /** The server's fixed parameters. `freshOperation` is the operation recorded
      in a newly registered status; the server never reads it back. */
  datatype Config = Config(maxRetries: U16, freshOperation: Operation)

  /** A request as the JSON library hands it over: the rendering of the
      `id`, `action` and `dependencies` fields as strings, and the entries of
      `dependencies` when that field is a JSON object. */
  datatype RawMessage = RawMessage(
    id: string,
    action: string,
    dependenciesText: string,
    dependenciesObject: Option<seq<(string, seq<string>)>>)

  /** A request after `read_message`. */
  datatype ClientMessage = ClientMessage(
    id: string,
    action: string,
    dependencies: seq<string>,
    dependencyMap: seq<(string, seq<string>)>)

  predicate IsKubescrUpdate(id: string, action: string) {
    id == KubescrId && action == ActionAddDependencies
  }

  /** Actions after which closing the connection forgets the client. */
  predicate RemovesOnClose(action: string) {
    action == ActionPostStream || action == ActionPostRestore || action == ActionPostDump
  }

  // ---------------------------------------------------------------------------
  // Reading the request

  /** The dependency list of an ordinary request: the colon-separated fields of
      a non-empty text, otherwise whatever the table stores for the id. */
  function ResolveDependencies(table: DependencyTable, id: string, text: string): (r: seq<string>)
    ensures text != "" ==> |r| >= 1 && Join(r, ':') == text
    ensures text != "" ==> forall i :: 0 <= i < |r| ==> ':' !in r[i]
    ensures text == "" && id in table ==> r == table[id]
    ensures text == "" && id !in table ==> r == []
  {
    if text != "" then
      JoinSplit(text, ':');
      Split(text, ':')
    else if id in table then table[id]
    else []
  }

  /** `read_message`: `None` when the helper's update does not carry a JSON
      object, otherwise the request with its dependencies resolved. */
  function ReadMessage(table: DependencyTable, raw: RawMessage): (r: Option<ClientMessage>)
    ensures r.None? <==> IsKubescrUpdate(raw.id, raw.action) && raw.dependenciesObject.None?
    ensures r.Some? ==> r.value.id == raw.id && r.value.action == raw.action
    ensures r.Some? && IsKubescrUpdate(raw.id, raw.action) ==>
              r.value.dependencyMap == raw.dependenciesObject.value && r.value.dependencies == []
    ensures r.Some? && !IsKubescrUpdate(raw.id, raw.action) ==>
              r.value.dependencies == ResolveDependencies(table, raw.id, raw.dependenciesText)
  {
    if IsKubescrUpdate(raw.id, raw.action) then
      match raw.dependenciesObject
      case None => None
      case Some(entries) => Some(ClientMessage(raw.id, raw.action, [], entries))
    else
      Some(ClientMessage(raw.id, raw.action,
        ResolveDependencies(table, raw.id, raw.dependenciesText), []))
  }

  // ---------------------------------------------------------------------------
  // The critical sections

  /** `get_response_message`: register an unknown id, refuse a known one. */
  function RegisterClient(clients: Clients, id: string, op: Operation): (r: (Clients, string))
    ensures id !in clients ==> r.0 == clients[id := New(op)] && r.1 == MessageAck
    ensures id in clients ==> r.0 == clients && r.1 == MessageAlreadyConnected
  {
    if |clients| == 0 || id !in clients then
      (clients[id := New(op)], MessageAck)
    else
      (clients, MessageAlreadyConnected)
  }

  /** The key itself removed from a helper-supplied list, order kept. */
  function StripSelf(key: string, values: seq<string>): (r: seq<string>)
    ensures key !in r
    ensures forall x :: x != key ==> multiset(r)[x] == multiset(values)[x]
    // the kept values stay in their order
    ensures Subsequence(r, values)
  {
    if |values| == 0 then []
    else
      var rest := StripSelf(key, values[1..]);
      assert values == [values[0]] + values[1..];
      if values[0] != key then
        assert ([values[0]] + rest)[1..] == rest;
        [values[0]] + rest
      else rest
  }

  /** The value the last entry for `key` carries, if any entry does. */
  function LastValue(entries: seq<(string, seq<string>)>, key: string): Option<seq<string>> {
    if |entries| == 0 then None
    else
      var later := LastValue(entries[1..], key);
      if later.Some? then later
      else if entries[0].0 == key then Some(entries[0].1)
      else None
  }

  /** `handle_add_kubesrc_dependencies`: each key of the helper's map gets its
      list minus itself, replacing what was stored; other keys are untouched. */
  function UpdateTable(table: DependencyTable, entries: seq<(string, seq<string>)>): (r: DependencyTable)
    ensures forall k :: LastValue(entries, k).Some? ==>
              k in r && r[k] == StripSelf(k, LastValue(entries, k).value)
    ensures forall k :: LastValue(entries, k).None? ==>
              (k in r <==> k in table) && (k in table ==> r[k] == table[k])
    decreases |entries|
  {
    if |entries| == 0 then table
    else
      var (key, values) := entries[0];
      UpdateTable(table[key := StripSelf(key, values)], entries[1..])
  }

  /** The lock-protected `set_ready(true)` after the connection wait. */
  function MarkClientReady(clients: Clients, id: string): (r: Clients)
    ensures r.Keys == clients.Keys
    ensures id in clients ==> r[id].ready && r[id] == clients[id].SetReady(true)
    ensures forall k :: k in clients && k != id ==> r[k] == clients[k]
  {
    if id in clients then clients[id := clients[id].SetReady(true)] else clients
  }

  /** The lock-protected `set_local_checkpoint` of the pre-stream path. */
  function MarkClientCheckpoint(clients: Clients, id: string): (r: Clients)
    ensures r.Keys == clients.Keys
    ensures id in clients ==> r[id] == clients[id].SetLocalCheckpoint()
    ensures forall k :: k in clients && k != id ==> r[k] == clients[k]
  {
    if id in clients then clients[id := clients[id].SetLocalCheckpoint()] else clients
  }

  /** The first critical section of `handle_post_dump`. */
  function BeginPostDump(clients: Clients, id: string): (r: (Clients, string))
    ensures id !in clients ==> r == (clients, MessageNotConnected)
    ensures id in clients && clients[id].localCheckpoint ==> r == (clients, MessageCheckpointExists)
    ensures id in clients && !clients[id].localCheckpoint ==>
              r.1 == MessageAck && r.0 == clients[id := clients[id].SetLocalCheckpoint()]
  {
    if id in clients then
      if clients[id].localCheckpoint then (clients, MessageCheckpointExists)
      else (clients[id := clients[id].SetLocalCheckpoint()], MessageAck)
    else (clients, MessageNotConnected)
  }

  /** `close_client_connection`: forget the client after a post-* action. */
  function Close(clients: Clients, msg: ClientMessage): (r: Clients)
    ensures RemovesOnClose(msg.action) ==> r.Keys == clients.Keys - {msg.id}
    ensures !RemovesOnClose(msg.action) ==> r == clients
    ensures forall k :: k in r ==> k in clients && r[k] == clients[k]
  {
    if RemovesOnClose(msg.action) then clients - {msg.id} else clients
  }

  // ---------------------------------------------------------------------------
  // The handler as a step machine

  /** What a poll loop waits for. In the connection and readiness waits an
      absent dependency is not yet there; in the post-dump wait it counts as
      having finished and left. */
  datatype Wait = ForConnection | ForReadiness | ForCheckpoint

  function Satisfied(w: Wait, clients: Clients, dep: string): (r: bool)
    // an absent dependency is awaited by the pre-* waits but done for post-dump
    ensures dep !in clients ==> (r <==> w == ForCheckpoint)
    // a present one satisfies a wait exactly when that wait's flag is up
    ensures dep in clients && w == ForConnection ==> (r <==> clients[dep].connected)
    ensures dep in clients && w == ForReadiness ==> (r <==> clients[dep].ready)
    ensures dep in clients && w == ForCheckpoint ==> (r <==> clients[dep].localCheckpoint)
  {
    match w
    case ForConnection => dep in clients && clients[dep].connected
    case ForReadiness => dep in clients && clients[dep].ready
    case ForCheckpoint => dep !in clients || clients[dep].localCheckpoint
  }

  /** Where a handler is. The poll loops carry the index of the dependency
      being waited for and the retries left for it. */
  datatype Pc =
    | Register
    | AwaitConnection(index: nat, retries: nat)
    | MarkReady
    | AwaitReadiness(index: nat, retries: nat)
    | AwaitSyn
    | UpdateDependencies
    | PostDumpBegin
    | AwaitCheckpoints(index: nat, retries: nat)
    | Respond(message: string)
    | Finished

  /** One connection's handler. `synReply` is whether the client answers the
      pre-stream handshake with "SYN"; `response` is what has been sent. */
  datatype Session = Session(msg: ClientMessage, synReply: bool, pc: Pc, response: Option<string>)

  /** A response has been sent exactly when the handler is finished or is
      waiting for the pre-stream handshake. */
  predicate Valid(s: Session) {
    s.response.Some? <==> s.pc == AwaitSyn || s.pc == Finished
  }

  /** Where `handle_client` goes after reading the message. */
  function Dispatch(msg: ClientMessage): (pc: Pc)
    ensures IsKubescrUpdate(msg.id, msg.action) ==> pc == UpdateDependencies
    ensures !IsKubescrUpdate(msg.id, msg.action) && msg.action == ActionPostDump ==> pc == PostDumpBegin
    ensures !IsKubescrUpdate(msg.id, msg.action) && msg.action == ActionPostRestore ==> pc == Respond(MessageAck)
    ensures !IsKubescrUpdate(msg.id, msg.action) && msg.action != ActionPostDump && msg.action != ActionPostRestore ==>
              pc == Register
  {
    if IsKubescrUpdate(msg.id, msg.action) then UpdateDependencies
    else if msg.action == ActionPostDump then PostDumpBegin
    else if msg.action == ActionPostRestore then Respond(MessageAck)
    else Register
  }

  /** A new connection: read the request (a critical section on the
      dependency table) and pick the handler. `None` is a dropped request. */
  function Open(g: Shared, raw: RawMessage, synReply: bool): (r: Option<Session>)
    ensures r.None? <==> IsKubescrUpdate(raw.id, raw.action) && raw.dependenciesObject.None?
    ensures r.Some? ==> r.value.response.None? && r.value.pc != Finished && Valid(r.value)
    ensures r.Some? ==> r.value.msg.id == raw.id && r.value.msg.action == raw.action
  {
    match ReadMessage(g.containerDependencies, raw)
    case None => None
    case Some(msg) => Some(Session(msg, synReply, Dispatch(msg), None))
  }

  /** After the readiness wait: send the outcome, then either close or, for a
      pre-stream, wait for the client's handshake first. */
  function AfterReadiness(s: Session, message: string): Session {
    if s.msg.action == ActionPreStream then s.(pc := AwaitSyn, response := Some(message))
    else s.(pc := Respond(message))
  }

  /** One poll of a wait loop at dependency `i` with `r` retries left. */
  function Poll(cfg: Config, g: Shared, s: Session, w: Wait, i: nat, r: nat): (next: Option<(nat, nat)>)
    requires i < |s.msg.dependencies|
    ensures next.Some? ==> next.value == (i + 1, cfg.maxRetries) || next.value == (i, r - 1)
    ensures next.Some? && next.value == (i + 1, cfg.maxRetries) && w != ForCheckpoint ==>
              s.msg.dependencies[i] == "" || Satisfied(w, g.clients, s.msg.dependencies[i])
    ensures next.Some? && next.value == (i + 1, cfg.maxRetries) && w == ForCheckpoint ==>
              Satisfied(w, g.clients, s.msg.dependencies[i])
    // a skipped or satisfied dependency is passed at once; otherwise a retry is spent
    ensures (w != ForCheckpoint && s.msg.dependencies[i] == "") || Satisfied(w, g.clients, s.msg.dependencies[i]) ==>
              next == Some((i + 1, cfg.maxRetries))
    ensures !(w != ForCheckpoint && s.msg.dependencies[i] == "") && !Satisfied(w, g.clients, s.msg.dependencies[i]) && r > 0 ==>
              next == Some((i, r - 1))
    ensures next.None? <==> r == 0 && !Satisfied(w, g.clients, s.msg.dependencies[i]) &&
                            (w == ForCheckpoint || s.msg.dependencies[i] != "")
  {
    var dep := s.msg.dependencies[i];
    if w != ForCheckpoint && dep == "" then Some((i + 1, cfg.maxRetries))
    else if Satisfied(w, g.clients, dep) then Some((i + 1, cfg.maxRetries))
    else if r > 0 then Some((i, r - 1))
    else None
  }

  /** Upper bound on the steps a handler still takes. */
  function Rank(cfg: Config, s: Session): nat {
    var n := |s.msg.dependencies|;
    var w := cfg.maxRetries + 2;
    match s.pc
    case Finished => 0
    case Respond(_) => 1
    case AwaitSyn => 1
    case UpdateDependencies => 2
    case AwaitReadiness(i, r) => 2 + Left(n, i) * w + r
    case AwaitCheckpoints(i, r) => 2 + Left(n, i) * w + r
    case MarkReady => 3 + n * w + cfg.maxRetries
    case PostDumpBegin => 3 + n * w + cfg.maxRetries
    case AwaitConnection(i, r) => 4 + n * w + cfg.maxRetries + Left(n, i) * w + r
    case Register => 5 + 2 * n * w + 2 * cfg.maxRetries
  }

  /** Dependencies still to wait for at index `i`. */
  function Left(n: nat, i: nat): nat {
    if i < n then n - i else 0
  }

  lemma MoveOn(n: nat, i: nat, w: nat)
    requires i < n
    ensures Left(n, i + 1) * w + w == Left(n, i) * w
  {
  }

  /** Every step of an unfinished handler brings it closer to the end, so a
      handler finishes after a bounded number of its own steps whatever the
      other handlers do. */
  lemma StepDecreasesRank(cfg: Config, g: Shared, s: Session)
    requires s.pc != Finished
    ensures Rank(cfg, Step(cfg, g, s).1) < Rank(cfg, s)
  {
    match s.pc
    case AwaitConnection(i, r) => ConnectionPollDecreasesRank(cfg, g, s);
    case AwaitReadiness(i, r) => ReadinessPollDecreasesRank(cfg, g, s);
    case AwaitCheckpoints(i, r) => CheckpointPollDecreasesRank(cfg, g, s);
    case Register => assert Left(|s.msg.dependencies|, 0) == |s.msg.dependencies|;
    case MarkReady => assert Left(|s.msg.dependencies|, 0) == |s.msg.dependencies|;
    case PostDumpBegin => assert Left(|s.msg.dependencies|, 0) == |s.msg.dependencies|;
    case AwaitSyn =>
    case UpdateDependencies =>
    case Respond(_) =>
  }

  lemma ConnectionPollDecreasesRank(cfg: Config, g: Shared, s: Session)
    requires s.pc.AwaitConnection?
    ensures Rank(cfg, Step(cfg, g, s).1) < Rank(cfg, s)
  {
    var n := |s.msg.dependencies|;
    var w := cfg.maxRetries + 2;
    var s' := Step(cfg, g, s).1;
    var i, r := s.pc.index, s.pc.retries;
    if i < n {
      MoveOn(n, i, w);
      var next := Poll(cfg, g, s, ForConnection, i, r);
      if next.None? {
        assert s'.pc == Respond(MessageTimeout);
      } else if next.value == (i + 1, cfg.maxRetries) {
        assert s'.pc == AwaitConnection(i + 1, cfg.maxRetries);
      } else {
        assert s'.pc == AwaitConnection(i, r - 1);
      }
    } else {
      assert Left(n, i) == 0;
      assert s'.pc == MarkReady;
    }
  }

  lemma ReadinessPollDecreasesRank(cfg: Config, g: Shared, s: Session)
    requires s.pc.AwaitReadiness?
    ensures Rank(cfg, Step(cfg, g, s).1) < Rank(cfg, s)
  {
    var n := |s.msg.dependencies|;
    var w := cfg.maxRetries + 2;
    var s' := Step(cfg, g, s).1;
    var i, r := s.pc.index, s.pc.retries;
    if i < n {
      MoveOn(n, i, w);
      var next := Poll(cfg, g, s, ForReadiness, i, r);
      if next.None? {
        assert s'.pc == AwaitSyn || s'.pc == Respond(MessageTimeout);
      } else if next.value == (i + 1, cfg.maxRetries) {
        assert s'.pc == AwaitReadiness(i + 1, cfg.maxRetries);
      } else {
        assert s'.pc == AwaitReadiness(i, r - 1);
      }
    } else {
      assert s'.pc == AwaitSyn || s'.pc == Respond(MessageAck);
    }
  }

  lemma CheckpointPollDecreasesRank(cfg: Config, g: Shared, s: Session)
    requires s.pc.AwaitCheckpoints?
    ensures Rank(cfg, Step(cfg, g, s).1) < Rank(cfg, s)
  {
    var n := |s.msg.dependencies|;
    var w := cfg.maxRetries + 2;
    var s' := Step(cfg, g, s).1;
    var i, r := s.pc.index, s.pc.retries;
    if i < n {
      MoveOn(n, i, w);
      var next := Poll(cfg, g, s, ForCheckpoint, i, r);
      if next.None? {
        assert s'.pc == Respond(MessageTimeout);
      } else if next.value == (i + 1, cfg.maxRetries) {
        assert s'.pc == AwaitCheckpoints(i + 1, cfg.maxRetries);
      } else {
        assert s'.pc == AwaitCheckpoints(i, r - 1);
      }
    } else {
      assert s'.pc == Respond(MessageAck);
    }
  }

  /** One critical section (or one lock-free move) of a handler. */
  function Step(cfg: Config, g: Shared, s: Session): (r: (Shared, Session))
    // the message and the synchronisation input never change
    ensures r.1.msg == s.msg && r.1.synReply == s.synReply
    // a response is written at most once
    ensures Valid(s) ==> Valid(r.1)
    ensures Valid(s) && s.response.Some? ==> r.1.response == s.response
    ensures s.pc == Finished ==> r == (g, s)
    // only the handler's own entry is touched
    ensures forall k :: k != s.msg.id ==>
              (k in r.0.clients <==> k in g.clients) && (k in g.clients ==> r.0.clients[k] == g.clients[k])
    // only the helper's update touches the dependency table
    ensures s.pc != UpdateDependencies ==> r.0.containerDependencies == g.containerDependencies
    // only the step after the connection wait raises `ready`
    ensures s.pc != MarkReady && s.msg.id in g.clients && s.msg.id in r.0.clients ==>
              r.0.clients[s.msg.id].ready == g.clients[s.msg.id].ready
    ensures s.msg.id !in g.clients && s.msg.id in r.0.clients ==> !r.0.clients[s.msg.id].ready
    ensures r.1.pc == MarkReady && s.pc != MarkReady ==>
              s.pc.AwaitConnection? && s.pc.index >= |s.msg.dependencies|
    // closing forgets exactly the post-* clients
    ensures s.pc.Respond? && RemovesOnClose(s.msg.action) ==> s.msg.id !in r.0.clients
    ensures s.pc.Respond? && !RemovesOnClose(s.msg.action) ==> r.0 == g
    ensures s.pc.Respond? ==> r.1.pc == Finished && r.1.response == Some(s.pc.message)
  {
    var n := |s.msg.dependencies|;
    match s.pc
    case Finished => (g, s)
    case Respond(m) =>
      (g.(clients := Close(g.clients, s.msg)), s.(pc := Finished, response := Some(m)))
    case UpdateDependencies =>
      (g.(containerDependencies := UpdateTable(g.containerDependencies, s.msg.dependencyMap)),
       s.(pc := Respond(MessageAck)))
    case Register =>
      var (clients', reply) := RegisterClient(g.clients, s.msg.id, cfg.freshOperation);
      if reply == MessageAck then
        (g.(clients := clients'), s.(pc := AwaitConnection(0, cfg.maxRetries)))
      else
        (g, s.(pc := Respond(reply)))
    case AwaitConnection(i, r) =>
      if i >= n then (g, s.(pc := MarkReady))
      else
        (match Poll(cfg, g, s, ForConnection, i, r)
        case Some((i', r')) =>
          (g, s.(pc := AwaitConnection(i', r')))
        case None => (g, s.(pc := Respond(MessageTimeout))))
    case MarkReady =>
      (g.(clients := MarkClientReady(g.clients, s.msg.id)), s.(pc := AwaitReadiness(0, cfg.maxRetries)))
    case AwaitReadiness(i, r) =>
      if i >= n then (g, AfterReadiness(s, MessageAck))
      else
        (match Poll(cfg, g, s, ForReadiness, i, r)
        case Some((i', r')) =>
          (g, s.(pc := AwaitReadiness(i', r')))
        case None => (g, AfterReadiness(s, MessageTimeout)))
    case AwaitSyn =>
      if s.synReply then
        (g.(clients := Close(MarkClientCheckpoint(g.clients, s.msg.id), s.msg)), s.(pc := Finished))
      else
        (g, s.(pc := Finished))
    case PostDumpBegin =>
      var (clients', reply) := BeginPostDump(g.clients, s.msg.id);
      if reply == MessageAck then
        (g.(clients := clients'), s.(pc := AwaitCheckpoints(0, cfg.maxRetries)))
      else
        (g, s.(pc := Respond(reply)))
    case AwaitCheckpoints(i, r) =>
      if i >= n then (g, s.(pc := Respond(MessageAck)))
      else
        (match Poll(cfg, g, s, ForCheckpoint, i, r)
        case Some((i', r')) =>
          (g, s.(pc := AwaitCheckpoints(i', r')))
        case None => (g, s.(pc := Respond(MessageTimeout))))
  }
}
