/** The outcomes of the end-to-end coordination tests, replayed on the
    handler model: each request is opened on the shared state and its
    handler steps are interleaved as the test's clients run. */
module ServerScenarios {
  import opened Common
  import opened Status
  import opened Constants
  import opened Server
  import opened ServerRuns

  /** The server as the tests start it: nothing registered, no table. */
  const Fresh: Shared := Shared(map[], map[])

  /** The tests' retry budget (five retries) and the fresh-status operation. */
  const TestConfig: Config := Config(5, Dump)

  /** A test client's request: an id, a colon-separated dependency string and
      an action; it never answers the pre-stream handshake. */
  function Request(id: string, deps: string, action: string): RawMessage {
    RawMessage(id, action, deps, None)
  }

  /** A lone client with no dependencies: "ACK" for pre-dump, then "ACK" for
      post-dump, after which it is forgotten. */
  method LoneClientDumps() returns (preDump: Option<string>, postDump: Option<string>, g: Shared)
    ensures preDump == Some(MessageAck) && postDump == Some(MessageAck)
    ensures "A" !in g.clients
  {
    var cfg := TestConfig;
    var s := Open(Fresh, Request("A", "", ActionPreDump), false).value;
    assert s.pc == Register && s.msg.dependencies == [];
    var r := Step(cfg, Fresh, s);
    assert r.1.pc == AwaitConnection(0, 5);
    r := Step(cfg, r.0, r.1);
    assert r.1.pc == MarkReady;
    r := Step(cfg, r.0, r.1);
    assert r.1.pc == AwaitReadiness(0, 5);
    r := Step(cfg, r.0, r.1);
    assert r.1.pc == Respond(MessageAck);
    r := Step(cfg, r.0, r.1);
    preDump := r.1.response;
    assert "A" in r.0.clients && r.0.clients["A"].ready;

    s := Open(r.0, Request("A", "", ActionPostDump), false).value;
    assert s.pc == PostDumpBegin;
    r := Step(cfg, r.0, s);
    assert r.1.pc == AwaitCheckpoints(0, 5);
    r := Step(cfg, r.0, r.1);
    assert r.1.pc == Respond(MessageAck);
    r := Step(cfg, r.0, r.1);
    postDump := r.1.response;
    g := r.0;
  }

  /** A client whose only dependency never connects: after the first check
      and five retries the connection wait gives up, the answer is "timeout",
      and the client stays registered without being ready. */
  method MissingDependencyTimesOut() returns (answer: Option<string>, g: Shared)
    ensures answer == Some(MessageTimeout)
    ensures "A" in g.clients && !g.clients["A"].ready
  {
    var cfg := TestConfig;
    var s := Open(Fresh, Request("A", "B", ActionPreDump), false).value;
    assert s.msg.dependencies == ["B"];
    var r := Step(cfg, Fresh, s);
    assert r.1.pc == AwaitConnection(0, 5);
    r := Step(cfg, r.0, r.1);
    assert r.1.pc == AwaitConnection(0, 4);
    r := Step(cfg, r.0, r.1);
    assert r.1.pc == AwaitConnection(0, 3);
    r := Step(cfg, r.0, r.1);
    assert r.1.pc == AwaitConnection(0, 2);
    r := Step(cfg, r.0, r.1);
    assert r.1.pc == AwaitConnection(0, 1);
    r := Step(cfg, r.0, r.1);
    assert r.1.pc == AwaitConnection(0, 0);
    r := Step(cfg, r.0, r.1);
    assert r.1.pc == Respond(MessageTimeout);
    r := Step(cfg, r.0, r.1);
    answer := r.1.response;
    g := r.0;
  }

  // ---------------------------------------------------------------------------
  // Rounds: a group of clients that depend only on each other

  /** Where a handler goes when wait `w` is passed. */
  function Passed(w: Wait, s: Session): Session {
    match w
    case ForConnection => s.(pc := MarkReady)
    case ForReadiness => AfterReadiness(s, MessageAck)
    case ForCheckpoint => s.(pc := Respond(MessageAck))
  }

  /** Every dependency the wait checks is satisfied. */
  predicate AllSatisfied(w: Wait, clients: Clients, deps: seq<string>) {
    forall i :: 0 <= i < |deps| ==> !Gated(w, deps[i]) || Satisfied(w, clients, deps[i])
  }

  /** A wait all of whose dependencies are satisfied checks each once,
      spends no retry, changes nothing shared and is passed. */
  method PassWait(cfg: Config, g: Shared, s0: Session, w: Wait) returns (g': Shared, s: Session)
    requires s0.pc == WaitAt(w, 0, cfg.maxRetries)
    requires AllSatisfied(w, g.clients, s0.msg.dependencies)
    ensures g' == g
    ensures s == Passed(w, s0)
  {
    var n := |s0.msg.dependencies|;
    g', s := g, s0;
    var i := 0;
    while i < n
      invariant i <= n && g' == g
      invariant s == s0.(pc := WaitAt(w, i, cfg.maxRetries))
    {
      assert !Gated(w, s.msg.dependencies[i]) || Satisfied(w, g.clients, s.msg.dependencies[i]);
      var r := Step(cfg, g', s);
      g', s := r.0, r.1;
      i := i + 1;
    }
    var r := Step(cfg, g', s);
    g', s := r.0, r.1;
  }

  /** `d` is the id of a member of the group. */
  predicate InGroup(ss: seq<Session>, d: string) {
    exists j :: 0 <= j < |ss| && ss[j].msg.id == d
  }

  /** No two members share an id. */
  predicate DistinctIds(ss: seq<Session>) {
    forall j, k :: 0 <= j < k < |ss| ==> ss[j].msg.id != ss[k].msg.id
  }

  /** Every non-empty dependency of every member is a member. */
  predicate ClosedGroup(ss: seq<Session>) {
    forall k, d :: 0 <= k < |ss| && d in ss[k].msg.dependencies && d != "" ==> InGroup(ss, d)
  }

  /** The members as they start a pre-dump or pre-restore: registering, not
      yet answered, unknown to the server. */
  predicate FreshGroup(g: Shared, ss: seq<Session>) {
    forall k :: 0 <= k < |ss| ==>
      ss[k].pc == Register && ss[k].response.None? && ss[k].msg.id !in g.clients &&
      ss[k].msg.action != ActionPreStream && !RemovesOnClose(ss[k].msg.action)
  }

  /** Every member registers in turn. */
  method RegisterAll(cfg: Config, g0: Shared, ss: seq<Session>) returns (g: Shared, out: seq<Session>)
    requires DistinctIds(ss) && FreshGroup(g0, ss)
    ensures |out| == |ss|
    ensures forall k :: 0 <= k < |ss| ==> out[k] == ss[k].(pc := AwaitConnection(0, cfg.maxRetries))
    ensures forall k :: 0 <= k < |ss| ==> ss[k].msg.id in g.clients && g.clients[ss[k].msg.id] == New(cfg.freshOperation)
    ensures g.containerDependencies == g0.containerDependencies
  {
    g, out := g0, [];
    var k := 0;
    while k < |ss|
      invariant k <= |ss| && |out| == k
      invariant g.containerDependencies == g0.containerDependencies
      invariant forall j :: 0 <= j < k ==> out[j] == ss[j].(pc := AwaitConnection(0, cfg.maxRetries))
      invariant forall j :: 0 <= j < k ==> ss[j].msg.id in g.clients && g.clients[ss[j].msg.id] == New(cfg.freshOperation)
      invariant forall j :: k <= j < |ss| ==> ss[j].msg.id !in g.clients
    {
      var r := Step(cfg, g, ss[k]);
      assert r.0.clients == g.clients[ss[k].msg.id := New(cfg.freshOperation)];
      g, out := r.0, out + [r.1];
      k := k + 1;
    }
  }

  /** Every member, all of whose group is connected, passes its connection
      wait and marks itself ready. */
  method ConnectAll(cfg: Config, g0: Shared, ss: seq<Session>) returns (g: Shared, out: seq<Session>)
    requires DistinctIds(ss) && ClosedGroup(ss)
    requires forall k :: 0 <= k < |ss| ==> ss[k].pc == AwaitConnection(0, cfg.maxRetries)
    requires forall k :: 0 <= k < |ss| ==>
               ss[k].msg.id in g0.clients && g0.clients[ss[k].msg.id].connected && !g0.clients[ss[k].msg.id].localCheckpoint
    ensures |out| == |ss|
    ensures forall k :: 0 <= k < |ss| ==> out[k] == ss[k].(pc := AwaitReadiness(0, cfg.maxRetries))
    ensures forall k :: 0 <= k < |ss| ==>
              ss[k].msg.id in g.clients && g.clients[ss[k].msg.id].ready && !g.clients[ss[k].msg.id].localCheckpoint
    ensures g.containerDependencies == g0.containerDependencies
  {
    g, out := g0, [];
    var k := 0;
    while k < |ss|
      invariant k <= |ss| && |out| == k
      invariant g.containerDependencies == g0.containerDependencies
      invariant forall j :: 0 <= j < |ss| ==>
                  ss[j].msg.id in g.clients && g.clients[ss[j].msg.id].connected && !g.clients[ss[j].msg.id].localCheckpoint
      invariant forall j :: 0 <= j < k ==> g.clients[ss[j].msg.id].ready
      invariant forall j :: 0 <= j < k ==> out[j] == ss[j].(pc := AwaitReadiness(0, cfg.maxRetries))
    {
      var deps := ss[k].msg.dependencies;
      assert AllSatisfied(ForConnection, g.clients, deps) by {
        forall i | 0 <= i < |deps| && Gated(ForConnection, deps[i])
          ensures Satisfied(ForConnection, g.clients, deps[i])
        {
          assert deps[i] in ss[k].msg.dependencies && deps[i] != "";
          assert InGroup(ss, deps[i]);
          var j :| 0 <= j < |ss| && ss[j].msg.id == deps[i];
        }
      }
      var g1, s := PassWait(cfg, g, ss[k], ForConnection);
      var r := Step(cfg, g1, s);
      assert r.0.clients == g.clients[ss[k].msg.id := g.clients[ss[k].msg.id].SetReady(true)];
      g, out := r.0, out + [r.1];
      k := k + 1;
    }
  }

  /** Every member, all of whose group is ready, passes its readiness wait
      and is answered "ACK"; the shared state does not change. */
  method AnswerAll(cfg: Config, g: Shared, ss: seq<Session>) returns (out: seq<Session>)
    requires ClosedGroup(ss)
    requires forall k :: 0 <= k < |ss| ==>
               ss[k].pc == AwaitReadiness(0, cfg.maxRetries) && ss[k].response.None? &&
               ss[k].msg.action != ActionPreStream && !RemovesOnClose(ss[k].msg.action)
    requires forall k :: 0 <= k < |ss| ==> ss[k].msg.id in g.clients && g.clients[ss[k].msg.id].ready
    ensures |out| == |ss|
    ensures forall k :: 0 <= k < |ss| ==> out[k] == ss[k].(pc := Finished, response := Some(MessageAck))
  {
    out := [];
    var k := 0;
    while k < |ss|
      invariant k <= |ss| && |out| == k
      invariant forall j :: 0 <= j < k ==> out[j] == ss[j].(pc := Finished, response := Some(MessageAck))
    {
      var deps := ss[k].msg.dependencies;
      assert AllSatisfied(ForReadiness, g.clients, deps) by {
        forall i | 0 <= i < |deps| && Gated(ForReadiness, deps[i])
          ensures Satisfied(ForReadiness, g.clients, deps[i])
        {
          assert deps[i] in ss[k].msg.dependencies && deps[i] != "";
          assert InGroup(ss, deps[i]);
          var j :| 0 <= j < |ss| && ss[j].msg.id == deps[i];
        }
      }
      var g1, s := PassWait(cfg, g, ss[k], ForReadiness);
      var r := Step(cfg, g1, s);
      assert r.0 == g;
      out := out + [r.1];
      k := k + 1;
    }
  }

  /** A pre-dump or pre-restore round: a group of new clients, each naming
      only members of the group (or empty names), registers one by one, then
      each passes its connection wait and marks itself ready, then each
      passes its readiness wait. Every member is answered "ACK" and stays
      registered, ready and without a local checkpoint. */
  method PreActionRound(cfg: Config, g0: Shared, ss: seq<Session>) returns (g: Shared, out: seq<Session>)
    requires DistinctIds(ss) && ClosedGroup(ss) && FreshGroup(g0, ss)
    ensures |out| == |ss|
    ensures forall k :: 0 <= k < |ss| ==> out[k] == ss[k].(pc := Finished, response := Some(MessageAck))
    ensures forall id :: InGroup(ss, id) ==> id in g.clients && g.clients[id].ready && !g.clients[id].localCheckpoint
    ensures g.containerDependencies == g0.containerDependencies
  {
    var g1, waiting := RegisterAll(cfg, g0, ss);
    assert forall k :: 0 <= k < |ss| ==> waiting[k].msg == ss[k].msg;
    assert forall k :: 0 <= k < |ss| ==>
      g1.clients[waiting[k].msg.id].connected && !g1.clients[waiting[k].msg.id].localCheckpoint;
    assert ClosedGroup(waiting) by {
      forall k, d | 0 <= k < |waiting| && d in waiting[k].msg.dependencies && d != ""
        ensures InGroup(waiting, d)
      {
        assert d in ss[k].msg.dependencies;
        assert InGroup(ss, d);
        var j :| 0 <= j < |ss| && ss[j].msg.id == d;
        assert waiting[j].msg.id == d;
      }
    }
    var ready;
    g, ready := ConnectAll(cfg, g1, waiting);
    assert forall k :: 0 <= k < |ss| ==> ready[k] == ss[k].(pc := AwaitReadiness(0, cfg.maxRetries));
    assert ClosedGroup(ready) by {
      forall k, d | 0 <= k < |ready| && d in ready[k].msg.dependencies && d != ""
        ensures InGroup(ready, d)
      {
        assert d in ss[k].msg.dependencies;
        assert InGroup(ss, d);
        var j :| 0 <= j < |ss| && ss[j].msg.id == d;
        assert ready[j].msg.id == d;
      }
    }
    var answered := AnswerAll(cfg, g, ready);
    out := answered;
    forall id | InGroup(ss, id)
      ensures id in g.clients && g.clients[id].ready && !g.clients[id].localCheckpoint
    {
      var j :| 0 <= j < |ss| && ss[j].msg.id == id;
      assert ready[j].msg.id == id;
    }
  }

  /** The members as they start a post-dump: registered without a local
      checkpoint and not yet answered. */
  predicate DumpedGroup(g: Shared, ss: seq<Session>) {
    forall k :: 0 <= k < |ss| ==>
      ss[k].pc == PostDumpBegin && ss[k].response.None? && ss[k].msg.action == ActionPostDump &&
      ss[k].msg.id in g.clients && !g.clients[ss[k].msg.id].localCheckpoint
  }

  /** Every member raises its local checkpoint in turn; nobody else's entry
      changes. */
  method RaiseAll(cfg: Config, g0: Shared, ss: seq<Session>) returns (g: Shared, out: seq<Session>)
    requires DistinctIds(ss) && DumpedGroup(g0, ss)
    ensures |out| == |ss|
    ensures forall k :: 0 <= k < |ss| ==> out[k] == ss[k].(pc := AwaitCheckpoints(0, cfg.maxRetries))
    ensures forall k :: 0 <= k < |ss| ==> ss[k].msg.id in g.clients && g.clients[ss[k].msg.id].localCheckpoint
    ensures g.clients.Keys == g0.clients.Keys
    ensures g.containerDependencies == g0.containerDependencies
  {
    g, out := g0, [];
    var k := 0;
    while k < |ss|
      invariant k <= |ss| && |out| == k
      invariant g.containerDependencies == g0.containerDependencies
      invariant g.clients.Keys == g0.clients.Keys
      invariant forall j :: 0 <= j < k ==> out[j] == ss[j].(pc := AwaitCheckpoints(0, cfg.maxRetries))
      invariant forall j :: 0 <= j < k ==> g.clients[ss[j].msg.id].localCheckpoint
      invariant forall j :: k <= j < |ss| ==> !g.clients[ss[j].msg.id].localCheckpoint
    {
      var r := Step(cfg, g, ss[k]);
      assert r.0.clients == g.clients[ss[k].msg.id := g.clients[ss[k].msg.id].SetLocalCheckpoint()];
      g, out := r.0, out + [r.1];
      k := k + 1;
    }
  }

  /** Midway through the post-dump waits, each dependency of member `k` is
      either a member (gone, or holding its checkpoint) or was never there. */
  lemma CheckpointsSettled(g0: Shared, g: Shared, ss: seq<Session>, k: nat)
    requires k < |ss|
    requires forall k, d :: 0 <= k < |ss| && d in ss[k].msg.dependencies ==> InGroup(ss, d) || d !in g0.clients
    requires g.clients.Keys <= g0.clients.Keys
    requires forall j :: 0 <= j < k ==> ss[j].msg.id !in g.clients
    requires forall j :: k <= j < |ss| ==> ss[j].msg.id in g.clients && g.clients[ss[j].msg.id].localCheckpoint
    ensures AllSatisfied(ForCheckpoint, g.clients, ss[k].msg.dependencies)
  {
    var deps := ss[k].msg.dependencies;
    forall i | 0 <= i < |deps|
      ensures Satisfied(ForCheckpoint, g.clients, deps[i])
    {
      assert deps[i] in ss[k].msg.dependencies;
      if InGroup(ss, deps[i]) {
        var j :| 0 <= j < |ss| && ss[j].msg.id == deps[i];
      }
    }
  }

  /** One post-dump handler whose dependencies have all settled passes its
      wait, is answered "ACK" and is forgotten. */
  method Leave(cfg: Config, g0: Shared, s0: Session) returns (g: Shared, s: Session)
    requires s0.pc == AwaitCheckpoints(0, cfg.maxRetries) && s0.response.None? && s0.msg.action == ActionPostDump
    requires AllSatisfied(ForCheckpoint, g0.clients, s0.msg.dependencies)
    ensures g.clients == g0.clients - {s0.msg.id} && g.containerDependencies == g0.containerDependencies
    ensures s == s0.(pc := Finished, response := Some(MessageAck))
  {
    var g1, s1 := PassWait(cfg, g0, s0, ForCheckpoint);
    var r := Step(cfg, g1, s1);
    g, s := r.0, r.1;
  }

  /** Every member, each of whose dependencies holds a checkpoint or is
      gone, passes its wait, is answered "ACK" and is forgotten. */
  method LeaveAll(cfg: Config, g0: Shared, ss: seq<Session>) returns (g: Shared, out: seq<Session>)
    requires DistinctIds(ss)
    requires forall k :: 0 <= k < |ss| ==>
               ss[k].pc == AwaitCheckpoints(0, cfg.maxRetries) && ss[k].response.None? && ss[k].msg.action == ActionPostDump
    requires forall k :: 0 <= k < |ss| ==> ss[k].msg.id in g0.clients && g0.clients[ss[k].msg.id].localCheckpoint
    requires forall k, d :: 0 <= k < |ss| && d in ss[k].msg.dependencies ==> InGroup(ss, d) || d !in g0.clients
    ensures |out| == |ss|
    ensures forall k :: 0 <= k < |ss| ==> out[k] == ss[k].(pc := Finished, response := Some(MessageAck))
    ensures forall k :: 0 <= k < |ss| ==> ss[k].msg.id !in g.clients
    ensures g.containerDependencies == g0.containerDependencies
  {
    g, out := g0, [];
    var k := 0;
    while k < |ss|
      invariant k <= |ss| && |out| == k
      invariant g.containerDependencies == g0.containerDependencies
      invariant g.clients.Keys <= g0.clients.Keys
      invariant forall j :: 0 <= j < k ==> ss[j].msg.id !in g.clients
      invariant forall j :: k <= j < |ss| ==> ss[j].msg.id in g.clients && g.clients[ss[j].msg.id].localCheckpoint
      invariant forall j :: 0 <= j < k ==> out[j] == ss[j].(pc := Finished, response := Some(MessageAck))
    {
      CheckpointsSettled(g0, g, ss, k);
      var s;
      g, s := Leave(cfg, g, ss[k]);
      out := out + [s];
      k := k + 1;
    }
  }

  /** A post-dump round: a group of registered clients without a local
      checkpoint, each naming members of the group or unregistered ids,
      raises its checkpoint one by one, then each passes its wait and is
      answered. Every member is answered "ACK" and forgotten. */
  method PostDumpRound(cfg: Config, g0: Shared, ss: seq<Session>) returns (g: Shared, out: seq<Session>)
    requires DistinctIds(ss) && DumpedGroup(g0, ss)
    requires forall k, d :: 0 <= k < |ss| && d in ss[k].msg.dependencies ==> InGroup(ss, d) || d !in g0.clients
    ensures |out| == |ss|
    ensures forall k :: 0 <= k < |ss| ==> out[k] == ss[k].(pc := Finished, response := Some(MessageAck))
    ensures forall id :: InGroup(ss, id) ==> id !in g.clients
    ensures g.containerDependencies == g0.containerDependencies
  {
    var g1, waiting := RaiseAll(cfg, g0, ss);
    assert forall k :: 0 <= k < |ss| ==> waiting[k].msg == ss[k].msg;
    assert forall k, d :: 0 <= k < |waiting| && d in waiting[k].msg.dependencies ==>
             InGroup(waiting, d) || d !in g1.clients by {
      forall k, d | 0 <= k < |waiting| && d in waiting[k].msg.dependencies
        ensures InGroup(waiting, d) || d !in g1.clients
      {
        assert d in ss[k].msg.dependencies;
        if InGroup(ss, d) {
          var j :| 0 <= j < |ss| && ss[j].msg.id == d;
          assert waiting[j].msg.id == d;
        }
      }
    }
    var left;
    g, left := LeaveAll(cfg, g1, waiting);
    out := left;
    forall id | InGroup(ss, id)
      ensures id !in g.clients
    {
      var j :| 0 <= j < |ss| && ss[j].msg.id == id;
      assert waiting[j].msg.id == id;
    }
  }

  // ---------------------------------------------------------------------------
  // The interdependent-client tests

  /** Each member's requests name only members of the group. */
  predicate Mutual(ss: seq<Session>) {
    forall k, d :: 0 <= k < |ss| && d in ss[k].msg.dependencies ==> InGroup(ss, d)
  }

  /** The handler a test request starts: its id, action and dependency list,
      placed where `Dispatch` sends it, nothing answered yet. */
  function Handler(id: string, action: string, deps: seq<string>): Session {
    var msg := ClientMessage(id, action, deps, []);
    Session(msg, false, Dispatch(msg), None)
  }

  /** An ordinary test request with a non-empty dependency string opens the
      handler whose dependencies are the string's fields. */
  lemma OpenedRequest(g: Shared, id: string, deps: string, action: string, fields: seq<string>)
    requires action != ActionAddDependencies && deps != "" && Split(deps, ':') == fields
    ensures Open(g, Request(id, deps, action), false) == Some(Handler(id, action, fields))
  {
  }

  /** A one-field dependency string. */
  lemma SplitOne(a: char)
    requires a != ':'
    ensures Split([a], ':') == [[a]]
  {
    var one: string := [a];
    assert one[0] == a && |one[1..]| == 0;
    assert Split(one[1..], ':') == [""];
    assert [one[0]] + "" == [a];
  }

  /** A two-field dependency string. */
  lemma SplitTwo(a: char, b: char)
    requires a != ':' && b != ':'
    ensures Split([a, ':', b], ':') == [[a], [b]]
  {
    var tail: string := [b];
    assert tail[0] == b && |tail[1..]| == 0;
    assert Split(tail[1..], ':') == [""];
    assert [tail[0]] + "" == [b];
    assert Split(tail, ':') == [[b]];
    var mid: string := [':', b];
    assert mid[0] == ':' && mid[1..] == tail;
    assert Split(mid, ':') == [""] + Split(tail, ':');
    var whole: string := [a, ':', b];
    assert whole[0] == a && whole[1..] == mid;
    assert Split(mid, ':') == [[], [b]];
    assert Split(whole, ':') == [[a] + Split(mid, ':')[0]] + Split(mid, ':')[1..];
    assert [a] + [] == [a];
  }

  /** The pair's handlers for `action`: "A" waiting for "B", "B" for "A". */
  function PairHandlers(action: string): seq<Session> {
    [Handler("A", action, ["B"]), Handler("B", action, ["A"])]
  }

  /** The triple's handlers: each of "A", "B", "C" waiting for the other two. */
  function TripleHandlers(action: string): seq<Session> {
    [Handler("A", action, ["B", "C"]), Handler("B", action, ["A", "C"]), Handler("C", action, ["A", "B"])]
  }

  /** The pair's requests ("A" with "B", "B" with "A") open the pair's
      handlers, whatever the server holds. */
  lemma PairOpened(g: Shared, action: string)
    requires action != ActionAddDependencies
    ensures Open(g, Request("A", "B", action), false) == Some(PairHandlers(action)[0])
    ensures Open(g, Request("B", "A", action), false) == Some(PairHandlers(action)[1])
  {
    SplitOne('B');
    SplitOne('A');
    OpenedRequest(g, "A", "B", action, ["B"]);
    OpenedRequest(g, "B", "A", action, ["A"]);
  }

  /** The triple's requests ("A" with "B:C", "B" with "A:C", "C" with
      "A:B") open the triple's handlers. */
  lemma TripleOpened(g: Shared, action: string)
    requires action != ActionAddDependencies
    ensures Open(g, Request("A", "B:C", action), false) == Some(TripleHandlers(action)[0])
    ensures Open(g, Request("B", "A:C", action), false) == Some(TripleHandlers(action)[1])
    ensures Open(g, Request("C", "A:B", action), false) == Some(TripleHandlers(action)[2])
  {
    SplitTwo('B', 'C');
    SplitTwo('A', 'C');
    SplitTwo('A', 'B');
    OpenedRequest(g, "A", "B:C", action, ["B", "C"]);
    OpenedRequest(g, "B", "A:C", action, ["A", "C"]);
    OpenedRequest(g, "C", "A:B", action, ["A", "B"]);
  }

  const PairIds: set<string> := {"A", "B"}
  const TripleIds: set<string> := {"A", "B", "C"}

  /** The pair is a group of distinct members naming only each other. */
  lemma PairShape(action: string)
    ensures var ss := PairHandlers(action);
              DistinctIds(ss) && Mutual(ss) && ClosedGroup(ss) && forall id :: InGroup(ss, id) <==> id in PairIds
  {
    var ss := [Handler("A", action, ["B"]), Handler("B", action, ["A"])];
    assert ss[0].msg.id == "A" && ss[1].msg.id == "B";
    assert InGroup(ss, "A") && InGroup(ss, "B");
  }

  /** The same for the triple. */
  lemma TripleShape(action: string)
    ensures var ss := TripleHandlers(action);
              DistinctIds(ss) && Mutual(ss) && ClosedGroup(ss) && forall id :: InGroup(ss, id) <==> id in TripleIds
  {
    var ss := [Handler("A", action, ["B", "C"]), Handler("B", action, ["A", "C"]),
               Handler("C", action, ["A", "B"])];
    assert ss[0].msg.id == "A" && ss[1].msg.id == "B" && ss[2].msg.id == "C";
    assert InGroup(ss, "A") && InGroup(ss, "B") && InGroup(ss, "C");
    forall k, d | 0 <= k < |ss| && d in ss[k].msg.dependencies
      ensures InGroup(ss, d)
    {
      if k == 0 {
        assert d in ["B", "C"];
      } else if k == 1 {
        assert d in ["A", "C"];
      } else {
        assert d in ["A", "B"];
      }
    }
  }

  /** Pre-dump and pre-restore handlers start by registering. */
  lemma RegistersFirst(ss: seq<Session>, g: Shared, action: string)
    requires action == ActionPreDump || action == ActionPreRestore
    requires forall k :: 0 <= k < |ss| ==> ss[k] == Handler(ss[k].msg.id, action, ss[k].msg.dependencies)
    requires forall id :: InGroup(ss, id) ==> id !in g.clients
    ensures FreshGroup(g, ss)
  {
    forall k | 0 <= k < |ss|
      ensures ss[k].pc == Register && ss[k].msg.id !in g.clients
    {
      assert InGroup(ss, ss[k].msg.id);
    }
  }

  /** Post-dump handlers of clients registered without a checkpoint start
      the post-dump path. */
  lemma PostDumpsBegin(ss: seq<Session>, g: Shared)
    requires forall k :: 0 <= k < |ss| ==> ss[k] == Handler(ss[k].msg.id, ActionPostDump, ss[k].msg.dependencies)
    requires forall id :: InGroup(ss, id) ==> id in g.clients && !g.clients[id].localCheckpoint
    ensures DumpedGroup(g, ss)
  {
    forall k | 0 <= k < |ss|
      ensures ss[k].pc == PostDumpBegin && ss[k].msg.id in g.clients && !g.clients[ss[k].msg.id].localCheckpoint
    {
      assert InGroup(ss, ss[k].msg.id);
    }
  }

  /** The answers of a round, in request order. */
  function Answers(out: seq<Session>): (r: seq<Option<string>>)
    ensures |r| == |out| && forall k :: 0 <= k < |out| ==> r[k] == out[k].response
  {
    seq(|out|, k requires 0 <= k < |out| => out[k].response)
  }

  /** Two interdependent clients dump (their requests open the pair's
      handlers, by `PairOpened`): both get "ACK" for pre-dump, then both get
      "ACK" for post-dump, after which both are forgotten. */
  method PairDumps() returns (preDump: seq<Option<string>>, postDump: seq<Option<string>>, g: Shared)
    ensures preDump == [Some(MessageAck), Some(MessageAck)]
    ensures postDump == [Some(MessageAck), Some(MessageAck)]
    ensures forall id :: id in PairIds ==> id !in g.clients
  {
    var cfg := TestConfig;
    var pre := PairHandlers(ActionPreDump);
    PairShape(ActionPreDump);
    RegistersFirst(pre, Fresh, ActionPreDump);
    var g1, out1 := PreActionRound(cfg, Fresh, pre);
    preDump := Answers(out1);
    var post := PairHandlers(ActionPostDump);
    PairShape(ActionPostDump);
    PostDumpsBegin(post, g1);
    var out2;
    g, out2 := PostDumpRound(cfg, g1, post);
    postDump := Answers(out2);
  }

  /** Two interdependent clients restore on a fresh server (the handlers of
      `PairOpened`): both get "ACK". */
  method PairRestores() returns (preRestore: seq<Option<string>>, g: Shared)
    ensures preRestore == [Some(MessageAck), Some(MessageAck)]
    ensures forall id :: id in PairIds ==> id in g.clients && g.clients[id].ready
  {
    var pre := PairHandlers(ActionPreRestore);
    PairShape(ActionPreRestore);
    RegistersFirst(pre, Fresh, ActionPreRestore);
    var out;
    g, out := PreActionRound(TestConfig, Fresh, pre);
    preRestore := Answers(out);
  }

  /** The triple's pre-dump round on a fresh server (the handlers of
      `TripleOpened`): each gets "ACK" and stays registered, ready, without a
      local checkpoint. */
  method TriplePreDumps() returns (preDump: seq<Option<string>>, g: Shared)
    ensures preDump == [Some(MessageAck), Some(MessageAck), Some(MessageAck)]
    ensures forall id :: id in TripleIds ==> id in g.clients && g.clients[id].ready && !g.clients[id].localCheckpoint
  {
    var pre := TripleHandlers(ActionPreDump);
    TripleShape(ActionPreDump);
    RegistersFirst(pre, Fresh, ActionPreDump);
    var out;
    g, out := PreActionRound(TestConfig, Fresh, pre);
    preDump := Answers(out);
  }

  /** The triple's post-dump round on a server that holds all three without
      a local checkpoint: each gets "ACK" and is forgotten. */
  method TriplePostDumps(g0: Shared) returns (postDump: seq<Option<string>>, g: Shared)
    requires forall id :: id in TripleIds ==> id in g0.clients && !g0.clients[id].localCheckpoint
    ensures postDump == [Some(MessageAck), Some(MessageAck), Some(MessageAck)]
    ensures forall id :: id in TripleIds ==> id !in g.clients
  {
    var post := TripleHandlers(ActionPostDump);
    TripleShape(ActionPostDump);
    PostDumpsBegin(post, g0);
    var out;
    g, out := PostDumpRound(TestConfig, g0, post);
    postDump := Answers(out);
  }

  /** Three interdependent clients dump: each gets "ACK" for pre-dump, then
      for post-dump, after which all three are forgotten. */
  method TripleDumps() returns (preDump: seq<Option<string>>, postDump: seq<Option<string>>, g: Shared)
    ensures preDump == [Some(MessageAck), Some(MessageAck), Some(MessageAck)]
    ensures postDump == [Some(MessageAck), Some(MessageAck), Some(MessageAck)]
    ensures forall id :: id in TripleIds ==> id !in g.clients
  {
    var g1;
    preDump, g1 := TriplePreDumps();
    postDump, g := TriplePostDumps(g1);
  }

  /** Three interdependent clients restore on a server that knows none of
      them: each gets "ACK" and ends up ready. */
  method TripleRestores(g0: Shared) returns (preRestore: seq<Option<string>>, g: Shared)
    requires forall id :: id in TripleIds ==> id !in g0.clients
    ensures preRestore == [Some(MessageAck), Some(MessageAck), Some(MessageAck)]
    ensures forall id :: id in TripleIds ==> id in g.clients && g.clients[id].ready
  {
    var pre := TripleHandlers(ActionPreRestore);
    TripleShape(ActionPreRestore);
    RegistersFirst(pre, g0, ActionPreRestore);
    var out;
    g, out := PreActionRound(TestConfig, g0, pre);
    preRestore := Answers(out);
  }

  /** The two in sequence: after the dump the three are forgotten, so the
      restore is accepted. */
  method TripleDumpsAndRestores() returns (preDump: seq<Option<string>>, postDump: seq<Option<string>>,
                                           preRestore: seq<Option<string>>, g: Shared)
    ensures preDump == [Some(MessageAck), Some(MessageAck), Some(MessageAck)]
    ensures postDump == [Some(MessageAck), Some(MessageAck), Some(MessageAck)]
    ensures preRestore == [Some(MessageAck), Some(MessageAck), Some(MessageAck)]
  {
    var g1;
    preDump, postDump, g1 := TripleDumps();
    preRestore, g := TripleRestores(g1);
  }

  /** The helper's update with no JSON object is dropped: no handler starts. */
  lemma MalformedHelperUpdateDropped(g: Shared, text: string)
    ensures Open(g, RawMessage(KubescrId, ActionAddDependencies, text, None), false).None?
  {
  }

  /** The helper stores `A`'s dependencies without `A` itself; a later
      request from `A` with an empty dependency string waits for them. */
  method HelperSuppliesDependencies() returns (reply: Option<string>, later: Session)
    ensures reply == Some(MessageAck)
    ensures later.msg.dependencies == ["B"]
  {
    var cfg := TestConfig;
    var update := RawMessage(KubescrId, ActionAddDependencies, "", Some([("A", ["A", "B"])]));
    var s := Open(Fresh, update, false).value;
    assert s.pc == UpdateDependencies;
    var r := Step(cfg, Fresh, s);
    assert r.0.containerDependencies == map["A" := ["B"]] by {
      assert LastValue([("A", ["A", "B"])], "A") == Some(["A", "B"]);
      assert StripSelf("A", ["A", "B"]) == ["B"];
    }
    r := Step(cfg, r.0, r.1);
    reply := r.1.response;
    later := Open(r.0, Request("A", "", ActionPreDump), false).value;
  }
}
