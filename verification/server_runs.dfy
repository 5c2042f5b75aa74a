/** Runs of one handler against an arbitrary environment.

    A run feeds the handler one view of the shared state per step: the state
    as the other handlers have left it when this handler takes the lock. No
    assumption is made about the views, so what is proved here holds under
    every interleaving of the concurrent handlers. */
module ServerRuns {
  import opened Common
  import opened Constants
  import opened Server

  /** The handler after one step per view, the shared state of each step
      being the view the environment supplies. */
  function RunSession(cfg: Config, s: Session, views: seq<Shared>): Session
    decreases |views|
  {
    if |views| == 0 then s else RunSession(cfg, Step(cfg, views[0], s).1, views[1..])
  }

  lemma {:induction false} RunKeepsMessage(cfg: Config, s: Session, views: seq<Shared>)
    ensures RunSession(cfg, s, views).msg == s.msg
    decreases |views|
  {
    if |views| > 0 {
      RunKeepsMessage(cfg, Step(cfg, views[0], s).1, views[1..]);
    }
  }

  /** A handler takes at most `Rank` steps of its own before it finishes. */
  lemma {:induction false} SessionFinishes(cfg: Config, s: Session, views: seq<Shared>)
    requires Valid(s)
    requires |views| >= Rank(cfg, s)
    ensures RunSession(cfg, s, views).pc == Finished
    ensures RunSession(cfg, s, views).response.Some?
    decreases |views|
  {
    if |views| == 0 {
    } else {
      var s' := Step(cfg, views[0], s).1;
      if s.pc != Finished {
        StepDecreasesRank(cfg, views[0], s);
      }
      SessionFinishes(cfg, s', views[1..]);
    }
  }

  /** The number of steps after which a request naming `n` dependencies has
      been answered: (max_retries + 1) polls per dependency and wait, plus
      the critical sections around them. */
  function StepBound(cfg: Config, n: nat): nat {
    5 + 2 * n * (cfg.maxRetries + 2) + 2 * cfg.maxRetries
  }

  lemma OpenedRankBounded(cfg: Config, s: Session)
    requires s.pc == Register || s.pc == PostDumpBegin || s.pc == UpdateDependencies || s.pc.Respond?
    ensures Rank(cfg, s) <= StepBound(cfg, |s.msg.dependencies|)
  {
    var n := |s.msg.dependencies|;
    var w := cfg.maxRetries + 2;
    assert n * w <= 2 * n * w;
  }

  /** Every request that is read gets exactly one response within
      `StepBound` steps of its handler, however the other handlers
      interleave: no caller waits forever. */
  lemma {:induction false} EveryRequestAnswered(
    cfg: Config, g: Shared, raw: RawMessage, synReply: bool, views: seq<Shared>)
    requires Open(g, raw, synReply).Some?
    requires |views| >= StepBound(cfg, |Open(g, raw, synReply).value.msg.dependencies|)
    ensures RunSession(cfg, Open(g, raw, synReply).value, views).pc == Finished
    ensures RunSession(cfg, Open(g, raw, synReply).value, views).response.Some?
  {
    var s := Open(g, raw, synReply).value;
    OpenedRankBounded(cfg, s);
    SessionFinishes(cfg, s, views);
  }

  // ---------------------------------------------------------------------------
  // Giving up

  /** The program counter of wait `w` at dependency `i` with `r` retries left. */
  function WaitAt(w: Wait, i: nat, r: nat): Pc {
    match w
    case ForConnection => AwaitConnection(i, r)
    case ForReadiness => AwaitReadiness(i, r)
    case ForCheckpoint => AwaitCheckpoints(i, r)
  }

  /** Where a handler goes when wait `w` gives up: "timeout" is answered,
      after the handshake wait for a pre-stream readiness wait. */
  function TimedOut(w: Wait, s: Session): Session {
    if w == ForReadiness then AfterReadiness(s, MessageTimeout) else s.(pc := Respond(MessageTimeout))
  }

  /** A dependency that the handler never sees satisfied ends the whole wait
      with "timeout" after exactly `r + 1` further checks, `r` being the
      retries left: after `r` of them the handler is still waiting for it
      with no retry left. From a fresh counter that is `max_retries + 1`
      checks, whatever the other handlers do in between. */
  lemma {:induction false} UnsatisfiedDependencyTimesOut(
    cfg: Config, s: Session, w: Wait, i: nat, r: nat, views: seq<Shared>)
    requires s.pc == WaitAt(w, i, r) && i < |s.msg.dependencies| && Gated(w, s.msg.dependencies[i])
    requires |views| == r + 1
    requires forall k :: 0 <= k < |views| ==> !Satisfied(w, views[k].clients, s.msg.dependencies[i])
    ensures RunSession(cfg, s, views) == TimedOut(w, s)
    ensures RunSession(cfg, s, views[..r]) == s.(pc := WaitAt(w, i, 0))
    decreases r
  {
    var dep := s.msg.dependencies[i];
    var s' := Step(cfg, views[0], s).1;
    assert Poll(cfg, views[0], s, w, i, r) == if r > 0 then Some((i, r - 1)) else None;
    if r == 0 {
      assert s' == TimedOut(w, s);
      assert views[1..] == [];
      assert views[..r] == [];
    } else {
      assert s' == s.(pc := WaitAt(w, i, r - 1));
      UnsatisfiedDependencyTimesOut(cfg, s', w, i, r - 1, views[1..]);
      assert TimedOut(w, s') == TimedOut(w, s);
      assert views[..r][1..] == views[1..][..r - 1];
      assert views[..r][0] == views[0];
    }
  }

  // ---------------------------------------------------------------------------
  // What a handler has seen

  /** Dependency `d` was seen satisfying `w` in one of the views. */
  ghost predicate Observed(w: Wait, views: seq<Shared>, d: string) {
    exists k :: 0 <= k < |views| && Satisfied(w, views[k].clients, d)
  }

  /** The connection and readiness waits skip empty names; the post-dump wait
      does not. */
  predicate Gated(w: Wait, d: string) {
    w == ForCheckpoint || d != ""
  }

  ghost predicate ObservedUpTo(w: Wait, deps: seq<string>, views: seq<Shared>, upTo: nat) {
    forall j :: 0 <= j < upTo && j < |deps| && Gated(w, deps[j]) ==> Observed(w, views, deps[j])
  }

  ghost predicate AllObserved(w: Wait, deps: seq<string>, views: seq<Shared>) {
    ObservedUpTo(w, deps, views, |deps|)
  }

  /** The invariant of a handler on the ordinary (registering) path. */
  ghost predicate RegisterProgress(s: Session, views: seq<Shared>) {
    var deps := s.msg.dependencies;
    match s.pc
    case Register => true
    case AwaitConnection(i, _) => ObservedUpTo(ForConnection, deps, views, i)
    case MarkReady => AllObserved(ForConnection, deps, views)
    case AwaitReadiness(i, _) =>
      AllObserved(ForConnection, deps, views) && ObservedUpTo(ForReadiness, deps, views, i)
    case Respond(m) =>
      m == MessageAck ==> AllObserved(ForConnection, deps, views) && AllObserved(ForReadiness, deps, views)
    case AwaitSyn =>
      s.response == Some(MessageAck) ==>
        AllObserved(ForConnection, deps, views) && AllObserved(ForReadiness, deps, views)
    case Finished =>
      s.response == Some(MessageAck) ==>
        AllObserved(ForConnection, deps, views) && AllObserved(ForReadiness, deps, views)
    case UpdateDependencies => false
    case PostDumpBegin => false
    case AwaitCheckpoints(_, _) => false
  }

  /** The invariant of a handler on the post-dump path. */
  ghost predicate PostDumpProgress(s: Session, views: seq<Shared>) {
    var deps := s.msg.dependencies;
    match s.pc
    case PostDumpBegin => true
    case AwaitCheckpoints(i, _) => ObservedUpTo(ForCheckpoint, deps, views, i)
    case Respond(m) => m == MessageAck ==> AllObserved(ForCheckpoint, deps, views)
    case Finished => s.response == Some(MessageAck) ==> AllObserved(ForCheckpoint, deps, views)
    case _ => false
  }

  lemma ObservedKept(w: Wait, deps: seq<string>, views: seq<Shared>, more: seq<Shared>, upTo: nat)
    requires ObservedUpTo(w, deps, views, upTo)
    ensures ObservedUpTo(w, deps, views + more, upTo)
  {
    forall j | 0 <= j < upTo && j < |deps| && Gated(w, deps[j])
      ensures Observed(w, views + more, deps[j])
    {
      var k :| 0 <= k < |views| && Satisfied(w, views[k].clients, deps[j]);
      assert (views + more)[k] == views[k];
    }
  }

  lemma ObservedNext(w: Wait, deps: seq<string>, views: seq<Shared>, v: Shared, i: nat)
    requires ObservedUpTo(w, deps, views, i)
    requires i < |deps|
    requires Gated(w, deps[i]) ==> Satisfied(w, v.clients, deps[i])
    ensures ObservedUpTo(w, deps, views + [v], i + 1)
  {
    ObservedKept(w, deps, views, [v], i);
    if Gated(w, deps[i]) {
      assert (views + [v])[|views|] == v;
    }
  }

  lemma {:induction false} RegisterProgressStep(cfg: Config, v: Shared, s: Session, views: seq<Shared>)
    requires Valid(s)
    requires RegisterProgress(s, views)
    ensures RegisterProgress(Step(cfg, v, s).1, views + [v])
  {
    var deps := s.msg.dependencies;
    var n := |deps|;
    var s' := Step(cfg, v, s).1;
    var views' := views + [v];
    match s.pc
    case Register =>
      ObservedKept(ForConnection, deps, views, [v], 0);
    case AwaitConnection(i, r) =>
      if i >= n {
        ObservedKept(ForConnection, deps, views, [v], i);
        assert s'.pc == MarkReady;
      } else {
        var next := Poll(cfg, v, s, ForConnection, i, r);
        if next.None? {
          assert s'.pc == Respond(MessageTimeout);
        } else if next.value == (i + 1, cfg.maxRetries) {
          ObservedNext(ForConnection, deps, views, v, i);
          assert s'.pc == AwaitConnection(i + 1, cfg.maxRetries);
        } else {
          ObservedKept(ForConnection, deps, views, [v], i);
          assert s'.pc == AwaitConnection(i, r - 1);
        }
      }
    case MarkReady =>
      ObservedKept(ForConnection, deps, views, [v], n);
      ObservedKept(ForReadiness, deps, views, [v], 0);
      assert s'.pc == AwaitReadiness(0, cfg.maxRetries);
    case AwaitReadiness(i, r) =>
      ObservedKept(ForConnection, deps, views, [v], n);
      if i >= n {
        ObservedKept(ForReadiness, deps, views, [v], i);
      } else {
        var next := Poll(cfg, v, s, ForReadiness, i, r);
        if next.None? {
          assert s'.response != Some(MessageAck) && s'.pc != Respond(MessageAck);
        } else if next.value == (i + 1, cfg.maxRetries) {
          ObservedNext(ForReadiness, deps, views, v, i);
          assert s'.pc == AwaitReadiness(i + 1, cfg.maxRetries);
        } else {
          ObservedKept(ForReadiness, deps, views, [v], i);
          assert s'.pc == AwaitReadiness(i, r - 1);
        }
      }
    case Respond(m) =>
      if m == MessageAck {
        ObservedKept(ForConnection, deps, views, [v], n);
        ObservedKept(ForReadiness, deps, views, [v], n);
      }
    case AwaitSyn =>
      if s.response == Some(MessageAck) {
        ObservedKept(ForConnection, deps, views, [v], n);
        ObservedKept(ForReadiness, deps, views, [v], n);
      }
    case Finished =>
      if s.response == Some(MessageAck) {
        ObservedKept(ForConnection, deps, views, [v], n);
        ObservedKept(ForReadiness, deps, views, [v], n);
      }
  }

  lemma {:induction false} PostDumpProgressStep(cfg: Config, v: Shared, s: Session, views: seq<Shared>)
    requires Valid(s)
    requires PostDumpProgress(s, views)
    ensures PostDumpProgress(Step(cfg, v, s).1, views + [v])
  {
    var deps := s.msg.dependencies;
    var n := |deps|;
    var s' := Step(cfg, v, s).1;
    match s.pc
    case PostDumpBegin =>
      ObservedKept(ForCheckpoint, deps, views, [v], 0);
    case AwaitCheckpoints(i, r) =>
      if i >= n {
        ObservedKept(ForCheckpoint, deps, views, [v], i);
        assert s'.pc == Respond(MessageAck);
      } else {
        var next := Poll(cfg, v, s, ForCheckpoint, i, r);
        if next.None? {
          assert s'.pc == Respond(MessageTimeout);
        } else if next.value == (i + 1, cfg.maxRetries) {
          ObservedNext(ForCheckpoint, deps, views, v, i);
          assert s'.pc == AwaitCheckpoints(i + 1, cfg.maxRetries);
        } else {
          ObservedKept(ForCheckpoint, deps, views, [v], i);
          assert s'.pc == AwaitCheckpoints(i, r - 1);
        }
      }
    case Respond(m) =>
      if m == MessageAck {
        ObservedKept(ForCheckpoint, deps, views, [v], n);
      }
    case Finished =>
      if s.response == Some(MessageAck) {
        ObservedKept(ForCheckpoint, deps, views, [v], n);
      }
  }

  lemma {:induction false} RegisterProgressRun(cfg: Config, s: Session, seen: seq<Shared>, views: seq<Shared>)
    requires Valid(s)
    requires RegisterProgress(s, seen)
    ensures Valid(RunSession(cfg, s, views))
    ensures RegisterProgress(RunSession(cfg, s, views), seen + views)
    decreases |views|
  {
    if |views| == 0 {
      assert seen + views == seen;
    } else {
      RegisterProgressStep(cfg, views[0], s, seen);
      RegisterProgressRun(cfg, Step(cfg, views[0], s).1, seen + [views[0]], views[1..]);
      assert seen + [views[0]] + views[1..] == seen + views;
    }
  }

  lemma {:induction false} PostDumpProgressRun(cfg: Config, s: Session, seen: seq<Shared>, views: seq<Shared>)
    requires Valid(s)
    requires PostDumpProgress(s, seen)
    ensures Valid(RunSession(cfg, s, views))
    ensures PostDumpProgress(RunSession(cfg, s, views), seen + views)
    decreases |views|
  {
    if |views| == 0 {
      assert seen + views == seen;
    } else {
      PostDumpProgressStep(cfg, views[0], s, seen);
      PostDumpProgressRun(cfg, Step(cfg, views[0], s).1, seen + [views[0]], views[1..]);
      assert seen + [views[0]] + views[1..] == seen + views;
    }
  }

  /** An ordinary request (pre-dump, pre-restore, network-lock, ...) reaches
      the step that marks its client ready only after it has seen every
      non-empty dependency registered and connected, and is answered "ACK"
      only after it has also seen every one of them ready. */
  lemma ReadyAndAckOnlyAfterDependencies(
    cfg: Config, g: Shared, raw: RawMessage, synReply: bool, views: seq<Shared>)
    requires Open(g, raw, synReply).Some?
    requires Open(g, raw, synReply).value.pc == Register
    ensures var s := Open(g, raw, synReply).value;
            var s' := RunSession(cfg, s, views);
            (s'.pc == MarkReady ==> AllObserved(ForConnection, s.msg.dependencies, views)) &&
            (s'.response == Some(MessageAck) ==>
              AllObserved(ForConnection, s.msg.dependencies, views) &&
              AllObserved(ForReadiness, s.msg.dependencies, views))
  {
    var s := Open(g, raw, synReply).value;
    RegisterProgressRun(cfg, s, [], views);
    assert [] + views == views;
    var s' := RunSession(cfg, s, views);
    assert s'.msg == s.msg by { RunKeepsMessage(cfg, s, views); }
    if s'.response == Some(MessageAck) {
      assert s'.pc == AwaitSyn || s'.pc == Finished;
    }
  }

  /** A post-dump request is answered "ACK" only after it has seen each of its
      dependencies either gone from the map or holding a local checkpoint. */
  lemma PostDumpAckOnlyAfterCheckpoints(
    cfg: Config, g: Shared, raw: RawMessage, synReply: bool, views: seq<Shared>)
    requires Open(g, raw, synReply).Some?
    requires Open(g, raw, synReply).value.pc == PostDumpBegin
    ensures var s := Open(g, raw, synReply).value;
            RunSession(cfg, s, views).response == Some(MessageAck) ==>
              AllObserved(ForCheckpoint, s.msg.dependencies, views)
  {
    var s := Open(g, raw, synReply).value;
    PostDumpProgressRun(cfg, s, [], views);
    assert [] + views == views;
    var s' := RunSession(cfg, s, views);
    assert s'.msg == s.msg by { RunKeepsMessage(cfg, s, views); }
    if s'.response == Some(MessageAck) {
      assert s'.pc == AwaitSyn || s'.pc == Finished;
    }
  }
}
