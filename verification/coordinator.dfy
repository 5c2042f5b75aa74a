/** Checkpoint coordination of a distributed application on Kubernetes: the
    dependency-first order of its containers and the trigger-and-poll loop
    over that order. */
module Coordinator {
  import opened Common
  import opened Discovery

  /** container id -> ids it depends on. */
  type Deps = map<string, seq<string>>

  datatype DistributedApp = DistributedApp(
    name: string,
    containers: seq<DiscoveredContainer>,
    dependencies: Deps)

  function NewApp(name: string): (r: DistributedApp)
    ensures r.name == name && |r.containers| == 0 && |r.dependencies| == 0
  {
    DistributedApp(name, [], map[])
  }

  /** The container goes last; the existing ones and the map are kept. */
  function AddContainer(app: DistributedApp, c: DiscoveredContainer): (r: DistributedApp)
    ensures r.name == app.name && r.dependencies == app.dependencies
    ensures |r.containers| == |app.containers| + 1
    ensures r.containers[..|app.containers|] == app.containers && r.containers[|app.containers|] == c
  {
    app.(containers := app.containers + [c])
  }

  /** The map is replaced wholesale, not merged. */
  function SetDependencies(app: DistributedApp, deps: Deps): (r: DistributedApp)
    ensures r.dependencies == deps
    ensures r.name == app.name && r.containers == app.containers
  {
    app.(dependencies := deps)
  }

  /** The `"pod/container"` id under which a container is ordered. */
  function ContainerId(c: DiscoveredContainer): string {
    c.podName + "/" + c.containerName
  }

  function ContainerIds(cs: seq<DiscoveredContainer>): (r: seq<string>)
    ensures |r| == |cs| && forall i :: 0 <= i < |cs| ==> r[i] == ContainerId(cs[i])
  {
    seq(|cs|, i requires 0 <= i < |cs| => ContainerId(cs[i]))
  }

  // ---------------------------------------------------------------------------
  // The dependency-first order

  /** Every id the map mentions, as a key or as a dependency. */
  function Nodes(deps: Deps): set<string> {
    deps.Keys + set k, d | k in deps && d in deps[k] :: d
  }

  /** A set of ids that contains the dependencies of each of its members. */
  predicate Closed(s: set<string>, deps: Deps) {
    forall x :: x in s && x in deps ==> Elems(deps[x]) <= s
  }

  /** `visit`: skip an id already visited; otherwise mark it, visit its
      dependencies in list order, and append it. */
  function Visit(id: string, deps: Deps, visited: set<string>, order: seq<string>): (r: (set<string>, seq<string>))
    ensures visited <= r.0 && id in r.0
    ensures |order| <= |r.1| && r.1[..|order|] == order
    decreases Nodes(deps) - visited, 1
  {
    if id in visited then (visited, order)
    else
      var marked := visited + {id};
      var (v, o) :=
        if id in deps then
          assert id in Nodes(deps) - visited && Nodes(deps) - marked < Nodes(deps) - visited;
          VisitAll(deps[id], deps, marked, order)
        else (marked, order);
      assert (o + [id])[..|order|] == o[..|order|];
      (v, o + [id])
  }

  /** The loop over a list of ids, threading the visited set and the order. */
  function VisitAll(ids: seq<string>, deps: Deps, visited: set<string>, order: seq<string>): (r: (set<string>, seq<string>))
    ensures visited <= r.0 && Elems(ids) <= r.0
    ensures |order| <= |r.1| && r.1[..|order|] == order
    decreases Nodes(deps) - visited, 2, |ids|
  {
    if |ids| == 0 then (visited, order)
    else
      var (v, o) := Visit(ids[0], deps, visited, order);
      assert Nodes(deps) - v <= Nodes(deps) - visited;
      var r := VisitAll(ids[1..], deps, v, o);
      assert r.1[..|order|] == r.1[..|o|][..|order|];
      assert forall x :: x in ids ==> x == ids[0] || x in ids[1..];
      r
  }

  /** The ids appended are exactly the ids newly visited. */
  lemma {:induction false} VisitElems(id: string, deps: Deps, visited: set<string>, order: seq<string>)
    ensures var r := Visit(id, deps, visited, order); Elems(r.1) == Elems(order) + (r.0 - visited)
    decreases Nodes(deps) - visited, 1
  {
    if id !in visited {
      var marked := visited + {id};
      if id in deps {
        assert id in Nodes(deps) - visited && Nodes(deps) - marked < Nodes(deps) - visited;
        VisitAllElems(deps[id], deps, marked, order);
        var r := VisitAll(deps[id], deps, marked, order);
        assert Elems(r.1 + [id]) == Elems(r.1) + {id};
      } else {
        assert Elems(order + [id]) == Elems(order) + {id};
      }
    }
  }

  lemma {:induction false} VisitAllElems(ids: seq<string>, deps: Deps, visited: set<string>, order: seq<string>)
    ensures var r := VisitAll(ids, deps, visited, order); Elems(r.1) == Elems(order) + (r.0 - visited)
    decreases Nodes(deps) - visited, 2, |ids|
  {
    if |ids| > 0 {
      var (v, o) := Visit(ids[0], deps, visited, order);
      VisitElems(ids[0], deps, visited, order);
      assert Nodes(deps) - v <= Nodes(deps) - visited;
      VisitAllElems(ids[1..], deps, v, o);
    }
  }

  lemma AppendFresh(s: seq<string>, x: string)
    requires NoDup(s) && x !in s
    ensures NoDup(s + [x])
  {
  }

  /** An id is appended at most once: the visited check comes before the
      append, and every appended id is marked first. */
  lemma {:induction false} VisitNoDup(id: string, deps: Deps, visited: set<string>, order: seq<string>)
    requires NoDup(order) && Elems(order) <= visited
    ensures var r := Visit(id, deps, visited, order); NoDup(r.1) && Elems(r.1) <= r.0
    decreases Nodes(deps) - visited, 1
  {
    if id !in visited {
      var marked := visited + {id};
      var r := if id in deps then VisitAll(deps[id], deps, marked, order) else (marked, order);
      if id in deps {
        assert id in Nodes(deps) - visited && Nodes(deps) - marked < Nodes(deps) - visited;
        VisitAllNoDup(deps[id], deps, marked, order);
        VisitAllElems(deps[id], deps, marked, order);
      }
      assert id !in Elems(r.1);
      AppendFresh(r.1, id);
      assert Elems(r.1 + [id]) == Elems(r.1) + {id};
    }
  }

  lemma {:induction false} VisitAllNoDup(ids: seq<string>, deps: Deps, visited: set<string>, order: seq<string>)
    requires NoDup(order) && Elems(order) <= visited
    ensures var r := VisitAll(ids, deps, visited, order); NoDup(r.1) && Elems(r.1) <= r.0
    decreases Nodes(deps) - visited, 2, |ids|
  {
    if |ids| > 0 {
      var (v, o) := Visit(ids[0], deps, visited, order);
      VisitNoDup(ids[0], deps, visited, order);
      assert Nodes(deps) - v <= Nodes(deps) - visited;
      VisitAllNoDup(ids[1..], deps, v, o);
    }
  }

  /** Every id newly visited has all its dependencies visited. */
  lemma {:induction false} VisitClosed(id: string, deps: Deps, visited: set<string>, order: seq<string>)
    ensures var r := Visit(id, deps, visited, order);
              forall x :: x in r.0 - visited && x in deps ==> Elems(deps[x]) <= r.0
    decreases Nodes(deps) - visited, 1
  {
    if id !in visited && id in deps {
      var marked := visited + {id};
      assert id in Nodes(deps) - visited && Nodes(deps) - marked < Nodes(deps) - visited;
      VisitAllClosed(deps[id], deps, marked, order);
    }
  }

  lemma {:induction false} VisitAllClosed(ids: seq<string>, deps: Deps, visited: set<string>, order: seq<string>)
    ensures var r := VisitAll(ids, deps, visited, order);
              forall x :: x in r.0 - visited && x in deps ==> Elems(deps[x]) <= r.0
    decreases Nodes(deps) - visited, 2, |ids|
  {
    if |ids| > 0 {
      var (v, o) := Visit(ids[0], deps, visited, order);
      VisitClosed(ids[0], deps, visited, order);
      assert Nodes(deps) - v <= Nodes(deps) - visited;
      VisitAllClosed(ids[1..], deps, v, o);
    }
  }

  /** Nothing outside a closed set that holds the roots is ever visited. */
  lemma {:induction false} VisitWithin(id: string, deps: Deps, visited: set<string>, order: seq<string>, s: set<string>)
    requires Closed(s, deps) && visited <= s && id in s
    ensures Visit(id, deps, visited, order).0 <= s
    decreases Nodes(deps) - visited, 1
  {
    if id !in visited && id in deps {
      var marked := visited + {id};
      assert id in Nodes(deps) - visited && Nodes(deps) - marked < Nodes(deps) - visited;
      VisitAllWithin(deps[id], deps, marked, order, s);
    }
  }

  lemma {:induction false} VisitAllWithin(ids: seq<string>, deps: Deps, visited: set<string>, order: seq<string>, s: set<string>)
    requires Closed(s, deps) && visited <= s && Elems(ids) <= s
    ensures VisitAll(ids, deps, visited, order).0 <= s
    decreases Nodes(deps) - visited, 2, |ids|
  {
    if |ids| > 0 {
      var (v, o) := Visit(ids[0], deps, visited, order);
      VisitWithin(ids[0], deps, visited, order, s);
      assert Nodes(deps) - v <= Nodes(deps) - visited;
      assert Elems(ids[1..]) <= Elems(ids);
      VisitAllWithin(ids[1..], deps, v, o, s);
    }
  }

  /** The checkpoint order: every container's id visited in container order,
      sharing one visited set. Each id occurs once, every container's id
      occurs, and the dependencies of every listed id are listed. */
  function CheckpointOrder(app: DistributedApp): (order: seq<string>)
    ensures NoDup(order)
    ensures forall c :: c in app.containers ==> ContainerId(c) in order
    ensures Closed(Elems(order), app.dependencies)
  {
    var roots := ContainerIds(app.containers);
    var r := VisitAll(roots, app.dependencies, {}, []);
    VisitAllNoDup(roots, app.dependencies, {}, []);
    VisitAllElems(roots, app.dependencies, {}, []);
    VisitAllClosed(roots, app.dependencies, {}, []);
    RootsCovered(app.containers);
    assert Elems(roots) <= Elems(r.1);
    r.1
  }

  /** Every container's id is among the roots the order starts from. */
  lemma RootsCovered(cs: seq<DiscoveredContainer>)
    ensures forall c :: c in cs ==> ContainerId(c) in Elems(ContainerIds(cs))
  {
    var roots := ContainerIds(cs);
    forall c | c in cs ensures ContainerId(c) in Elems(roots) {
      var i :| 0 <= i < |cs| && cs[i] == c;
      assert roots[i] == ContainerId(c);
    }
  }

  /** The order holds nothing beyond what the containers reach: it lies in
      every closed set that holds the containers' ids, so it is exactly the
      set of ids reachable from them. */
  lemma OrderIsReachable(app: DistributedApp, s: set<string>)
    requires Closed(s, app.dependencies)
    requires forall c :: c in app.containers ==> ContainerId(c) in s
    ensures Elems(CheckpointOrder(app)) <= s
  {
    var roots := ContainerIds(app.containers);
    VisitAllElems(roots, app.dependencies, {}, []);
    assert Elems(roots) <= s by {
      forall x | x in Elems(roots) ensures x in s {
        var i :| 0 <= i < |roots| && roots[i] == x;
        assert app.containers[i] in app.containers;
      }
    }
    VisitAllWithin(roots, app.dependencies, {}, [], s);
  }

  /** A rank that drops along every dependency edge: the map has no cycle. */
  predicate Ranked(deps: Deps, rank: string -> nat) {
    forall x, d :: x in deps && d in deps[x] ==> rank(d) < rank(x)
  }

  /** Each listed id comes after every dependency it has. */
  predicate PostOrdered(order: seq<string>, deps: Deps) {
    forall j :: 0 <= j < |order| && order[j] in deps ==> Elems(deps[order[j]]) <= Elems(order[..j])
  }

  /** Without cycles, the ids visited but not yet appended (the ancestors on
      the recursion stack) all outrank the id being visited; then the visit
      appends the id after all its dependencies. */
  lemma {:induction false} VisitPostOrder(id: string, deps: Deps, visited: set<string>, order: seq<string>, rank: string -> nat)
    requires Ranked(deps, rank) && PostOrdered(order, deps) && Elems(order) <= visited
    requires forall y :: y in visited - Elems(order) ==> rank(id) < rank(y)
    ensures var r := Visit(id, deps, visited, order); PostOrdered(r.1, deps) && id in Elems(r.1)
    decreases Nodes(deps) - visited, 1
  {
    if id !in visited {
      var marked := visited + {id};
      var r := if id in deps then VisitAll(deps[id], deps, marked, order) else (marked, order);
      if id in deps {
        assert id in Nodes(deps) - visited && Nodes(deps) - marked < Nodes(deps) - visited;
        VisitAllPostOrder(deps[id], deps, marked, order, rank);
      }
      var o := r.1 + [id];
      forall j | 0 <= j < |o| && o[j] in deps
        ensures Elems(deps[o[j]]) <= Elems(o[..j])
      {
        if j < |r.1| {
          assert o[..j] == r.1[..j] && o[j] == r.1[j];
        } else {
          assert o[..j] == r.1;
        }
      }
      assert o[|r.1|] == id;
      assert Visit(id, deps, visited, order).1 == o;
    } else {
      assert id in visited - Elems(order) ==> rank(id) < rank(id);
    }
  }

  lemma {:induction false} VisitAllPostOrder(ids: seq<string>, deps: Deps, visited: set<string>, order: seq<string>, rank: string -> nat)
    requires Ranked(deps, rank) && PostOrdered(order, deps) && Elems(order) <= visited
    requires forall y, k :: y in visited - Elems(order) && k in ids ==> rank(k) < rank(y)
    ensures var r := VisitAll(ids, deps, visited, order); PostOrdered(r.1, deps) && Elems(ids) <= Elems(r.1)
    decreases Nodes(deps) - visited, 2, |ids|
  {
    if |ids| > 0 {
      var (v, o) := Visit(ids[0], deps, visited, order);
      VisitPostOrder(ids[0], deps, visited, order, rank);
      VisitElems(ids[0], deps, visited, order);
      assert v - Elems(o) == visited - Elems(order);
      assert Nodes(deps) - v <= Nodes(deps) - visited;
      VisitAllPostOrder(ids[1..], deps, v, o, rank);
      var r := VisitAll(ids[1..], deps, v, o);
      assert forall x :: x in o ==> x in r.1[..|o|];
      assert forall x :: x in ids ==> x == ids[0] || x in ids[1..];
    }
  }

  /** With an acyclic map every id is checkpointed after all the ids it
      depends on. */
  lemma OrderDependenciesFirst(app: DistributedApp, rank: string -> nat)
    requires Ranked(app.dependencies, rank)
    ensures PostOrdered(CheckpointOrder(app), app.dependencies)
  {
    VisitAllPostOrder(ContainerIds(app.containers), app.dependencies, {}, [], rank);
  }

  // ---------------------------------------------------------------------------
  // Triggering the checkpoints

  /** Status polls per container. */
  const MaxStatusPolls: nat := 10
  const Completed: string := "completed"

  /** The checkpoint API as seen from the loop: the trigger's outcome for a
      container, and the answer to the n-th status query for it. */
  type Trigger = DiscoveredContainer -> Result<(), string>
  type StatusAnswers = (DiscoveredContainer, nat) -> Result<string, string>

  /** The first container with the given id. */
  function FindContainer(cs: seq<DiscoveredContainer>, id: string): (r: Option<DiscoveredContainer>)
    ensures r.None? <==> forall i :: 0 <= i < |cs| ==> ContainerId(cs[i]) != id
    ensures r.Some? ==> exists i :: 0 <= i < |cs| && cs[i] == r.value && ContainerId(cs[i]) == id &&
                          forall k :: 0 <= k < i ==> ContainerId(cs[k]) != id
    decreases |cs|
  {
    if |cs| == 0 then None
    else if ContainerId(cs[0]) == id then Some(cs[0])
    else
      var r := FindContainer(cs[1..], id);
      assert forall i :: 1 <= i < |cs| ==> cs[i] == cs[1..][i - 1];
      if r.Some? then
        var i :| 0 <= i < |cs[1..]| && cs[1..][i] == r.value && ContainerId(cs[1..][i]) == id &&
                 forall k :: 0 <= k < i ==> ContainerId(cs[1..][k]) != id;
        assert cs[i + 1] == r.value;
        r
      else r
  }

  /** Every answer from query `from` up to `to` arrived and was not
      "completed". */
  predicate Pending(c: DiscoveredContainer, status: StatusAnswers, from: nat, to: nat) {
    forall k :: from <= k < to ==> status(c, k).Ok? && status(c, k).value != Completed
  }

  /** The status loop from query `i`: `Ok(true)` on the first "completed",
      the first failed query's error, `Ok(false)` when ten answers pass
      without "completed". */
  function PollStatus(c: DiscoveredContainer, status: StatusAnswers, i: nat): (r: Result<bool, string>)
    requires i <= MaxStatusPolls
    ensures r == Ok(true) <==>
              exists j :: i <= j < MaxStatusPolls && status(c, j) == Ok(Completed) && Pending(c, status, i, j)
    ensures r == Ok(false) <==> Pending(c, status, i, MaxStatusPolls)
    ensures r.Err? ==>
              exists j :: i <= j < MaxStatusPolls && status(c, j) == Err(r.error) && Pending(c, status, i, j)
    decreases MaxStatusPolls - i
  {
    if i == MaxStatusPolls then Ok(false)
    else
      match status(c, i)
      case Err(e) => Err(e)
      case Ok(answer) =>
        if answer == Completed then Ok(true)
        else
          var r := PollStatus(c, status, i + 1);
          assert r == Ok(true) ==>
                   exists j :: i <= j < MaxStatusPolls && status(c, j) == Ok(Completed) && Pending(c, status, i, j) by {
            if r == Ok(true) {
              var j :| i + 1 <= j < MaxStatusPolls && status(c, j) == Ok(Completed) && Pending(c, status, i + 1, j);
              assert Pending(c, status, i, j);
            }
          }
          assert r.Err? ==>
                   exists j :: i <= j < MaxStatusPolls && status(c, j) == Err(r.error) && Pending(c, status, i, j) by {
            if r.Err? {
              var j :| i + 1 <= j < MaxStatusPolls && status(c, j) == Err(r.error) && Pending(c, status, i + 1, j);
              assert Pending(c, status, i, j);
            }
          }
          r
  }

  /** One id of the order: find its container, trigger, then poll. */
  function CheckpointOne(app: DistributedApp, trigger: Trigger, status: StatusAnswers, id: string): (r: Result<(), string>)
    ensures FindContainer(app.containers, id).None? ==> r == Err("Container not found: " + id)
    ensures r.Ok? <==> FindContainer(app.containers, id).Some? &&
                       trigger(FindContainer(app.containers, id).value).Ok? &&
                       exists j :: 0 <= j < MaxStatusPolls &&
                                   status(FindContainer(app.containers, id).value, j) == Ok(Completed) &&
                                   Pending(FindContainer(app.containers, id).value, status, 0, j)
    // the failures after the lookup: the trigger's error, the first failed query's error, or the timeout
    ensures FindContainer(app.containers, id).Some? ==>
              var c := FindContainer(app.containers, id).value;
              trigger(c).Err? ==> r == Err(trigger(c).error)
    ensures FindContainer(app.containers, id).Some? ==>
              var c := FindContainer(app.containers, id).value;
              trigger(c).Ok? && PollStatus(c, status, 0).Err? ==> r == Err(PollStatus(c, status, 0).error)
    ensures FindContainer(app.containers, id).Some? ==>
              var c := FindContainer(app.containers, id).value;
              trigger(c).Ok? && PollStatus(c, status, 0) == Ok(false) ==>
                r == Err("Checkpoint failed or timed out for: " + id)
  {
    match FindContainer(app.containers, id)
    case None => Err("Container not found: " + id)
    case Some(c) =>
      match trigger(c)
      case Err(e) => Err(e)
      case Ok(_) =>
        match PollStatus(c, status, 0)
        case Err(e) => Err(e)
        case Ok(done) =>
          if done then Ok(()) else Err("Checkpoint failed or timed out for: " + id)
  }

  /** `coordinate_checkpoint`: the ids of the order one after another, the
      first failure ending the whole operation. */
  method CoordinateCheckpoint(app: DistributedApp, trigger: Trigger, status: StatusAnswers) returns (r: Result<(), string>)
    ensures var order := CheckpointOrder(app);
              r.Ok? <==> forall i :: 0 <= i < |order| ==> CheckpointOne(app, trigger, status, order[i]).Ok?
    ensures var order := CheckpointOrder(app);
              r.Err? ==> exists i :: 0 <= i < |order| && CheckpointOne(app, trigger, status, order[i]) == Err(r.error) &&
                                     forall k :: 0 <= k < i ==> CheckpointOne(app, trigger, status, order[k]).Ok?
    ensures (exists id :: id in CheckpointOrder(app) && FindContainer(app.containers, id).None?) ==> r.Err?
  {
    var order := CheckpointOrder(app);
    var i := 0;
    while i < |order|
      invariant 0 <= i <= |order|
      invariant forall k :: 0 <= k < i ==> CheckpointOne(app, trigger, status, order[k]).Ok?
    {
      var one := CheckpointOne(app, trigger, status, order[i]);
      if one.Err? {
        r := Err(one.error);
        assert !CheckpointOne(app, trigger, status, order[i]).Ok?;
        assert FindContainer(app.containers, order[i]).None? ==> r.Err?;
        return;
      }
      i := i + 1;
    }
    r := Ok(());
    forall id | id in order ensures FindContainer(app.containers, id).Some? {
      var k :| 0 <= k < |order| && order[k] == id;
      assert CheckpointOne(app, trigger, status, order[k]).Ok?;
    }
  }
}
