/** Container discovery over a pod list that has already been fetched: the
    label-selector filter and the flattening of pods into containers. */
module Discovery {
  import opened Common

  datatype PodSpec = PodSpec(nodeName: Option<string>, containers: seq<string>)

  /** The parts of a pod the discovery reads; every part may be missing. */
  datatype Pod = Pod(
    name: Option<string>,
    namespace: Option<string>,
    labels: Option<map<string, string>>,
    spec: Option<PodSpec>)

  datatype DiscoveredContainer = DiscoveredContainer(
    podName: string,
    namespace: string,
    containerName: string,
    nodeName: string)

  // ---------------------------------------------------------------------------
  // Label selector

  /** The `key=value` constraint a selector segment imposes: only a segment
      that splits on '=' into exactly two fields constrains anything. */
  function Constraint(segment: string): (r: Option<(string, string)>)
    ensures r.Some? <==> Count(segment, '=') == 1
    ensures r.Some? ==> segment == r.value.0 + "=" + r.value.1
    ensures r.Some? ==> '=' !in r.value.0 && '=' !in r.value.1
  {
    var kv := Split(segment, '=');
    if |kv| == 2 then
      JoinSplit(segment, '=');
      assert Join(kv, '=') == kv[0] + ['='] + kv[1];
      Some((kv[0], kv[1]))
    else None
  }

  /** The labels satisfy one segment: it imposes nothing, or its key is a
      label with exactly its value (no trimming). */
  predicate Admits(labels: map<string, string>, segment: string) {
    var c := Constraint(segment);
    c.None? || (c.value.0 in labels && labels[c.value.0] == c.value.1)
  }

  /** Every segment admits the labels. */
  predicate EverySegmentAdmits(labels: map<string, string>, segments: seq<string>) {
    forall i :: 0 <= i < |segments| ==> Admits(labels, segments[i])
  }

  /** The segment loop of `matches_labels`: the first violated segment
      rejects. */
  function AllAdmit(labels: map<string, string>, segments: seq<string>): (r: bool)
    ensures r <==> EverySegmentAdmits(labels, segments)
    decreases |segments|
  {
    if |segments| == 0 then true
    else if !Admits(labels, segments[0]) then false
    else
      var rest := AllAdmit(labels, segments[1..]);
      assert forall i :: 1 <= i < |segments| ==> segments[i] == segments[1..][i - 1];
      rest
  }

  /** `matches_labels`: a pod without labels never matches; a labelled pod
      matches when every comma-separated segment admits its labels. */
  function MatchesLabels(labels: Option<map<string, string>>, selector: string): (r: bool)
    ensures labels.None? ==> !r
    ensures labels.Some? ==> (r <==> EverySegmentAdmits(labels.value, Split(selector, ',')))
  {
    match labels
    case None => false
    case Some(l) => AllAdmit(l, Split(selector, ','))
  }

  /** A single `key=value` selector (neither part holding ',' or '=')
      matches exactly the labelled pods whose label `key` is `value`; in
      particular `"a="` asks for an empty label `a`. */
  lemma SingleSelector(labels: map<string, string>, key: string, value: string)
    requires ',' !in key && ',' !in value && '=' !in key && '=' !in value
    ensures MatchesLabels(Some(labels), key + "=" + value) <==> key in labels && labels[key] == value
  {
    var segment := key + "=" + value;
    SplitJoin([segment], ',');
    assert ',' !in segment;
    assert Split(segment, ',') == [segment];
    SplitJoin([key, value], '=');
    assert Join([key, value], '=') == segment;
    assert Constraint(segment) == Some((key, value));
  }

  /** A segment without exactly one '=' constrains nothing, so the empty
      selector, and a selector of such segments, matches every labelled pod. */
  lemma MalformedSegmentsIgnored(labels: map<string, string>, selector: string)
    requires forall i :: 0 <= i < |Split(selector, ',')| ==> Count(Split(selector, ',')[i], '=') != 1
    ensures MatchesLabels(Some(labels), selector)
  {
  }

  // ---------------------------------------------------------------------------
  // Flattening pods into containers

  /** A pod survives the filter: there is no selector, or its labels match. */
  predicate Passes(pod: Pod, selector: Option<string>) {
    selector.None? || MatchesLabels(pod.labels, selector.value)
  }

  /** The entries one pod contributes: one per container of its spec, in
      order, each carrying the pod's name, namespace and node ("" when
      missing). */
  function PodEntries(pod: Pod): (r: seq<DiscoveredContainer>)
    ensures pod.spec.None? ==> r == []
    ensures pod.spec.Some? ==> |r| == |pod.spec.value.containers|
    ensures forall i :: 0 <= i < |r| ==>
              r[i].containerName == pod.spec.value.containers[i] &&
              r[i].podName == pod.name.GetOr("") &&
              r[i].namespace == pod.namespace.GetOr("") &&
              r[i].nodeName == pod.spec.value.nodeName.GetOr("")
  {
    match pod.spec
    case None => []
    case Some(spec) =>
      seq(|spec.containers|, i requires 0 <= i < |spec.containers| =>
        DiscoveredContainer(pod.name.GetOr(""), pod.namespace.GetOr(""),
                            spec.containers[i], spec.nodeName.GetOr("")))
  }

  /** The entries a pod adds to the result: its own if it passes, none
      otherwise. */
  function Contribution(pod: Pod, selector: Option<string>): seq<DiscoveredContainer> {
    if Passes(pod, selector) then PodEntries(pod) else []
  }

  /** What the discovery yields for a pod list: the entries of each passing
      pod, in pod order. */
  function Discovered(pods: seq<Pod>, selector: Option<string>): seq<DiscoveredContainer>
    decreases |pods|
  {
    if |pods| == 0 then [] else Contribution(pods[0], selector) + Discovered(pods[1..], selector)
  }

  /** Discovery distributes over concatenation of pod lists. */
  lemma {:induction false} DiscoveredAppend(xs: seq<Pod>, ys: seq<Pod>, selector: Option<string>)
    ensures Discovered(xs + ys, selector) == Discovered(xs, selector) + Discovered(ys, selector)
    decreases |xs|
  {
    if |xs| == 0 {
      assert xs + ys == ys;
    } else {
      var head := Contribution(xs[0], selector);
      assert (xs + ys)[0] == xs[0];
      assert (xs + ys)[1..] == xs[1..] + ys;
      calc {
        Discovered(xs + ys, selector);
        head + Discovered(xs[1..] + ys, selector);
        { DiscoveredAppend(xs[1..], ys, selector); }
        head + (Discovered(xs[1..], selector) + Discovered(ys, selector));
        (head + Discovered(xs[1..], selector)) + Discovered(ys, selector);
      }
    }
  }

  /** Every entry comes from a passing pod with a spec, and every container
      of every passing pod with a spec is there. */
  lemma {:induction false} DiscoveredMembers(pods: seq<Pod>, selector: Option<string>, c: DiscoveredContainer)
    ensures c in Discovered(pods, selector) <==>
              exists k :: 0 <= k < |pods| && c in Contribution(pods[k], selector)
    decreases |pods|
  {
    if |pods| > 0 {
      DiscoveredMembers(pods[1..], selector, c);
      if c in Discovered(pods[1..], selector) {
        var k :| 0 <= k < |pods[1..]| && c in Contribution(pods[1..][k], selector);
        assert pods[k + 1] == pods[1..][k];
      }
      if exists k :: 0 <= k < |pods| && c in Contribution(pods[k], selector) {
        var k :| 0 <= k < |pods| && c in Contribution(pods[k], selector);
        if k > 0 {
          assert pods[1..][k - 1] == pods[k];
        }
      }
    }
  }

  /** Without a selector no pod is filtered out. */
  lemma {:induction false} NoSelectorKeepsAll(pods: seq<Pod>)
    ensures |Discovered(pods, None)| == TotalContainers(pods)
    decreases |pods|
  {
    if |pods| > 0 {
      NoSelectorKeepsAll(pods[1..]);
    }
  }

  /** Number of containers over the pods that have a spec. */
  function TotalContainers(pods: seq<Pod>): nat
    decreases |pods|
  {
    if |pods| == 0 then 0
    else (if pods[0].spec.Some? then |pods[0].spec.value.containers| else 0) + TotalContainers(pods[1..])
  }

  /** `discover_containers` over a fetched pod list, pod by pod. */
  method DiscoverContainers(pods: seq<Pod>, selector: Option<string>) returns (containers: seq<DiscoveredContainer>)
    ensures containers == Discovered(pods, selector)
  {
    containers := [];
    var i := 0;
    while i < |pods|
      invariant 0 <= i <= |pods|
      invariant containers == Discovered(pods[..i], selector)
    {
      var pod := pods[i];
      if Passes(pod, selector) {
        containers := containers + PodEntries(pod);
      }
      assert containers == Discovered(pods[..i], selector) + Contribution(pod, selector);
      assert Discovered([pod], selector) == Contribution(pod, selector);
      DiscoveredAppend(pods[..i], [pod], selector);
      assert pods[..i + 1] == pods[..i] + [pod];
      i := i + 1;
    }
    assert pods[..i] == pods;
  }
}
