/** What the datapath gate stands on, in nodes, labels and pod counts. */
module AgwPrepared {
  import opened GoMaps
  import opened Objects
  import opened NativeRelease
  import opened AgwModel
  import opened AgwIdentity
  import opened AgwDatapath
  import opened AgwTrust
  import opened AgwRegistration
  import opened AgwPass
  import opened AgwRuns
  import opened AgwReady
  import opened AgwHistory
  import opened AgwAfterPass
  import opened AgwConditions

  /** The node preparation DaemonSet is there, is scheduled somewhere, and every scheduled pod of it is ready. */
  predicate EveryPrepPodReady(store: Store, namespace: string) {
    var k := ObjectKey(DaemonSet, namespace, "agw-node-prep");
    k in store && store[k].status.desired > 0 && store[k].status.ready >= store[k].status.desired
  }

  /** The node has every label that the specification asks for; the label selector wins where both selectors name a key. */
  predicate GatewayNode(node: Node, spec: Spec) {
    && (forall k :: k in spec.agwNodeLabelSelector ==> k in node.labels && node.labels[k] == spec.agwNodeLabelSelector[k])
    && (forall k :: k in spec.agwNodeSelector && k !in spec.agwNodeLabelSelector ==> k in node.labels && node.labels[k] == spec.agwNodeSelector[k])
  }

  predicate MarkedReady(node: Node, spec: Spec) {
    var key := if spec.datapath.readyLabelKey != "" then spec.datapath.readyLabelKey else "magma.io/agw-datapath-ready";
    var value := if spec.datapath.readyLabelValue != "" then spec.datapath.readyLabelValue else "true";
    key in node.labels && node.labels[key] == value
  }

  predicate Gated(spec: Spec) {
    spec.datapath.enabled != Some(false)
  }

  /** The gateway has nodes, all of them are marked ready, and node preparation is complete. */
  ghost predicate PreparedNodes(store: Store, nodes: seq<Node>, namespace: string, spec: Spec) {
    && (exists i :: 0 <= i < |nodes| && GatewayNode(nodes[i], spec))
    && (forall i :: 0 <= i < |nodes| && GatewayNode(nodes[i], spec) ==> MarkedReady(nodes[i], spec))
    && EveryPrepPodReady(store, namespace)
  }

  lemma NodeSelected(node: Node, spec: Spec)
    ensures Selected(node, NodeSelector(spec)) <==> GatewayNode(node, spec)
  {
    var selector := NodeSelector(spec);
    if GatewayNode(node, spec) {
      forall k | k in selector
        ensures k in node.labels && node.labels[k] == selector[k]
      {
      }
    } else if Selected(node, selector) {
      assert forall k :: k in spec.agwNodeLabelSelector ==> k in selector && selector[k] == spec.agwNodeLabelSelector[k];
      assert forall k :: k in spec.agwNodeSelector && k !in spec.agwNodeLabelSelector ==> k in selector && selector[k] == spec.agwNodeSelector[k];
    }
  }

  lemma NodeMarked(node: Node, spec: Spec)
    ensures Get(node.labels, ReadyLabelKey(spec.datapath)) == ReadyLabelValue(spec.datapath) <==> MarkedReady(node, spec)
  {
  }

  lemma PrepCounts(store: Store, namespace: string)
    ensures PrepReady(store, namespace) <==> EveryPrepPodReady(store, namespace)
  {
  }

  lemma NodesCount(nodes: seq<Node>, store: Store, namespace: string, spec: Spec)
    ensures NodesReady(nodes, store, namespace, NodeSelector(spec), spec.datapath) <==> PreparedNodes(store, nodes, namespace, spec)
    ensures AnySelected(nodes, NodeSelector(spec)) <==> exists i :: 0 <= i < |nodes| && GatewayNode(nodes[i], spec)
  {
    hide NodeSelector, ReadyLabelKey, ReadyLabelValue, Selected, GatewayNode, MarkedReady, PrepReady, EveryPrepPodReady;
    PrepCounts(store, namespace);
    forall i | 0 <= i < |nodes|
      ensures Selected(nodes[i], NodeSelector(spec)) <==> GatewayNode(nodes[i], spec)
      ensures Get(nodes[i].labels, ReadyLabelKey(spec.datapath)) == ReadyLabelValue(spec.datapath) <==> MarkedReady(nodes[i], spec)
    {
      NodeSelected(nodes[i], spec);
      NodeMarked(nodes[i], spec);
    }
  }

  /** The check of a gated pass finds its nodes prepared exactly when they are. */
  lemma PreparedExact(nodes: seq<Node>, store: Store, namespace: string, spec: Spec, failing: set<Call>)
    requires NodeList !in failing && PrepGet !in failing
    ensures CheckNodes(nodes, store, namespace, NodeSelector(spec), spec.datapath, failing).Prepared?
      <==> PreparedNodes(store, nodes, namespace, spec)
  {
    hide NodeSelector, ReadyLabelKey, ReadyLabelValue, PrepReady, PreparedNodes, AllLabelled, AnySelected;
    NodesCount(nodes, store, namespace, spec);
  }

  /** A label step in which nothing fails labels the nodes exactly when node preparation is complete, and otherwise takes the label away. */
  lemma NowReadyExact(nodes: seq<Node>, store: Store, namespace: string, spec: Spec, o: Oracle)
    requires LabelNodeList !in o.failing && LabelPrepGet !in o.failing && o.labelStop >= |nodes|
    requires exists i :: 0 <= i < |nodes| && GatewayNode(nodes[i], spec)
    ensures var step := ReconcileLabels(nodes, store, namespace, NodeSelector(spec), spec.datapath, o);
      && (step.outcome.NowReady? <==> EveryPrepPodReady(store, namespace))
      && (step.outcome.StillWaiting? <==> !EveryPrepPodReady(store, namespace))
      && |step.nodes| == |nodes|
      && (EveryPrepPodReady(store, namespace) ==>
            forall i :: 0 <= i < |nodes| && GatewayNode(nodes[i], spec) ==> MarkedReady(step.nodes[i], spec))
      && (!EveryPrepPodReady(store, namespace) ==>
            forall i :: 0 <= i < |nodes| && GatewayNode(nodes[i], spec) ==> ReadyLabelKey(spec.datapath) !in step.nodes[i].labels)
  {
    hide NodeSelector, ReadyLabelKey, ReadyLabelValue, Selected, GatewayNode, MarkedReady, PrepReady, EveryPrepPodReady;
    NodesCount(nodes, store, namespace, spec);
    PrepCounts(store, namespace);
    var step := ReconcileLabels(nodes, store, namespace, NodeSelector(spec), spec.datapath, o);
    forall i | 0 <= i < |nodes|
      ensures Selected(nodes[i], NodeSelector(spec)) <==> GatewayNode(nodes[i], spec)
      ensures Get(step.nodes[i].labels, ReadyLabelKey(spec.datapath)) == ReadyLabelValue(spec.datapath) <==> MarkedReady(step.nodes[i], spec)
    {
      NodeSelected(nodes[i], spec);
      NodeMarked(step.nodes[i], spec);
    }
  }

  lemma EvidencePrepared(store: Store, nodes: seq<Node>, agw: Agw)
    requires DatapathEvidence(store, nodes, agw) && Gated(agw.spec)
    ensures PreparedNodes(store, nodes, agw.namespace, agw.spec)
  {
    hide NodeSelector, PreparedNodes, NodesReady;
    NodesCount(nodes, store, agw.namespace, agw.spec);
  }

  /** Behind every persisted Ready=True of a gated gateway stands a pass that saw every scheduled node-prep pod ready and every node marked. */
  lemma ReadyMeansPrepared(op: Operator, ws: seq<World>, es: seq<Event>, n: nat) returns (k: nat)
    requires Run(op, ws, es) && n < |ws| && !ReportsReady(ws[0]) && ReportsReady(ws[n])
    ensures WrittenAt(op, ws, es, k, n)
    ensures Gated(ws[k].cr.value.spec) ==> PreparedNodes(ws[k].objects, ws[k].nodes, ws[k].cr.value.namespace, ws[k].cr.value.spec)
  {
    hide Pass, ReconcileIdentity, TrustEvidence, RegistrationEvidence, DatapathEvidence, SimulatorEvidence, PreparedNodes, Gated;
    k := ReadySoundness(op, ws, es, n);
    var id :| Evidence(ws[k], op, es[k].o, ws[k].cr.value, id);
    if Gated(ws[k].cr.value.spec) {
      EvidencePrepared(ws[k].objects, ws[k].nodes, ws[k].cr.value);
    }
  }

  /** The same behind every persisted DatapathReady=True. */
  lemma DatapathMeansPrepared(op: Operator, ws: seq<World>, es: seq<Event>, n: nat) returns (k: nat)
    requires Run(op, ws, es) && n < |ws| && !Reports(ws[0], ConditionType.DatapathReady) && Reports(ws[n], ConditionType.DatapathReady)
    ensures EarnedAt(op, ws, es, ConditionType.DatapathReady, k, n)
    ensures PreparedNodes(ws[k].objects, ws[k].nodes, ws[k].cr.value.namespace, ws[k].cr.value.spec)
  {
    hide Pass, ReconcileIdentity, DatapathEvidence, PreparedNodes;
    k := ConditionSoundness(op, ws, es, ConditionType.DatapathReady, n);
    EvidencePrepared(ws[k].objects, ws[k].nodes, ws[k].cr.value);
  }
}
