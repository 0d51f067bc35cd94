/** Datapath gating: which nodes are prepared, and the label that says so. */
module AgwDatapath {
  import opened GoMaps
  import opened Objects
  import opened NativeRelease
  import opened AgwModel

  predicate Selected(node: Node, selector: StringMap) {
    Carries(node.labels, selector)
  }

  predicate AnySelected(nodes: seq<Node>, selector: StringMap) {
    exists i :: 0 <= i < |nodes| && Selected(nodes[i], selector)
  }

  predicate AllLabelled(nodes: seq<Node>, selector: StringMap, key: string, value: string) {
    forall i :: 0 <= i < |nodes| && Selected(nodes[i], selector) ==> Get(nodes[i].labels, key) == value
  }

  predicate NoneCarries(nodes: seq<Node>, selector: StringMap, key: string) {
    forall i :: 0 <= i < |nodes| && Selected(nodes[i], selector) ==> key !in nodes[i].labels
  }

  function PrepKey(namespace: string): ObjectKey {
    ObjectKey(DaemonSet, namespace, AGW_NODE_PREP)
  }

  predicate PrepReady(store: Store, namespace: string) {
    && PrepKey(namespace) in store
    && store[PrepKey(namespace)].status.desired != 0
    && store[PrepKey(namespace)].status.ready >= store[PrepKey(namespace)].status.desired
  }

  predicate NodesReady(nodes: seq<Node>, store: Store, namespace: string, selector: StringMap, dp: DatapathSpec) {
    AnySelected(nodes, selector) && AllLabelled(nodes, selector, ReadyLabelKey(dp), ReadyLabelValue(dp)) && PrepReady(store, namespace)
  }

  datatype Check = CheckFailed | Prepared | NotPrepared

  function CheckNodes(nodes: seq<Node>, store: Store, namespace: string, selector: StringMap, dp: DatapathSpec, failing: set<Call>): Check {
    if NodeList in failing then CheckFailed
    else if !AnySelected(nodes, selector) then NotPrepared
    else if !AllLabelled(nodes, selector, ReadyLabelKey(dp), ReadyLabelValue(dp)) then NotPrepared
    else if PrepGet in failing then CheckFailed
    else if PrepReady(store, namespace) then Prepared
    else NotPrepared
  }

  // ----- Changing labels -----

  function Labelled(node: Node, key: string, value: string): Node {
    if Get(node.labels, key) == value then node else node.(labels := node.labels[key := value])
  }

  function Unlabelled(node: Node, key: string): Node {
    node.(labels := node.labels - {key})
  }

  /** Labels the selected nodes in list order; the patch fails at index `stop`. */
  function LabelUpTo(nodes: seq<Node>, selector: StringMap, key: string, value: string, stop: nat): (r: seq<Node>)
    ensures |r| == |nodes|
  {
    seq(|nodes|, i requires 0 <= i < |nodes| =>
      if i < stop && Selected(nodes[i], selector) then Labelled(nodes[i], key, value) else nodes[i])
  }

  function UnlabelUpTo(nodes: seq<Node>, selector: StringMap, key: string, stop: nat): (r: seq<Node>)
    ensures |r| == |nodes|
  {
    seq(|nodes|, i requires 0 <= i < |nodes| =>
      if i < stop && Selected(nodes[i], selector) then Unlabelled(nodes[i], key) else nodes[i])
  }

  /** No selected node from `stop` on needs a patch, so the loop is not interrupted. */
  predicate LabelCompletes(nodes: seq<Node>, selector: StringMap, key: string, value: string, stop: nat) {
    forall i :: stop <= i < |nodes| && Selected(nodes[i], selector) ==> Get(nodes[i].labels, key) == value
  }

  predicate UnlabelCompletes(nodes: seq<Node>, selector: StringMap, key: string, stop: nat) {
    forall i :: stop <= i < |nodes| && Selected(nodes[i], selector) ==> key !in nodes[i].labels
  }

  datatype LabelOutcome = LabelFailed | NowReady | StillWaiting

  datatype LabelStep = LabelStep(nodes: seq<Node>, outcome: LabelOutcome)

  function ReconcileLabels(nodes: seq<Node>, store: Store, namespace: string, selector: StringMap, dp: DatapathSpec, o: Oracle): LabelStep {
    var key, value := ReadyLabelKey(dp), ReadyLabelValue(dp);
    if LabelNodeList in o.failing then LabelStep(nodes, LabelFailed)
    else if !AnySelected(nodes, selector) then LabelStep(nodes, StillWaiting)
    else if LabelPrepGet in o.failing then LabelStep(nodes, LabelFailed)
    else if PrepReady(store, namespace) then
      LabelStep(LabelUpTo(nodes, selector, key, value, o.labelStop),
                if LabelCompletes(nodes, selector, key, value, o.labelStop) then NowReady else LabelFailed)
    else
      LabelStep(UnlabelUpTo(nodes, selector, key, o.labelStop),
                if UnlabelCompletes(nodes, selector, key, o.labelStop) then StillWaiting else LabelFailed)
  }

  // ----- Properties -----

  /** Nodes keep their names; outside the selection nothing changes, inside it only the ready key may. */
  ghost predicate OnlyReadyKeyChanges(before: seq<Node>, after: seq<Node>, selector: StringMap, key: string) {
    && |after| == |before|
    && forall i :: 0 <= i < |before| ==>
      && after[i].name == before[i].name
      && (Selected(before[i], selector) || after[i] == before[i])
      && after[i].labels - {key} == before[i].labels - {key}
  }

  lemma LabelsFrame(nodes: seq<Node>, store: Store, namespace: string, selector: StringMap, dp: DatapathSpec, o: Oracle)
    ensures OnlyReadyKeyChanges(nodes, ReconcileLabels(nodes, store, namespace, selector, dp, o).nodes, selector, ReadyLabelKey(dp))
  {
  }

  lemma SelectionKept(before: Node, after: Node, selector: StringMap, key: string)
    requires key !in selector && after.labels - {key} == before.labels - {key}
    ensures Selected(after, selector) <==> Selected(before, selector)
  {
    forall k | k in selector
      ensures k in after.labels <==> k in before.labels
      ensures k in before.labels ==> after.labels[k] == before.labels[k]
    {
      assert k in after.labels - {key} <==> k in after.labels;
      assert k in before.labels - {key} <==> k in before.labels;
      assert k in before.labels ==> (after.labels - {key})[k] == (before.labels - {key})[k];
    }
  }

  /**
   The label step is all or nothing: if it ends without error, either every selected node
   carries the ready label and node-prep is ready, or none carries the key and node-prep is
   absent or not ready; the selected set does not change.
   */
  lemma LabelDichotomy(nodes: seq<Node>, store: Store, namespace: string, selector: StringMap, dp: DatapathSpec, o: Oracle)
    requires ReadyLabelKey(dp) !in selector && AnySelected(nodes, selector)
    requires !ReconcileLabels(nodes, store, namespace, selector, dp, o).outcome.LabelFailed?
    ensures var step := ReconcileLabels(nodes, store, namespace, selector, dp, o);
      && (forall i :: 0 <= i < |nodes| ==> (Selected(step.nodes[i], selector) <==> Selected(nodes[i], selector)))
      && (step.outcome.NowReady? <==> PrepReady(store, namespace))
      && (step.outcome.NowReady? ==> AllLabelled(step.nodes, selector, ReadyLabelKey(dp), ReadyLabelValue(dp)))
      && (step.outcome.StillWaiting? ==> NoneCarries(step.nodes, selector, ReadyLabelKey(dp)))
  {
    var step := ReconcileLabels(nodes, store, namespace, selector, dp, o);
    LabelsFrame(nodes, store, namespace, selector, dp, o);
    forall i | 0 <= i < |nodes|
      ensures Selected(step.nodes[i], selector) <==> Selected(nodes[i], selector)
    {
      SelectionKept(nodes[i], step.nodes[i], selector, ReadyLabelKey(dp));
    }
  }

  /** No label step that ends without error empties a selection. */
  ghost predicate KeepsSelection(selector: StringMap, dp: DatapathSpec) {
    forall nodes: seq<Node>, store: Store, namespace: string, o: Oracle ::
      var step := ReconcileLabels(nodes, store, namespace, selector, dp, o);
      AnySelected(nodes, selector) && !step.outcome.LabelFailed? ==> AnySelected(step.nodes, selector)
  }

  /** Label steps keep every selection exactly when the selector does not name the ready key. */
  lemma SelectionKeptExact(selector: StringMap, dp: DatapathSpec)
    ensures KeepsSelection(selector, dp) <==> ReadyLabelKey(dp) !in selector
  {
    if ReadyLabelKey(dp) !in selector {
      forall nodes: seq<Node>, store: Store, namespace: string, o: Oracle |
        AnySelected(nodes, selector) && !ReconcileLabels(nodes, store, namespace, selector, dp, o).outcome.LabelFailed?
        ensures AnySelected(ReconcileLabels(nodes, store, namespace, selector, dp, o).nodes, selector)
      {
        var after := ReconcileLabels(nodes, store, namespace, selector, dp, o).nodes;
        LabelDichotomy(nodes, store, namespace, selector, dp, o);
        var i :| 0 <= i < |nodes| && Selected(nodes[i], selector);
        assert Selected(after[i], selector);
      }
    } else {
      SelectionCanVanish(selector, dp);
    }
  }

  /** With the ready key in the selector, removing the label from a matching node leaves nothing selected. */
  lemma SelectionCanVanish(selector: StringMap, dp: DatapathSpec)
    requires ReadyLabelKey(dp) in selector
    ensures !KeepsSelection(selector, dp)
  {
    var nodes := [Node("n", selector)];
    var o := Oracle({}, "", seq(16, _ => 0), Never, {}, _ => true, _ => true, 1, _ => true, Never, 0, None);
    assert Selected(nodes[0], selector);
    var step := ReconcileLabels(nodes, map[], "ns", selector, dp, o);
    assert step.nodes[0].labels == selector - {ReadyLabelKey(dp)};
    assert !Selected(step.nodes[0], selector);
    assert AnySelected(nodes, selector) && !step.outcome.LabelFailed? && !AnySelected(step.nodes, selector);
  }

  /** After a completed removal no node that matches the selector carries the key. */
  lemma UnlabelPost(nodes: seq<Node>, selector: StringMap, key: string, stop: nat)
    requires UnlabelCompletes(nodes, selector, key, stop)
    ensures NoneCarries(UnlabelUpTo(nodes, selector, key, stop), selector, key)
  {
  }
}
