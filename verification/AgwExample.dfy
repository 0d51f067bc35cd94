/**
 A concrete gated gateway, with a volume and a registration Job, in which a pass reports Ready:
 the hypotheses of the convergence results can be met together.
 */
module AgwExample {
  import opened GoMaps
  import opened Objects
  import opened Rendering
  import opened Manifests
  import opened Agreement
  import opened NativeRelease
  import opened AgwModel
  import opened AgwIdentity
  import opened AgwDatapath
  import opened AgwTrust
  import opened AgwRegistration
  import opened AgwPass
  import opened AgwReady
  import opened AgwTrail
  import opened AgwFootprint
  import opened AgwFinalizer
  import opened AgwMeasure
  import opened AgwConvergence
  import opened AgwBounded

  const EXAMPLE_SPEC := Spec(
    "", "gw1", "net1", "", "", "", "",
    IdentitySpec("", "", "", "hw1", ""), RegistrationSpec(None, false, "", "", ""), DeletionPolicySpec(false, false),
    map["zone" := "a"], map[], false, "", "", map[], ValidationSpec(None, "", "", "", "", 0, 0),
    "", "", DatapathSpec(None, "ready", "yes", false, ""), map[])

  const EXAMPLE_AGW := Agw("agw1", "edge", 1, 1, false, {FINALIZER}, EXAMPLE_SPEC,
                           AgwStatus(0, "", "", "", "", "", false, "", "", map[]))

  function Plain(text: string): Option<string> {
    if text == "" then None else Some(text)
  }

  const PREP_DOCUMENT: seq<string> := SimpleDocument("DaemonSet", AGW_NODE_PREP)

  /** A manifest that lists node preparation. */
  const EXAMPLE_LINES: seq<string> := ["---"] + PREP_DOCUMENT

  /** Identity functions in place of the cryptography; every payload has the same text. */
  function ExampleOperator(): Operator {
    Operator(Manifest(EXAMPLE_LINES, _ => Content(map[], map[], map[], "")),
             Crypto(s => s, Plain, Plain, s => s, Plain, (p: Payload) => Some("payload")))
  }

  /** The Orc8r certificate Secret, the web Deployment, node preparation, a volume, and succeeded Jobs are there. */
  function ExampleObjects(): Store {
    map[Orc8rCertKey(EXAMPLE_SPEC) := BLANK.(data := map[ROOT_CA := "ca"]),
        MagmalteKey(EXAMPLE_SPEC) := BLANK.(data := map["image" := "nms"]),
        PrepKey("edge") := BLANK.(status := NO_STATUS.(desired := 1, ready := 1)),
        PvcKey(EXAMPLE_AGW) := BLANK,
        RootCAJobKey(EXAMPLE_AGW) := BLANK.(annotations := map[ROOT_CA_HASH := "ca"], status := NO_STATUS.(succeeded := 1)),
        RegistrationJobKey(EXAMPLE_AGW) := BLANK.(annotations := map[PAYLOAD_HASH := "payload"], status := NO_STATUS.(succeeded := 1))]
  }

  const EXAMPLE_NODES: seq<Node> := [Node("n1", map["zone" := "a", "ready" := "yes"])]

  function ExampleWorld(): World {
    World(Some(EXAMPLE_AGW), ExampleObjects(), EXAMPLE_NODES)
  }

  function ExampleOracle(): Oracle {
    Oracle({}, "key", seq(16, _ => 0), Never, {}, _ => true, _ => true, 1, _ => true, Never, 0, None)
  }

  // ----- The manifest -----

  lemma PrepTexts()
    ensures Unmarked("---") && Unmarked("DaemonSet") && Unmarked(AGW_NODE_PREP)
    ensures OneLineText("---") && OneLineText("DaemonSet") && OneLineText(AGW_NODE_PREP) && AGW_NODE_PREP != ""
  {
  }

  lemma ExampleTame(target: Target, values: StringMap)
    ensures Tame(EXAMPLE_LINES, target, values)
    ensures RenderLines(EXAMPLE_LINES, target, values) == EXAMPLE_LINES
  {
    hide Render, ValueFree, Unmarked;
    PrepTexts();
    UnmarkedText("---", target, values);
    SimpleRenders("DaemonSet", AGW_NODE_PREP, target, values);
    assert EXAMPLE_LINES[0] == "---" && EXAMPLE_LINES[1..] == PREP_DOCUMENT;
    forall i | 0 <= i < |EXAMPLE_LINES|
      ensures ValueFree(EXAMPLE_LINES[i]) && Render(EXAMPLE_LINES[i], target, values) == EXAMPLE_LINES[i]
    {
      assert i > 0 ==> EXAMPLE_LINES[i] == PREP_DOCUMENT[i - 1];
    }
  }

  lemma PrepIdentity(namespace: string)
    ensures Named(PREP_DOCUMENT) && DocKey(PREP_DOCUMENT, namespace) == PrepKey(namespace)
    ensures forall i :: 0 <= i < 3 ==> OneLineText(PREP_DOCUMENT[i]) && !IsSeparator(PREP_DOCUMENT[i])
  {
    PrepTexts();
    DaemonSetKind();
    SimpleLines("DaemonSet", AGW_NODE_PREP);
    SimpleIdentity("DaemonSet", AGW_NODE_PREP, namespace);
  }

  lemma DaemonSetKind()
    ensures KindOf("DaemonSet") == DaemonSet
  {
    assert |"DaemonSet"| == 9 && |"Secret"| == 6 && |"Service"| == 7 && |"Job"| == 3 && |"CronJob"| == 7 && |"Deployment"| == 10;
    assert "DaemonSet"[0] == 'D' && "ConfigMap"[0] == 'C' && "Namespace"[0] == 'N' && "PersistentVolumeClaim"[0] == 'P';
  }

  lemma ExampleDocuments(namespace: string)
    ensures AllLines(EXAMPLE_LINES) == EXAMPLE_LINES
    ensures Identities(Documents(EXAMPLE_LINES), namespace) == [PrepKey(namespace)]
  {
    hide Lines, Identities, Named, DocKey, IsSeparator;
    PrepTexts();
    PrepIdentity(namespace);
    assert '\n' !in "---";
    OneLineAll(EXAMPLE_LINES);
    OneDocument(PREP_DOCUMENT);
    assert [] + ["---"] + PREP_DOCUMENT == EXAMPLE_LINES;
    DocumentsCut([], PREP_DOCUMENT);
    assert Documents([]) == [[]];
    EmptyDocument(PREP_DOCUMENT, namespace);
  }

  lemma ExampleKeys(target: Target, values: StringMap)
    ensures ManifestKeys(EXAMPLE_LINES, target, values) == [PrepKey(target.namespace)]
  {
    hide Render, Lines, Documents, Identities, Named, DocKey;
    ExampleTame(target, values);
    ExampleDocuments(target.namespace);
    RenderedLines(EXAMPLE_LINES, target, values);
  }

  lemma EmptyDocument(doc: seq<string>, namespace: string)
    requires Named(doc)
    ensures Identities([[]] + [doc], namespace) == [DocKey(doc, namespace)]
  {
    var none: seq<string> := [];
    var docs := [none] + [doc];
    assert YamlLines(none) == none && KindText(none) == "";
    assert !Named(none);
    assert docs[0] == none && docs[1..] == [doc] && [doc][1..] == [];
    assert Identities([doc], namespace) == [DocKey(doc, namespace)] + Identities([], namespace);
  }

  lemma ExampleListing(values: StringMap, k: ObjectKey)
    ensures Lists(AgwObjects(EXAMPLE_AGW, values, ExampleOperator()), k) <==> k == PrepKey("edge")
  {
    var m, target := ExampleOperator().manifest, AgwTarget(EXAMPLE_AGW);
    ExampleKeys(target, values);
    KeysOfDecoded(Documents(Lines(Render(Join(m.lines), target, values))), target.namespace, m.decode);
    ListsKeys(AgwObjects(EXAMPLE_AGW, values, ExampleOperator()), k);
    hide Render, Lines, Documents, DecodeAll;
  }

  // ----- The hypotheses -----

  lemma ExampleNames()
    ensures IdentityKey(EXAMPLE_AGW) != CertKey(EXAMPLE_AGW)
    ensures Orc8rCertKey(EXAMPLE_SPEC) != IdentityKey(EXAMPLE_AGW) && Orc8rCertKey(EXAMPLE_SPEC) != CertKey(EXAMPLE_AGW)
    ensures ImportStable(EXAMPLE_AGW) && !Rotates(EXAMPLE_AGW)
  {
    assert |"agw-bootstrap-challenge-key"| == 27 && |"agw1" + "-secret-certs"| == 17;
    assert "magma"[0] != "edge"[0];
    assert |ToLower("")| == 0 && |ToLower("Rotate")| == 6;
  }

  lemma ExamplePosed()
    ensures WellPosed(ExampleOperator(), EXAMPLE_AGW)
  {
    hide CertKey, Rotates, ImportStable, NodeSelector, ReadyLabelKey, AgwObjects;
    ExampleNames();
    forall k: ObjectKey | !k.kind.DaemonSet?
      ensures OutsideManifest(ExampleOperator(), EXAMPLE_AGW, k)
    {
      ExampleListing(map[], k);
    }
    ExampleListing(map[], PrepKey("edge"));
    ExampleSelector();
  }

  lemma ExampleSelector()
    ensures NodeSelector(EXAMPLE_SPEC) == map["zone" := "a"] && ReadyLabelKey(EXAMPLE_SPEC.datapath) !in NodeSelector(EXAMPLE_SPEC)
    ensures NodeSelector(EXAMPLE_SPEC) != map[]
    ensures Selected(EXAMPLE_NODES[0], NodeSelector(EXAMPLE_SPEC)) && Get(EXAMPLE_NODES[0].labels, "ready") == "yes"
  {
    assert "zone" in NodeSelector(EXAMPLE_SPEC);
    assert "ready" != "zone" by { assert |"ready"| != |"zone"|; }
  }

  lemma ExampleProvided()
    ensures Provided(ExampleObjects(), EXAMPLE_NODES, EXAMPLE_AGW, ExampleOperator().crypto)
  {
    var s := ExampleObjects();
    assert IdentityKey(EXAMPLE_AGW) !in s by { ExampleNames(); }
    assert RootCA(s, EXAMPLE_SPEC) == "ca" && MagmalteImage(s, EXAMPLE_SPEC) == "nms" by { ExampleStored(); }
    ExampleSelector();
    assert AnySelected(EXAMPLE_NODES, NodeSelector(EXAMPLE_SPEC));
    hide RootCA, MagmalteImage, NodeSelector, AnySelected;
  }

  lemma ExampleStored()
    ensures RootCA(ExampleObjects(), EXAMPLE_SPEC) == "ca" && MagmalteImage(ExampleObjects(), EXAMPLE_SPEC) == "nms"
    ensures JobDone(ExampleObjects(), RootCAJobKey(EXAMPLE_AGW), ROOT_CA_HASH, "ca")
    ensures JobDone(ExampleObjects(), RegistrationJobKey(EXAMPLE_AGW), PAYLOAD_HASH, "payload")
    ensures PrepReady(ExampleObjects(), "edge")
  {
    assert RootCAJobKey(EXAMPLE_AGW) != RegistrationJobKey(EXAMPLE_AGW) by { assert "magma"[0] != "edge"[0]; }
  }

  lemma ExampleTrust()
    ensures TrustEvidence(ReconcileIdentity(ExampleObjects(), EXAMPLE_AGW, ExampleOperator().crypto, ExampleOracle()).store, EXAMPLE_AGW, ExampleOperator().crypto)
  {
    hide ReconcileIdentity, ExampleObjects, ExampleOracle, RootCA, ReleaseName;
    var s, crypto, o := ExampleObjects(), ExampleOperator().crypto, ExampleOracle();
    ExampleNames();
    ExampleStored();
    var found := ReconcileIdentity(s, EXAMPLE_AGW, crypto, o).store;
    IdentityTouches(s, EXAMPLE_AGW, crypto, o, RootCAJobKey(EXAMPLE_AGW));
    IdentityTouches(s, EXAMPLE_AGW, crypto, o, Orc8rCertKey(EXAMPLE_SPEC));
    SameCA(s, found, EXAMPLE_SPEC);
  }

  lemma SameCA(a: Store, b: Store, spec: Spec)
    requires Same(a, b, Orc8rCertKey(spec))
    ensures RootCA(a, spec) == RootCA(b, spec)
  {
  }

  lemma ExampleDatapath()
    ensures DatapathEvidence(ExampleObjects(), EXAMPLE_NODES, EXAMPLE_AGW) && SimulatorEvidence(ExampleObjects(), EXAMPLE_AGW)
  {
    hide ExampleObjects, PrepReady, NodeSelector;
    ExampleStored();
    ExampleSelector();
    assert AnySelected(EXAMPLE_NODES, NodeSelector(EXAMPLE_SPEC));
    assert AllLabelled(EXAMPLE_NODES, NodeSelector(EXAMPLE_SPEC), "ready", "yes");
  }

  lemma ExampleSmooth()
    ensures SmoothOracle(EXAMPLE_NODES, ExampleOperator(), ExampleOracle())
    ensures Live(ExampleWorld().cr, ExampleOracle()) == ExampleWorld().cr
  {
  }

  lemma ExampleTamePass()
    ensures TamePass(ExampleObjects(), EXAMPLE_AGW, ExampleOperator(), ExampleOracle())
  {
    hide ReconcileIdentity, Tame, ExampleObjects, ExampleOracle, PassFinal;
    forall v: StringMap
      ensures Tame(EXAMPLE_LINES, AgwTarget(EXAMPLE_AGW), v)
    {
      ExampleTame(AgwTarget(EXAMPLE_AGW), v);
    }
  }

  lemma ExampleEvidence()
    ensures exists id :: Evidence(ExampleWorld(), ExampleOperator(), ExampleOracle(), EXAMPLE_AGW, id)
  {
    hide WellPosed, Provided, ReconcileIdentity, TrustEvidence, DatapathEvidence, SimulatorEvidence;
    hide ExampleObjects, ExampleOracle, SmoothOracle, GatewayPayload, JobDone;
    var w, op, o := ExampleWorld(), ExampleOperator(), ExampleOracle();
    ExampleSmooth();
    ExamplePosed();
    ExampleProvided();
    ExampleTrust();
    ExampleStored();
    ExampleDatapath();
    var id, payload := SmoothPayload(Local(w.objects, w.nodes, EXAMPLE_AGW), op, o);
    assert Evidence(w, op, o, EXAMPLE_AGW, id);
  }

  /** Everything that the convergence results ask for holds here, and the pass reports Ready. */
  lemma ReadyIsPossible()
    ensures var w, op, o := ExampleWorld(), ExampleOperator(), ExampleOracle();
      && HasFinalizer(w) && WellPosed(op, w.cr.value) && Provided(w.objects, w.nodes, w.cr.value, op.crypto) && Smooth(w, op, o)
      && DatapathGateEnabled(w.cr.value.spec.datapath) && RegistrationEnabled(w.cr.value.spec.registration) && PvcKey(w.cr.value) in w.objects
      && ReadyNow(Pass(w, op, o).world)
  {
    hide Pass, WellPosed, Provided, Evidence, TamePass, Live;
    ExampleSmooth();
    ExamplePosed();
    ExampleProvided();
    ExampleTamePass();
    ExampleEvidence();
    PassReadyExact(ExampleWorld(), ExampleOperator(), ExampleOracle());
  }
}
