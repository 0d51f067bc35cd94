/**
 The AGW reconciler in the form the operator runs it: one object that updates the cluster and its
 own copy of the resource step by step, each step proved equal to the function that specifies it.
 */
module AgwReconciler {
  import opened GoMaps
  import opened Objects
  import opened Rendering
  import opened NativeRelease
  import opened NativeRunner
  import opened AgwModel
  import Identities = AgwIdentity
  import opened AgwDatapath
  import Trust = AgwTrust
  import Registration = AgwRegistration
  import opened AgwValues
  import Validation = AgwValidation
  import opened AgwPass
  import opened AgwRuns
  import HashedJob
  import HardwareId

  type Identity = Identities.Identity

  class Reconciler {
    const api: ApiServer<Agw>
    const op: Operator
    var agw: Agw              // the pass's own copy of the resource

    constructor (api: ApiServer<Agw>, op: Operator, agw: Agw)
      ensures this.api == api && this.op == op && this.agw == agw
    {
      this.api, this.op, this.agw := api, op, agw;
    }

    ghost function World(): AgwModel.World
      reads api
    {
      AgwModel.World(api.cr, api.objects, api.nodes)
    }

    ghost function Local(): AgwModel.Local
      reads this, api
    {
      AgwModel.Local(api.objects, api.nodes, agw)
    }

    method SetCondition(t: ConditionType, status: ConditionStatus, reason: Reason)
      modifies this`agw
      ensures agw == AgwModel.SetCondition(old(agw), t, status, reason)
    {
      var conditions := agw.status.conditions;
      conditions := conditions[t := Condition(status, reason, agw.generation)];
      agw := agw.(status := agw.status.(conditions := conditions));
    }

    // ----- Identity -----

    /** Fills in the identity Secret; fails when no usable key can be had. */
    method FillIdentitySecret(secret: Object, request: Identities.KeyRequest, o: Oracle) returns (updated: Option<Object>)
      requires !request.BadKey?
      ensures var chosen := Identities.ChosenKey(secret, agw, request);
        var key := OrDefault(chosen, o.newKey);
        updated ==
          if (chosen == "" && KeyGeneration in o.failing) || op.crypto.publicKey(key).None? then None
          else Some(Identities.WithIdentity(secret, agw, key, Identities.ChosenHardwareId(secret, agw, o.random), op.crypto.publicKey(key).value, op.crypto))
    {
      var labels, annotations, data := secret.labels, secret.annotations, secret.data;
      labels := labels[LABEL_MANAGED_BY := MANAGED_BY_OPERATOR];
      labels := labels[Identities.LABEL_IDENTITY := "agw"];
      var key := if request.WantedKey? then request.pem else "";
      if request.NoKey? || EqualFold(agw.spec.identity.rotationPolicy, "Rotate") {
        key := Get(data, Identities.KEY);
      }
      if key == "" {
        if KeyGeneration in o.failing {
          return None;
        }
        key := o.newKey;
      }
      var hardwareId := agw.spec.identity.hardwareID;
      if hardwareId == "" {
        hardwareId := Get(agw.spec.values, "gatewayIdentity.snowflake");
      }
      if hardwareId == "" {
        hardwareId := Get(data, Identities.HARDWARE);
      }
      if hardwareId == "" {
        hardwareId := HardwareId.Format(HardwareId.Masked(o.random));
      }
      var public := op.crypto.publicKey(key);
      if public.None? {
        return None;
      }
      var publicHash := op.crypto.sha(public.value);
      data := data[Identities.KEY := key];
      data := data[Identities.KEY_B64 := op.crypto.base64(key)];
      data := data[Identities.PUBLIC_B64 := public.value];
      data := data[Identities.PUBLIC_SHA := publicHash];
      data := data[Identities.HARDWARE := hardwareId];
      annotations := annotations[Identities.ANN_GATEWAY := agw.spec.accessGatewayID];
      annotations := annotations[Identities.ANN_HARDWARE := hardwareId];
      annotations := annotations[Identities.ANN_PUBLIC_SHA := publicHash];
      return Some(secret.(labels := labels, annotations := annotations, data := data));
    }

    /** The key that the import source or the user's values ask for. */
    method DesiredKey(o: Oracle) returns (request: Identities.KeyRequest)
      ensures request == Identities.DesiredPrivateKey(api.objects, agw, op.crypto, ImportGet in o.failing)
    {
      var source := agw.spec.identity.importSecretName;
      if source != "" {
        var entry := agw.spec.identity.importSecretKey;
        if entry == "" {
          entry := Identities.KEY;
        }
        var key := SecretKey(agw.namespace, source);
        if ImportGet in o.failing || key !in api.objects {
          return Identities.BadKey;
        }
        var value := Get(api.objects[key].data, entry);
        if value == "" {
          return Identities.BadKey;
        }
        return Identities.FromText(op.crypto.normalizeKey(value));
      }
      var encoded := Get(agw.spec.values, "config.gwChallenge");
      if encoded != "" {
        var value := op.crypto.unbase64(encoded);
        if value.None? {
          return Identities.BadKey;
        }
        return Identities.FromText(op.crypto.normalizeKey(value.value));
      }
      return Identities.NoKey;
    }

    method ReconcileIdentity(o: Oracle) returns (identity: Option<Identity>)
      modifies api`objects
      ensures Identities.IdentityStep(api.objects, identity) == Identities.ReconcileIdentity(old(api.objects), agw, op.crypto, o)
    {
      hide Identities.ChosenHardwareId, Identities.WithIdentity, Identities.DesiredPrivateKey, Identities.ReadIdentity;
      var request := DesiredKey(o);
      if request.BadKey? {
        return None;
      }
      var key := Identities.IdentityKey(agw);
      var secret := ObjectOrBlank(api.objects, key);
      var updated := FillIdentitySecret(secret, request, o);
      if updated.None? || IdentityWrite in o.failing {
        return None;
      }
      api.objects := api.objects[key := updated.value];
      if IdentityGet in o.failing {
        return None;
      }
      identity := Identities.ReadIdentity(api.objects[key], agw, op.crypto);
    }

    method IdentityStep(o: Oracle) returns (identity: Option<Identity>, write: Write)
      modifies this`agw, api`objects
      ensures var stage := IdentityStage(old(Local()), op.crypto, o);
        && Local() == stage.local && identity.Some? == stage.Go?
        && (stage.Go? ==> identity.value == stage.value) && (stage.Halt? ==> write == stage.write)
    {
      write := NotReady(IdentityReconcileFailed, TWO_MINUTES);
      identity := ReconcileIdentity(o);
      if identity.None? {
        SetCondition(ConditionType.IdentityReady, False, IdentityReconcileFailed);
      } else {
        UpdateDetails(identity.value, false);
        SetCondition(ConditionType.IdentityReady, True, Reason.IdentityReady);
      }
    }

    method UpdateDetails(id: Identity, registered: bool)
      modifies this`agw
      ensures agw == WithDetails(old(agw), id, registered)
    {
      var status := agw.status;
      status := status.(identitySecretName := id.secretName);
      status := status.(hardwareID := id.hardwareID);
      status := status.(challengePublicKeyHash := id.publicKeyHash);
      status := status.(gatewayRegistered := registered);
      agw := agw.(status := status);
    }

    // ----- Datapath -----

    /** Whether nodes are selected, all of them are labelled, and node-prep is ready. */
    method DatapathNodesReady(selector: StringMap, o: Oracle) returns (check: Check)
      ensures check == CheckNodes(api.nodes, api.objects, agw.namespace, selector, agw.spec.datapath, o.failing)
    {
      var key, value := ReadyLabelKey(agw.spec.datapath), ReadyLabelValue(agw.spec.datapath);
      if NodeList in o.failing {
        return CheckFailed;
      }
      var selected, labelled := false, true;
      for i := 0 to |api.nodes|
        invariant selected <==> exists j :: 0 <= j < i && Selected(api.nodes[j], selector)
        invariant labelled <==> forall j :: 0 <= j < i && Selected(api.nodes[j], selector) ==> Get(api.nodes[j].labels, key) == value
      {
        if Selected(api.nodes[i], selector) {
          selected := true;
          if Get(api.nodes[i].labels, key) != value {
            labelled := false;
          }
        }
      }
      if !selected || !labelled {
        return NotPrepared;
      }
      if PrepGet in o.failing {
        return CheckFailed;
      }
      if PrepKey(agw.namespace) !in api.objects {
        return NotPrepared;
      }
      var prep := api.objects[PrepKey(agw.namespace)].status;
      if prep.desired == 0 || prep.ready < prep.desired {
        return NotPrepared;
      }
      return Prepared;
    }

    method DatapathStep(o: Oracle) returns (go: bool, gate: Gate, write: Write)
      modifies this`agw
      ensures var stage := DatapathStage(old(Local()), o);
        && Local() == stage.local && go == stage.Go?
        && (stage.Go? ==> gate == stage.value) && (stage.Halt? ==> write == stage.write)
    {
      hide CheckNodes, NodeSelector;
      write := NotReady(DatapathReadinessCheckFailed, TWO_MINUTES);
      gate := Gate(false, true);
      if !DatapathGateEnabled(agw.spec.datapath) {
        return true, gate, write;
      }
      var selector := NodeSelector(agw.spec);
      if selector == map[] {
        return false, gate, NotReady(AGWNodeSelectorRequired, TWO_MINUTES);
      }
      var check := DatapathNodesReady(selector, o);
      if check == CheckFailed {
        SetCondition(ConditionType.DatapathReady, False, DatapathReadinessCheckFailed);
        return false, gate, write;
      }
      if check == Prepared {
        SetCondition(ConditionType.DatapathReady, True, Reason.DatapathReady);
      } else {
        SetCondition(ConditionType.DatapathReady, False, WaitingForDatapathReady);
      }
      return true, Gate(true, check == Prepared), write;
    }

    /** Labels the selected nodes one by one, up to the first patch that fails. */
    method LabelNodes(selector: StringMap, stop: nat) returns (ok: bool)
      modifies api`nodes
      ensures var key, value := ReadyLabelKey(agw.spec.datapath), ReadyLabelValue(agw.spec.datapath);
        && api.nodes == LabelUpTo(old(api.nodes), selector, key, value, stop)
        && ok == LabelCompletes(old(api.nodes), selector, key, value, stop)
    {
      var key, value := ReadyLabelKey(agw.spec.datapath), ReadyLabelValue(agw.spec.datapath);
      ghost var before := api.nodes;
      for i := 0 to |api.nodes|
        invariant |api.nodes| == |before|
        invariant api.nodes == LabelUpTo(before, selector, key, value, i)
        invariant forall j :: stop <= j < i && Selected(before[j], selector) ==> Get(before[j].labels, key) == value
      {
        var node := api.nodes[i];
        assert node == before[i];
        if Selected(node, selector) && Get(node.labels, key) != value {
          if i >= stop {
            LabelsStopped(before, selector, key, value, stop, i);
            return false;
          }
          api.nodes := api.nodes[i := node.(labels := node.labels[key := value])];
        }
        assert api.nodes == LabelUpTo(before, selector, key, value, i + 1);
      }
      LabelsStopped(before, selector, key, value, stop, |before|);
      return true;
    }

    /** Removes the ready key from the selected nodes one by one, up to the first patch that fails. */
    method UnlabelNodes(selector: StringMap, stop: nat) returns (ok: bool)
      modifies api`nodes
      ensures var key := ReadyLabelKey(agw.spec.datapath);
        && api.nodes == UnlabelUpTo(old(api.nodes), selector, key, stop)
        && ok == UnlabelCompletes(old(api.nodes), selector, key, stop)
    {
      var key := ReadyLabelKey(agw.spec.datapath);
      ghost var before := api.nodes;
      for i := 0 to |api.nodes|
        invariant |api.nodes| == |before|
        invariant api.nodes == UnlabelUpTo(before, selector, key, i)
        invariant forall j :: stop <= j < i && Selected(before[j], selector) ==> key !in before[j].labels
      {
        var node := api.nodes[i];
        assert node == before[i];
        if Selected(node, selector) && key in node.labels {
          if i >= stop {
            UnlabelsStopped(before, selector, key, stop, i);
            return false;
          }
          api.nodes := api.nodes[i := node.(labels := node.labels - {key})];
        } else if Selected(node, selector) {
          assert node.labels - {key} == node.labels;
        }
        assert api.nodes == UnlabelUpTo(before, selector, key, i + 1);
      }
      UnlabelsStopped(before, selector, key, stop, |before|);
      return true;
    }

    method ReconcileDatapathLabels(o: Oracle) returns (outcome: LabelOutcome)
      modifies api`nodes
      ensures LabelStep(api.nodes, outcome) ==
        ReconcileLabels(old(api.nodes), api.objects, agw.namespace, NodeSelector(agw.spec), agw.spec.datapath, o)
    {
      hide NodeSelector, LabelUpTo, UnlabelUpTo, LabelCompletes, UnlabelCompletes, ReadyLabelKey, ReadyLabelValue;
      var selector := NodeSelector(agw.spec);
      if LabelNodeList in o.failing {
        return LabelFailed;
      }
      if !AnySelected(api.nodes, selector) {
        return StillWaiting;
      }
      if LabelPrepGet in o.failing {
        return LabelFailed;
      }
      if !PrepReady(api.objects, agw.namespace) {
        var removed := UnlabelNodes(selector, o.labelStop);
        return if removed then StillWaiting else LabelFailed;
      }
      var labelled := LabelNodes(selector, o.labelStop);
      return if labelled then NowReady else LabelFailed;
    }

    method LabelingStep(gate: Gate, o: Oracle) returns (go: bool, write: Write)
      modifies api`nodes
      ensures var stage := LabelStage(old(Local()), gate, o);
        && Local() == stage.local && go == stage.Go? && (stage.Halt? ==> write == stage.write)
    {
      hide ReconcileLabels, NodeSelector;
      write := NotReady(DatapathLabelReconcileFailed, TWO_MINUTES);
      if !gate.enabled || gate.ready {
        return true, write;
      }
      var outcome := ReconcileDatapathLabels(o);
      if outcome == NowReady {
        write := NotReady(Reason.DatapathReady, 5);
      } else if outcome == StillWaiting {
        write := NotReady(WaitingForDatapathReady, TWO_MINUTES);
      }
      return false, write;
    }

    // ----- Trust bundle -----

    /** Creates or updates the certificate Secret: root CA in, older certificates out. */
    method SyncCertSecret(values: StringMap, rootCA: string)
      modifies api`objects
      ensures api.objects == Trust.SyncRootCA(old(api.objects), agw, values, rootCA, op.crypto)
    {
      var key := Trust.CertSecretKey(agw, values);
      var secret := ObjectOrBlank(api.objects, key);
      var data := secret.data;
      data := data[Trust.ROOT_CA := rootCA];
      data := data - {"gateway.crt"};
      data := data - {"gateway.key"};
      data := data - {"controller.crt"};
      data := data - {"controller.key"};
      assert data == secret.data[Trust.ROOT_CA := rootCA] - {"gateway.crt", "gateway.key", "controller.crt", "controller.key"};
      secret := secret.(labels := secret.labels[LABEL_MANAGED_BY := MANAGED_BY_OPERATOR],
                        annotations := secret.annotations[Trust.ROOT_CA_HASH := op.crypto.sha(rootCA)],
                        data := data);
      api.objects := api.objects[key := secret];
    }

    /** One visit to a hash-keyed Job. */
    method AdvanceJob(key: ObjectKey, annotation: string, hash: string, body: string, faults: HashedJob.Faults) returns (outcome: HashedJob.Outcome)
      modifies api`objects
      ensures HashedJob.Step(api.objects, outcome) == HashedJob.Advance(old(api.objects), key, annotation, hash, body, faults)
    {
      if faults.get {
        return HashedJob.ReadFailed;
      }
      if key in api.objects {
        var existing := api.objects[key];
        if Get(existing.annotations, annotation) != hash {
          if faults.delete {
            return HashedJob.DeleteFailed;
          }
          api.DeleteObject(key);
          return HashedJob.Replacing;
        }
        if existing.status.succeeded > 0 {
          return HashedJob.Credited;
        }
        if existing.status.failed > 0 {
          return HashedJob.Broken;
        }
        return HashedJob.Waiting;
      }
      if faults.create {
        return HashedJob.CreateFailed;
      }
      api.objects := api.objects[key := HashedJob.NewJob(annotation, hash, body)];
      return HashedJob.Created;
    }

    method ReconcileTrustBundle(values: StringMap, o: Oracle) returns (hash: string, verdict: Trust.Verdict)
      modifies api`objects
      ensures Trust.TrustStep(api.objects, hash, verdict) == Trust.ReconcileTrustBundle(old(api.objects), agw, values, op.crypto, o.failing)
    {
      hide HashedJob.Advance, Trust.SyncRootCA, Trust.CertSecretName, ReleaseName;
      var key := Trust.Orc8rCertKey(agw.spec);
      if Orc8rSecretGet in o.failing {
        return "", Trust.Failed(Orc8rCertSecretReadFailed);
      }
      if key !in api.objects {
        return "", Trust.NotSynced(WaitingForOrc8rCertSecret);
      }
      var rootCA := Get(api.objects[key].data, Trust.ROOT_CA);
      if rootCA == "" {
        return "", Trust.NotSynced(Orc8rRootCAMissing);
      }
      hash := op.crypto.sha(rootCA);
      if CertSecretWrite in o.failing {
        return hash, Trust.Failed(AGWCertSecretSyncFailed);
      }
      SyncCertSecret(values, rootCA);
      if PvcGet in o.failing {
        return hash, Trust.Failed(AGWPVCReadFailed);
      }
      if Trust.PvcKey(agw) !in api.objects {
        return hash, Trust.Synced;
      }
      var outcome := AdvanceJob(Trust.RootCAJobKey(agw), Trust.ROOT_CA_HASH, hash, Trust.CertSecretName(ReleaseName(agw), values), Trust.JobFaults(o.failing));
      return hash, Trust.JobVerdict(outcome);
    }

    method UpdateLifecycle(ip: string, hash: string)
      modifies this`agw
      ensures agw == WithLifecycle(old(agw), ip, hash)
    {
      agw := agw.(status := agw.status.(orc8rServiceIP := ip));
      agw := agw.(status := agw.status.(trustBundleHash := hash));
    }

    /** Looks up the Orc8r service and puts its address into the values. */
    method ReconcileHostAlias(before: StringMap, o: Oracle) returns (alias: Trust.Alias, values: StringMap)
      ensures alias == Trust.HostAlias(api.objects, agw.spec, before, o.failing)
      ensures values == Trust.WithAlias(before, alias)
    {
      values := before;
      if Get(values, "orc8r.hostAliases.enabled") == "false" {
        return Trust.NoAlias, values;
      }
      var name := agw.spec.nmsAPIHost;
      if name == "" {
        name := Orc8rReleaseName(agw.spec) + "-nginx-proxy";
      }
      var key := ObjectKey(Service, AgwModel.Orc8rNamespace(agw.spec), name);
      if ServiceGet in o.failing {
        return Trust.AliasFailed, values;
      }
      if key !in api.objects {
        return Trust.NoAlias, values;
      }
      var ip := Get(api.objects[key].data, "clusterIP");
      if ip == "" || ip == "None" {
        return Trust.NoAlias, values;
      }
      values := values["orc8r.hostAliases.enabled" := "true"];
      values := values["orc8r.hostAliases.ip" := ip];
      return Trust.Alias(ip), values;
    }

    method TrustingStep(values: StringMap, o: Oracle) returns (go: bool, alias: Trust.Alias, write: Write)
      modifies this`agw, api`objects
      ensures var stage := TrustStage(old(Local()), values, op.crypto, o);
        && Local() == stage.local && go == stage.Go?
        && (stage.Go? ==> alias == stage.value) && (stage.Halt? ==> write == stage.write)
    {
      hide Trust.ReconcileTrustBundle, Trust.HostAlias;
      var aliased;
      alias, aliased := ReconcileHostAlias(values, o);
      write := NotReady(Orc8rServiceDiscoveryFailed, TWO_MINUTES);
      if alias.AliasFailed? {
        UpdateLifecycle("", "");
        SetCondition(ConditionType.TrustBundleSynced, False, Orc8rServiceDiscoveryFailed);
        return false, alias, write;
      }
      var hash, verdict := ReconcileTrustBundle(aliased, o);
      UpdateLifecycle(if alias.Alias? then alias.ip else "", hash);
      match verdict {
        case Failed(reason) =>
          SetCondition(ConditionType.TrustBundleSynced, False, reason);
          return false, alias, NotReady(reason, TWO_MINUTES);
        case NotSynced(reason) =>
          SetCondition(ConditionType.TrustBundleSynced, False, reason);
          return false, alias, NotReady(reason, 20);
        case Synced =>
          SetCondition(ConditionType.TrustBundleSynced, True, Reason.TrustBundleSynced);
          return true, alias, write;
      }
    }

    // ----- Registration -----

    method ReconcileRegistration(id: Identity, o: Oracle) returns (verdict: Registration.RegistrationVerdict)
      modifies api`objects
      ensures Registration.RegistrationStep(api.objects, verdict) == Registration.ReconcileRegistration(old(api.objects), agw, id, op.crypto, o.failing)
    {
      hide HashedJob.Advance, Identities.GatewayPayload, Registration.MagmalteImage;
      if !RegistrationEnabled(agw.spec.registration) {
        return Registration.Disabled;
      }
      if agw.spec.networkID == "" {
        return Registration.RegistrationFailed(NetworkIDRequired);
      }
      if agw.spec.accessGatewayID == "" {
        return Registration.RegistrationFailed(AccessGatewayIDRequired);
      }
      if NmsSecretGet in o.failing {
        return Registration.RegistrationFailed(NMSCertSecretReadFailed);
      }
      if Trust.Orc8rCertKey(agw.spec) !in api.objects {
        return Registration.NotRegistered(WaitingForNMSCertSecret);
      }
      if MagmalteGet in o.failing {
        return Registration.RegistrationFailed(MagmalteReadFailed);
      }
      if Registration.MagmalteKey(agw.spec) !in api.objects {
        return Registration.NotRegistered(WaitingForMagmalte);
      }
      if Registration.MagmalteImage(api.objects, agw.spec) == "" {
        return Registration.NotRegistered(MagmalteImageUnavailable);
      }
      var payload := op.crypto.json(Identities.GatewayPayload(agw, id));
      if payload.None? {
        return Registration.RegistrationFailed(GatewayPayloadInvalid);
      }
      var outcome := AdvanceJob(Registration.RegistrationJobKey(agw), Registration.PAYLOAD_HASH, op.crypto.sha(payload.value), payload.value,
                                Registration.RegistrationFaults(o.failing));
      return Registration.RegistrationVerdictOf(outcome);
    }

    method RegisteringStep(id: Identity, o: Oracle) returns (go: bool, registered: bool, write: Write)
      modifies this`agw, api`objects
      ensures var stage := RegistrationStage(old(Local()), id, op.crypto, o);
        && Local() == stage.local && go == stage.Go?
        && (stage.Go? ==> registered == stage.value) && (stage.Halt? ==> write == stage.write)
    {
      hide Registration.ReconcileRegistration;
      registered := false;
      write := NotReady(GatewayRegistrationDisabled, TWO_MINUTES);
      var verdict := ReconcileRegistration(id, o);
      if verdict.RegistrationFailed? {
        SetCondition(ConditionType.GatewayRegistered, False, verdict.reason);
        return false, false, NotReady(verdict.reason, TWO_MINUTES);
      }
      registered := verdict.Registered?;
      UpdateDetails(id, registered);
      if verdict.NotRegistered? {
        SetCondition(ConditionType.GatewayRegistered, False, verdict.reason);
        return false, registered, NotReady(verdict.reason, 20);
      }
      if registered {
        SetCondition(ConditionType.GatewayRegistered, True, Reason.GatewayRegistered);
      } else {
        SetCondition(ConditionType.GatewayRegistered, False, GatewayRegistrationDisabled);
      }
      return true, registered, write;
    }

    method ReconcileDeregistration(o: Oracle) returns (verdict: Registration.DeregistrationVerdict)
      modifies api`objects
      ensures Registration.DeregistrationStep(api.objects, verdict) == Registration.ReconcileDeregistration(old(api.objects), agw, o.failing)
    {
      hide Registration.MagmalteImage;
      if !agw.spec.registration.deleteOnRemoval || !RegistrationEnabled(agw.spec.registration) {
        return Registration.Deregistered;
      }
      if agw.spec.networkID == "" || agw.spec.accessGatewayID == "" || NmsSecretGet in o.failing {
        return Registration.DeregistrationFailed;
      }
      if Trust.Orc8rCertKey(agw.spec) !in api.objects {
        return Registration.NotDeregistered;
      }
      if MagmalteGet in o.failing {
        return Registration.DeregistrationFailed;
      }
      if Registration.MagmalteKey(agw.spec) !in api.objects || Registration.MagmalteImage(api.objects, agw.spec) == "" {
        return Registration.NotDeregistered;
      }
      var key := Registration.DeregistrationJobKey(agw);
      if DeregistrationJobGet in o.failing {
        return Registration.DeregistrationFailed;
      }
      if key in api.objects {
        var existing := api.objects[key];
        if existing.status.succeeded > 0 {
          return Registration.Deregistered;
        }
        return if existing.status.failed > 0 then Registration.DeregistrationFailed else Registration.NotDeregistered;
      }
      if DeregistrationJobCreate in o.failing {
        return Registration.DeregistrationFailed;
      }
      api.objects := api.objects[key := BLANK];
      return Registration.NotDeregistered;
    }

    // ----- Simulator gate, native apply, rollout -----

    /** Whether the readiness ConfigMap says so; a missing one says no. */
    method StartGateReady() returns (ready: bool)
      ensures ready == GateOpen(api.objects, agw)
    {
      var name := agw.spec.ueransimReadyConfigMap;
      if name == "" {
        name := ReleaseName(agw) + "-ueransim-ready";
      }
      var key := ObjectKey(ConfigMap, agw.namespace, name);
      if key !in api.objects {
        return false;
      }
      return EqualFold(Get(api.objects[key].data, "ready"), "true");
    }

    method SimulatorStep(o: Oracle) returns (go: bool, simulator: Simulator, write: Write)
      ensures var stage := SimulatorStage(Local(), o);
        && Local() == stage.local && go == stage.Go?
        && (stage.Go? ==> simulator == stage.value) && (stage.Halt? ==> write == stage.write)
    {
      hide GateOpen;
      simulator := Off;
      write := NotReady(UERANSIMGateReadFailed, TWO_MINUTES);
      if agw.spec.enableUERANSIM {
        var policy := StartPolicy(agw.spec);
        if policy == "Immediate" {
          simulator := On;
        } else if policy == "AfterAGWReady" {
          if GateGet in o.failing {
            return false, simulator, write;
          }
          var open := StartGateReady();
          simulator := if open then On else Simulator.Pending;
        } else {
          return false, simulator, NotReady(InvalidUERANSIMStartPolicy, TWO_MINUTES);
        }
      }
      return true, simulator, write;
    }

    /** Annotates the listed Deployments one by one, as long as patches are served. */
    method AnnotateEach(targets: set<ObjectKey>, hash: string, o: Oracle) returns (ok: bool)
      requires targets <= api.objects.Keys
      modifies api`objects
      ensures api.objects == AnnotateAll(old(api.objects), Served(targets, o.annotated), hash)
      ensures ok == (Served(targets, o.annotated) == targets)
    {
      hide AnnotateAll, Annotate, Served, Progress;
      ghost var before := api.objects;
      AnnotateNone(before, hash);
      var todo, done: set<ObjectKey> := targets, {};
      AllToDo(targets, o.annotated);
      while exists k :: k in todo && o.annotated(k)
        invariant Progress(targets, todo, done, o.annotated)
        invariant api.objects == AnnotateAll(before, done, hash)
        decreases |todo|
      {
        var k :| k in todo && o.annotated(k);
        OneMore(targets, todo, done, o.annotated, k);
        AnnotateOneMore(before, done, hash, k);
        api.objects := api.objects[k := Annotate(api.objects[k], hash)];
        todo, done := todo - {k}, done + {k};
      }
      NoneLeft(targets, todo, done, o.annotated);
      return todo == {};
    }

    /** Puts the root CA hash on the pod templates of the core Deployments that lack it. */
    method AnnotateForRootCA(hash: string, o: Oracle) returns (ok: bool)
      modifies api`objects
      ensures var targets := if hash == "" then {} else Unannotated(old(api.objects), agw, hash);
        if hash != "" && DeploymentList in o.failing then !ok && api.objects == old(api.objects)
        else api.objects == AnnotateAll(old(api.objects), Served(targets, o.annotated), hash) && ok == (Served(targets, o.annotated) == targets)
    {
      hide AnnotateAll, Unannotated;
      if hash == "" {
        AnnotateNone(api.objects, hash);
        assert Served({}, o.annotated) == {};
        return true;
      }
      if DeploymentList in o.failing {
        return false;
      }
      UnannotatedExist(api.objects, agw, hash);
      ok := AnnotateEach(Unannotated(api.objects, agw, hash), hash, o);
    }

    /** Deletes pods that no longer fit their node, one by one, as long as deletions are served. */
    method CleanupStalePods(o: Oracle) returns (ok: bool)
      modifies api`objects
      ensures var stale := StalePods(old(api.objects), agw);
        if PodList in o.failing then !ok && api.objects == old(api.objects)
        else api.objects == old(api.objects) - Served(stale, o.podsDeleted) && ok == (Served(stale, o.podsDeleted) == stale)
    {
      if PodList in o.failing {
        return false;
      }
      var stale := StalePods(api.objects, agw);
      hide StalePods;
      var todo := stale;
      while exists k :: k in todo && o.podsDeleted(k)
        invariant todo <= stale && (forall k :: k in stale && k !in todo ==> o.podsDeleted(k))
        invariant api.objects == old(api.objects) - (stale - todo)
        decreases |todo|
      {
        var k :| k in todo && o.podsDeleted(k);
        api.DeleteObject(k);
        todo := todo - {k};
      }
      assert stale - todo == Served(stale, o.podsDeleted);
      return todo == {};
    }

    method RolloutStep(o: Oracle) returns (go: bool, write: Write)
      modifies api`objects
      ensures var stage := RolloutStage(old(Local()), o);
        && Local() == stage.local && go == stage.Go? && (stage.Halt? ==> write == stage.write)
    {
      hide Unannotated, AnnotateAll, StalePods, Served;
      write := NotReady(RootCARolloutAnnotationFailed, TWO_MINUTES);
      go := AnnotateForRootCA(agw.status.trustBundleHash, o);
      if go {
        write := NotReady(StalePodCleanupFailed, TWO_MINUTES);
        go := CleanupStalePods(o);
      }
    }

    method ApplyStep(values: StringMap, simulator: Simulator, o: Oracle) returns (go: bool, write: Write)
      modifies this`agw, api`objects
      ensures var stage := ApplyStage(old(Local()), AgwObjects(old(agw), values, op), simulator, o);
        && Local() == stage.local && go == stage.Go? && (stage.Halt? ==> write == stage.write)
    {
      hide RolloutStage, ReleaseObjects, ApplyUpTo, Handled;
      ghost var before := Local();
      agw := RemoveCondition(agw, ConditionType.UERANSIMReady);
      write := NotReady(NativeReconcileFailed, TWO_MINUTES);
      go := api.ReconcileNativeRelease(op.manifest, Target(ReleaseName(agw), agw.namespace), values, SimulatorFilter(simulator), o.applyStop, o.immutable);
      assert Target(ReleaseName(agw), agw.namespace) == AgwTarget(before.agw);
      if go {
        go, write := RolloutStep(o);
      }
    }

    // ----- Validation -----

    /** Rolls the listed Deployments out one by one, as long as patches are served. */
    method RollOutEach(unrolled: set<ObjectKey>, hash: string, o: Oracle) returns (ok: bool)
      requires unrolled <= api.objects.Keys
      modifies api`objects
      ensures ok == (Served(unrolled, o.rolledOut) == unrolled)
      ensures api.objects == Validation.RollOutAll(old(api.objects), Served(unrolled, o.rolledOut), hash)
    {
      hide Validation.RollOutAll, Validation.RollOut, Served, Progress;
      ghost var before := api.objects;
      NothingRolledOut(before, hash);
      var todo, done: set<ObjectKey> := unrolled, {};
      AllToDo(unrolled, o.rolledOut);
      while exists k :: k in todo && o.rolledOut(k)
        invariant Progress(unrolled, todo, done, o.rolledOut)
        invariant api.objects == Validation.RollOutAll(before, done, hash)
        decreases |todo|
      {
        var k :| k in todo && o.rolledOut(k);
        OneMore(unrolled, todo, done, o.rolledOut, k);
        RollOutOneMore(before, done, hash, k);
        api.objects := api.objects[k := Validation.RollOut(api.objects[k], hash)];
        todo, done := todo - {k}, done + {k};
      }
      NoneLeft(unrolled, todo, done, o.rolledOut);
      ok := todo == {};
    }

    method StartValidation(hash: string, o: Oracle) returns (verdict: Validation.ValidationVerdict)
      modifies api`objects
      ensures Validation.ValidationStep(api.objects, verdict) == Validation.StartValidation(old(api.objects), agw, hash, o)
    {
      hide Validation.DeploymentReady, Validation.HasUePod, Validation.RollOutAll, Served, ReleaseName, HashedJob.NewJob;
      var gnb, ue := Validation.GnbKey(agw), Validation.UeKey(agw);
      if RolloutList in o.failing {
        return Validation.ValidationError;
      }
      var found := Validation.Listed(api.objects, agw, gnb) && Validation.Listed(api.objects, agw, ue);
      ghost var before := api.objects;
      var unrolled := Validation.Unrolled(api.objects, agw, hash);
      var ok := RollOutEach(unrolled, hash, o);
      if !ok {
        return Validation.ValidationError;
      }
      if !found || unrolled != {} {
        return Validation.Pending;
      }
      assert api.objects == before by { NothingRolledOut(before, hash); }
      if ReadinessList in o.failing {
        return Validation.ValidationError;
      }
      if !Validation.DeploymentReady(api.objects[gnb]) || !Validation.DeploymentReady(api.objects[ue]) {
        return Validation.Pending;
      }
      if UePodList in o.failing {
        return Validation.ValidationError;
      }
      if !Validation.HasUePod(api.objects, agw) {
        return Validation.Pending;
      }
      if ValidationJobCreate in o.failing {
        return Validation.ValidationError;
      }
      api.objects := api.objects[Validation.ValidationJobKey(agw) := HashedJob.NewJob(Validation.VALIDATION_HASH, hash, "validate")];
      return Validation.Pending;
    }

    /** Creates or completes the three objects, up to the first request that fails. */
    method ReconcileValidationRbac(o: Oracle) returns (ok: bool)
      modifies api`objects
      ensures Validation.RbacStep(api.objects, ok) == Validation.ReconcileRbac(old(api.objects), agw.namespace, o.failing)
    {
      var account, role, binding := Validation.AccountKey(agw.namespace), Validation.RoleKey(agw.namespace), Validation.BindingKey(agw.namespace);
      if ValidationAccountWrite in o.failing {
        return false;
      }
      var found := ObjectOrBlank(api.objects, account);
      var labels := found.labels;
      labels := labels[LABEL_MANAGED_BY := MANAGED_BY_OPERATOR];
      labels := labels[LABEL_COMPONENT := Validation.VALIDATION_COMPONENT];
      api.objects := api.objects[account := found.(labels := labels)];
      if ValidationRoleWrite in o.failing {
        return false;
      }
      api.objects := api.objects[role := ObjectOrBlank(api.objects, role).(body := "role")];
      if ValidationBindingWrite in o.failing {
        return false;
      }
      api.objects := api.objects[binding := ObjectOrBlank(api.objects, binding).(body := "binding")];
      return true;
    }

    method ReconcileValidation(o: Oracle) returns (verdict: Validation.ValidationVerdict)
      modifies api`objects
      ensures Validation.ValidationStep(api.objects, verdict) == Validation.ReconcileValidation(old(api.objects), agw, op.crypto, o)
    {
      hide Validation.StartValidation, Validation.ValidationHashOf, Validation.ReconcileRbac, ReleaseName;
      if !ValidationEnabled(agw.spec.validation) {
        return Validation.Disabled;
      }
      if !agw.spec.enableUERANSIM {
        return Validation.Skipped;
      }
      var allowed := ReconcileValidationRbac(o);
      if !allowed || ValidationJobGet in o.failing {
        return Validation.ValidationError;
      }
      var key, hash := Validation.ValidationJobKey(agw), Validation.ValidationHashOf(agw, op.crypto);
      if key in api.objects {
        var existing := api.objects[key];
        if Get(existing.annotations, Validation.VALIDATION_HASH) != hash {
          if ValidationJobDelete in o.failing {
            return Validation.ValidationError;
          }
          api.DeleteObject(key);
          return Validation.Pending;
        }
        if existing.status.succeeded > 0 {
          return Validation.Passed;
        }
        return if existing.status.failed > 0 then Validation.RunFailed else Validation.Pending;
      }
      verdict := StartValidation(hash, o);
    }

    method FinishStep(simulator: Simulator, o: Oracle) returns (write: Write)
      modifies this`agw, api`objects
      ensures Outcome(Local(), write) == FinishStage(old(Local()), simulator, op.crypto, o)
    {
      hide Validation.ReconcileValidation;
      if simulator == Simulator.Pending {
        return NotReady(WaitingForUERANSIMGate, TWO_MINUTES);
      }
      var verdict := ReconcileValidation(o);
      agw := WithValidation(agw, verdict);
      return Write(True, NativeResourcesReady, if ValidationDone(verdict) then None else Some(15));
    }

    // ----- Writing the resource -----

    method UpdateStatus(live: Option<Agw>, write: Write, o: Oracle) returns (result: Result)
      modifies this`agw, api`cr
      ensures Commit(api.cr, result) == CommitStatus(live, old(agw), write, o.failing)
    {
      ghost var before := agw;
      agw := agw.(status := agw.status.(observedGeneration := agw.generation, releaseName := ReleaseName(agw), releaseNamespace := agw.namespace));
      SetCondition(ConditionType.Ready, write.status, write.reason);
      assert agw.status == FinalStatus(before, write);
      api.cr := live;
      if StatusUpdate in o.failing || live.None? {
        return ERROR;
      }
      if live.value.resourceVersion != agw.resourceVersion {
        return Again(5);
      }
      api.cr := Some(live.value.(status := agw.status, resourceVersion := live.value.resourceVersion + 1));
      return Result(false, write.requeueAfter);
    }

    // ----- The flow -----

    method ApplyAndFinish(gate: Gate, simulator: Simulator, values: StringMap, o: Oracle) returns (write: Write)
      modifies this`agw, api`objects, api`nodes
      ensures Outcome(Local(), write) == ApplyFlow(old(Local()), gate, simulator, AgwObjects(old(agw), values, op), op.crypto, o)
    {
      hide ApplyStage, LabelStage, FinishStage, AgwObjects;
      var go;
      go, write := ApplyStep(values, simulator, o);
      if !go {
        return;
      }
      go, write := LabelingStep(gate, o);
      if !go {
        return;
      }
      write := FinishStep(simulator, o);
    }

    method TrustOnward(id: Identity, gate: Gate, o: Oracle) returns (write: Write)
      modifies this`agw, api`objects, api`nodes
      ensures Outcome(Local(), write) == TrustFlow(old(Local()), id, gate, op, o)
    {
      hide TrustStage, RegistrationStage, SimulatorStage, ApplyFlow, AgwObjects, PassValues;
      ghost var first := Local();
      var values := BuildValues(agw, id);
      var go, alias, registered, simulator;
      go, alias, write := TrustingStep(values, o);
      TrustKeepsResource(first, values, op.crypto, o);
      if !go {
        return;
      }
      ghost var second := Local();
      go, registered, write := RegisteringStep(id, o);
      RegistrationKeepsResource(second, id, op.crypto, o);
      if !go {
        return;
      }
      go, simulator, write := SimulatorStep(o);
      if !go {
        return;
      }
      values := Trust.WithAlias(values, alias);
      values := values["simulator.enabled" := if simulator == On then "true" else "false"];
      SameObjects(first.agw, agw, values, op);
      write := ApplyAndFinish(gate, simulator, values, o);
    }

    method MainSteps(o: Oracle) returns (write: Write)
      modifies this`agw, api`objects, api`nodes
      ensures Outcome(Local(), write) == MainFlow(old(Local()), op, o)
    {
      hide IdentityStage, DatapathStage, TrustFlow;
      var identity, go, gate;
      identity, write := IdentityStep(o);
      if identity.None? {
        return;
      }
      go, gate, write := DatapathStep(o);
      if !go {
        return;
      }
      write := TrustOnward(identity.value, gate, o);
    }

    // ----- Deletion -----

    method RetryDeletion(live: Option<Agw>, reason: Reason, seconds: nat, o: Oracle) returns (result: Result)
      modifies this`agw, api`cr
      ensures Commit(api.cr, result) == DeletionRetry(live, old(agw), reason, o.failing, seconds)
    {
      hide CommitStatus;
      result := UpdateStatus(live, NotReady(reason, TWO_MINUTES), o);
      if !result.error {
        result := Again(seconds);
      }
    }

    /** Deletes the volume claim and the identity Secret if the deletion policy says so. */
    method CleanupDurableState(o: Oracle) returns (ok: bool)
      modifies api`objects
      ensures Cleanup(api.objects, ok) == CleanupDurable(old(api.objects), agw, o.failing)
    {
      if agw.spec.deletionPolicy.deletePVC {
        if PvcDelete in o.failing {
          return false;
        }
        api.DeleteObject(Trust.PvcKey(agw));
      }
      if agw.spec.deletionPolicy.deleteIdentitySecret {
        if IdentityDelete in o.failing {
          return false;
        }
        api.DeleteObject(Identities.IdentityKey(agw));
      }
      return true;
    }

    method CleanupAfterDeletion(live: Option<Agw>, o: Oracle) returns (result: Result)
      modifies api
      ensures PassResult(World(), result) == DeletionCleanup(old(api.objects), old(api.nodes), agw, live, o)
    {
      hide UnlabelUpTo, UnlabelCompletes, CleanupDurable, NodeSelector;
      api.cr := live;
      var selector := NodeSelector(agw.spec);
      if selector != map[] {
        if CleanupNodeList in o.failing {
          return ERROR;
        }
        var removed := UnlabelNodes(selector, o.unlabelStop);
        if !removed {
          return ERROR;
        }
      }
      var clean := CleanupDurableState(o);
      if !clean || FinalizerPatch in o.failing || live.None? {
        return ERROR;
      }
      var left := agw.finalizers - {FINALIZER};
      if left == {} && live.value.deleting {
        api.cr := None;
      } else {
        api.cr := Some(live.value.(finalizers := left, resourceVersion := live.value.resourceVersion + 1));
      }
      return DONE;
    }

    method ReconcileDeletion(live: Option<Agw>, o: Oracle) returns (result: Result)
      modifies this`agw, api
      ensures PassResult(World(), result) == DeletionPass(old(World()), old(agw), live, op, o)
    {
      hide DeletionRetry, DeletionCleanup, Registration.ReconcileDeregistration, ReleaseObjects, Delete, Handled;
      ghost var before := agw;
      var verdict := ReconcileDeregistration(o);
      if verdict.DeregistrationFailed? {
        result := RetryDeletion(live, GatewayDeregistrationBlocked, 30, o);
        return;
      }
      if verdict.NotDeregistered? {
        result := RetryDeletion(live, GatewayDeregistrationPending, 20, o);
        return;
      }
      var deleted := api.DeleteNativeRelease(op.manifest, Target(ReleaseName(agw), agw.namespace), o.deleteStop);
      assert AgwTarget(before) == Target(ReleaseName(agw), agw.namespace);
      if !deleted {
        result := RetryDeletion(live, NativeDeleteFailed, 30, o);
        return;
      }
      result := CleanupAfterDeletion(live, o);
    }

    // ----- The pass -----

    /** One reconcile pass. */
    method Reconcile(o: Oracle) returns (result: Result)
      modifies this`agw, api
      ensures PassResult(World(), result) == Pass(old(World()), op, o)
    {
      hide MainFlow, DeletionPass, CommitStatus;
      if ResourceGet in o.failing {
        api.cr := Live(api.cr, o);
        return ERROR;
      }
      if api.cr.None? {
        return DONE;
      }
      agw := api.cr.value;
      var live := Live(api.cr, o);
      if agw.deleting {
        if FINALIZER !in agw.finalizers {
          api.cr := live;
          return DONE;
        }
        result := ReconcileDeletion(live, o);
        return;
      }
      if FINALIZER !in agw.finalizers {
        api.cr := live;
        if FinalizerPatch in o.failing || live.None? || live.value.deleting {
          return ERROR;
        }
        api.cr := Some(live.value.(finalizers := agw.finalizers + {FINALIZER}, resourceVersion := live.value.resourceVersion + 1));
        return Again(0);
      }
      var write := MainSteps(o);
      result := UpdateStatus(live, write, o);
    }
  }

  /** Nothing between the stop and the first failing node needed a patch. */
  lemma LabelsStopped(nodes: seq<Node>, selector: StringMap, key: string, value: string, stop: nat, i: nat)
    requires stop <= i <= |nodes| || i == |nodes|
    requires forall j :: stop <= j < i && Selected(nodes[j], selector) ==> Get(nodes[j].labels, key) == value
    ensures LabelUpTo(nodes, selector, key, value, i) == LabelUpTo(nodes, selector, key, value, stop)
  {
  }

  lemma UnlabelsStopped(nodes: seq<Node>, selector: StringMap, key: string, stop: nat, i: nat)
    requires stop <= i <= |nodes| || i == |nodes|
    requires forall j :: stop <= j < i && Selected(nodes[j], selector) ==> key !in nodes[j].labels
    ensures UnlabelUpTo(nodes, selector, key, i) == UnlabelUpTo(nodes, selector, key, stop)
  {
    forall j | 0 <= j < |nodes|
      ensures UnlabelUpTo(nodes, selector, key, i)[j] == UnlabelUpTo(nodes, selector, key, stop)[j]
    {
      if stop <= j < i && Selected(nodes[j], selector) {
        assert nodes[j].labels - {key} == nodes[j].labels;
      }
    }
  }

  lemma NothingRolledOut(store: Store, hash: string)
    ensures Validation.RollOutAll(store, {}, hash) == store
  {
  }

  lemma SameObjects(a: Agw, b: Agw, values: StringMap, op: Operator)
    requires SameResource(a, b)
    ensures AgwObjects(a, values, op) == AgwObjects(b, values, op)
  {
  }

  lemma AnnotateNone(store: Store, hash: string)
    ensures AnnotateAll(store, {}, hash) == store
  {
  }

  lemma AnnotateOneMore(store: Store, done: set<ObjectKey>, hash: string, k: ObjectKey)
    requires k in store && k !in done
    ensures var now := AnnotateAll(store, done, hash);
      k in now && now[k := Annotate(now[k], hash)] == AnnotateAll(store, done + {k}, hash)
  {
    hide Annotate;
  }

  lemma RollOutOneMore(store: Store, done: set<ObjectKey>, hash: string, k: ObjectKey)
    requires k in store && k !in done
    ensures var now := Validation.RollOutAll(store, done, hash);
      k in now && now[k := Validation.RollOut(now[k], hash)] == Validation.RollOutAll(store, done + {k}, hash)
  {
    hide Validation.RollOut;
  }

  lemma UnannotatedExist(store: Store, agw: Agw, hash: string)
    ensures Unannotated(store, agw, hash) <= store.Keys
  {
  }
}
