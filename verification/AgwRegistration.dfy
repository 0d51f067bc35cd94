/** Gateway registration and deregistration Jobs in the Orc8r namespace. */
module AgwRegistration {
  import opened GoMaps
  import opened Objects
  import opened AgwModel
  import opened AgwIdentity
  import opened AgwTrust
  import HashedJob

  const PAYLOAD_HASH := "magma.infra.don/payload-sha256"

  function RegistrationJobKey(agw: Agw): ObjectKey {
    JobKey(Orc8rNamespace(agw.spec), agw.name + "-register-gateway")
  }

  function DeregistrationJobKey(agw: Agw): ObjectKey {
    JobKey(Orc8rNamespace(agw.spec), agw.name + "-delete-gateway")
  }

  function MagmalteKey(spec: Spec): ObjectKey {
    ObjectKey(Deployment, Orc8rNamespace(spec), MAGMALTE)
  }

  function MagmalteImage(store: Store, spec: Spec): string {
    if MagmalteKey(spec) in store then Get(store[MagmalteKey(spec)].data, "image") else ""
  }

  datatype RegistrationStep = RegistrationStep(store: Store, verdict: RegistrationVerdict)

  datatype RegistrationVerdict = Registered | Disabled | NotRegistered(reason: Reason) | RegistrationFailed(reason: Reason)

  function RegistrationFaults(failing: set<Call>): HashedJob.Faults {
    HashedJob.Faults(RegistrationJobGet in failing, RegistrationJobDelete in failing, RegistrationJobCreate in failing)
  }

  function RegistrationVerdictOf(outcome: HashedJob.Outcome): RegistrationVerdict {
    match outcome
    case Credited => Registered
    case Broken => RegistrationFailed(GatewayRegistrationJobFailed)
    case Waiting => NotRegistered(GatewayRegistrationJobRunning)
    case Replacing => NotRegistered(GatewayRegistrationJobReplacing)
    case Created => NotRegistered(GatewayRegistrationJobCreated)
    case ReadFailed => RegistrationFailed(GatewayRegistrationJobReadFailed)
    case DeleteFailed => RegistrationFailed(GatewayRegistrationJobDeleteFailed)
    case CreateFailed => RegistrationFailed(GatewayRegistrationJobCreateFailed)
  }

  function ReconcileRegistration(store: Store, agw: Agw, id: Identity, crypto: Crypto, failing: set<Call>): RegistrationStep {
    if !RegistrationEnabled(agw.spec.registration) then RegistrationStep(store, Disabled)
    else if agw.spec.networkID == "" then RegistrationStep(store, RegistrationFailed(NetworkIDRequired))
    else if agw.spec.accessGatewayID == "" then RegistrationStep(store, RegistrationFailed(AccessGatewayIDRequired))
    else if NmsSecretGet in failing then RegistrationStep(store, RegistrationFailed(NMSCertSecretReadFailed))
    else if Orc8rCertKey(agw.spec) !in store then RegistrationStep(store, NotRegistered(WaitingForNMSCertSecret))
    else if MagmalteGet in failing then RegistrationStep(store, RegistrationFailed(MagmalteReadFailed))
    else if MagmalteKey(agw.spec) !in store then RegistrationStep(store, NotRegistered(WaitingForMagmalte))
    else if MagmalteImage(store, agw.spec) == "" then RegistrationStep(store, NotRegistered(MagmalteImageUnavailable))
    else
      var payload := crypto.json(GatewayPayload(agw, id));
      if payload.None? then RegistrationStep(store, RegistrationFailed(GatewayPayloadInvalid))
      else
        var step := HashedJob.Advance(store, RegistrationJobKey(agw), PAYLOAD_HASH, crypto.sha(payload.value),
                                      payload.value, RegistrationFaults(failing));
        RegistrationStep(step.store, RegistrationVerdictOf(step.outcome))
  }

  // ----- Deregistration: one Job, not keyed by a hash -----

  datatype DeregistrationStep = DeregistrationStep(store: Store, verdict: DeregistrationVerdict)

  datatype DeregistrationVerdict = Deregistered | NotDeregistered | DeregistrationFailed

  function ReconcileDeregistration(store: Store, agw: Agw, failing: set<Call>): DeregistrationStep {
    var key := DeregistrationJobKey(agw);
    if !agw.spec.registration.deleteOnRemoval || !RegistrationEnabled(agw.spec.registration) then DeregistrationStep(store, Deregistered)
    else if agw.spec.networkID == "" || agw.spec.accessGatewayID == "" then DeregistrationStep(store, DeregistrationFailed)
    else if NmsSecretGet in failing then DeregistrationStep(store, DeregistrationFailed)
    else if Orc8rCertKey(agw.spec) !in store then DeregistrationStep(store, NotDeregistered)
    else if MagmalteGet in failing then DeregistrationStep(store, DeregistrationFailed)
    else if MagmalteKey(agw.spec) !in store || MagmalteImage(store, agw.spec) == "" then DeregistrationStep(store, NotDeregistered)
    else if DeregistrationJobGet in failing then DeregistrationStep(store, DeregistrationFailed)
    else if key in store then
      DeregistrationStep(store,
        if store[key].status.succeeded > 0 then Deregistered
        else if store[key].status.failed > 0 then DeregistrationFailed
        else NotDeregistered)
    else if DeregistrationJobCreate in failing then DeregistrationStep(store, DeregistrationFailed)
    else DeregistrationStep(store[key := BLANK], NotDeregistered)
  }
}
