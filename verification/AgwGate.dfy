/** Which gateways an edited ConfigMap wakes up. */
module AgwGate {
  import opened Objects
  import opened AgwModel
  import opened AgwPass
  import opened AgwReady

  datatype Request = Request(namespace: string, name: string)

  /** The gateway waits for this ConfigMap. */
  predicate WaitsOn(agw: Agw, key: ObjectKey) {
    agw.spec.enableUERANSIM && GateKey(agw) == key
  }

  function RequestFor(agw: Agw): Request {
    Request(agw.namespace, agw.name)
  }

  function Wakes(agws: seq<Agw>, key: ObjectKey): seq<Request> {
    if agws == [] then []
    else
      var n := |agws| - 1;
      Wakes(agws[..n], key) + (if WaitsOn(agws[n], key) then [RequestFor(agws[n])] else [])
  }

  /** The requests for an edited ConfigMap; none when the gateways cannot be listed. */
  function GateRequests(agws: Option<seq<Agw>>, key: ObjectKey): seq<Request> {
    if agws.None? then [] else Wakes(agws.value, key)
  }

  /** Walks through the gateways of the ConfigMap's namespace, if they can be listed. */
  method MapGateConfigMap(listed: Option<seq<Agw>>, key: ObjectKey) returns (requests: seq<Request>)
    requires key.kind.ConfigMap?
    ensures requests == GateRequests(listed, key)
  {
    requests := [];
    if listed.None? {
      return;
    }
    var agws := listed.value;
    for i := 0 to |agws|
      invariant requests == Wakes(agws[..i], key)
    {
      assert agws[..i + 1][..i] == agws[..i];
      var agw := agws[i];
      if agw.namespace == key.namespace && agw.spec.enableUERANSIM {
        var release := agw.spec.releaseName;
        if release == "" {
          release := agw.name;
        }
        var gate := agw.spec.ueransimReadyConfigMap;
        if gate == "" {
          gate := release + "-ueransim-ready";
        }
        if gate == key.name {
          requests := requests + [Request(agw.namespace, agw.name)];
        }
      }
    }
    assert agws[..|agws|] == agws;
  }

  lemma {:induction false} WokenExactly(agws: seq<Agw>, key: ObjectKey, r: Request)
    ensures r in Wakes(agws, key) <==> exists i :: 0 <= i < |agws| && WaitsOn(agws[i], key) && RequestFor(agws[i]) == r
  {
    if agws != [] {
      var n := |agws| - 1;
      WokenExactly(agws[..n], key, r);
      if r in Wakes(agws, key) {
        if r in Wakes(agws[..n], key) {
          var i :| 0 <= i < n && WaitsOn(agws[..n][i], key) && RequestFor(agws[..n][i]) == r;
          assert WaitsOn(agws[i], key) && RequestFor(agws[i]) == r;
        } else {
          assert WaitsOn(agws[n], key) && RequestFor(agws[n]) == r;
        }
      }
      if i :| 0 <= i < |agws| && WaitsOn(agws[i], key) && RequestFor(agws[i]) == r {
        if i < n {
          assert WaitsOn(agws[..n][i], key) && RequestFor(agws[..n][i]) == r;
        }
      }
    }
  }

  lemma SameElsewhere(a: Store, b: Store, key: ObjectKey, k: ObjectKey)
    requires a - {key} == b - {key} && k != key
    ensures k in a <==> k in b
    ensures k in a ==> b[k] == a[k]
  {
    assert k in a <==> k in a - {key};
    assert k in b <==> k in b - {key};
    assert k in a ==> (a - {key})[k] == a[k];
    assert k in b ==> (b - {key})[k] == b[k];
  }

  /**
   An edit that changes whether a gateway's simulator may start wakes that gateway exactly when
   the gateways can be listed; a failing list loses the wake-up until the next timed pass.
   */
  lemma GateEditsWake(listed: Option<seq<Agw>>, agws: seq<Agw>, i: nat, before: Store, after: Store, key: ObjectKey)
    requires listed.Some? ==> listed.value == agws
    requires i < |agws| && key.kind.ConfigMap?
    requires before - {key} == after - {key}
    requires SimulatorEvidence(before, agws[i]) != SimulatorEvidence(after, agws[i])
    ensures RequestFor(agws[i]) in GateRequests(listed, key) <==> listed.Some?
  {
    var gate := GateKey(agws[i]);
    if gate != key {
      SameElsewhere(before, after, key, gate);
      assert false;
    }
    assert WaitsOn(agws[i], key);
    WokenExactly(agws, key, RequestFor(agws[i]));
  }
}
