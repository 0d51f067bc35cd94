/** The part of a Kubernetes cluster that the operator reads and writes, as values. */
module Objects {
  import opened GoMaps

  datatype Option<+T> = None | Some(value: T)

  datatype Kind =
    | Secret | ConfigMap | Service | PersistentVolumeClaim | Namespace
    | Job | CronJob | Deployment | DaemonSet | StatefulSet | Pod
    | OtherKind(name: string)

  datatype ObjectKey = ObjectKey(kind: Kind, namespace: string, name: string)

  /** Status fields of Jobs, Deployments, DaemonSets and Pods that the operator looks at. */
  datatype Status = Status(
    succeeded: nat, failed: nat,
    desired: nat, ready: nat, available: nat, observedGeneration: nat,
    phase: string, reason: string)

  datatype Object = Object(
    labels: StringMap, annotations: StringMap,
    data: StringMap,               // Secret and ConfigMap data, a Service's cluster IP under "clusterIP"
    podAnnotations: StringMap,     // annotations of the pod template
    body: string,                  // everything else in the object, uninterpreted
    replicas: Option<nat>, generation: nat, status: Status)

  type Store = map<ObjectKey, Object>

  datatype Node = Node(name: string, labels: StringMap)

  const NO_STATUS := Status(0, 0, 0, 0, 0, 0, "", "")

  const BLANK := Object(map[], map[], map[], map[], "", None, 1, NO_STATUS)

  const LABEL_COMPONENT := "app.kubernetes.io/component"
  const LABEL_INSTANCE := "app.kubernetes.io/instance"
  const LABEL_MANAGED_BY := "app.kubernetes.io/managed-by"
  const LABEL_NAME := "app.kubernetes.io/name"
  const MANAGED_BY_OPERATOR := "magma-operator"
  const AGW_APP_NAME := "magma-agw-upstream"
  const AGW_NODE_PREP := "agw-node-prep"
  const MAGMALTE := "nms-magmalte"

  function SecretKey(namespace: string, name: string): ObjectKey {
    ObjectKey(Secret, namespace, name)
  }

  function JobKey(namespace: string, name: string): ObjectKey {
    ObjectKey(Job, namespace, name)
  }

  /** The object, or a blank one when it does not exist yet. */
  function ObjectOrBlank(store: Store, key: ObjectKey): Object {
    if key in store then store[key] else BLANK
  }

  predicate Carries(labels: StringMap, selector: StringMap) {
    forall k :: k in selector ==> k in labels && labels[k] == selector[k]
  }

  /** Substring test. */
  predicate Contains(s: string, part: string) {
    exists i :: 0 <= i <= |s| && part <= s[i..]
  }

  function ToLowerChar(c: char): char {
    if 'A' <= c <= 'Z' then (c - 'A' + 'a') else c
  }

  function ToLower(s: string): string {
    seq(|s|, i requires 0 <= i < |s| => ToLowerChar(s[i]))
  }

  predicate EqualFold(a: string, b: string) {
    ToLower(a) == ToLower(b)
  }

  /** Those objects of a list whose request is served; the loop over the list fails unless all are. */
  function Served(keys: set<ObjectKey>, serves: ObjectKey -> bool): (served: set<ObjectKey>)
    ensures served <= keys
  {
    set k | k in keys && serves(k)
  }
}
