# Magma operator: a verified model

This project models the two reconcilers of the Magma operator and the string and map algorithms
below them, and proves what they keep over whole runs. To check it, call
`dafny verify dfyconfig.toml`.

## What is modelled

The cluster is a value: the custom resource with its generation, resource version, finalizers and
status; a map from object keys to objects (Secrets, ConfigMaps, Services, volume claims, Jobs,
Deployments, DaemonSets, Pods); and a list of nodes. One reconcile pass is a function `Pass` of the
cluster, the operator (embedded manifest and cryptographic functions) and an oracle. The oracle
holds everything a pass does not control: which API calls fail, where and in which phase a loop over
a list is interrupted, which Job patches are rejected as immutable, fresh randomness, and the resource as it
stands at the moment the pass writes it. A run (`Run`) is any interleaving of passes, with any
oracles, and environment steps, which may change objects and nodes in any way and the resource in
every way the API server allows others to.

The code that works by changing things step by step is also written that way. `ApiServer` and the two
`Reconciler` classes carry the cluster in fields; their methods have the source's loops and early
returns, and each is proved equal to the function that specifies it, up to `Reconcile` itself. All
properties of the functions therefore hold of the methods.

Files, bottom up:

- text and maps: `GoMaps`, `Separators`, `Replacer`, `Rendering`, `RenderedTable` (the 31 patterns and
  what they become), `SelectorKeys`, `Placement`, `SecretBytes`, `HardwareId`, `ValidationKey`
- native release engine: `Objects`, `Manifests` (lines, documents, identities), `Agreement` (apply and
  delete find the same objects), `RenderedNames` (the names objects get), `NativeRelease`, `NativeRunner`
- AGW pass: `AgwModel`, `HashedJob`, `AgwIdentity`, `AgwDatapath`, `AgwTrust`, `AgwRegistration`,
  `AgwValues`, `AgwValidation`, `AgwPass`, `AgwGate`, `AgwReconciler`
- AGW runs: `AgwRuns`, `AgwReady`, `AgwHistory` (Ready soundness, wake-ups, observation),
  `AgwTrail`, `AgwFootprint` (what each stage touches), `AgwFinalizer` (no leak), `AgwJobs`,
  `AgwCredit` (Job credit), `AgwStability` (identity, one-shot validation), `AgwConditions` (soundness of
  every condition), `AgwAfterPass`
- AGW meaning: `AgwNames` (which manifest objects the operator looks for), `AgwCarried` (what a pass
  carries into values, manifest, payload and status), `AgwSimulator` (what the apply leaves behind),
  `AgwPrepared` (the datapath gate in nodes and pod counts), `AgwEvidence` (the evidence for Ready in
  names and counts), `AgwReasons` (a status that is not Ready names a true reason)
- AGW convergence: `AgwMeasure`, `AgwProgress`, `AgwConvergence`, `AgwFlowMeasure`, `AgwBounded`
  (Ready exactly on evidence), `AgwEventually`, `AgwRemoval` (bounded deletion), `AgwExample`
- Orc8r: `Orc8r`, `Orc8rRuns`, `Orc8rHistory` (Ready soundness), `Orc8rBootstrap` (the bootstrap Job),
  `Orc8rEvidence` (what Ready means), `Orc8rSettings` (values, key by key), `Orc8rReconciler`

## Assumptions

Each is a hypothesis of the lemmas that need it, or built into the environment relation.

- SHA-256, key parsing and encoding, base64 and JSON are deterministic functions (record `Crypto`).
  Where two hashes are compared, the equality of hashes is proved first and the equality of texts is
  stated under `Injective`. `KeysAreTexts` says that an empty text is no private key and that
  normalising a normalised key gives it back.
- Reads inside one pass are consistent. A status update lands only if the resource version is the
  one the pass has read. The operator's finalizer and the status are written by the operator alone.
- Server-side apply overwrites the fields it lists and leaves status and the fields of other field
  managers alone. Deleting an object removes it.
- The names of the operator's own Jobs and Secrets are not names of manifest objects
  (`OutsideManifest`), where a lemma says so. `IdentityApart` keeps the identity Secret apart from the AGW
  certificate Secret and from the manifest; the import source may be any Secret whose imported entry
  the root CA synchronisation does not write and which the simulator filter does not take away.
- Values stay within the lines they are written into (`Tame`, `TamePass`), where a lemma says so:
  rendering does not escape them. `OneLinePassIsTame` gives a simple sufficient condition.
- Conclusions about one specification are stated for stretches of a run in which the specification
  does not change; conclusions about Ready, finalizers and Job credit hold across edits.

## Findings

- Values are written into the manifest text unescaped. Cutting the rendered text at newlines gives the
  rendered lines exactly when none of them contains a newline (`SplitExact`), and a line stays one line,
  for the reader and for the YAML decoder, exactly when no placeholder in it is filled with a line break:
  a newline, a carriage return, U+0085, U+2028 or U+2029 (`BreaksExact`). Apply and delete find the same
  objects for all values exactly when the manifest holds no value placeholder (`AgreementExact`): a
  hardware ID with a newline adds a ConfigMap that deletion leaves behind (`HardwareIdAddsObject`), and
  one with a carriage return, `x\rmetadata:\r  name: other`, renames the object it is written into, so
  that the apply finds the new name and the deletion the old one (`CarriageReturnRenames`). They do find
  the same objects whenever the values stay within their indented lines, wherever YAML breaks them
  (`SameIdentities`).
- The round trip of selector keys holds exactly when every run of backslashes is two long and
  followed by a dot, or absent (`RoundTripExact`).
- The replacer gives the same text for every order of its arguments exactly when no pattern is a
  prefix of another (`OrderIndependenceExact`); the operator's 31 placeholders satisfy it.
- A manifest text renders the same for apply and delete exactly when it holds no placeholder whose
  text depends on the values (`AgnosticExact`).
- A gated workload stays within the raw node selector exactly when that selector does not ask for
  another value of the ready key (`GatedWithinSelector`).
- Label steps keep every selection exactly when the selector does not name the ready key
  (`SelectionKeptExact`); otherwise removing the label can leave nothing selected.
- Deletion removes exactly the manifest objects and the opted-in ones (`RemovalExact`). The root CA,
  registration, deregistration and validation Jobs, the AGW certificate Secret, and the ServiceAccount,
  Role and RoleBinding of the validation are not deleted by
  the pass unless the manifest happens to list them, and a volume claim that the manifest lists is
  deleted whatever the deletion policy says; the operator's own documentation promises that it survives.
- No other Secret has a Secret's bytes exactly when it has no entry, or one entry whose value cannot be
  read as a shorter value followed by a later entry (`SecretOwnExact`); a Secret with several entries
  always has a twin with one entry less (`EntriesMerge`). Among all byte maps the condition is no entry, or one entry
  without NUL bytes (`OwnBytesExact`); among Secrets without NUL bytes the bytes are injective
  (`CanonicalInjective`).
- No other validation request has a request's key text exactly when its first four fields have no bar
  and its server text cannot be read as 32-bit numbers and bars (`OwnKeyTextExact`).
- Importing the challenge key from an entry of the identity Secret that the operator derives settles
  exactly when the text written over that entry is the same key again (`IdentitySettlesExact`); when it is
  no key, the import works once and every later reconcile of the identity fails (`DerivedImportBreaks`).
- A deletion pass in which nothing fails removes the finalizer exactly when the deregistration that was
  asked for has succeeded (`SmoothRemovalExact`); a failed deregistration Job blocks the deletion until
  somebody removes the Job.
- The embedded AGW manifest lists its volume claim and certificate Secret under fixed names
  (`agwc-claim`, `agwc-secret-certs`), while the operator looks for names made from the release name. They
  are the same objects exactly when the release is called `agwc` or, for the Secret, the values name it
  (`FixedNamesExact`). For any other release the claim of the manifest starts no root CA Job, and the root
  CA is synchronised into a Secret that the manifest does not list.
- A failing list of gateways loses the wake-up that an edited gate would give (`GateEditsWake`).

## Model

| member | source | states |
|---|---|---|
| `Replacer.ReplaceWithTable` | internal/controller/native_runner.go:228-232 | the replacer loop, fed in any enumeration order of the table, fills every token of the text with its value |
| `Replacer.ReplaceIsFill` | internal/controller/native_runner.go:228-232 | for every argument list that enumerates a prefix-free table, replacing equals splitting into tokens once and filling each, so values are never scanned again |
| `Replacer.TokensRoundTrip` | internal/controller/native_runner.go:232 | filling each token with its own pattern gives the text back |
| `Replacer.OrderIndependenceExact` | internal/controller/native_runner.go:228-232 | all orders of the entries of a map, each listed once, agree on all texts and values if and only if no pattern is a prefix of another |
| `Replacer.NestedPatternsDisagree` | internal/controller/native_runner.go:228-232 | two nested patterns in any table: two orders of its entries, each listed once, replace one text differently |
| `Replacer.SeparatorLocality` | internal/controller/native_runner.go:232 | replacement distributes over a separator that no pattern contains |
| `Rendering.RenderNativeManifest` | internal/controller/native_runner.go:192-233 | the rendered manifest is the substitution of the 31 placeholders, whatever order the map is enumerated in |
| `Rendering.PatternsArePrefixFree` | internal/controller/native_runner.go:195-227 | no placeholder is a prefix of another |
| `Rendering.StartDecides` | internal/controller/native_runner.go:195-227 | a text that begins with a placeholder begins with no other one |
| `Rendering.RenderLocal` | internal/controller/native_runner.go:192-233 | rendering two texts joined by a newline renders each by itself, whatever the values contain |
| `Rendering.RenderByLine` | internal/controller/native_runner.go:192-233 | rendering a list of lines is rendering every line |
| `Rendering.ValueFreeAgrees` | internal/controller/native_runner.go:97-144 | a text without value placeholders renders the same under any two value maps |
| `Rendering.AgnosticExact` | internal/controller/native_runner.go:97-144 | a text renders the same under all value maps if and only if it holds no value placeholder |
| `RenderedTable.TableExact` | internal/controller/native_runner.go:193-227 | each of the 31 literal patterns renders to the text of its row, made of release name, namespace and literal value keys with literal fallbacks, and nothing else is a pattern |
| `RenderedNames.FieldsRender` | internal/controller/native_runner.go:119-142 | kind, name and namespace of a document whose other lines are indented or free of placeholders are its kind, name and namespace, rendered |
| `RenderedNames.ObjectFound` | internal/controller/native_runner.go:117-142 | such a document between two separators is found under its rendered kind, namespace and name, whatever else the manifest and the values hold |
| `RenderedNames.ReleaseNamed` | internal/controller/native_runner.go:195-199 | an object named after the release placeholder is found under the release name followed by the rest, in the namespace of the release |
| `AgwNames.LookedForAreListed` | internal/controller/agw_lifecycle.go:98-128 | volume claim, simulator Deployments and certificate Secret that a manifest names after the release placeholder are the objects the operator looks for |
| `AgwNames.FixedNamesExact` | internal/controller/agw_lifecycle.go:98-128 | the claim and the certificate Secret that the manifest lists as agwc-claim and agwc-secret-certs are the ones the operator looks for if and only if the release is called agwc, or the values name the Secret |
| `SelectorKeys.EscapeInjective` | internal/controller/native_runner.go:322-324 | escaping never merges two keys |
| `SelectorKeys.RoundTripExact` | internal/controller/native_runner.go:269-279 | unescaping gives the key back if and only if each of its backslash runs is exactly two before a dot |
| `SelectorKeys.BackslashFreeRegular` | internal/controller/native_runner.go:273-274 | every key without a backslash meets that condition |
| `Placement.SetSelectorValues` | internal/controller/native_runner.go:304-308 | the loop adds exactly the escaped entries of the selector, in any map order |
| `Placement.SelectorValues` | internal/controller/native_runner.go:269-279 | the loop reads exactly the entries under the prefix, unescaped |
| `Placement.SelectorRoundTrip` | internal/controller/native_runner.go:269-308 | what is stored under a prefix is read back as the original selector, in any enumeration order |
| `Placement.SelectorForObject` | internal/controller/native_runner.go:258-267 | every object reads the prefix of its role |
| `Placement.ApplyNodeSelectors` | internal/controller/native_runner.go:235-256 | a pod-bearing object gets the selector of its role at the node selector path of its kind and nowhere else; empty selectors and other kinds change nothing |
| `AgwValues.BuildValues` | internal/controller/magmaagw_controller.go:112-159 | the values of a pass: fixed entries, selectors, user values, identity, in that order of precedence |
| `AgwValues.AddSelectorEntries` | internal/controller/magmaagw_controller.go:125-153 | gated passes store raw and workload selectors and kernel module settings, ungated ones the raw selector |
| `AgwValues.ValuesUnder` | internal/controller/magmaagw_controller.go:112-159 | under each prefix a pass stores exactly the selector intended for that role |
| `AgwValues.PlacementExact` | internal/controller/magmaagw_controller.go:125-154 | end to end, in the pod specification of node-prep stands the raw selector, of simulator objects theirs, of everything else the raw selector plus the ready label |
| `AgwValues.GatedCarriesLabel` | internal/controller/magmaagw_controller.go:144-146 | a node that a gated workload accepts carries the ready label |
| `AgwValues.GatedWithinSelector` | internal/controller/magmaagw_controller.go:144-146 | it also matches the raw selector, if and only if the raw selector asks for no other value of the ready key |
| `NativeRelease.NativeObjectMetadata` | internal/controller/native_runner.go:167-190 | Helm metadata is removed, the object is claimed, and a change is reported exactly when there is one |
| `NativeRelease.RemoveHelmAnnotations` | internal/controller/native_runner.go:182-188 | exactly the annotations with the Helm prefix go |
| `Manifests.SplitExact` | internal/controller/native_runner.go:122-126 | cutting the rendered text at newlines gives the rendered lines if and only if none of them contains a newline |
| `Manifests.BreaksExact` | internal/controller/native_runner.go:192-233 | a line renders to more than one line, for the reader or for YAML, if and only if a placeholder in it is filled with a line break |
| `Manifests.IdentitiesFromLoud` | internal/controller/native_runner.go:125-143 | kind, name, namespace and document boundaries do not depend on lines that are three spaces in or more after each of their YAML line breaks |
| `Agreement.TameAgrees` | internal/controller/native_runner.go:97-144 | two renderings whose values stay within their lines find the same objects in the same order |
| `Agreement.OneLineIsTame` | internal/controller/native_runner.go:192-233 | values without line breaks, in a manifest that keeps them three spaces in, stay within their lines |
| `Agreement.AgreementExact` | internal/controller/native_runner.go:97-144 | rendering with any values finds the objects found without values if and only if the manifest holds no value placeholder |
| `Agreement.HardwareIdAddsObject` | internal/controller/native_runner.go:218 | a hardware ID with a newline adds an object that rendering for deletion does not find |
| `Agreement.CarriageReturnRenames` | internal/controller/native_runner.go:122-143 | a hardware ID with carriage returns gives the object it is written into any other name, which rendering for deletion does not find |
| `NativeRelease.NativeReleaseObjects` | internal/controller/native_runner.go:117-144 | the manifest is rendered as one text and cut into lines, documents and named objects, which get the release namespace when they have none, and cleaned metadata |
| `NativeRelease.DecodeLines` | internal/controller/native_runner.go:123-142 | the loop over lines cuts documents at separators and keeps the named ones, in order |
| `NativeRelease.SameIdentities` | internal/controller/native_runner.go:97-144 | rendered for deletion without values or for an apply with values that stay within their lines, the objects have the same identities |
| `NativeRelease.DesiredExact` | internal/controller/native_runner.go:131-190 | data and body of an object are those of its document, labels and annotations too, without Helm metadata and with the operator as manager |
| `NativeRelease.ServedExact` | internal/controller/native_runner.go:57-75 | an applied object has every listed label, annotation and data entry, keeps the others and its status, and starts a new generation only for a changed body |
| `NativeRelease.ApplyFrame` | internal/controller/native_runner.go:37-77 | objects that the release does not list are untouched |
| `NativeRelease.ApplyPost` | internal/controller/native_runner.go:37-95 | after a completed apply of distinct objects every one of them is absent when filtered out, kept when an existing Secret, deleted when a rejected Job, applied otherwise |
| `NativeRelease.SecretDataKept` | internal/controller/native_runner.go:79-95 | no apply changes the data or the non-Helm annotations of an existing Secret that is not filtered out |
| `NativeRelease.UpToSecret` | internal/controller/native_runner.go:37-95 | nor does one that is interrupted at any request |
| `NativeRelease.DeletePost` | internal/controller/native_runner.go:97-115 | exactly the listed objects are gone afterwards, the others unchanged |
| `NativeRunner.ApiServer.ReconcileNativeRelease` | internal/controller/native_runner.go:37-77 | the loop, interrupted before, within or after the handling of an object, has applied exactly what came before the interruption |
| `NativeRunner.ApiServer.ReconcileObject` | internal/controller/native_runner.go:42-75 | one object: filtered out, preserved, rejected or applied; when interrupted, an applied object keeps its uncleaned metadata |
| `NativeRunner.ApiServer.PreserveExistingSecret` | internal/controller/native_runner.go:79-95 | an existing Secret keeps everything but Helm metadata |
| `NativeRunner.ApiServer.CleanObject` | internal/controller/native_runner.go:152-165 | the metadata are cleaned, with an update only when something changes |
| `NativeRunner.ApiServer.DeleteNativeRelease` | internal/controller/native_runner.go:97-108 | the loop, interrupted anywhere, has deleted exactly the objects before the interruption |
| `SecretBytes.SecretDataBytes` | internal/controller/magmaorc8r_controller.go:207-221 | the bytes are the serialisation in key order, whatever order the map is enumerated in |
| `SecretBytes.CanonicalUnique` | internal/controller/magmaorc8r_controller.go:207-221 | there is one such byte string per map |
| `SecretBytes.CanonicalInjective` | internal/controller/magmaorc8r_controller.go:213-219 | maps without NUL bytes give equal bytes only if they are equal |
| `SecretBytes.SecretOwnExact` | internal/controller/magmaorc8r_controller.go:213-219 | no other Secret, with keys the API server accepts, has these bytes if and only if it has no entry, or one entry whose value does not hide a later entry |
| `SecretBytes.OwnBytesExact` | internal/controller/magmaorc8r_controller.go:213-219 | no other byte map, whatever its keys, has these bytes if and only if it has no entry, or one entry without NUL bytes |
| `SecretBytes.HiddenCollides` | internal/controller/magmaorc8r_controller.go:213-219 | every Secret with one entry whose value hides a later entry has a twin with two entries |
| `SecretBytes.NulCollides` | internal/controller/magmaorc8r_controller.go:213-219 | among byte maps, every single entry with a NUL in it has a twin |
| `SecretBytes.EntriesMerge` | internal/controller/magmaorc8r_controller.go:213-219 | every Secret with two entries or more has a twin with the same bytes |
| `HardwareId.NewHardwareId` | internal/controller/agw_identity.go:575-583 | masks the 16 bytes in place and prints a version 4 UUID |
| `HardwareId.MaskedIsVersion4` | internal/controller/agw_identity.go:580-582 | for all inputs the text is a version 4 UUID (section 5.4 of RFC 9562) and parses back to the masked bytes |
| `HardwareId.MaskKeepsTheRest` | internal/controller/agw_identity.go:580-581 | the other 122 bits are those of the input |
| `HardwareId.Version4IsProduced` | internal/controller/agw_identity.go:575-583 | conversely, every version 4 UUID text is produced by its own bytes |
| `ValidationKey.TriggerSensitive` | internal/controller/agw_validation.go:281-284 | requests that differ only in the trigger have different keys, whatever characters it has |
| `ValidationKey.EncodeInjective` | internal/controller/agw_validation.go:281-284 | the key determines all fields when the first four are free of bars |
| `ValidationKey.OwnKeyTextExact` | internal/controller/agw_validation.go:281-284 | no other request has this key text if and only if the first four fields have no bar and the server text cannot be read as 32-bit numbers and bars |
| `ValidationKey.BarsCollide` | internal/controller/agw_validation.go:281-284 | every request with a bar in its first four fields has a twin |
| `ValidationKey.NumbersCollide` | internal/controller/agw_validation.go:281-284 | so has every request whose server text can be read as 32-bit numbers and bars |
| `HashedJob.AdvanceMoves` | internal/controller/agw_lifecycle.go:138-166 | a visit deletes the Job only when stale, creates it only when missing and for the desired hash and content, and touches nothing else |
| `AgwIdentity.IdentityHeld` | internal/controller/agw_identity.go:121-136 | every successful reconcile returns the name of the Secret it has written and, field by field, the entries hardware_id, gw_challenge.key.b64, challenge_public_key.b64 and challenge_public_key.sha256 of it, which belong to the stored key |
| `AgwIdentity.IdentityChosen` | internal/controller/agw_identity.go:77-102 | the key is the requested one unless the policy is Rotate, else the stored one, else a new one; the hardware ID is that of the specification, else of the values, else the stored one, else a new one |
| `AgwIdentity.IdentitySettles` | internal/controller/agw_identity.go:51-137 | under policy Never, a successful reconcile leaves key, encoded, derived and annotated entries consistent and as the specification asks |
| `AgwIdentity.IdentitySettlesExact` | internal/controller/agw_identity.go:51-163 | it does so if and only if the key is not imported from an entry that the operator derives, or what is written over that entry is the same key |
| `AgwIdentity.DerivedImportBreaks` | internal/controller/agw_identity.go:139-163 | an import from a derived entry whose new text is no key makes every later reconcile of the identity fail |
| `AgwIdentity.SettledStays` | internal/controller/agw_identity.go:51-137 | a settled Secret is never changed again, whatever fails and whatever is drawn, and every identity read from it is the same |
| `AgwTrust.SyncedSecret` | internal/controller/agw_lifecycle.go:98-123 | the root CA goes into the Secret that the values name, or else the one named after the release, and into no other object |
| `AgwTrust.WithRootCAExact` | internal/controller/agw_lifecycle.go:103-120 | that Secret has the root CA and its hash, none of the four older certificates and keys, and every other entry it had |
| `AgwValidation.RbacThere` | internal/controller/agw_validation.go:163-207 | if no request fails, ServiceAccount, Role and RoleBinding are there, labelled and bound |
| `AgwDatapath.LabelDichotomy` | internal/controller/magmaagw_controller.go:419-456 | a label step without error leaves all selected nodes labelled with node-prep ready, or none carrying the key with node-prep not ready, and the selection unchanged |
| `AgwDatapath.LabelsFrame` | internal/controller/magmaagw_controller.go:458-495 | the label step changes no other node, name or label |
| `AgwDatapath.SelectionKeptExact` | internal/controller/magmaagw_controller.go:419-495 | no label step without error empties a selection, if and only if the selector does not name the ready key |
| `AgwDatapath.SelectionCanVanish` | internal/controller/magmaagw_controller.go:478-495 | for every selector that names the ready key, some label step leaves nothing selected |
| `AgwDatapath.UnlabelPost` | internal/controller/magmaagw_controller.go:478-495 | after a completed removal no node that matches the selector carries the key |
| `AgwGate.MapGateConfigMap` | internal/controller/magmaagw_controller.go:294-324 | no request when the gateways cannot be listed, else those of the gateways that wait on the ConfigMap, in order |
| `AgwGate.WokenExactly` | internal/controller/magmaagw_controller.go:294-324 | a gateway is woken if and only if its simulator is on and the ConfigMap is its gate |
| `AgwGate.GateEditsWake` | internal/controller/magmaagw_controller.go:278-324 | an edit that changes whether a gateway's simulator may start wakes that gateway if and only if the gateways can be listed |
| `AgwReconciler.Reconciler.Reconcile` | internal/controller/magmaagw_controller.go:79-276 | one pass, with its early returns and a failing read of the resource, is `Pass` on the whole cluster and the result |
| `AgwReconciler.Reconciler.FillIdentitySecret` | internal/controller/agw_identity.go:68-117 | the mutate callback: chosen or generated key, chosen or generated hardware ID, all entries written |
| `AgwReconciler.Reconciler.ReconcileIdentity` | internal/controller/agw_identity.go:51-137 | identity Secret and returned identity are those of the specification function, on every error path |
| `AgwReconciler.Reconciler.DesiredKey` | internal/controller/agw_identity.go:139-163 | the key asked for by the import source, else by the legacy value, with every error path |
| `AgwReconciler.Reconciler.ReconcileHostAlias` | internal/controller/agw_lifecycle.go:51-76 | discovery of the Orc8r service address, and the two values it sets |
| `AgwReconciler.Reconciler.StartGateReady` | internal/controller/magmaagw_controller.go:278-292 | open if and only if the gate ConfigMap exists and says true, in any case |
| `AgwReconciler.Reconciler.DatapathNodesReady` | internal/controller/magmaagw_controller.go:497-528 | prepared if and only if nodes are selected, all are labelled and node-prep is ready |
| `AgwReconciler.Reconciler.LabelNodes` | internal/controller/magmaagw_controller.go:458-476 | the loop labels exactly the selected nodes before the failing one |
| `AgwReconciler.Reconciler.UnlabelNodes` | internal/controller/magmaagw_controller.go:478-495 | the loop unlabels exactly the selected nodes before the failing one |
| `AgwReconciler.Reconciler.ReconcileDatapathLabels` | internal/controller/magmaagw_controller.go:419-456 | nodes and outcome are those of the specification function |
| `AgwReconciler.Reconciler.SyncCertSecret` | internal/controller/agw_lifecycle.go:98-123 | root CA and hash in, the four older certificates out, everything else kept |
| `AgwReconciler.Reconciler.AdvanceJob` | internal/controller/agw_lifecycle.go:138-166 | one visit to a hash-keyed Job: credited, waited for, deleted when stale, created when missing |
| `AgwReconciler.Reconciler.ReconcileTrustBundle` | internal/controller/agw_lifecycle.go:78-136 | store, hash and verdict are those of the specification function |
| `AgwReconciler.Reconciler.ReconcileRegistration` | internal/controller/agw_identity.go:165-244 | store and verdict are those of the specification function |
| `AgwReconciler.Reconciler.ReconcileDeregistration` | internal/controller/agw_identity.go:323-390 | store and verdict are those of the specification function |
| `AgwReconciler.Reconciler.AnnotateForRootCA` | internal/controller/agw_lifecycle.go:224-263 | exactly the core Deployments without the hash are patched, up to the first failure, and success means all were |
| `AgwReconciler.Reconciler.CleanupStalePods` | internal/controller/magmaagw_controller.go:395-417 | exactly the release's pods evicted for node affinity are deleted, up to the first failure |
| `AgwReconciler.Reconciler.RollOutEach` | internal/controller/agw_validation.go:99-124 | exactly the simulator Deployments without the rollout hash are patched, up to the first failure |
| `AgwReconciler.Reconciler.StartValidation` | internal/controller/agw_validation.go:68-142 | rolls out, waits and creates the Job as the specification function says |
| `AgwReconciler.Reconciler.ReconcileValidationRbac` | internal/controller/agw_validation.go:163-207 | ServiceAccount, Role and RoleBinding are created or completed up to the first failing request |
| `AgwReconciler.Reconciler.ReconcileValidation` | internal/controller/agw_validation.go:29-85 | store and verdict are those of the specification function |
| `AgwReconciler.Reconciler.UpdateStatus` | internal/controller/magmaagw_controller.go:539-582 | the status is written only on the version that was read; a conflict asks for another pass |
| `AgwReconciler.Reconciler.ReconcileDeletion` | internal/controller/magmaagw_controller.go:326-373 | deregistration, release deletion, labels, durable state and finalizer, in this order, with every retry |
| `AgwReconciler.Reconciler.CleanupDurableState` | internal/controller/magmaagw_controller.go:375-393 | exactly the opted-in claim and Secret are deleted |
| `AgwHistory.ReadySoundness` | internal/controller/magmaagw_controller.go:103-275 | in every state of every run, a persisted Ready=True was written by a pass, on the version it had read, that had read, for the observed generation, synced trust, a succeeded Job for the current payload, prepared and labelled nodes and no pending gate, together with the matching conditions; the status has stayed since |
| `AgwEvidence.EvidenceExact` | internal/controller/magmaagw_controller.go:103-275 | the evidence is exactly: a root CA in the Orc8r Secret, succeeded Jobs with the literal hash annotations, every scheduled node-prep pod ready on marked nodes, and an open gate |
| `AgwEvidence.ReadyLiterally` | internal/controller/magmaagw_controller.go:103-275 | behind every persisted Ready=True stands a pass that had read exactly that |
| `AgwPrepared.ReadyMeansPrepared` | internal/controller/magmaagw_controller.go:497-528 | behind every persisted Ready=True of a gated gateway stands a pass that saw the node-prep DaemonSet scheduled, every scheduled pod of it ready, and every node of the gateway marked ready |
| `AgwHistory.ReadyForCurrentSpec` | internal/controller/magmaagw_controller.go:103-275 | when the status is up to date, that evidence was for the specification as it is now |
| `AgwHistory.GenerationFixesSpec` | internal/controller/magmaagw_controller.go:543-546 | during a run a generation number stands for one specification |
| `AgwReady.MainFlowReady` | internal/controller/magmaagw_controller.go:103-275 | a flow that decides for Ready=True has all the evidence and writes the matching conditions |
| `AgwReasons.FlowReason` | internal/controller/magmaagw_controller.go:103-275 | a flow that does not end in Ready names a reason that was true of the cluster it saw, and comes back after the time that belongs to this reason; Ready=True has one reason |
| `AgwReasons.ReasonSoundness` | internal/controller/magmaagw_controller.go:103-373 | in every state of every run, the reason of a persisted Ready=False was true of the cluster that the pass that wrote it saw: a named Job had failed, was running, replaced or created, a named object was missing, or a named request failed |
| `AgwReasons.VisitMeans` | internal/controller/agw_lifecycle.go:138-166 | each outcome of a visit to a hash-keyed Job is what has happened to that Job |
| `AgwReasons.FlowComesBack` | internal/controller/magmaagw_controller.go:539-582 | a flow ends with an error when its update fails, comes back after five seconds on a conflict, and otherwise when its status says |
| `AgwHistory.NoLostWakeUp` | internal/controller/magmaagw_controller.go:79-275 | a pass ends with neither error nor requeue only if the resource is gone, its deletion is not or no longer the operator's, or Ready=True was persisted with validation settled |
| `AgwHistory.MonotoneObservation` | internal/controller/magmaagw_controller.go:543-582 | the observed generation never decreases, never passes the generation, and bounds every condition |
| `AgwHistory.PassChange` | internal/controller/magmaagw_controller.go:79-373 | a pass leaves the resource, writes a status on the version it read, adds the finalizer or removes it, and nothing else |
| `AgwFinalizer.InertWithoutFinalizer` | internal/controller/magmaagw_controller.go:92-102 | a pass over a resource without the finalizer touches no object and no node |
| `AgwFinalizer.RemovalExact` | internal/controller/magmaagw_controller.go:326-393 | when the finalizer goes, exactly the manifest objects and the opted-in ones are gone, no selected node keeps the ready key, and a requested deregistration Job had succeeded |
| `AgwFinalizer.CreationNeedsFinalizer` | internal/controller/magmaagw_controller.go:92-233 | whatever a pass creates needs the finalizer, and is listed by the pass's own apply or is one of the operator's own |
| `AgwFootprint.OneLinePassIsTame` | internal/controller/native_runner.go:192-233 | a pass stays within the lines of the manifest when no value it writes holds a line break |
| `AgwFinalizer.NoLeak` | internal/controller/magmaagw_controller.go:92-393 | over any run, every manifest object that a pass with values within their lines created for a release is gone once that release's finalizer is removed |
| `AgwCredit.PassKeepsJob` | internal/controller/agw_identity.go:218-243 | a pass never edits a Job outside the manifest |
| `AgwCredit.JobOrigin` | internal/controller/agw_identity.go:211-243 | a Job that is there was created by a pass of the run and has kept its annotations and content since |
| `AgwCredit.RegistrationCredit` | internal/controller/agw_identity.go:211-243 | a registration Job that counts as done for a payload was created for the same hash, and with an injective hash carried exactly that payload |
| `AgwCredit.RootCACredit` | internal/controller/agw_lifecycle.go:138-166 | a root CA Job that counts as done was created by a pass that had read the same root CA |
| `AgwCredit.ValidationCredit` | internal/controller/agw_validation.go:42-84 | a validation Job that counts as done was created for the same request, after both Deployments were rolled out and ready and a UE pod ran |
| `AgwCredit.ReadyMeansRegistered` | internal/controller/magmaagw_controller.go:179-201 | behind every Ready=True of a registered gateway stands a succeeded Job that carried the payload of the reporting pass |
| `AgwCredit.ReadyMeansTrusted` | internal/controller/agw_lifecycle.go:138-166 | behind every Ready=True of a gateway with a volume stands a succeeded root CA Job of an earlier pass that had read the same root CA |
| `AgwJobs.JobNamesDiffer` | internal/controller/agw_lifecycle.go:139-139 | the Jobs of the protocols never share a name, whatever resource and release are called |
| `AgwStability.OneShotValidation` | internal/controller/agw_validation.go:42-84 | once the validation Job for a request exists it stays, so no later pass of the run creates another |
| `AgwCredit.ValidationCreated` | internal/controller/agw_validation.go:66-84 | a validation Job is created only when gNB and UE Deployments carry the rollout hash, are observed and ready, and a UE pod is running |
| `AgwConditions.ConditionSoundness` | internal/controller/magmaagw_controller.go:103-275 | in every state of every run, whatever Ready says, each condition persisted as True was written, for the generation it names, by a pass that did not find it there, whose update landed, and that had read the evidence for this condition; it has stayed since |
| `AgwConditions.FlowEarns` | internal/controller/magmaagw_controller.go:103-275 | every condition that a flow writes as True is the one it found or stands on what the flow's own stages had read |
| `AgwConditions.SyncedMeansTrusted` | internal/controller/agw_lifecycle.go:78-166 | behind every TrustBundleSynced=True of a gateway with a volume stands a succeeded Job of an earlier pass that had read the same root CA |
| `AgwConditions.RegisteredMeansRan` | internal/controller/agw_identity.go:165-244 | behind every GatewayRegistered=True stands a succeeded Job that carried the payload of the reporting pass |
| `AgwConditions.ValidatedMeansRan` | internal/controller/agw_validation.go:42-84 | behind every UERANSIMValidated=True stands a succeeded Job that an earlier pass created for the same request when everything was ready to validate |
| `AgwReasons.ValidationReport` | internal/controller/magmaagw_controller.go:260-273 | validation is reported passed if and only if the Job for the request has succeeded, failed if and only if it has failed, and the pass does not come back by itself if and only if one of the two holds |
| `AgwReasons.NoValidationReport` | internal/controller/agw_validation.go:29-36 | without validation the condition is absent, without a simulator it stays as it was, and neither brings the pass back |
| `AgwEvidence.ValidationNeedsSimulator` | internal/controller/agw_validation.go:66-155 | a validation Job is created only when both simulator Deployments carry the rollout hash, are observed, have enough ready and available replicas, and a pod labelled as UE is in phase Running |
| `AgwEvidence.RequestText` | internal/controller/agw_validation.go:281-284 | the key text is made of release name, trigger, UE Deployment, ping host, port, timeout and server, in this order |
| `AgwStability.PassSettlesIdentity` | internal/controller/agw_identity.go:51-137 | a pass that has read the resource and whose identity step succeeds leaves a settled identity, whatever its later steps do |
| `AgwStability.IdentityStable` | internal/controller/agw_identity.go:51-137 | under a fixed specification and imported entry the settled identity Secret is the same in every later state |
| `AgwStability.PayloadStable` | internal/controller/agw_identity.go:212-216 | the registration payload is then constant |
| `AgwStability.NoRegistrationChurn` | internal/controller/agw_identity.go:218-226 | a registration Job that matches it is never replaced |
| `AgwCarried.PayloadCarries` | internal/controller/agw_identity.go:443-466 | the payload of every pass has the identifiers, name, description and tier of the specification with their fallbacks, and the hardware ID and public key of the stored Secret |
| `AgwCarried.JobCarries` | internal/controller/agw_identity.go:211-243 | the registration Job that a pass creates carries the hardware ID and public key of the Secret that this pass leaves behind |
| `AgwCarried.RenderedSettings` | internal/controller/magmaagw_controller.go:112-159 | end to end into the manifest: release, namespace, stored challenge key and hardware ID, both interfaces, and the discovered Orc8r address, with the precedence of user values |
| `AgwCarried.OpenSettings` | internal/controller/magmaagw_controller.go:112-155 | interfaces, kernel module, namespace and placement settings are the user value, or else what the specification says |
| `AgwCarried.ForcedSettings` | internal/controller/magmaagw_controller.go:155-159 | challenge key, hardware ID, simulator switch and discovered address cannot be overridden |
| `AgwCarried.UserValuesKept` | internal/controller/magmaagw_controller.go:154-154 | every other user value is kept |
| `AgwCarried.AliasExact` | internal/controller/agw_lifecycle.go:51-76 | the Orc8r address is discovered if and only if aliases are not switched off and the service has a cluster address |
| `AgwCarried.PlacementLiterally` | internal/controller/native_runner.go:235-267 | from the fields of the specification to the field of the object: the simulator selector, the merged node selectors for node-prep, and these with the ready label for gated workloads |
| `AgwCarried.FlowDetails` | internal/controller/agw_identity.go:590-598 | every status written after the identity step names the Secret and repeats its hardware ID and key hash, the release and the generation |
| `AgwSimulator.SimulatorHeldBack` | internal/controller/magmaagw_controller.go:205-233 | with the simulator off, or waiting for a ConfigMap that does not say true in any case, an apply that ran to its end leaves no listed object in the cluster whose name contains ueransim, simulator or iperf3 |
| `AgwSimulator.SimulatorNotCreated` | internal/controller/magmaagw_controller.go:205-233 | meanwhile no pass, however it ends, creates such an object |
| `AgwSimulator.ListedApplied` | internal/controller/magmaagw_controller.go:205-233 | after an apply that ran to its end every listed object is in the cluster as the manifest has it, simulator objects included when the policy is Immediate or the gate is open |
| `AgwSimulator.PodsStay` | internal/controller/magmaagw_controller.go:395-417 | no pass touches a pod that it does not list, unless the pod is of its release and evicted for node affinity |
| `AgwSimulator.EvictedGo` | internal/controller/magmaagw_controller.go:395-417 | a pass whose clean-up step succeeds leaves no such evicted pod |
| `AgwSimulator.DeploymentsStay` | internal/controller/agw_lifecycle.go:224-263 | a pass keeps every Deployment it does not list, and the root CA rollout annotates no other than core Deployments of the release |
| `AgwSimulator.RolloutRestarts` | internal/controller/agw_validation.go:99-142 | a Deployment whose pod template was annotated is not ready until its controller has seen the change |
| `AgwPrepared.PreparedExact` | internal/controller/magmaagw_controller.go:497-528 | the check finds the datapath prepared if and only if the gateway has nodes, all are marked, and the node-prep DaemonSet has scheduled pods which are all ready |
| `AgwPrepared.NowReadyExact` | internal/controller/magmaagw_controller.go:419-456 | a label step in which nothing fails marks all nodes if and only if every scheduled node-prep pod is ready, and otherwise takes the mark away |
| `AgwPrepared.DatapathMeansPrepared` | internal/controller/magmaagw_controller.go:130-141 | behind every persisted DatapathReady=True stands a pass that saw that |
| `AgwAfterPass.DatapathAllOrNothing` | internal/controller/magmaagw_controller.go:243-253 | every gated pass that gets past the label step leaves labels and node-prep all or nothing; no pass changes other labels, other nodes or the selection |
| `AgwAfterPass.RootCANotUndone` | internal/controller/magmaagw_controller.go:161-233 | the manifest's own certificate Secret does not undo the root CA synchronised earlier in the pass |
| `AgwAfterPass.ReadyCarriesRootCA` | internal/controller/magmaagw_controller.go:161-275 | a flow that reports Ready leaves the certificate Secret holding the root CA it read |
| `AgwAfterPass.ReadyRollsOutRootCA` | internal/controller/agw_lifecycle.go:224-263 | a flow that reports Ready leaves every core Deployment of the release annotated with the hash of the root CA it read |
| `AgwBounded.PassProgress` | internal/controller/magmaagw_controller.go:92-275 | a pass in which nothing fails reports Ready, lowers the measure over finalizer, root CA Job, registration Job, node labels and gate, or has to wait for the cluster, and never raises the measure |
| `AgwBounded.PassReadyExact` | internal/controller/magmaagw_controller.go:103-275 | a pass in which nothing fails persists Ready=True for the current generation if and only if it has the evidence: trust, registration, datapath and gate |
| `AgwExample.ReadyIsPossible` | internal/controller/magmaagw_controller.go:103-275 | a gated, registered gateway with a volume and a manifest that lists node-prep meets all hypotheses of the convergence results, and the pass there reports Ready |
| `AgwEventually.PassMeasure` | internal/controller/magmaagw_controller.go:92-275 | no pass raises the measure, whatever fails, conflicts or waits in it |
| `AgwEventually.EnvMeasure` | internal/controller/magmaagw_controller.go:92-275 | a cooperative cluster never raises the measure |
| `AgwEventually.ReadyInTime` | internal/controller/magmaagw_controller.go:92-275 | over any run with one specification and a cooperative cluster, passes that fail, conflict or wait included, one of the first measure + 1 passes that find the prerequisites, meet no failure and have nothing to wait for writes Ready=True for the current generation |
| `AgwEventually.ReadyWithinTwelve` | internal/controller/magmaagw_controller.go:92-275 | twelve such passes are always enough |
| `AgwEventually.RootCAJobOnce` | internal/controller/agw_lifecycle.go:138-166 | under a fixed specification and root CA, and names used for nothing else, the root CA Job is deleted at most once and created at most once, whatever fails |
| `AgwEventually.RegistrationJobOnce` | internal/controller/agw_identity.go:218-243 | under a fixed specification, and names used for nothing else, the registration Job is deleted at most once and created at most once, whatever fails |
| `AgwRemoval.SmoothRemovalExact` | internal/controller/magmaagw_controller.go:326-373 | a deletion pass in which nothing fails removes the finalizer if and only if the requested deregistration Job has succeeded |
| `AgwRemoval.RemovalNotFurther` | internal/controller/magmaagw_controller.go:326-373 | no deletion pass, whatever fails in it, takes the deregistration Job away |
| `AgwRemoval.RemovedInTime` | internal/controller/magmaagw_controller.go:326-393 | over any deletion in which nobody else deletes the deregistration Job, passes that fail, conflict or wait included, one of the first measure + 1 productive passes, if not an earlier pass, removes the finalizer and leaves everything cleaned up; the measure is one while the deregistration Job is still to be created, and else zero |
| `AgwRemoval.RemovedWithinTwo` | internal/controller/magmaagw_controller.go:326-393 | two productive deletion passes are always enough |
| `Orc8rReconciler.Reconciler.Reconcile` | internal/controller/magmaorc8r_controller.go:67-150 | one pass, with its early returns and a failing read of the resource, is `Orc8rPass` on the whole cluster and the result |
| `Orc8rReconciler.Reconciler.ReconcileCertSecret` | internal/controller/orc8r_certs.go:30-75 | certificates for the domain are kept when they are there and generated otherwise |
| `Orc8rReconciler.Reconciler.AnnotateForSecretHash` | internal/controller/magmaorc8r_controller.go:152-180 | exactly the release's Deployments without the hash are patched, up to the first failure |
| `Orc8rReconciler.Reconciler.RecreateBootstrapJob` | internal/controller/magmaorc8r_controller.go:182-205 | a failed or outdated Job is deleted, an unmarked one is annotated, any other is left |
| `Orc8rReconciler.Reconciler.SetListValues` | internal/controller/native_runner.go:310-316 | one indexed entry per non-empty list element |
| `Orc8rReconciler.Reconciler.BuildValues` | internal/controller/magmaorc8r_controller.go:91-110 | the values of a pass, entry by entry, overridden by the user's own |
| `Orc8rReconciler.Reconciler.PatchForHttpNodePort` | internal/controller/magmaorc8r_controller.go:239-252 | the web Deployment is rewritten, and a missing one is an error |
| `Orc8rReconciler.Reconciler.UpdateStatus` | internal/controller/magmaorc8r_controller.go:264-289 | the status is written only on the version that was read |
| `Orc8rReconciler.Reconciler.ReconcileDeletion` | internal/controller/magmaorc8r_controller.go:223-237 | release deletion, then the finalizer, with the retry |
| `Orc8rRuns.CertsGeneratedOnce` | internal/controller/orc8r_certs.go:30-75 | over any run with one domain and host name, whatever else of the specification is edited, and no outside edit of the Secret, certificates are generated at most once and their hash is constant |
| `Orc8rRuns.CertsStay` | internal/controller/native_runner.go:79-95 | once there, the certificates and their domain annotation stay in every later state, native applies included |
| `Orc8rRuns.NeverRolledAgain` | internal/controller/magmaorc8r_controller.go:152-180 | a Deployment that carries the hash carries it in every later state |
| `Orc8rRuns.FlowKeepsRolled` | internal/controller/magmaorc8r_controller.go:112-145 | after the native apply no step of a pass touches such a Deployment, except the web Deployment's HTTP mode |
| `Orc8rRuns.Orc8rReadyMeans` | internal/controller/magmaorc8r_controller.go:112-149 | Ready means: certificates for the domain, their hash on every Deployment of the release, and no failed or unmarked bootstrap Job |
| `Orc8rHistory.Orc8rReadySoundness` | internal/controller/magmaorc8r_controller.go:112-149 | in every state of every run, a persisted Ready was written, for the generation it names, by a pass whose update landed and that left the certificates rolled out everywhere; the status has stayed since |
| `Orc8rHistory.Orc8rReadyForCurrentSpec` | internal/controller/magmaorc8r_controller.go:112-149 | when the status is up to date, they were rolled out for the specification as it is now |
| `Orc8rBootstrap.VisitExact` | internal/controller/magmaorc8r_controller.go:182-205 | a visit in which nothing fails deletes the bootstrap Job if and only if it has failed or has succeeded under another hash, and marks it otherwise |
| `Orc8rBootstrap.SpentIsReplaced` | internal/controller/magmaorc8r_controller.go:123-139 | after a smooth rollout such a Job is gone and the pass does not report Ready; any other carries the hash |
| `Orc8rBootstrap.FlowKeepsFinished` | internal/controller/magmaorc8r_controller.go:112-145 | whatever fails, no step after the native apply changes a Job that has succeeded |
| `Orc8rBootstrap.ReadyMeansBootstrapped` | internal/controller/magmaorc8r_controller.go:112-149 | behind every persisted Ready: a succeeded bootstrap Job had succeeded and carried the hash of the certificates in use when the reporting pass read the cluster |
| `Orc8rEvidence.InUseExact` | internal/controller/magmaorc8r_controller.go:112-149 | the rollout that Ready stands for is exactly: certificates with a root CA for this domain and host name, their hash on every Deployment of the release, and a bootstrap Job that carries it and has not failed |
| `Orc8rEvidence.ReadyMeansInUse` | internal/controller/magmaorc8r_controller.go:112-149 | behind every persisted Ready stands a pass that left the certificates in use |
| `Orc8rEvidence.CertificatesWritten` | internal/controller/orc8r_certs.go:30-75 | certificates that are missing or for another domain are replaced by the generated ones, with domain and hash annotations; others are left alone |
| `Orc8rEvidence.WebModeReached` | internal/controller/magmaorc8r_controller.go:239-252 | with a node port, Ready means that the web Deployment was put into HTTP mode |
| `Orc8rEvidence.HashRestarts` | internal/controller/magmaorc8r_controller.go:152-180 | the hash goes onto the pod template, starts a new generation and changes nothing else |
| `Orc8rEvidence.StatusWritten` | internal/controller/magmaorc8r_controller.go:264-289 | a written status names generation, release, namespace, reason and the NMS address with the node port |
| `Orc8rEvidence.Orc8rFlowReason` | internal/controller/magmaorc8r_controller.go:112-149 | a flow that does not end in Ready names a reason that was true; Ready has one reason |
| `Orc8rEvidence.Orc8rReasonSoundness` | internal/controller/magmaorc8r_controller.go:67-150 | in every state of every run, the reason of a persisted status was true of the cluster that the pass that wrote it saw and left |
| `Orc8rEvidence.Orc8rComesBack` | internal/controller/magmaorc8r_controller.go:112-149 | a pass ends with an error when its update fails, comes back after five seconds on a conflict, ten after replacing the Job, two minutes when not Ready, and not at all when Ready |
| `Orc8rSettings.DomainEntries` | internal/controller/magmaorc8r_controller.go:91-110 | domain and host name entries: the user value, or else the field of the specification |
| `Orc8rSettings.AdminEntries` | internal/controller/magmaorc8r_controller.go:91-110 | organization, administrator and each custom domain: the user value, or else the field of the specification |
| `Orc8rSettings.ProvisioningEntries` | internal/controller/magmaorc8r_controller.go:91-110 | network, subscriber and node port: the user value, or else the field of the specification |
| `Orc8rSettings.FixedEntries` | internal/controller/magmaorc8r_controller.go:91-110 | service type and nginx switch: the user value, or else NodePort and false |
| `Orc8rRuns.Orc8rRemovalExact` | internal/controller/magmaorc8r_controller.go:223-237 | when the finalizer goes, exactly the manifest objects are gone |
| `Orc8rRuns.Orc8rInert` | internal/controller/magmaorc8r_controller.go:82-89 | a pass over a resource without the finalizer touches no object |
| `Orc8rRuns.Orc8rNoLostWakeUp` | internal/controller/magmaorc8r_controller.go:67-150 | a pass asks for nothing more only if the resource is gone or going, or Ready was written for the current generation |

## Left out

- Cryptography, X.509, PEM, base64, JSON and YAML decoding: abstract functions, or parameters of a pass.
- YAML beyond the block style of the embedded manifests: kind, name and namespace are read from unquoted lines, broken wherever YAML breaks lines, with the last of several equal fields; quoted or flow scalars that reach over lines and document markers after a break inside a value are not modelled; the rest of a document is an uninterpreted function of its lines; a document that does not decode is the same as an apply that stops before its first object.
- Pod specifications, containers, volumes and Job scripts: the uninterpreted body of an object. A Deployment has containers exactly when it has an image.
- NativeRelease.NativeReleaseObjects: leaves out the node selectors, because the store keeps the body of an object uninterpreted; `ApplyNodeSelectors` and `PlacementExact` are about the rendered object and the values.
- Owner references and Secret types: setting them is part of the call that may fail. The rules of the validation's Role and the ends of its RoleBinding are fixed texts.
- Condition messages, their truncation, transition times and logs.
- Reasons of deregistration and of pending or failing validation steps are merged into blocked, pending and error, since only the requeue interval and the condition status depend on them.
- Server-side apply conflicts between field managers: the operator forces ownership, other managers' fields are kept.
- A random source that fails when a hardware ID is drawn is folded into the failing write of the identity Secret.
- Key rotation under policy Rotate: the code keeps the stored key, and the stability results are stated for policy Never.
- AgwCredit.RegistrationCredit: does not cover network ID, API host or certificate Secret name, because the payload hash does not.
- AgwFinalizer.RemovalExact: claims success of the deregistration Job, not that the gateway record is gone, because the Job's script ignores errors.
- AgwCredit.ValidationCreated: does not claim that ready replicas belong to the new ReplicaSet, because the code does not check updated replicas.
- Orc8rRuns.Orc8rReadyMeans: does not claim that the bootstrap Job ran with the certificates, because a running Job can be annotated afterwards.
- AgwFinalizer.NoLeak: is about one release name and about values within their lines, because only the current release name and node selector are cleaned up and other values can add objects that deletion does not find (`AgreementExact`).
- AgwEventually.ReadyInTime: counts the passes until Ready is first written; a volume claim that the manifest creates in that pass starts the root CA Job afterwards, and Ready is then False until it has succeeded.
- Time-to-live expiry of finished Jobs is an environment step of runs, and is excluded where a result says that others leave a Job alone.
- Several gateways that share one name and Orc8r namespace; a run follows one resource from its creation to its end.
- The watch set-up of the controllers, command-line wiring, generated code, and tests.
