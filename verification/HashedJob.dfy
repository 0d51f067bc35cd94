/**
 The one-shot Job keyed by a hash annotation: absent is created, stale is deleted, matching is
 waited for or credited.
 */
module HashedJob {
  import opened GoMaps
  import opened Objects

  datatype View = Missing | Stale | Running | Failed | Succeeded

  function Inspect(store: Store, key: ObjectKey, annotation: string, hash: string): View {
    if key !in store then Missing
    else if Get(store[key].annotations, annotation) != hash then Stale
    else if store[key].status.succeeded > 0 then Succeeded
    else if store[key].status.failed > 0 then Failed
    else Running
  }

  function NewJob(annotation: string, hash: string, body: string): Object {
    BLANK.(annotations := map[annotation := hash], body := body)
  }

  datatype Outcome =
    | Credited | Broken | Waiting | Replacing | Created
    | ReadFailed | DeleteFailed | CreateFailed

  datatype Step = Step(store: Store, outcome: Outcome)

  /** One visit to the Job; `faults` says which of get, delete and create fail. */
  function Advance(store: Store, key: ObjectKey, annotation: string, hash: string, body: string, faults: Faults): Step {
    if faults.get then Step(store, ReadFailed)
    else
      match Inspect(store, key, annotation, hash)
      case Stale => if faults.delete then Step(store, DeleteFailed) else Step(store - {key}, Replacing)
      case Succeeded => Step(store, Credited)
      case Failed => Step(store, Broken)
      case Running => Step(store, Waiting)
      case Missing =>
        if faults.create then Step(store, CreateFailed)
        else Step(store[key := NewJob(annotation, hash, body)], Created)
  }

  datatype Faults = Faults(get: bool, delete: bool, create: bool)

  /** How far the Job is from being credited; a failed Job stays where it is. */
  function Distance(view: View): nat {
    match view
    case Stale => 3
    case Missing => 2
    case Running | Failed => 1
    case Succeeded => 0
  }

  /**
   What a visit may do to the Job: delete it only when it is stale, create it only when it is
   missing and then for the desired hash and content, and otherwise leave it alone.
   */
  predicate Moves(a: Store, b: Store, key: ObjectKey, annotation: string, hash: string, body: string) {
    match Inspect(a, key, annotation, hash)
    case Stale => key in b ==> b[key] == a[key]
    case Missing => key in b ==> b[key] == NewJob(annotation, hash, body)
    case _ => key in b && b[key] == a[key]
  }

  lemma AdvanceMoves(store: Store, key: ObjectKey, annotation: string, hash: string, body: string, faults: Faults)
    ensures var after := Advance(store, key, annotation, hash, body, faults).store;
      && Moves(store, after, key, annotation, hash, body)
      && forall k :: k != key ==> (k in store <==> k in after) && (k in store ==> after[k] == store[k])
  {
  }
}
