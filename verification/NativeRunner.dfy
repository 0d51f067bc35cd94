/** The API server's contents, and the loops that apply and delete a native release. */
module NativeRunner {
  import opened GoMaps
  import opened Objects
  import opened Rendering
  import opened NativeRelease

  /** What the API server stores: the resource of one controller, objects, and nodes. */
  class ApiServer<C> {
    var cr: Option<C>
    var objects: Store
    var nodes: seq<Node>

    constructor (cr: Option<C>, objects: Store, nodes: seq<Node>)
      ensures this.cr == cr && this.objects == objects && this.nodes == nodes
    {
      this.cr, this.objects, this.nodes := cr, objects, nodes;
    }

    /** Deletes an object; one that does not exist is no error. */
    method DeleteObject(key: ObjectKey)
      modifies this`objects
      ensures objects == old(objects) - {key}
    {
      objects := objects - {key};
    }

    /** Keeps the data of a Secret that exists, and cleans its metadata. */
    method PreserveExistingSecret(key: ObjectKey) returns (found: bool)
      modifies this`objects
      ensures found <==> key in old(objects)
      ensures objects == if key in old(objects) then old(objects)[key := CleanMetadata(old(objects)[key])] else old(objects)
    {
      found := key in objects;
      if found {
        var current := objects[key];
        var labels, annotations, _ := NativeObjectMetadata(current.labels, current.annotations);
        objects := objects[key := current.(labels := labels, annotations := annotations)];
      }
    }

    /** Cleans the metadata of an object, with an update when one is needed. */
    method CleanObject(key: ObjectKey)
      requires key in objects
      modifies this`objects
      ensures objects == old(objects)[key := CleanMetadata(old(objects)[key])]
    {
      var current := objects[key];
      var labels, annotations, changed := NativeObjectMetadata(current.labels, current.annotations);
      if changed {
        objects := objects[key := current.(labels := labels, annotations := annotations)];
      } else {
        assert CleanMetadata(current) == current;
      }
    }

    /** One object; when interrupted, the update that cleans the metadata of an applied object fails. */
    method ReconcileObject(d: Desired, filter: Filter, immutable: set<ObjectKey>, interrupted: bool)
      modifies this`objects
      ensures objects == if interrupted then ApplyPartly(old(objects), d, filter, immutable) else ApplyOne(old(objects), d, filter, immutable)
    {
      if !Admits(filter, d.key.name) {
        DeleteObject(d.key);
        return;
      }
      if d.key.kind == Secret {
        var kept := PreserveExistingSecret(d.key);
        if kept {
          return;
        }
      }
      if d.key.kind == Job && d.key in immutable {
        DeleteObject(d.key);
        return;
      }
      objects := objects[d.key := ServerSideApply(objects, d)];
      if !interrupted {
        CleanObject(d.key);
      }
    }

    /** Applies the release object by object, up to the first request that fails. */
    method ReconcileNativeRelease(m: Manifest, target: Target, values: StringMap, filter: Filter, stop: Stop, immutable: set<ObjectKey>)
      returns (ok: bool)
      modifies this`objects
      ensures var desired := ReleaseObjects(m, target, values);
        && objects == ApplyUpTo(old(objects), desired, filter, immutable, stop)
        && ok == Completes(stop, |desired|)
    {
      hide Apply, ApplyOne, ApplyPartly, ReleaseObjects;
      var desired := NativeReleaseObjects(m, target, values);
      ApplyNone(objects, filter, immutable);
      assert desired[..0] == [];
      for i := 0 to |desired|
        invariant stop.Stop? ==> i <= stop.at
        invariant objects == Apply(old(objects), desired[..i], filter, immutable)
      {
        ApplyNext(old(objects), desired, filter, immutable, i);
        if stop.Stop? && i == stop.at {
          if stop.phase != Before {
            ReconcileObject(desired[i], filter, immutable, stop.phase == Midway);
          }
          return false;
        }
        ReconcileObject(desired[i], filter, immutable, false);
      }
      assert desired[..|desired|] == desired;
      return true;
    }

    /** Deletes the release object by object; it is rendered without values. */
    method DeleteNativeRelease(m: Manifest, target: Target, stop: Stop) returns (ok: bool)
      modifies this`objects
      ensures var doomed := ReleaseObjects(m, target, map[]);
        && objects == Delete(old(objects), doomed[..Handled(stop, |doomed|)])
        && ok == Completes(stop, |doomed|)
    {
      hide ReleaseObjects;
      var doomed := NativeReleaseObjects(m, target, map[]);
      for i := 0 to |doomed|
        invariant stop.Stop? ==> i <= stop.at
        invariant objects == Delete(old(objects), doomed[..i])
      {
        assert doomed[..i + 1][..i] == doomed[..i];
        if stop.Stop? && i == stop.at {
          if stop.phase == After {
            DeleteObject(doomed[i].key);
          }
          return false;
        }
        DeleteObject(doomed[i].key);
      }
      assert doomed[..|doomed|] == doomed;
      return true;
    }
  }

  lemma ApplyNone(store: Store, filter: Filter, immutable: set<ObjectKey>)
    ensures Apply(store, [], filter, immutable) == store
  {
  }

  lemma ApplyNext(store: Store, objects: seq<Desired>, filter: Filter, immutable: set<ObjectKey>, i: nat)
    requires i < |objects|
    ensures Apply(store, objects[..i + 1], filter, immutable) == ApplyOne(Apply(store, objects[..i], filter, immutable), objects[i], filter, immutable)
  {
    hide ApplyOne;
    assert objects[..i + 1][..i] == objects[..i];
  }

  // ----- Loops over listed objects -----

  /** How far a loop over listed objects has come: the done ones were served, the others are still to do. */
  ghost predicate Progress(all: set<ObjectKey>, todo: set<ObjectKey>, done: set<ObjectKey>, serves: ObjectKey -> bool) {
    todo + done == all && todo !! done && forall k :: k in done ==> serves(k)
  }

  lemma AllToDo(all: set<ObjectKey>, serves: ObjectKey -> bool)
    ensures Progress(all, all, {}, serves)
  {
  }

  lemma OneMore(all: set<ObjectKey>, todo: set<ObjectKey>, done: set<ObjectKey>, serves: ObjectKey -> bool, k: ObjectKey)
    requires Progress(all, todo, done, serves) && k in todo && serves(k)
    ensures Progress(all, todo - {k}, done + {k}, serves) && k in all && k !in done
  {
  }

  lemma NoneLeft(all: set<ObjectKey>, todo: set<ObjectKey>, done: set<ObjectKey>, serves: ObjectKey -> bool)
    requires Progress(all, todo, done, serves) && forall k :: k in todo ==> !serves(k)
    ensures done == Served(all, serves) && (todo == {} <==> done == all)
  {
  }
}
