/** The change events of a model (moonridge.js): the discriminator's save
    and remove hooks decide whether a saved document is reported as
    created or updated, using the set `newDocs` of ids saved while new;
    and the module keeps at most one user model. */
module ChangeEvents {
  import opened Shared

  /** An event emitted on the discriminator model. */
  datatype Emission = Created(id: Id) | Updated(id: Id) | Removed(id: Id)

  /** A hook firing: `pre('save')` with the document's `isNew`, `post('save')`,
      or `post('remove')`. */
  datatype Hook = PreSave(id: Id, isNew: bool) | PostSave(id: Id) | PostRemove(id: Id)

  /** The hooks' `newDocs` set and what they emit for one firing. */
  function Step(newDocs: set<Id>, h: Hook): (set<Id>, seq<Emission>)
  {
    match h
    case PreSave(id, isNew) => (if isNew then newDocs + {id} else newDocs, [])
    case PostSave(id) =>
      if id in newDocs then (newDocs - {id}, [Created(id)]) else (newDocs, [Updated(id)])
    case PostRemove(id) => (newDocs, [Removed(id)])
  }

  /** The hooks run over a sequence of firings: the final set and the emissions. */
  function Replay(newDocs: set<Id>, hs: seq<Hook>): (set<Id>, seq<Emission>)
    decreases |hs|
  {
    if |hs| == 0 then (newDocs, [])
    else
      var (n', e) := Step(newDocs, hs[0]);
      var (n'', es) := Replay(n', hs[1..]);
      (n'', e + es)
  }

  /** The `newDocs` hooks of one discriminator model. */
  class DiscriminatorHooks {
    var newDocs: set<Id>

    constructor ()
      ensures newDocs == {}
    {
      newDocs := {};
    }

    /** `pre('save')`: remember the id of a new document. */
    method OnPreSave(id: Id, isNew: bool)
      modifies this
      ensures newDocs == if isNew then old(newDocs) + {id} else old(newDocs)
    {
      if isNew {
        newDocs := newDocs + {id};
      }
    }

    /** `post('save')`: a remembered id is forgotten and reported as created;
        any other is reported as updated. */
    method OnPostSave(id: Id) returns (e: Emission)
      modifies this
      ensures id in old(newDocs) ==> e == Created(id)
      ensures id !in old(newDocs) ==> e == Updated(id)
      ensures id in old(newDocs) ==> newDocs == old(newDocs) - {id}
      ensures id !in old(newDocs) ==> newDocs == old(newDocs)
    {
      if id in newDocs {
        newDocs := newDocs - {id};
        e := Created(id);
      } else {
        e := Updated(id);
      }
    }

    /** `post('remove')`: always reported as removed. */
    method OnPostRemove(id: Id) returns (e: Emission)
      ensures e == Removed(id)
    {
      e := Removed(id);
    }

    /** Fire one hook on this model. */
    method Fire(h: Hook) returns (es: seq<Emission>)
      modifies this
      ensures (newDocs, es) == Step(old(newDocs), h)
    {
      match h {
        case PreSave(id, isNew) =>
          OnPreSave(id, isNew);
          es := [];
        case PostSave(id) =>
          var e := OnPostSave(id);
          es := [e];
        case PostRemove(id) =>
          var e := OnPostRemove(id);
          es := [e];
      }
    }
  }

  // ---------------------------------------------------------------------
  // What the classification guarantees
  // ---------------------------------------------------------------------

  /** Hooks that emit: every post hook emits exactly one event, a pre-save none. */
  function PostCount(hs: seq<Hook>): nat
    decreases |hs|
  {
    if |hs| == 0 then 0 else (if hs[0].PreSave? then 0 else 1) + PostCount(hs[1..])
  }

  /** How many pre-saves of a new document with this id. */
  function NewSaves(hs: seq<Hook>, id: Id): nat
    decreases |hs|
  {
    if |hs| == 0 then 0 else (if hs[0] == PreSave(id, true) then 1 else 0) + NewSaves(hs[1..], id)
  }

  /** How many `create` emissions for this id. */
  function CreatesOf(es: seq<Emission>, id: Id): nat
    decreases |es|
  {
    if |es| == 0 then 0 else (if es[0] == Created(id) then 1 else 0) + CreatesOf(es[1..], id)
  }

  lemma CreatesOfConcat(a: seq<Emission>, b: seq<Emission>, id: Id)
    ensures CreatesOf(a + b, id) == CreatesOf(a, id) + CreatesOf(b, id)
    decreases |a|
  {
    if |a| == 0 {
      assert a + b == b;
    } else {
      assert (a + b)[1..] == a[1..] + b;
      CreatesOfConcat(a[1..], b, id);
    }
  }

  /** One emission per post hook, in the order the hooks fired. */
  lemma {:induction false} OneEmissionPerPostHook(newDocs: set<Id>, hs: seq<Hook>)
    ensures |Replay(newDocs, hs).1| == PostCount(hs)
    decreases |hs|
  {
    if |hs| > 0 {
      OneEmissionPerPostHook(Step(newDocs, hs[0]).0, hs[1..]);
    }
  }

  /** A document is reported as created at most once per save made while it
      was new (plus once if it was already pending when the run began). */
  lemma {:induction false} CreatesBounded(newDocs: set<Id>, hs: seq<Hook>, id: Id)
    ensures CreatesOf(Replay(newDocs, hs).1, id) + (if id in Replay(newDocs, hs).0 then 1 else 0)
         <= NewSaves(hs, id) + (if id in newDocs then 1 else 0)
    decreases |hs|
  {
    if |hs| > 0 {
      var (n', e) := Step(newDocs, hs[0]);
      CreatesBounded(n', hs[1..], id);
      CreatesOfConcat(e, Replay(n', hs[1..]).1, id);
      assert e != [] ==> e[1..] == [];
    }
  }

  /** The lifecycle of a new document: its first save reports `create`, and
      each of `k` later saves (not new any more) reports `update`. */
  function Resaves(id: Id, k: nat): seq<Hook>
    decreases k
  {
    if k == 0 then [] else [PreSave(id, false), PostSave(id)] + Resaves(id, k - 1)
  }

  function Updates(id: Id, k: nat): seq<Emission>
    decreases k
  {
    if k == 0 then [] else [Updated(id)] + Updates(id, k - 1)
  }

  lemma {:induction false} ResavesUpdate(newDocs: set<Id>, id: Id, k: nat)
    requires id !in newDocs
    ensures Replay(newDocs, Resaves(id, k)) == (newDocs, Updates(id, k))
    decreases k
  {
    if k > 0 {
      var hs := Resaves(id, k);
      assert hs[0] == PreSave(id, false);
      assert hs[1..][0] == PostSave(id);
      assert hs[1..][1..] == Resaves(id, k - 1);
      ResavesUpdate(newDocs, id, k - 1);
      assert Replay(newDocs, hs[1..]) == (newDocs, [Updated(id)] + Updates(id, k - 1));
      assert Replay(newDocs, hs) == (newDocs, [] + ([Updated(id)] + Updates(id, k - 1)));
      assert [] + ([Updated(id)] + Updates(id, k - 1)) == Updates(id, k);
    }
  }

  lemma NewDocLifecycle(newDocs: set<Id>, id: Id, k: nat)
    requires id !in newDocs
    ensures Replay(newDocs, [PreSave(id, true), PostSave(id)] + Resaves(id, k)) == (newDocs, [Created(id)] + Updates(id, k))
  {
    var hs := [PreSave(id, true), PostSave(id)] + Resaves(id, k);
    assert hs[1..][1..] == Resaves(id, k);
    assert newDocs + {id} - {id} == newDocs;
    ResavesUpdate(newDocs, id, k);
    assert hs[0] == PreSave(id, true) && hs[1..][0] == PostSave(id);
    assert Replay(newDocs + {id}, hs[1..]) == (newDocs, [Created(id)] + Updates(id, k));
    assert Replay(newDocs, hs) == (newDocs, [] + ([Created(id)] + Updates(id, k)));
    assert [] + ([Created(id)] + Updates(id, k)) == [Created(id)] + Updates(id, k);
  }

  // ---------------------------------------------------------------------
  // The user model
  // ---------------------------------------------------------------------

  /** A model built by `MRModel`, known by its name. */
  type ModelHandle = string

  /** `registerUserModel`: the outcome for the current user model: the new
      user model, or a throw when one is already registered. */
  function Register(current: Option<ModelHandle>, m: ModelHandle): Option<ModelHandle>
  {
    if current.Some? then None else Some(m)
  }

  /** Registering user models one after another from none: only the first
      succeeds and it stays the user model. */
  function RegisterAll(current: Option<ModelHandle>, ms: seq<ModelHandle>): (Option<ModelHandle>, nat)
    decreases |ms|
  {
    if |ms| == 0 then (current, 0)
    else match Register(current, ms[0])
      case None => var (u, n) := RegisterAll(current, ms[1..]); (u, n)
      case Some(u) => var (u', n) := RegisterAll(Some(u), ms[1..]); (u', n + 1)
  }

  lemma {:induction false} OnlyFirstRegisters(current: Option<ModelHandle>, ms: seq<ModelHandle>)
    ensures current.Some? ==> RegisterAll(current, ms) == (current, 0)
    ensures current.None? && |ms| > 0 ==> RegisterAll(current, ms) == (Some(ms[0]), 1)
    ensures current.None? && |ms| == 0 ==> RegisterAll(current, ms) == (None, 0)
    decreases |ms|
  {
    if |ms| > 0 {
      OnlyFirstRegisters(Some(ms[0]), ms[1..]);
      if current.Some? {
        OnlyFirstRegisters(current, ms[1..]);
      }
    }
  }

  /** The module state of moonridge.js that registration touches. */
  class Moonridge {
    var userModel: Option<ModelHandle>
    var models: map<string, ModelHandle>

    constructor ()
      ensures userModel == None && models == map[]
    {
      userModel := None;
      models := map[];
    }

    /** `registerUserModel(schemaExtend, opts)`, given the model `MRModel`
        builds: throws when a user model exists; otherwise it becomes the
        user model and is listed under "user". */
    method RegisterUserModel(m: ModelHandle) returns (threw: bool)
      modifies this
      ensures threw <==> old(userModel).Some?
      ensures threw ==> unchanged(this)
      ensures !threw ==> userModel == Some(m) && models == old(models)["user" := m]
      ensures !threw ==> userModel == Register(old(userModel), m)
    {
      if userModel.Some? {
        return true;
      }
      userModel := Some(m);
      models := models["user" := m];
      return false;
    }
  }
}
