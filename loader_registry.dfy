/**
 * The state the adapters share and drive: the `Multimap<String, Integer>`
 * of loader ids per pipe name (injected with `setLoaderIds`, so several
 * adapters may share it), and the LoaderManager's table of live loaders.
 * The pure functions at the top are the specification the methods of the
 * two classes and of the adapter are proved against.
 */
module LoaderRegistry {
  import opened Wrappers
  import opened PipelineTypes
  import opened Requests

  /** `idsForNamedPipes.get(name)`: the ids under `name`, empty when there are none. */
  function Registered(ids: map<string, seq<int>>, name: string): seq<int>
  {
    if name in ids then ids[name] else []
  }

  /** `idsForNamedPipes.put(name, id)`, list-multimap semantics: the id is appended, even if already present. */
  function AddId(ids: map<string, seq<int>>, name: string, id: int): (r: map<string, seq<int>>)
    ensures Registered(r, name) == Registered(ids, name) + [id]
    ensures forall other :: other != name ==> Registered(r, other) == Registered(ids, other)
  {
    ids[name := Registered(ids, name) + [id]]
  }

  /** `idsForNamedPipes.removeAll(name)`. */
  function ForgetName(ids: map<string, seq<int>>, name: string): (r: map<string, seq<int>>)
    ensures Registered(r, name) == []
    ensures forall other :: other != name ==> Registered(r, other) == Registered(ids, other)
  {
    ids - {name}
  }

  /** The loader table once every id of `ids` has been reset (destroyed if live). */
  function Destroyed(loaders: map<int, LoaderSpec>, ids: seq<int>): (r: map<int, LoaderSpec>)
    ensures forall id :: id in r <==> id in loaders && id !in ids
    ensures forall id :: id in r ==> r[id] == loaders[id]
  {
    map id | id in loaders && id !in ids :: loaders[id]
  }

  lemma DestroyedStep(loaders: map<int, LoaderSpec>, ids: seq<int>, i: nat)
    requires i < |ids|
    ensures Destroyed(Destroyed(loaders, ids[..i]), [ids[i]]) == Destroyed(loaders, ids[..i + 1])
  {
    assert ids[..i + 1] == ids[..i] + [ids[i]];
  }

  /** The shared registry together with the live loaders of one LoaderManager. */
  datatype LoaderState = LoaderState(ids: map<string, seq<int>>, loaders: map<int, LoaderSpec>)

  /**
   * `initLoader(id, bundle)` for the pipe `name`: a live loader with that id is
   * reused untouched; otherwise `onCreateLoader` registers the id and then
   * either installs the new loader or throws, installing nothing.
   */
  function StartLoader(st: LoaderState, name: string, f: Flavour, scope: Option<Scope>, pipe: Pipe,
                       id: int, b: Bundle): (LoaderState, Outcome<Error>)
  {
    if id in st.loaders then (st, Pass)
    else
      var ids := AddId(st.ids, name, id);
      match CreateLoader(f, scope, pipe, b)
      case Success(loader) => (LoaderState(ids, st.loaders[id := loader]), Pass)
      case Failure(e) => (LoaderState(ids, st.loaders), Fail(e))
  }

  /**
   * `initLoader(id, bundle)` before `setLoaderIds`: a live loader is still
   * reused, but creating one throws at `idsForNamedPipes.put`, before
   * anything changes.
   */
  function StartWithoutRegistry(loaders: map<int, LoaderSpec>, id: int): Outcome<Error>
  {
    if id in loaders then Pass else Fail(NullPointer)
  }

  /** A whole dispatching call: the id and bundle of `op`, then `initLoader`. */
  function Dispatch(st: LoaderState, name: string, f: Flavour, scope: Option<Scope>, pipe: Pipe,
                    op: Operation, callback: Callback): (LoaderState, Outcome<Error>)
  {
    StartLoader(st, name, f, scope, pipe, OperationId(name, op, callback), MakeBundle(pipe, op, callback))
  }

  /** `reset()` for the pipe `name`: reset every id under `name`, then forget them. */
  function ResetState(st: LoaderState, name: string): LoaderState
  {
    LoaderState(ForgetName(st.ids, name), Destroyed(st.loaders, Registered(st.ids, name)))
  }

  /**
   * The registry is updated before the callback is verified: a call whose
   * callback is rejected still leaves its id registered, and installs no loader.
   */
  lemma StartLoaderRegistersBeforeVerifying(st: LoaderState, name: string, f: Flavour, scope: Option<Scope>,
                                            pipe: Pipe, id: int, b: Bundle)
    requires id !in st.loaders
    ensures var (st', r) := StartLoader(st, name, f, scope, pipe, id, b);
      && Registered(st'.ids, name) == Registered(st.ids, name) + [id]
      && (forall other :: other != name ==> Registered(st'.ids, other) == Registered(st.ids, other))
      && (r.Fail? <==> CreateLoader(f, scope, pipe, b).Failure?)
      && (r.Fail? ==> st'.loaders == st.loaders && r.error == CreateLoader(f, scope, pipe, b).error)
      && (r.Pass? ==> st'.loaders == st.loaders[id := CreateLoader(f, scope, pipe, b).value])
  {
  }

  /**
   * End to end: a call on a pipe whose id already has a live loader changes
   * nothing and succeeds; otherwise it registers the id and either installs
   * exactly the loader the call asked for, or installs nothing and throws
   * `verifyCallback`'s exception or, for a save, the null-body or parser
   * failure.
   */
  lemma {:induction false} DispatchOutcome(st: LoaderState, name: string, f: Flavour, scope: Option<Scope>,
                                           pipe: Pipe, op: Operation, callback: Callback)
    ensures var id := OperationId(name, op, callback);
      var verdict := VerifyCallback(f, scope, callback.kind);
      var requested := RequestedLoader(pipe, op, callback);
      var (st', r) := Dispatch(st, name, f, scope, pipe, op, callback);
      && (id in st.loaders ==> st' == st && r == Pass)
      && (id !in st.loaders ==>
            && st'.ids == AddId(st.ids, name, id)
            && (r.Pass? <==> verdict.Pass? && requested.Success?)
            && (r.Pass? ==> st'.loaders == st.loaders[id := requested.value])
            && (r.Fail? ==> st'.loaders == st.loaders)
            && (r.Fail? ==> r.error == if verdict.Fail? then verdict.error else requested.error))
  {
    CreateLoaderOfOperation(f, scope, pipe, op, callback);
  }

  /**
   * `read(null, cb)` and `remove(null, cb)` share an id, since both arguments
   * hash to 0 and the method is not hashed.  So once the read has succeeded,
   * the remove finds the read's loader live, reuses it and changes nothing:
   * no RemoveLoader is created.
   */
  lemma NullRemoveReusesNullFilterRead(st: LoaderState, name: string, f: Flavour, scope: Option<Scope>,
                                       pipe: Pipe, callback: Callback)
    requires Dispatch(st, name, f, scope, pipe, ReadFiltered(None), callback).1.Pass?
    ensures var id := OperationId(name, ReadFiltered(None), callback);
      var st1 := Dispatch(st, name, f, scope, pipe, ReadFiltered(None), callback).0;
      && OperationId(name, Remove(None), callback) == id
      && (id !in st.loaders ==> st1.loaders[id] == ReadLoader(callback, None))
      && Dispatch(st1, name, f, scope, pipe, Remove(None), callback) == (st1, Pass)
  {
    var id := OperationId(name, ReadFiltered(None), callback);
    OperationIdSeparatesArguments(name, ReadFiltered(None), Remove(None), callback);
    DispatchOutcome(st, name, f, scope, pipe, ReadFiltered(None), callback);
    var st1 := Dispatch(st, name, f, scope, pipe, ReadFiltered(None), callback).0;
    assert id in st1.loaders;
    DispatchOutcome(st1, name, f, scope, pipe, Remove(None), callback);
  }

  /**
   * After `reset`, nothing is registered under the pipe's name, every other
   * name keeps its ids, and the only loaders gone are those whose ids were
   * registered under the name.
   */
  lemma ResetForgetsOnlyItsName(st: LoaderState, name: string)
    ensures Registered(ResetState(st, name).ids, name) == []
    ensures forall other :: other != name ==> Registered(ResetState(st, name).ids, other) == Registered(st.ids, other)
    ensures forall id :: id in ResetState(st, name).loaders <==> id in st.loaders && id !in Registered(st.ids, name)
    ensures forall id :: id in ResetState(st, name).loaders ==> ResetState(st, name).loaders[id] == st.loaders[id]
  {
  }

  /** A second `reset` does nothing. */
  lemma ResetIsIdempotent(st: LoaderState, name: string)
    ensures ResetState(ResetState(st, name), name) == ResetState(st, name)
  {
    var once := ResetState(st, name);
    assert Registered(once.ids, name) == [];
    assert Destroyed(once.loaders, []) == once.loaders;
    assert ForgetName(once.ids, name) == once.ids;
  }

  /**
   * Ids are shared by value, not owned per name: when an id is registered
   * under two names, resetting one destroys the loader the other still lists.
   */
  lemma ResetDestroysSharedId(st: LoaderState, name: string, other: string, id: int)
    requires other != name && id in st.loaders
    requires id in Registered(st.ids, name) && id in Registered(st.ids, other)
    ensures id !in ResetState(st, name).loaders
    ensures id in Registered(ResetState(st, name).ids, other)
  {
  }

  /** The injected `Multimap<String, Integer>`. */
  class LoaderIds {
    var ids: map<string, seq<int>>

    constructor ()
      ensures ids == map[]
    {
      ids := map[];
    }

    method Get(name: string) returns (r: seq<int>)
      ensures r == Registered(ids, name)
    {
      r := Registered(ids, name);
    }

    method Put(name: string, id: int)
      modifies this
      ensures ids == AddId(old(ids), name, id)
    {
      var current := Get(name);
      ids := ids[name := current + [id]];
    }

    method RemoveAll(name: string)
      modifies this
      ensures ids == ForgetName(old(ids), name)
    {
      ids := ids - {name};
    }
  }

  /**
   * A LoaderManager, reduced to its table of live loaders by id.  Whether a
   * loader is live is the only thing the adapters ask of it.
   */
  class LoaderManager {
    var loaders: map<int, LoaderSpec>

    constructor ()
      ensures loaders == map[]
    {
      loaders := map[];
    }

    /** `getLoader(id)`; `None` is `null`. */
    method GetLoader(id: int) returns (r: Option<LoaderSpec>)
      ensures r == if id in loaders then Some(loaders[id]) else None
    {
      r := if id in loaders then Some(loaders[id]) else None;
    }

    method DestroyLoader(id: int)
      modifies this
      ensures loaders == Destroyed(old(loaders), [id])
    {
      loaders := loaders - {id};
    }

    /** Creation half of `initLoader`: keep the loader `onCreateLoader` returned. */
    method InstallLoader(id: int, loader: LoaderSpec)
      modifies this
      ensures loaders == old(loaders)[id := loader]
    {
      loaders := loaders[id := loader];
    }

    /** `LoaderManagerOperations.reset(id)`: destroy the loader only if `getLoader(id)` finds one. */
    method ResetLoader(id: int)
      modifies this
      ensures loaders == Destroyed(old(loaders), [id])
      ensures id !in old(loaders) ==> loaders == old(loaders)
    {
      var loader := GetLoader(id);
      if loader.Some? {
        DestroyLoader(id);
      }
    }
  }
}
