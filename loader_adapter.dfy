/**
 * A pipe wrapped in Loaders: ActivityLoaderAdapter, FragmentLoaderAdapter and
 * SupportFragmentLoaderAdapter (via AbstractLoaderAdapter) differ only in the
 * scope they hold and in the callback class they bind it into, so one class
 * with a `Flavour` models all three.
 */
module LoaderAdapters {
  import opened Wrappers
  import opened PipelineTypes
  import opened Requests
  import opened LoaderRegistry
  import opened CallbackHandler

  /** The loader `onLoadFinished` receives: one of the pipe loaders, or a loader of any other class. */
  datatype FinishedLoader =
    | PipeLoader(callback: Callback, exception: Option<Exception>)
    | ForeignLoader

  class LoaderAdapter {
    const name: string
    const flavour: Flavour
    /** The adapter's `activity` or `fragment` field. */
    const scope: Option<Scope>
    const pipe: Pipe
    const manager: LoaderManager
    /** `idsForNamedPipes`: null until `setLoaderIds`. */
    var registry: LoaderIds?
    /** The `CallbackHandler`s posted to the main-thread handler, oldest first. */
    var posted: seq<Delivery>

    constructor (flavour: Flavour, scope: Option<Scope>, pipe: Pipe, name: string, manager: LoaderManager)
      ensures this.flavour == flavour && this.scope == scope && this.pipe == pipe
      ensures this.name == name && this.manager == manager
      ensures registry == null && posted == []
    {
      this.flavour := flavour;
      this.scope := scope;
      this.pipe := pipe;
      this.name := name;
      this.manager := manager;
      registry := null;
      posted := [];
    }

    /** The registry and the loader table together. */
    function State(): LoaderState
      requires registry != null
      reads this, registry, manager
    {
      LoaderState(registry.ids, manager.loaders)
    }

    method SetLoaderIds(ids: LoaderIds)
      modifies this
      ensures registry == ids && posted == old(posted)
    {
      registry := ids;
    }

    /** `read(callback)`. */
    method Read(callback: Callback) returns (r: Outcome<Error>)
      modifies registry, manager
      ensures old(registry) == null ==>
        manager.loaders == old(manager.loaders) &&
        r == StartWithoutRegistry(old(manager.loaders), OperationId(name, ReadAll, callback))
      ensures old(registry) != null ==>
        (State(), r) == Dispatch(old(State()), name, flavour, scope, pipe, ReadAll, callback)
    {
      r := InitLoader(OperationId(name, ReadAll, callback), MakeBundle(pipe, ReadAll, callback));
    }

    /** `read(filter, callback)`. */
    method ReadFiltered(filter: Option<ReadFilter>, callback: Callback) returns (r: Outcome<Error>)
      modifies registry, manager
      ensures old(registry) == null ==>
        manager.loaders == old(manager.loaders) &&
        r == StartWithoutRegistry(old(manager.loaders), OperationId(name, Operation.ReadFiltered(filter), callback))
      ensures old(registry) != null ==>
        (State(), r) == Dispatch(old(State()), name, flavour, scope, pipe, Operation.ReadFiltered(filter), callback)
    {
      var op := Operation.ReadFiltered(filter);
      r := InitLoader(OperationId(name, op, callback), MakeBundle(pipe, op, callback));
    }

    /** `readWithFilter(filter, callback)`: the same as `read(filter, callback)`. */
    method ReadWithFilter(filter: Option<ReadFilter>, callback: Callback) returns (r: Outcome<Error>)
      modifies registry, manager
      ensures old(registry) == null ==>
        manager.loaders == old(manager.loaders) &&
        r == StartWithoutRegistry(old(manager.loaders), OperationId(name, Operation.ReadFiltered(filter), callback))
      ensures old(registry) != null ==>
        (State(), r) == Dispatch(old(State()), name, flavour, scope, pipe, Operation.ReadFiltered(filter), callback)
    {
      r := ReadFiltered(filter, callback);
    }

    /** `save(item, callback)`. */
    method Save(item: Item, callback: Callback) returns (r: Outcome<Error>)
      modifies registry, manager
      ensures old(registry) == null ==>
        manager.loaders == old(manager.loaders) &&
        r == StartWithoutRegistry(old(manager.loaders), OperationId(name, Operation.Save(item), callback))
      ensures old(registry) != null ==>
        (State(), r) == Dispatch(old(State()), name, flavour, scope, pipe, Operation.Save(item), callback)
    {
      var op := Operation.Save(item);
      r := InitLoader(OperationId(name, op, callback), MakeBundle(pipe, op, callback));
    }

    /** `remove(toRemoveId, callback)`. */
    method Remove(toRemoveId: Option<string>, callback: Callback) returns (r: Outcome<Error>)
      modifies registry, manager
      ensures old(registry) == null ==>
        manager.loaders == old(manager.loaders) &&
        r == StartWithoutRegistry(old(manager.loaders), OperationId(name, Operation.Remove(toRemoveId), callback))
      ensures old(registry) != null ==>
        (State(), r) == Dispatch(old(State()), name, flavour, scope, pipe, Operation.Remove(toRemoveId), callback)
    {
      var op := Operation.Remove(toRemoveId);
      r := InitLoader(OperationId(name, op, callback), MakeBundle(pipe, op, callback));
    }

    /**
     * `initLoader(id, bundle, this)`, forwarded unchanged to the LoaderManager:
     * reuse a live loader, otherwise create one through `onCreateLoader`.
     */
    method InitLoader(id: int, bundle: Bundle) returns (r: Outcome<Error>)
      modifies registry, manager
      ensures old(registry) == null ==>
        manager.loaders == old(manager.loaders) && r == StartWithoutRegistry(old(manager.loaders), id)
      ensures old(registry) != null ==>
        (State(), r) == StartLoader(old(State()), name, flavour, scope, pipe, id, bundle)
    {
      var live := manager.GetLoader(id);
      if live.Some? {
        return Pass;
      }
      var created := OnCreateLoader(id, bundle);
      match created
      case Success(loader) =>
        manager.InstallLoader(id, loader);
        r := Pass;
      case Failure(e) =>
        r := Fail(e);
    }

    /**
     * `onCreateLoader(id, bundle)`: registers `(name, id)` first (which throws
     * before `setLoaderIds`), then verifies the callback and builds the loader
     * named by METHOD.
     */
    method OnCreateLoader(id: int, bundle: Bundle) returns (r: Result<LoaderSpec, Error>)
      modifies registry
      ensures old(registry) == null ==> r == Failure(NullPointer)
      ensures old(registry) != null ==>
        registry.ids == AddId(old(registry.ids), name, id) && r == CreateLoader(flavour, scope, pipe, bundle)
    {
      if registry == null {
        return Failure(NullPointer);
      }
      registry.Put(name, id);
      r := CreateLoader(flavour, scope, pipe, bundle);
    }

    /**
     * `reset()`: reset every id registered under this pipe's name (destroying
     * the live ones), then remove all of the name's entries.  Before
     * `setLoaderIds` it throws at once.
     */
    method Reset() returns (r: Outcome<Error>)
      modifies registry, manager
      ensures old(registry) == null ==> r == Fail(NullPointer) && manager.loaders == old(manager.loaders)
      ensures old(registry) != null ==> r == Pass && State() == ResetState(old(State()), name)
    {
      if registry == null {
        return Fail(NullPointer);
      }
      var ids := registry.Get(name);
      for i := 0 to |ids|
        invariant registry.ids == old(registry.ids)
        invariant manager.loaders == Destroyed(old(manager.loaders), ids[..i])
      {
        DestroyedStep(old(manager.loaders), ids, i);
        manager.ResetLoader(ids[i]);
      }
      registry.RemoveAll(name);
      r := Pass;
    }

    /**
     * `onLoadFinished(loader, data)`: a loader that is not a pipe loader is
     * refused; otherwise exactly one `CallbackHandler` is posted, carrying the
     * loader's callback and exception, this adapter's scope and the data.
     */
    method OnLoadFinished(loader: FinishedLoader, data: LoadResult) returns (r: Outcome<Error>)
      modifies this
      ensures registry == old(registry)
      ensures loader.ForeignLoader? ==> r == Fail(IllegalState(UNSUPPORTED_LOADER)) && posted == old(posted)
      ensures loader.PipeLoader? ==>
        r == Pass && posted == old(posted) + [Delivery(loader.callback, loader.exception, scope, data, ScopedKind(flavour))]
    {
      if !loader.PipeLoader? {
        return Fail(IllegalState(UNSUPPORTED_LOADER));
      }
      posted := posted + [Delivery(loader.callback, loader.exception, scope, data, ScopedKind(flavour))];
      r := Pass;
    }
  }
}
