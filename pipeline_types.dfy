/**
 * The values and objects the loader adapters pass around: the pipe's items
 * and filters, the callbacks results are delivered to, the scope (Activity
 * or Fragment) a callback may be bound to, and the exceptions thrown.
 */
module PipelineTypes {
  import opened JavaInt
  import opened Wrappers

  /** An Activity or Fragment reference; a possibly-null one is an `Option<Scope>`. */
  datatype Scope = Scope(ref: nat)

  /** An item of the pipe's element type `T`; only its `hashCode` matters to the adapters. */
  datatype Item = Item(hashCode: Int32)

  /** A `ReadFilter`; opaque to the adapters apart from its `hashCode`. */
  datatype ReadFilter = ReadFilter(hashCode: Int32)

  /** What a finished loader hands to `onLoadFinished`: a list (read), an item (save) or nothing (remove). */
  datatype LoadResult = Items(items: seq<Item>) | SavedItem(item: Item) | NoResult

  datatype Exception = Exception(message: string)

  /** The exceptions the adapters throw, or let through from the pipe's response parser. */
  datatype Error =
    | IllegalState(message: string)
    | NullPointer
    | ParserError(exception: Exception)

  /**
   * The runtime class of a callback, as the `instanceof` tests see it.  The
   * four abstract callback classes are unrelated, so a callback is at most one
   * of them; `Plain` is any other `Callback`.
   */
  datatype CallbackKind =
    | Plain
    | ActivityCallback          // AbstractActivityCallback
    | FragmentCallback          // AbstractFragmentCallback
    | FragmentActivityCallback  // support.AbstractFragmentActivityCallback
    | SupportFragmentCallback   // support.AbstractSupportFragmentCallback

  /** Calls a callback observes, in order: a `setActivity`/`setFragment`, an `onSuccess` or an `onFailure`. */
  datatype Event =
    | Bind(scope: Option<Scope>)
    | Succeeded(data: LoadResult)
    | Failed(exception: Exception)

  /**
   * A `Callback` object.  `scope` is the Activity or Fragment field of the
   * scope-aware callback classes; `log` records the calls the callback has
   * received, so that delivery can be stated as what the callback saw.
   */
  class Callback {
    const kind: CallbackKind
    const hashCode: Int32
    var scope: Option<Scope>
    var log: seq<Event>

    constructor (kind: CallbackKind, hashCode: Int32)
      ensures this.kind == kind && this.hashCode == hashCode
      ensures scope == None && log == []
    {
      this.kind := kind;
      this.hashCode := hashCode;
      scope := None;
      log := [];
    }

    /** `setActivity(s)` / `setFragment(s)`. */
    method SetScope(s: Option<Scope>)
      modifies this
      ensures scope == s && log == old(log) + [Bind(s)]
    {
      scope := s;
      log := log + [Bind(s)];
    }

    method OnSuccess(data: LoadResult)
      modifies this
      ensures scope == old(scope) && log == old(log) + [Succeeded(data)]
    {
      log := log + [Succeeded(data)];
    }

    method OnFailure(e: Exception)
      modifies this
      ensures scope == old(scope) && log == old(log) + [Failed(e)]
    {
      log := log + [Failed(e)];
    }
  }

  /** The three adapter classes: ActivityLoaderAdapter, FragmentLoaderAdapter, SupportFragmentLoaderAdapter. */
  datatype Flavour = ActivityAdapter | FragmentAdapter | SupportFragmentAdapter

  /** The callback class an adapter binds its own scope (activity or fragment) into. */
  function ScopedKind(f: Flavour): CallbackKind
  {
    match f
    case ActivityAdapter => ActivityCallback
    case FragmentAdapter => FragmentCallback
    case SupportFragmentAdapter => FragmentCallback
  }

  const NO_ACTIVITY := "An AbstractActivityCallback was supplied, but there is no Activity."
  const NO_FRAGMENT := "An AbstractFragmentCallback was supplied, but there is no Fragment."
  const FRAGMENT_ACTIVITY_CALLBACK := "An AbstractFragmentActivityCallback was supplied, but this is the modern Loader."
  const SUPPORT_FRAGMENT_CALLBACK := "An AbstractSupportFragmentCallback was supplied, but this is the modern Loader."
  const UNSUPPORTED_LOADER := "Adapter is listening to loaders which it doesn't support"

  /**
   * `verifyCallback`: a callback of the adapter's scope-aware class needs the
   * scope to be present; the two support-library callback classes are always
   * refused; anything else is accepted.
   */
  function VerifyCallback(f: Flavour, scope: Option<Scope>, kind: CallbackKind): (r: Outcome<Error>)
    ensures r.Pass? <==>
      (kind == ScopedKind(f) ==> scope.Some?)
      && kind != FragmentActivityCallback && kind != SupportFragmentCallback
    ensures r.Fail? ==> r.error.IllegalState?
  {
    if kind == ScopedKind(f) then
      if scope.None? then Fail(IllegalState(if f.ActivityAdapter? then NO_ACTIVITY else NO_FRAGMENT))
      else Pass
    else if kind == FragmentActivityCallback then Fail(IllegalState(FRAGMENT_ACTIVITY_CALLBACK))
    else if kind == SupportFragmentCallback then Fail(IllegalState(SUPPORT_FRAGMENT_CALLBACK))
    else Pass
  }

  /** ActivityLoaderAdapter.verifyCallback, case by case with its messages. */
  lemma ActivityVerifyCallbackTable(activity: Option<Scope>, kind: CallbackKind)
    ensures kind == ActivityCallback && activity.None? ==>
      VerifyCallback(ActivityAdapter, activity, kind) == Fail(IllegalState(NO_ACTIVITY))
    ensures kind == FragmentActivityCallback ==>
      VerifyCallback(ActivityAdapter, activity, kind) == Fail(IllegalState(FRAGMENT_ACTIVITY_CALLBACK))
    ensures kind == SupportFragmentCallback ==>
      VerifyCallback(ActivityAdapter, activity, kind) == Fail(IllegalState(SUPPORT_FRAGMENT_CALLBACK))
    ensures kind in {Plain, FragmentCallback} || (kind == ActivityCallback && activity.Some?) <==>
      VerifyCallback(ActivityAdapter, activity, kind) == Pass
  {
  }

  /** FragmentLoaderAdapter.verifyCallback, case by case with its messages. */
  lemma FragmentVerifyCallbackTable(fragment: Option<Scope>, kind: CallbackKind)
    ensures kind == FragmentCallback && fragment.None? ==>
      VerifyCallback(FragmentAdapter, fragment, kind) == Fail(IllegalState(NO_FRAGMENT))
    ensures kind == FragmentActivityCallback ==>
      VerifyCallback(FragmentAdapter, fragment, kind) == Fail(IllegalState(FRAGMENT_ACTIVITY_CALLBACK))
    ensures kind == SupportFragmentCallback ==>
      VerifyCallback(FragmentAdapter, fragment, kind) == Fail(IllegalState(SUPPORT_FRAGMENT_CALLBACK))
    ensures kind in {Plain, ActivityCallback} || (kind == FragmentCallback && fragment.Some?) <==>
      VerifyCallback(FragmentAdapter, fragment, kind) == Pass
  {
  }

  /** SupportFragmentLoaderAdapter.verifyCallback: the same table as the Fragment adapter's. */
  lemma SupportFragmentVerifyCallbackTable(fragment: Option<Scope>, kind: CallbackKind)
    ensures VerifyCallback(SupportFragmentAdapter, fragment, kind) == VerifyCallback(FragmentAdapter, fragment, kind)
    ensures VerifyCallback(SupportFragmentAdapter, fragment, kind).Fail? <==>
      (kind == FragmentCallback && fragment.None?) || kind in {FragmentActivityCallback, SupportFragmentCallback}
  {
  }
}
