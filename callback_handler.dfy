/**
 * The `CallbackHandler` runnable that `onLoadFinished` posts to the main
 * thread: it calls exactly one of `onFailure` / `onSuccess`, and binds the
 * adapter's scope into a scope-aware callback around that call.
 */
module CallbackHandler {
  import opened Wrappers
  import opened PipelineTypes

  /**
   * One posted `CallbackHandler`: the finished loader's callback and exception
   * (`hasException()` / `getException()`), the adapter's activity or fragment,
   * the loader's data, and the callback class this handler binds the scope into.
   */
  datatype Delivery = Delivery(
    callback: Callback,
    exception: Option<Exception>,
    scope: Option<Scope>,
    data: LoadResult,
    scopedKind: CallbackKind)

  /** The calls `run()` makes on the callback, in order. */
  function RunTrace(d: Delivery): seq<Event>
  {
    var handler := if d.exception.Some? then Failed(d.exception.value) else Succeeded(d.data);
    if d.callback.kind == d.scopedKind then [Bind(d.scope), handler, Bind(None)]
    else [handler]
  }

  /** The callback's scope field after replaying `t` from `s`. */
  function ScopeAfter(s: Option<Scope>, t: seq<Event>): Option<Scope>
  {
    if |t| == 0 then s
    else
      var last := t[|t| - 1];
      if last.Bind? then last.scope else ScopeAfter(s, t[..|t| - 1])
  }

  /** The `onSuccess` / `onFailure` calls in `t`, in order. */
  function Handled(t: seq<Event>): seq<Event>
  {
    if |t| == 0 then []
    else Handled(t[..|t| - 1]) + (if t[|t| - 1].Bind? then [] else [t[|t| - 1]])
  }

  /**
   * Exactly one of `onFailure(exception)` and `onSuccess(data)` is called, the
   * first exactly when the loader has an exception.
   */
  lemma RunCallsExactlyOneHandler(d: Delivery)
    ensures Handled(RunTrace(d)) ==
      if d.exception.Some? then [Failed(d.exception.value)] else [Succeeded(d.data)]
  {
    var t := RunTrace(d);
    if |t| == 3 {
      assert t[..2][..1] == t[..1];
      assert t[..1][..0] == [];
      assert Handled(t[..1]) == [];
      assert Handled(t[..2]) == [t[1]];
    } else {
      assert t[..0] == [];
    }
  }

  /**
   * Scope binding: for a callback of the handler's scope-aware class, the
   * handler runs while the callback's scope field holds the adapter's scope
   * and the field is `null` afterwards; any other callback is called with its
   * field untouched.  Whatever the callback held before is not restored.
   */
  lemma RunBindsScopeAroundHandler(d: Delivery, before: Option<Scope>, i: nat)
    requires i < |RunTrace(d)| && !RunTrace(d)[i].Bind?
    ensures ScopeAfter(before, RunTrace(d)[..i]) ==
      if d.callback.kind == d.scopedKind then d.scope else before
    ensures ScopeAfter(before, RunTrace(d)) ==
      if d.callback.kind == d.scopedKind then None else before
  {
    var t := RunTrace(d);
    if |t| == 3 {
      assert i == 1;
      assert t[..1][..0] == [];
      assert t[..2] == t[..1] + [t[1]];
    } else {
      assert t[..0] == [];
    }
  }

  /**
   * A callback that is not the handler's scope-aware class (a plain callback,
   * or the other adapter's scope-aware class) is called directly: no set or
   * clear call at all.
   */
  lemma RunLeavesForeignScopedCallbackUnbound(d: Delivery)
    requires d.callback.kind != d.scopedKind
    ensures forall i :: 0 <= i < |RunTrace(d)| ==> !RunTrace(d)[i].Bind?
  {
  }

  /** `CallbackHandler.run()`. */
  method Run(d: Delivery)
    modifies d.callback
    ensures d.callback.log == old(d.callback.log) + RunTrace(d)
    ensures d.callback.scope == ScopeAfter(old(d.callback.scope), RunTrace(d))
  {
    var callback := d.callback;
    if d.exception.Some? {
      var exception := d.exception.value;
      if callback.kind == d.scopedKind {
        callback.SetScope(d.scope);
        callback.OnFailure(exception);
        callback.SetScope(None);
      } else {
        callback.OnFailure(exception);
      }
    } else {
      if callback.kind == d.scopedKind {
        callback.SetScope(d.scope);
        callback.OnSuccess(d.data);
        callback.SetScope(None);
      } else {
        callback.OnSuccess(d.data);
      }
    }
  }
}
