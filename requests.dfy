/**
 * How each pipe operation becomes a loader request: the integer loader id
 * (`Objects.hashCode` of the pipe name, the argument and the callback), the
 * `Bundle` handed to `initLoader`, and the `METHOD` switch of
 * `onCreateLoader` that turns a bundle back into a loader.
 */
module Requests {
  import opened JavaInt
  import opened Wrappers
  import opened PipelineTypes

  /**
   * The pipe's two serialisation collaborators.  `RequestBuilder.getBody` may
   * return `null` (`None`); `ResponseParser.handleResponse` (applied to
   * `new String(json)`) may throw, which `Failure` carries.
   */
  datatype Pipe = Pipe(requestBuilder: Item -> Option<seq<bv8>>, responseParser: seq<bv8> -> Result<Item, Exception>)

  /** The adapters' `Methods` enum. */
  datatype Method = READ | SAVE | REMOVE

  /** The four dispatching calls: `read(cb)`, `read(filter, cb)`, `save(item, cb)`, `remove(id, cb)`. */
  datatype Operation =
    | ReadAll
    | ReadFiltered(filter: Option<ReadFilter>)
    | Save(item: Item)
    | Remove(toRemoveId: Option<string>)

  /** The `Bundle`: one field per key (METHOD, CALLBACK, FILTER, ITEM, REMOVE_ID); `None` is absent or null. */
  datatype Bundle = Bundle(
    methodKey: Method,
    callback: Callback,
    filter: Option<ReadFilter>,
    item: Option<seq<bv8>>,
    removeId: Option<string>)

  /** The loaders `onCreateLoader` builds (ReadLoader, RemoveLoader, SaveLoader). */
  datatype LoaderSpec =
    | ReadLoader(callback: Callback, filter: Option<ReadFilter>)
    | RemoveLoader(callback: Callback, toRemove: string)
    | SaveLoader(callback: Callback, item: Item)

  /** `hashCode()` of the operation's argument, 0 for `null` (as `Objects.hashCode` does). */
  function ArgumentHash(op: Operation): Int32
    requires !op.ReadAll?
  {
    match op
    case ReadFiltered(f) => if f.Some? then f.value.hashCode else 0
    case Save(item) => item.hashCode
    case Remove(id) => if id.Some? then StringHashCode(id.value) else 0
  }

  /**
   * The loader id a call computes: `Objects.hashCode(name, callback)` for
   * `read(callback)` and `Objects.hashCode(name, argument, callback)` for the
   * others, written out as Java's wrapped polynomial in 31.
   */
  function OperationId(name: string, op: Operation, callback: Callback): (id: Int32)
    ensures op.ReadAll? ==> id == Wrap32(961 + 31 * StringHashCode(name) + callback.hashCode)
    ensures !op.ReadAll? ==>
      id == Wrap32(29791 + 961 * StringHashCode(name) + 31 * ArgumentHash(op) + callback.hashCode)
  {
    if op.ReadAll? then
      ObjectsHashCodeOfTwo(StringHashCode(name), callback.hashCode);
      ObjectsHashCode([StringHashCode(name), callback.hashCode])
    else
      ObjectsHashCodeOfThree(StringHashCode(name), ArgumentHash(op), callback.hashCode);
      ObjectsHashCode([StringHashCode(name), ArgumentHash(op), callback.hashCode])
  }

  /** The bundle a call hands to `initLoader`. */
  function MakeBundle(pipe: Pipe, op: Operation, callback: Callback): Bundle
  {
    match op
    case ReadAll => Bundle(READ, callback, None, None, None)
    case ReadFiltered(f) => Bundle(READ, callback, f, None, None)
    case Save(item) => Bundle(SAVE, callback, None, pipe.requestBuilder(item), None)
    case Remove(id) => Bundle(REMOVE, callback, None, None, id)
  }

  /**
   * `onCreateLoader` after its registry update: `verifyCallback`, then the
   * `METHOD` switch.  A REMOVE without an id reads "-1"; a SAVE without a
   * body fails in `new String(null)`; a SAVE whose body the parser rejects
   * fails with the parser's exception.
   */
  function CreateLoader(f: Flavour, scope: Option<Scope>, pipe: Pipe, b: Bundle): (r: Result<LoaderSpec, Error>)
    ensures r.Failure? <==>
      || VerifyCallback(f, scope, b.callback.kind).Fail?
      || (b.methodKey == SAVE && (b.item.None? || pipe.responseParser(b.item.value).Failure?))
    ensures r.Success? ==> r.value.callback == b.callback
    ensures r.Success? ==> (r.value.ReadLoader? <==> b.methodKey == READ) && (r.value.SaveLoader? <==> b.methodKey == SAVE)
  {
    match VerifyCallback(f, scope, b.callback.kind)
    case Fail(e) => Failure(e)
    case Pass =>
      match b.methodKey
      case READ => Success(ReadLoader(b.callback, b.filter))
      case REMOVE => Success(RemoveLoader(b.callback, b.removeId.GetOr("-1")))
      case SAVE =>
        if b.item.None? then Failure(NullPointer)
        else
          match pipe.responseParser(b.item.value)
          case Success(item) => Success(SaveLoader(b.callback, item))
          case Failure(e) => Failure(ParserError(e))
  }

  /**
   * The loader each operation asks for, stated without bundles: a save
   * fails when `getBody` gives `null` or the parser rejects the body.
   */
  function RequestedLoader(pipe: Pipe, op: Operation, callback: Callback): Result<LoaderSpec, Error>
  {
    match op
    case ReadAll => Success(ReadLoader(callback, None))
    case ReadFiltered(f) => Success(ReadLoader(callback, f))
    case Save(item) =>
      var body := pipe.requestBuilder(item);
      if body.None? then Failure(NullPointer)
      else if pipe.responseParser(body.value).Failure? then Failure(ParserError(pipe.responseParser(body.value).error))
      else Success(SaveLoader(callback, pipe.responseParser(body.value).value))
    case Remove(id) => Success(RemoveLoader(callback, if id.Some? then id.value else "-1"))
  }

  /**
   * `read(callback)` and `read(null, callback)` build the same bundle and so
   * ask for the same loader, yet their ids are different polynomials (the
   * null filter still adds a factor of 31 and a 0 term): they share a loader
   * only for the pipe names whose hash `h` makes `930 * h + 28830` a multiple
   * of 2^32.
   */
  lemma UnfilteredReadsDifferOnlyInId(name: string, pipe: Pipe, callback: Callback)
    ensures MakeBundle(pipe, ReadAll, callback) == MakeBundle(pipe, ReadFiltered(None), callback)
    ensures RequestedLoader(pipe, ReadAll, callback) == RequestedLoader(pipe, ReadFiltered(None), callback)
    ensures OperationId(name, ReadAll, callback) == OperationId(name, ReadFiltered(None), callback) <==>
      (930 * StringHashCode(name) + 28830) % 0x1_0000_0000 == 0
  {
    var h: int, c: int := StringHashCode(name), callback.hashCode;
    Wrap32Congruent(29791 + 961 * h + c, 961 + 31 * h + c);
  }

  /**
   * Round trip through the bundle: `onCreateLoader` on the bundle a call
   * built either throws what `verifyCallback` throws or gives exactly what
   * the call asked for, the save's null-body and parser failures included.
   */
  lemma {:induction false} CreateLoaderOfOperation(f: Flavour, scope: Option<Scope>, pipe: Pipe, op: Operation, callback: Callback)
    ensures CreateLoader(f, scope, pipe, MakeBundle(pipe, op, callback)) ==
      match VerifyCallback(f, scope, callback.kind)
      case Fail(e) => Failure(e)
      case Pass => RequestedLoader(pipe, op, callback)
  {
    match op
    case ReadAll =>
    case ReadFiltered(_) =>
    case Save(_) =>
    case Remove(id) =>
      assert MakeBundle(pipe, op, callback).removeId.GetOr("-1") == if id.Some? then id.value else "-1";
  }

  /**
   * The same call from two callbacks gets the same id exactly when the two
   * callbacks' hash codes are equal: distinct consumers are not coalesced.
   */
  lemma OperationIdSeparatesCallbacks(name: string, op: Operation, c1: Callback, c2: Callback)
    ensures OperationId(name, op, c1) == OperationId(name, op, c2) <==> c1.hashCode == c2.hashCode
  {
    var prefix: seq<Int32> := if op.ReadAll? then [StringHashCode(name)] else [StringHashCode(name), ArgumentHash(op)];
    assert prefix + [c1.hashCode] == if op.ReadAll? then [StringHashCode(name), c1.hashCode]
                                     else [StringHashCode(name), ArgumentHash(op), c1.hashCode];
    assert prefix + [c2.hashCode] == if op.ReadAll? then [StringHashCode(name), c2.hashCode]
                                     else [StringHashCode(name), ArgumentHash(op), c2.hashCode];
    HashFoldLastInjective(1, prefix, c1.hashCode, c2.hashCode);
  }

  /**
   * The same pipe and callback give two non-`read(cb)` calls the same id
   * exactly when their arguments' hash codes are equal: different filters,
   * items or ids do not collide, but the id never hashes which method was
   * called.
   */
  lemma OperationIdSeparatesArguments(name: string, op1: Operation, op2: Operation, callback: Callback)
    requires !op1.ReadAll? && !op2.ReadAll?
    ensures OperationId(name, op1, callback) == OperationId(name, op2, callback) <==>
      ArgumentHash(op1) == ArgumentHash(op2)
  {
    var x: int := 29791 + 961 * StringHashCode(name) + callback.hashCode;
    assert OperationId(name, op1, callback) == Wrap32(x + 31 * ArgumentHash(op1));
    assert OperationId(name, op2, callback) == Wrap32(x + 31 * ArgumentHash(op2));
    Wrap32ScaleInjective(x, ArgumentHash(op1), ArgumentHash(op2));
  }

  /**
   * Ids are not unique across pipe names: pipes named "Aa" and "BB" give every
   * call the same id, so one pipe's `reset` can destroy the other's loader.
   */
  lemma PipeNamesCanCollide(op: Operation, callback: Callback)
    ensures OperationId("Aa", op, callback) == OperationId("BB", op, callback)
  {
    StringHashCodeCollides();
  }
}
