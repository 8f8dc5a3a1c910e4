/**
 The MCP server of app.py as a state machine. The process-wide globals
 `storage` (the lithops Storage client, None until `lithops_storage` runs)
 and `cloud_objects` (the registry of CloudObject handles returned by
 earlier puts) form a `Session`. Each tool is a pure step function from a
 session to the session after the call, the external effects it performed
 (file reads and calls into the Storage client, in order) and its result or
 the exception it raised.

 The Storage client and the file system are not visible: a `World` says how
 they answer, as total functions that either return a value or raise.
 */
module App {
  import opened Wrappers
  import PyList

  /** A CloudObject: an opaque handle returned by `put_cloudobject`. */
  type Handle(==)
  /** A lithops `Storage` instance. */
  type Client
  /** Any argument or reply value that is passed through untouched. */
  type Value
  /** An exception raised by the Storage client or by a file read. */
  type Exception

  /** A keyword-argument dictionary forwarded as `**args`. */
  type Args = map<string, Value>

  /** The `aux` file-control dictionary of the put tools; a missing key is `None`. */
  datatype Aux = Aux(file: Option<bool>, textIo: Option<bool>, pathToFile: Option<string>)

  /** What an external call does: return a value or raise. */
  datatype Reply<+T> = Returned(value: T) | Raised(exc: Exception)

  /** How the Storage client and the file system answer during one tool call. */
  datatype World = World(
    construct: Args -> Reply<Client>,
    putCloudObject: (Client, Args) -> Reply<Handle>,
    putObject: (Client, Args) -> Reply<()>,
    getCloudObject: (Client, Handle, bool) -> Reply<Value>,
    deleteCloudObject: (Client, Handle) -> Reply<()>,
    deleteCloudObjects: (Client, seq<Handle>) -> Reply<()>,
    forward: (Client, string, Args) -> Reply<Value>,
    // open the path in text mode (true: "r", utf-8) or binary mode ("rb") and read it all
    readFile: (string, bool) -> Reply<Value>)

  /** The two module-level globals. */
  datatype Session = Session(storage: Option<Client>, cloudObjects: seq<Handle>)

  /** The state at process start: no client, empty registry. */
  const Start: Session := Session(None, [])

  /** The exceptions a tool call can end with. */
  datatype Error =
    | AttributeError          // `storage.X` looked up while `storage` is still None
    | IndexError              // a registry index outside `-n <= index < n`
    | OverflowError           // a `pop` index outside the Py_ssize_t range
    | KeyError(key: string)   // a missing key of `aux`
    | ReadError(exc: Exception)
    | BackendError(exc: Exception)

  /** One external effect, in the order performed. */
  datatype Effect =
    | OpenRead(path: string, textMode: bool)
    | ConstructStorage(config: Args)
    | PutCloudObjectCall(client: Client, args: Args)
    | PutObjectCall(client: Client, args: Args)
    | GetCloudObjectCall(client: Client, cloudObject: Handle, stream: bool)
    | DeleteCloudObjectCall(client: Client, cloudObject: Handle)
    | DeleteCloudObjectsCall(client: Client, cloudObjects: seq<Handle>)
    | ForwardCall(client: Client, op: string, args: Args)

  /** The effects that reach the Storage client, i.e. everything but file reads. */
  function StorageCalls(fx: seq<Effect>): (r: seq<Effect>)
    ensures |r| <= |fx|
    ensures forall i :: 0 <= i < |r| ==> !r[i].OpenRead?
    ensures r == [] <==> forall i :: 0 <= i < |fx| ==> fx[i].OpenRead?
    // a single effect is kept exactly when it is not a file read
    ensures |fx| == 1 ==> r == (if fx[0].OpenRead? then [] else fx)
  {
    if |fx| == 0 then []
    else (if fx[0].OpenRead? then [] else [fx[0]]) + StorageCalls(fx[1..])
  }

  /** Filtering out file reads keeps the remaining effects in their order. */
  lemma {:induction false} StorageCallsConcat(a: seq<Effect>, b: seq<Effect>)
    ensures StorageCalls(a + b) == StorageCalls(a) + StorageCalls(b)
    decreases |a|
  {
    if |a| > 0 {
      assert (a + b)[1..] == a[1..] + b;
      StorageCallsConcat(a[1..], b);
    } else {
      assert a + b == b;
    }
  }

  /** The session after a call, what it did, and its result. */
  datatype Step<+T> = Step(after: Session, effects: seq<Effect>, result: Result<T, Error>)

  function FromList(e: PyList.ListError): Error
  {
    match e
    case IndexError => IndexError
    case OverflowError => OverflowError
  }

  // ---------------------------------------------------------------------
  // lithops_storage: `storage = Storage(**args)`
  // ---------------------------------------------------------------------

  /** (Re)initialises the client. The global is assigned only once the
      constructor has returned, so a failing constructor keeps the previous
      client; the registry is never touched. */
  function InitStorage(w: World, s: Session, config: Args): (o: Step<()>)
    ensures o.after.cloudObjects == s.cloudObjects
    ensures o.effects == [ConstructStorage(config)]
    ensures o.result.Ok? <==> w.construct(config).Returned?
    ensures o.result.Ok? ==> o.after.storage == Some(w.construct(config).value)
    ensures o.result.Err? ==> o.after == s && o.result.error == BackendError(w.construct(config).exc)
  {
    match w.construct(config)
    case Returned(c) => Step(s.(storage := Some(c)), [ConstructStorage(config)], Ok(()))
    case Raised(e) => Step(s, [ConstructStorage(config)], Err(BackendError(e)))
  }

  // ---------------------------------------------------------------------
  // The `aux` file control shared by lithops_put_cloudobject and lithops_put_object
  // ---------------------------------------------------------------------

  /** The file reads performed and the keyword arguments to forward, or the error. */
  datatype Prepared = Prepared(effects: seq<Effect>, args: Result<Args, Error>)

  /**
   Evaluates `aux["file"]`, and when it is true `aux["text_io"]` and
   `aux["path_to_file"]`, then opens and reads the file and stores its
   contents under "body", overriding any body the caller gave. With file
   control off the arguments are forwarded as given.
   */
  function PrepareArgs(w: World, args: Args, aux: Aux): (p: Prepared)
    // no Storage call is made here: at most the one file read
    ensures |p.effects| <= 1 && StorageCalls(p.effects) == []
    ensures aux.file.None? ==> p == Prepared([], Err(KeyError("file")))
    ensures aux.file == Some(false) ==> p == Prepared([], Ok(args))
    ensures aux.file == Some(true) && aux.textIo.None? ==> p == Prepared([], Err(KeyError("text_io")))
    ensures aux.file == Some(true) && aux.textIo.Some? && aux.pathToFile.None? ==>
      p == Prepared([], Err(KeyError("path_to_file")))
    ensures aux.file == Some(true) && aux.textIo.Some? && aux.pathToFile.Some? ==>
      var read := w.readFile(aux.pathToFile.value, aux.textIo.value);
      && p.effects == [OpenRead(aux.pathToFile.value, aux.textIo.value)]
      && (read.Raised? ==> p.args == Err(ReadError(read.exc)))
      && (read.Returned? ==> p.args.Ok? && "body" in p.args.value && p.args.value["body"] == read.value)
    // only "body" can differ from what the caller passed
    ensures p.args.Ok? ==> p.args.value.Keys - {"body"} == args.Keys - {"body"}
    ensures p.args.Ok? ==> forall k :: k in args && k != "body" ==> k in p.args.value && p.args.value[k] == args[k]
  {
    match aux.file
    case None => Prepared([], Err(KeyError("file")))
    case Some(false) => Prepared([], Ok(args))
    case Some(true) =>
      match aux.textIo
      case None => Prepared([], Err(KeyError("text_io")))
      case Some(textMode) =>
        match aux.pathToFile
        case None => Prepared([], Err(KeyError("path_to_file")))
        case Some(path) =>
          match w.readFile(path, textMode)
          case Raised(e) => Prepared([OpenRead(path, textMode)], Err(ReadError(e)))
          case Returned(body) => Prepared([OpenRead(path, textMode)], Ok(args["body" := body]))
  }

  // ---------------------------------------------------------------------
  // lithops_put_cloudobject
  // ---------------------------------------------------------------------

  /**
   Prepares the arguments, looks up `storage.put_cloudobject`, calls it, and
   only then appends the returned handle to the registry and returns it.
   */
  function PutCloudObject(w: World, s: Session, args: Args, aux: Aux): (o: Step<Handle>)
    ensures o.after.storage == s.storage
    // success appends exactly the returned handle, at the end
    ensures o.result.Ok? ==> o.after.cloudObjects == s.cloudObjects + [o.result.value]
    // any failure leaves the session as it was
    ensures o.result.Err? ==> o.after == s
    ensures var p := PrepareArgs(w, args, aux);
      && (p.args.Err? ==> o.effects == p.effects && o.result == Err(p.args.error))
      && (p.args.Ok? && s.storage.None? ==> o.effects == p.effects && o.result == Err(AttributeError))
      && (p.args.Ok? && s.storage.Some? ==>
            var c := s.storage.value;
            // the backend gets the prepared arguments, after any file read
            && o.effects == p.effects + [PutCloudObjectCall(c, p.args.value)]
            && (o.result.Ok? <==> w.putCloudObject(c, p.args.value).Returned?)
            && (o.result.Ok? ==> w.putCloudObject(c, p.args.value) == Returned(o.result.value))
            && (o.result.Err? ==> o.result == Err(BackendError(w.putCloudObject(c, p.args.value).exc))))
    // without a client nothing reaches the backend
    ensures s.storage.None? ==> o.result.Err? && StorageCalls(o.effects) == []
  {
    var p := PrepareArgs(w, args, aux);
    match p.args
    case Err(e) => Step(s, p.effects, Err(e))
    case Ok(forwarded) =>
      match s.storage
      case None => Step(s, p.effects, Err(AttributeError))
      case Some(c) =>
        var fx := p.effects + [PutCloudObjectCall(c, forwarded)];
        match w.putCloudObject(c, forwarded)
        case Raised(e) => Step(s, fx, Err(BackendError(e)))
        case Returned(val) => Step(s.(cloudObjects := s.cloudObjects + [val]), fx, Ok(val))
  }

  // ---------------------------------------------------------------------
  // lithops_put_object: the same file control, no registry
  // ---------------------------------------------------------------------

  function PutObject(w: World, s: Session, args: Args, aux: Aux): (o: Step<()>)
    ensures o.after == s
    ensures var p := PrepareArgs(w, args, aux);
      && (p.args.Err? ==> o.effects == p.effects && o.result == Err(p.args.error))
      && (p.args.Ok? && s.storage.None? ==> o.effects == p.effects && o.result == Err(AttributeError))
      && (p.args.Ok? && s.storage.Some? ==>
            var c := s.storage.value;
            && o.effects == p.effects + [PutObjectCall(c, p.args.value)]
            && (o.result.Ok? <==> w.putObject(c, p.args.value).Returned?)
            && (o.result.Err? ==> o.result == Err(BackendError(w.putObject(c, p.args.value).exc))))
    ensures s.storage.None? ==> o.result.Err? && StorageCalls(o.effects) == []
  {
    var p := PrepareArgs(w, args, aux);
    match p.args
    case Err(e) => Step(s, p.effects, Err(e))
    case Ok(forwarded) =>
      match s.storage
      case None => Step(s, p.effects, Err(AttributeError))
      case Some(c) =>
        var fx := p.effects + [PutObjectCall(c, forwarded)];
        match w.putObject(c, forwarded)
        case Raised(e) => Step(s, fx, Err(BackendError(e)))
        case Returned(_) => Step(s, fx, Ok(()))
  }

  // ---------------------------------------------------------------------
  // lithops_get_cloudobject: `storage.get_cloudobject(cloud_objects[index], stream=stream)`
  // ---------------------------------------------------------------------

  function GetCloudObject(w: World, s: Session, index: int, stream: bool): (o: Step<Value>)
    // read-only
    ensures o.after == s
    ensures s.storage.None? ==> o.effects == [] && o.result == Err(AttributeError)
    ensures s.storage.Some? && !(-|s.cloudObjects| <= index < |s.cloudObjects|) ==>
      o.effects == [] && o.result == Err(IndexError)
    ensures s.storage.Some? && -|s.cloudObjects| <= index < |s.cloudObjects| ==>
      var c := s.storage.value;
      // a negative index counts from the end
      var h := s.cloudObjects[index % |s.cloudObjects|];
      && o.effects == [GetCloudObjectCall(c, h, stream)]
      && (o.result.Ok? <==> w.getCloudObject(c, h, stream).Returned?)
      && (o.result.Err? ==> o.result == Err(BackendError(w.getCloudObject(c, h, stream).exc)))
      && (o.result.Ok? ==> o.result.value == w.getCloudObject(c, h, stream).value)
  {
    match s.storage
    case None => Step(s, [], Err(AttributeError))
    case Some(c) =>
      match PyList.Index(s.cloudObjects, index)
      case Err(e) => Step(s, [], Err(FromList(e)))
      case Ok(h) =>
        match w.getCloudObject(c, h, stream)
        case Raised(e) => Step(s, [GetCloudObjectCall(c, h, stream)], Err(BackendError(e)))
        case Returned(v) => Step(s, [GetCloudObjectCall(c, h, stream)], Ok(v))
  }

  // ---------------------------------------------------------------------
  // lithops_delete_cloudobject: `storage.delete_cloudobject(cloud_objects.pop(index))`
  // ---------------------------------------------------------------------

  /**
   The callee is looked up first, then `pop` runs, then the backend is
   called: a failing backend delete does not put the entry back.
   */
  function DeleteCloudObject(w: World, s: Session, index: int): (o: Step<()>)
    ensures o.after.storage == s.storage
    ensures s.storage.None? ==> o == Step(s, [], Err(AttributeError))
    ensures s.storage.Some? && !(PyList.SsizeMin <= index <= PyList.SsizeMax) ==>
      o == Step(s, [], Err(OverflowError))
    ensures s.storage.Some? && PyList.SsizeMin <= index <= PyList.SsizeMax
            && !(-|s.cloudObjects| <= index < |s.cloudObjects|) ==>
      o == Step(s, [], Err(IndexError))
    ensures s.storage.Some? && PyList.SsizeMin <= index <= PyList.SsizeMax
            && -|s.cloudObjects| <= index < |s.cloudObjects| ==>
      var c := s.storage.value;
      var k := index % |s.cloudObjects|;
      var h := s.cloudObjects[k];
      // exactly entry k is gone, whatever the backend answers
      && o.after.cloudObjects == s.cloudObjects[..k] + s.cloudObjects[k+1..]
      && o.effects == [DeleteCloudObjectCall(c, h)]
      && (o.result.Ok? <==> w.deleteCloudObject(c, h).Returned?)
      && (o.result.Err? ==> o.result == Err(BackendError(w.deleteCloudObject(c, h).exc)))
  {
    match s.storage
    case None => Step(s, [], Err(AttributeError))
    case Some(c) =>
      match PyList.Pop(s.cloudObjects, index)
      case Err(e) => Step(s, [], Err(FromList(e)))
      case Ok(p) =>
        var after := s.(cloudObjects := p.rest);
        match w.deleteCloudObject(c, p.item)
        case Raised(e) => Step(after, [DeleteCloudObjectCall(c, p.item)], Err(BackendError(e)))
        case Returned(_) => Step(after, [DeleteCloudObjectCall(c, p.item)], Ok(()))
  }

  // ---------------------------------------------------------------------
  // lithops_delete_cloudobjects:
  //   `storage.delete_cloudobjects(cloud_objects[start:end])` then `del cloud_objects[start:end]`
  // ---------------------------------------------------------------------

  /**
   The backend receives the slice; the registry loses it only after the
   backend has returned. Slicing clamps and never raises.
   */
  function DeleteCloudObjects(w: World, s: Session, start: int, end: int): (o: Step<()>)
    ensures o.after.storage == s.storage
    ensures s.storage.None? ==> o == Step(s, [], Err(AttributeError))
    ensures s.storage.Some? ==>
      var c := s.storage.value;
      var g := PyList.SliceRange(start, end, |s.cloudObjects|);
      var batch := s.cloudObjects[g.lo..g.hi];
      && o.effects == [DeleteCloudObjectsCall(c, batch)]
      && (o.result.Ok? <==> w.deleteCloudObjects(c, batch).Returned?)
      && (o.result.Err? ==> o.result == Err(BackendError(w.deleteCloudObjects(c, batch).exc)))
      && (o.result.Ok? ==> o.after.cloudObjects == s.cloudObjects[..g.lo] + s.cloudObjects[g.hi..])
      && (o.result.Ok? ==> |o.after.cloudObjects| == |s.cloudObjects| - (g.hi - g.lo))
    // a failing batch delete leaves the registry intact
    ensures o.result.Err? ==> o.after == s
    // an empty slice changes nothing
    ensures PyList.Bound(end, |s.cloudObjects|) <= PyList.Bound(start, |s.cloudObjects|) ==> o.after == s
  {
    match s.storage
    case None => Step(s, [], Err(AttributeError))
    case Some(c) =>
      var batch := PyList.Slice(s.cloudObjects, start, end);
      match w.deleteCloudObjects(c, batch)
      case Raised(e) => Step(s, [DeleteCloudObjectsCall(c, batch)], Err(BackendError(e)))
      case Returned(_) =>
        var after := s.(cloudObjects := PyList.DelSlice(s.cloudObjects, start, end));
        Step(after, [DeleteCloudObjectsCall(c, batch)], Ok(()))
  }

  // ---------------------------------------------------------------------
  // The pass-through tools: `storage.<op>(**args)`, registry untouched
  // ---------------------------------------------------------------------

  function Forward(w: World, s: Session, op: string, args: Args): (o: Step<Value>)
    ensures o.after == s
    ensures s.storage.None? ==> o.effects == [] && o.result == Err(AttributeError)
    ensures s.storage.Some? ==>
      && o.effects == [ForwardCall(s.storage.value, op, args)]
      && (o.result.Ok? <==> w.forward(s.storage.value, op, args).Returned?)
      && (o.result.Ok? ==> o.result.value == w.forward(s.storage.value, op, args).value)
      && (o.result.Err? ==> o.result == Err(BackendError(w.forward(s.storage.value, op, args).exc)))
  {
    match s.storage
    case None => Step(s, [], Err(AttributeError))
    case Some(c) =>
      match w.forward(c, op, args)
      case Raised(e) => Step(s, [ForwardCall(c, op, args)], Err(BackendError(e)))
      case Returned(v) => Step(s, [ForwardCall(c, op, args)], Ok(v))
  }

  // ---------------------------------------------------------------------
  // Properties relating successive calls on the registry
  // ---------------------------------------------------------------------

  /** With file control on, the put reads the file before anything reaches the
      backend. The backend then receives the caller's arguments with "body"
      replaced by the file contents; a failed read ends the call with no
      backend call and the session untouched, whether or not a client exists. */
  lemma FileBodyOverrides(w: World, s: Session, args: Args, aux: Aux)
    requires aux.file == Some(true) && aux.textIo.Some? && aux.pathToFile.Some?
    ensures var path, text := aux.pathToFile.value, aux.textIo.value;
      var read := w.readFile(path, text);
      var o := PutCloudObject(w, s, args, aux);
      && |o.effects| > 0 && o.effects[0] == OpenRead(path, text)
      && (read.Raised? ==> o == Step(s, [OpenRead(path, text)], Err(ReadError(read.exc))))
      && (read.Returned? && s.storage.Some? ==>
            o.effects == [OpenRead(path, text), PutCloudObjectCall(s.storage.value, args["body" := read.value])])
  {
  }

  /** A successful put needs a client and leaves the registry one handle longer. */
  lemma PutAppends(w: World, s: Session, args: Args, aux: Aux)
    requires PutCloudObject(w, s, args, aux).result.Ok?
    ensures s.storage.Some?
    ensures var put := PutCloudObject(w, s, args, aux);
      put.after == s.(cloudObjects := s.cloudObjects + [put.result.value])
  {
  }

  lemma GetLastAfterAppend(w: World, s: Session, h: Handle, i: int, stream: bool)
    requires s.storage.Some?
    requires i == |s.cloudObjects| || i == -1
    ensures GetCloudObject(w, s.(cloudObjects := s.cloudObjects + [h]), i, stream).effects
         == [GetCloudObjectCall(s.storage.value, h, stream)]
  {
    var n := |s.cloudObjects|;
    assert (-1) % (n + 1) == n;
    assert PyList.Index(s.cloudObjects + [h], i) == Ok(h);
  }

  lemma GetEarlierAfterAppend(w: World, s: Session, h: Handle, i: int, stream: bool)
    requires s.storage.Some?
    requires 0 <= i < |s.cloudObjects|
    ensures var t := s.(cloudObjects := s.cloudObjects + [h]);
      GetCloudObject(w, t, i, stream) == GetCloudObject(w, s, i, stream).(after := t)
  {
    PyList.IndexPrefix(s.cloudObjects, [h], i);
  }

  /** After a successful put, index `n` (the old length) and index -1 both
      reach the new handle, and every earlier index reaches what it did before. */
  lemma PutThenGet(w: World, w': World, s: Session, args: Args, aux: Aux, stream: bool)
    requires PutCloudObject(w, s, args, aux).result.Ok?
    ensures s.storage.Some?
    ensures var put := PutCloudObject(w, s, args, aux);
      var call := GetCloudObjectCall(s.storage.value, put.result.value, stream);
      && GetCloudObject(w', put.after, |s.cloudObjects|, stream).effects == [call]
      && GetCloudObject(w', put.after, -1, stream).effects == [call]
      && forall i :: 0 <= i < |s.cloudObjects| ==>
           GetCloudObject(w', put.after, i, stream) == GetCloudObject(w', s, i, stream).(after := put.after)
  {
    PutAppends(w, s, args, aux);
    var h := PutCloudObject(w, s, args, aux).result.value;
    GetLastAfterAppend(w', s, h, |s.cloudObjects|, stream);
    GetLastAfterAppend(w', s, h, -1, stream);
    forall i | 0 <= i < |s.cloudObjects|
      ensures GetCloudObject(w', s.(cloudObjects := s.cloudObjects + [h]), i, stream)
           == GetCloudObject(w', s, i, stream).(after := s.(cloudObjects := s.cloudObjects + [h]))
    {
      GetEarlierAfterAppend(w', s, h, i, stream);
    }
  }

  lemma DeleteLastAfterAppend(w: World, s: Session, h: Handle)
    requires s.storage.Some?
    ensures var del := DeleteCloudObject(w, s.(cloudObjects := s.cloudObjects + [h]), -1);
      && del.after == s
      && del.effects == [DeleteCloudObjectCall(s.storage.value, h)]
  {
    var a := s.cloudObjects + [h];
    var n := |s.cloudObjects|;
    assert (-1) % (n + 1) == n;
    assert a[..n] + a[n+1..] == s.cloudObjects;
  }

  /** `delete_cloudobject(-1)` right after a successful put removes that handle
      again: the registry is back to what it was, even when the backend delete
      fails, and the backend is asked to delete exactly the new handle. */
  lemma PutThenDeleteLast(w: World, w': World, s: Session, args: Args, aux: Aux)
    requires PutCloudObject(w, s, args, aux).result.Ok?
    ensures s.storage.Some?
    ensures var put := PutCloudObject(w, s, args, aux);
      var del := DeleteCloudObject(w', put.after, -1);
      && del.after == s
      && del.effects == [DeleteCloudObjectCall(s.storage.value, put.result.value)]
  {
    PutAppends(w, s, args, aux);
    DeleteLastAfterAppend(w', s, PutCloudObject(w, s, args, aux).result.value);
  }

  /** After `delete_cloudobject(index)` has popped position `k`, an index below
      `k` reaches the same handle as before, an index from `k` on reaches the
      handle that was one further along, and the old last index is out of range. */
  lemma DeleteThenGet(w: World, w': World, s: Session, index: int, i: int, stream: bool)
    requires s.storage.Some?
    requires PyList.SsizeMin <= index <= PyList.SsizeMax
    requires -|s.cloudObjects| <= index < |s.cloudObjects|
    ensures var k := index % |s.cloudObjects|;
      var after := DeleteCloudObject(w, s, index).after;
      && (0 <= i < k ==> GetCloudObject(w', after, i, stream).effects == GetCloudObject(w', s, i, stream).effects)
      && (k <= i < |s.cloudObjects| - 1 ==>
            GetCloudObject(w', after, i, stream).effects == GetCloudObject(w', s, i + 1, stream).effects)
      && (i == |s.cloudObjects| - 1 ==> GetCloudObject(w', after, i, stream).result == Err(IndexError))
  {
    PyList.PopShifts(s.cloudObjects, index, i);
  }

  /** After a successful `delete_cloudobjects(start, end)` selecting `[lo, hi)`,
      an index below `lo` reaches the same handle as before and an index from
      `lo` on reaches the handle `hi - lo` further along. */
  lemma DeleteRangeThenGet(w: World, w': World, s: Session, start: int, end: int, i: int, stream: bool)
    requires DeleteCloudObjects(w, s, start, end).result.Ok?
    ensures var g := PyList.SliceRange(start, end, |s.cloudObjects|);
      var after := DeleteCloudObjects(w, s, start, end).after;
      && (0 <= i < g.lo ==> GetCloudObject(w', after, i, stream).effects == GetCloudObject(w', s, i, stream).effects)
      && (g.lo <= i < |s.cloudObjects| - (g.hi - g.lo) ==>
            GetCloudObject(w', after, i, stream).effects == GetCloudObject(w', s, i + (g.hi - g.lo), stream).effects)
  {
  }
}
