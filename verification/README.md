# lithops-storage MCP server: the CloudObject registry

This project models the one piece of state in the lithops storage MCP server (app.py). That state is two module-level globals:

- `storage`: the lithops `Storage` client. It is `None` until the `lithops_storage` tool has run.
- `cloud_objects`: the registry, a Python list of the CloudObject handles that earlier puts returned.

Four tools go through the registry:

- `lithops_put_cloudobject` appends.
- `lithops_get_cloudobject` subscripts.
- `lithops_delete_cloudobject` pops.
- `lithops_delete_cloudobjects` slices and then deletes the slice.

The put tools also share an `aux` file-control block. It can replace the body with the contents of a local file.

Every tool is a pure step function from a `Session` (client and registry) to the session after the call, the external effects in the order they happen (file reads and Storage-client calls), and a result or the exception raised. The Storage client and the file system are opaque. A `World` is a record of total functions that say, for given arguments, whether each call returns a value or raises. In a run, each tool call gets its own `World`, so a backend whose answers change over time is covered.

Modules:

- `Wrappers`: `Option`, `Result`, `Min`, `Max`.
- `PyList`: CPython semantics of `a[i]`, `a.pop(i)`, `a[start:end]` and `del a[start:end]`, plus a reference definition `Pick` (the elements whose positions satisfy a predicate, in order). The operations are characterised against `Pick`.
- `App`: the session, the errors, the effects, and one function per tool of app.py.
- `Runs`: the dispatcher over a sequence of tool calls, lemmas about whole runs, and the usage scenarios of the server.

Python's evaluation order is followed exactly:

- `storage.X` is looked up before the arguments are evaluated. So with no client, get and both deletes raise `AttributeError` before the registry is indexed, popped or sliced.
- `pop` runs before the backend delete. So a failing backend delete still removes the entry.
- `del cloud_objects[start:end]` runs after the batch delete returns. So a failing batch delete leaves the registry intact.
- `append` runs only after the put returns.
- In the put tools' file branch, `open`/`read` come before `storage.put_*` is looked up. So with no client, a file put whose read fails ends with the read error, not `AttributeError`.
- `storage = Storage(**args)` assigns only after the constructor returns. So a failing re-initialisation keeps the previous client. It never clears the registry.

Index semantics are CPython's:

- `a[i]` and `a.pop(i)` accept exactly `-n <= i < n`, and a negative index means position `i + n`, that is `i mod n`.
- `pop` first converts its argument to `Py_ssize_t`. On a 64-bit build, an index outside `[-2^63, 2^63 - 1]` raises `OverflowError`.
- A slice offsets negative bounds by `n`, clamps them to `[0, n]`, is empty when the start is not below the end, and never raises.

Behaviours of app.py that a reader might not expect:

- `lithops_put_cloudobject` returns the CloudObject itself, not its index in the registry (app.py:312, as its docstring at app.py:276-278 says).
- A negative index is not an error. It counts from the end.
- `delete_cloudobjects` clamps out-of-range bounds. On a successful backend call, the registry shrinks by the number of entries the slice actually selects: `hi - lo` for `Range(lo, hi) == SliceRange(start, end, n)` (see `PyList.Slice` and `PyList.DelSlice`). This equals `end - start` when both bounds lie in `[0, n]` and `start <= end`, but not in general. For example, on five entries `delete_cloudobjects(1, -1)` removes three, although `end - start` is -2.
- Calling a Storage method before `lithops_storage` raises Python's `AttributeError` on `None`. The put tools evaluate `aux["file"]` first, so a put whose `aux` lacks "file" fails with `KeyError("file")` instead (app.py:299, app.py:353). With file control on, the `text_io` and `path_to_file` lookups and the file read also come first, so their `KeyError` or read error surfaces instead.
- Any exception the Storage client raises is propagated unchanged.

## Model

| member | source | states |
|---|---|---|
| PyList.Position | app.py:141 | a list index denotes a position exactly when `-n <= i < n`, and that position is `i mod n` |
| PyList.Bound | app.py:78-79 | a slice bound ends up in `[0, n]`: a negative bound is offset by `n`, then anything below 0 becomes 0 and anything above `n` becomes `n` |
| PyList.Index | app.py:141 | `cloud_objects[index]` succeeds iff `-n <= index < n`, yields the element at `index mod n`, else raises IndexError |
| PyList.Pop | app.py:64 | `pop(index)` raises OverflowError outside the Py_ssize_t range, IndexError outside `-n <= index < n` (including on an empty list), and otherwise returns the element at `index mod n` and leaves the list without exactly that position, one shorter |
| PyList.SliceRange | app.py:78-79 | the normalised slice range lies within `[0, n]` and is empty exactly when the clamped start is not below the clamped end |
| PyList.Slice | app.py:78 | `cloud_objects[start:end]` never raises and holds the `hi - lo` elements from position `lo` of the normalised range, in order |
| PyList.DelSlice | app.py:79 | `del a[start:end]` shortens the list by exactly the length of `a[start:end]` |
| PyList.IndexWraps | app.py:141 | index `i - n` refers to the same element as index `i` |
| PyList.SliceSelects | app.py:78 | `a[start:end]` is exactly the elements whose position `k` satisfies `offset(start) <= k < offset(end)`, in order, so clamping never changes which elements are selected |
| PyList.DelSliceKeeps | app.py:79 | `del a[start:end]` keeps exactly the elements the slice does not select, in order |
| PyList.SliceRestores | app.py:78-79 | re-inserting the slice where it was cut restores the list, so the batch sent and the entries removed are the same |
| PyList.EmptySlice | app.py:78-79 | when the normalised bounds do not increase, for example `a[k:k]`, the slice is empty and its `del` is a no-op |
| PyList.PopKeeps | app.py:64 | `pop` keeps exactly the elements at the other positions, in order |
| PyList.PopRestores | app.py:64 | inserting the popped item back at its position restores the list |
| PyList.PopAgreesWithIndex | app.py:64 | within the Py_ssize_t range, `pop` and subscripting accept the same indices and agree on the element |
| PyList.PopShifts | app.py:64 | after popping position `k`, lower indices keep their element, higher ones shift down by one, and the old last index becomes out of range |
| App.InitStorage | app.py:35-36 | re-initialisation never touches the registry; success installs the constructed client; a failing constructor leaves the previous client and raises its error |
| App.PrepareArgs | app.py:299-307 | file control: a missing `file`, `text_io` or `path_to_file` key raises KeyError; with file off the arguments pass unchanged; with file on, one read happens, and it either raises ReadError or yields arguments whose "body" is the file contents while every other key is unchanged; no Storage call is made |
| App.PutCloudObject | app.py:299-312 | success appends exactly the handle the backend returned, at the end, and returns it; every failure leaves the session unchanged; the backend call comes after any file read and receives the prepared arguments; without a client nothing reaches the backend |
| App.PutObject | app.py:353-363 | never changes the session; same file control and ordering as put-cloudobject, with `put_object` as the backend call; a raising backend call ends with that exception |
| App.GetCloudObject | app.py:141 | read-only; no client gives AttributeError, an index outside `-n <= index < n` gives IndexError, and in both cases no backend call; otherwise the handle at `index mod n` is forwarded with the stream flag, and the backend's reply or its exception is the result |
| App.DeleteCloudObject | app.py:64 | no client gives AttributeError and an out-of-range index gives OverflowError or IndexError, each with the registry unchanged and no backend call; otherwise entry `index mod n` is removed whatever the backend answers, exactly that handle is sent to the backend, and a raising backend ends with that exception |
| App.DeleteCloudObjects | app.py:78-79 | no client gives AttributeError with no call; otherwise the backend receives exactly the normalised slice, in order; on success the registry loses exactly that slice, and on failure the session is unchanged and the backend's exception is the result; an empty slice never changes the session |
| App.Forward | app.py:39-50 | a pass-through tool never changes the session; it makes one backend call exactly when a client exists, and the result is that call's reply or its exception |
| App.FileBodyOverrides | app.py:299-307 | with file control on, the file read is the first effect; a failed read means no backend call and an unchanged session; otherwise the backend gets the caller's arguments with "body" overridden by the file contents |
| App.PutThenGet | app.py:141 | after a successful put, index `n` and index `-1` both reach the new handle, and earlier indices behave as before |
| App.PutThenDeleteLast | app.py:64 | `delete_cloudobject(-1)` right after a successful put restores the registry, even if the backend delete fails, and deletes exactly the new handle |
| App.DeleteThenGet | app.py:64 | after a single delete, later gets see lower indices unchanged and higher indices shifted down by one, and the old last index raises IndexError |
| App.DeleteRangeThenGet | app.py:78-79 | after a successful range delete of `[lo, hi)`, later gets see indices below `lo` unchanged and the rest shifted down by `hi - lo` |
| Runs.Invoke | app.py:10-396 | only put-cloudobject hands out a CloudObject, only puts and deletes change the registry, and only `lithops_storage` changes the client; on success get and the returning pass-through tools answer content, while init, put-object, the deletes and the pass-through tools without a `return` (app.py:50, app.py:96, app.py:114) answer None |
| Runs.InvokeOrigin | app.py:7 | one tool call adds at most the handle it returns to the registry |
| Runs.RunOrigin | app.py:7 | after any run, the registry holds only handles that were there before or that a put in the run returned, and none more often than that |
| Runs.PutStep | app.py:309-312 | one put extends the registry by exactly the handle it returns, if any |
| Runs.PutsAppendInOrder | app.py:311 | a run of puts extends the registry by exactly the handles returned, in the order returned |
| Runs.PutsAreIndexable | app.py:141 | the i-th handle returned by a run of puts is then found at index `n0 + i` |
| Runs.Uninitialised | app.py:6 | without a client, every tool but initialisation fails, leaves the session unchanged and calls no Storage method; a put without file control fails with AttributeError |
| Runs.UninitialisedRun | app.py:6 | a run that never initialises, starting without a client, changes nothing, hands out nothing, and calls no Storage method at any step |
| Runs.ThreePutsThenDeleteTwo | app.py:78-79 | three puts followed by `delete_cloudobjects(0, 2)` send the first two handles to the backend and leave the third alone, at index 0 |
| Runs.PutGetDeleteGet | app.py:64 | initialise, put, get 0, delete 0, get 0: the get and the delete reach the put's handle, and the final get raises IndexError with no backend call |

## Left out

- The pass-through tools (create/delete/get/head/list of buckets and objects, storage config, upload/download file) are each one generic `Forward` call. They have no logic beyond `storage.<op>(**args)`, and the shapes of their arguments and of the replies they return belong to the lithops backend. Whether a tool returns that reply or None is modelled by the `answers` flag of `Runs.PassThrough`.
- The lithops `Storage` backends (S3, Redis, ...) and the content of a CloudObject are not visible. Each backend call is an arbitrary function from its arguments to a value or an exception. So no lemma says that a get returns what an earlier put stored.
- File I/O and decoding (`open` with utf-8 text or binary mode, `read`, closing the `with` block) collapse into one abstract read that returns the contents or raises. Python truthiness of `aux["file"]` and `aux["text_io"]` is modelled as a boolean.
- Stream (file-like) return values are passed through as opaque values.
- FastMCP tool registration, argument validation and the stdio transport (app.py:399-400) are plumbing and are not modelled.
- Concurrency is not modelled. The server has no locks and is driven one call at a time.
- The mutation of the caller's `args` dictionary by the put tools' file branch is not modelled. The dictionary is built fresh for every call and is not visible afterwards.
