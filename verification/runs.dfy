/**
 Sequences of tool calls against the one shared session, and the
 properties that relate several calls: where registry entries come from,
 that puts append in order, that nothing happens before initialisation,
 and the usage scenarios of the server.
 */
module Runs {
  import opened Wrappers
  import PyList
  import App

  /** A tool invocation as the MCP client sends it. */
  datatype Tool =
    | InitStorage(config: App.Args)
    | PutCloudObject(args: App.Args, aux: App.Aux)
    | PutObject(args: App.Args, aux: App.Aux)
    | GetCloudObject(index: int, stream: bool)
    | DeleteCloudObject(index: int)
    | DeleteCloudObjects(start: int, end: int)
    // `answers` is false for the pass-through tools without a `return`
    // (create_bucket, delete_object, delete_objects), which answer None
    | PassThrough(op: string, args: App.Args, answers: bool)

  /** What a tool hands back to the MCP client (`None` for the tools without a return). */
  datatype Answer = Nothing | CloudObject(handle: App.Handle) | Content(value: App.Value)

  /** One call: the tool and how the outside world answers while it runs. */
  datatype Invocation = Invocation(world: App.World, tool: Tool)

  function AsNothing<T>(o: App.Step<T>): App.Step<Answer>
  {
    App.Step(o.after, o.effects, if o.result.Ok? then Ok(Nothing) else Err(o.result.error))
  }

  function AsCloudObject(o: App.Step<App.Handle>): App.Step<Answer>
  {
    App.Step(o.after, o.effects, if o.result.Ok? then Ok(CloudObject(o.result.value)) else Err(o.result.error))
  }

  function AsContent(o: App.Step<App.Value>): App.Step<Answer>
  {
    App.Step(o.after, o.effects, if o.result.Ok? then Ok(Content(o.result.value)) else Err(o.result.error))
  }

  /** The dispatcher: runs the tool against the session. */
  function Invoke(w: App.World, s: App.Session, t: Tool): (o: App.Step<Answer>)
    // only the put tool hands out a CloudObject
    ensures o.result.Ok? && o.result.value.CloudObject? ==> t.PutCloudObject?
    // only puts and deletes touch the registry, only initialisation the client
    ensures !(t.PutCloudObject? || t.DeleteCloudObject? || t.DeleteCloudObjects?) ==>
      o.after.cloudObjects == s.cloudObjects
    ensures !t.InitStorage? ==> o.after.storage == s.storage
    // what each tool answers on success
    ensures o.result.Ok? && t.PutCloudObject? ==> o.result.value.CloudObject?
    ensures o.result.Ok? && t.GetCloudObject? ==> o.result.value.Content?
    ensures o.result.Ok? && t.PassThrough? ==> (o.result.value.Content? <==> t.answers)
    ensures o.result.Ok? && !(t.PutCloudObject? || t.GetCloudObject? || t.PassThrough?) ==>
      o.result.value == Nothing
    ensures o.result.Ok? && t.PassThrough? && !t.answers ==> o.result.value == Nothing
  {
    match t
    case InitStorage(config) => AsNothing(App.InitStorage(w, s, config))
    case PutCloudObject(args, aux) => AsCloudObject(App.PutCloudObject(w, s, args, aux))
    case PutObject(args, aux) => AsNothing(App.PutObject(w, s, args, aux))
    case GetCloudObject(index, stream) => AsContent(App.GetCloudObject(w, s, index, stream))
    case DeleteCloudObject(index) => AsNothing(App.DeleteCloudObject(w, s, index))
    case DeleteCloudObjects(start, end) => AsNothing(App.DeleteCloudObjects(w, s, start, end))
    case PassThrough(op, args, answers) =>
      var o := App.Forward(w, s, op, args);
      if answers then AsContent(o) else AsNothing(o)
  }

  /** The steps of a run, one per invocation, each starting where the previous one ended. */
  function Run(s: App.Session, calls: seq<Invocation>): (steps: seq<App.Step<Answer>>)
    ensures |steps| == |calls|
    decreases |calls|
  {
    if |calls| == 0 then []
    else
      var o := Invoke(calls[0].world, s, calls[0].tool);
      [o] + Run(o.after, calls[1..])
  }

  /** The session after a run. */
  function End(s: App.Session, calls: seq<Invocation>): App.Session
    decreases |calls|
  {
    if |calls| == 0 then s
    else End(Invoke(calls[0].world, s, calls[0].tool).after, calls[1..])
  }

  /** One step of `End` and `Issued`. */
  lemma Unfold(s: App.Session, calls: seq<Invocation>)
    requires |calls| > 0
    ensures var o := Invoke(calls[0].world, s, calls[0].tool);
      && End(s, calls) == End(o.after, calls[1..])
      && Issued(s, calls) == Minted(o) + Issued(o.after, calls[1..])
  {
  }

  /** One step of `Run`. */
  lemma UnfoldRun(s: App.Session, calls: seq<Invocation>)
    requires |calls| > 0
    ensures var o := Invoke(calls[0].world, s, calls[0].tool);
      Run(s, calls) == [o] + Run(o.after, calls[1..])
  {
  }

  /** One step of a run whose first step is already known to be `o`. */
  lemma KnownStep(s: App.Session, calls: seq<Invocation>, o: App.Step<Answer>)
    requires |calls| > 0 && Invoke(calls[0].world, s, calls[0].tool) == o
    ensures End(s, calls) == End(o.after, calls[1..])
    ensures Run(s, calls) == [o] + Run(o.after, calls[1..])
  {
    Unfold(s, calls);
    UnfoldRun(s, calls);
  }

  /** What the first step of a run already known to be `o` hands out. */
  lemma KnownMint(s: App.Session, calls: seq<Invocation>, o: App.Step<Answer>)
    requires |calls| > 0 && Invoke(calls[0].world, s, calls[0].tool) == o
    ensures Issued(s, calls) == Minted(o) + Issued(o.after, calls[1..])
  {
    Unfold(s, calls);
  }

  /** A four-step run whose steps are already known. */
  lemma Chain4(s: App.Session, calls: seq<Invocation>,
               o0: App.Step<Answer>, o1: App.Step<Answer>, o2: App.Step<Answer>, o3: App.Step<Answer>)
    requires |calls| == 4
    requires Invoke(calls[0].world, s, calls[0].tool) == o0
    requires Invoke(calls[1].world, o0.after, calls[1].tool) == o1
    requires Invoke(calls[2].world, o1.after, calls[2].tool) == o2
    requires Invoke(calls[3].world, o2.after, calls[3].tool) == o3
    ensures End(s, calls) == o3.after
    ensures Run(s, calls) == [o0, o1, o2, o3]
  {
    var r1, r2, r3 := calls[1..], calls[2..], calls[3..];
    assert r1[1..] == r2 && r2[1..] == r3 && |r3[1..]| == 0;
    KnownStep(o2.after, r3, o3);
    KnownStep(o1.after, r2, o2);
    KnownStep(o0.after, r1, o1);
    KnownStep(s, calls, o0);
  }

  /** The handles a four-step run whose steps are already known hands out. */
  lemma Chain4Issued(s: App.Session, calls: seq<Invocation>,
                     o0: App.Step<Answer>, o1: App.Step<Answer>, o2: App.Step<Answer>, o3: App.Step<Answer>)
    requires |calls| == 4
    requires Invoke(calls[0].world, s, calls[0].tool) == o0
    requires Invoke(calls[1].world, o0.after, calls[1].tool) == o1
    requires Invoke(calls[2].world, o1.after, calls[2].tool) == o2
    requires Invoke(calls[3].world, o2.after, calls[3].tool) == o3
    ensures Issued(s, calls) == Minted(o0) + (Minted(o1) + (Minted(o2) + Minted(o3)))
  {
    var r1, r2, r3 := calls[1..], calls[2..], calls[3..];
    assert r1[1..] == r2 && r2[1..] == r3 && |r3[1..]| == 0;
    KnownMint(o2.after, r3, o3);
    KnownMint(o1.after, r2, o2);
    KnownMint(o0.after, r1, o1);
    KnownMint(s, calls, o0);
    assert Issued(o3.after, r3[1..]) == [];
    assert Minted(o3) + [] == Minted(o3);
  }

  /** The session `End` computes is the one the last step of `Run` leaves. */
  lemma {:induction false} EndIsLastStep(s: App.Session, calls: seq<Invocation>)
    requires |calls| > 0
    ensures End(s, calls) == Run(s, calls)[|calls| - 1].after
    decreases |calls|
  {
    var o := Invoke(calls[0].world, s, calls[0].tool);
    if |calls| > 1 {
      EndIsLastStep(o.after, calls[1..]);
      assert Run(s, calls)[|calls| - 1] == Run(o.after, calls[1..])[|calls| - 2];
    }
  }

  /** The handle a step handed out, if any. */
  function Minted(o: App.Step<Answer>): seq<App.Handle>
  {
    if o.result.Ok? && o.result.value.CloudObject? then [o.result.value.handle] else []
  }

  /** Every handle a run handed out, in order. */
  function Issued(s: App.Session, calls: seq<Invocation>): seq<App.Handle>
    decreases |calls|
  {
    if |calls| == 0 then []
    else
      var o := Invoke(calls[0].world, s, calls[0].tool);
      Minted(o) + Issued(o.after, calls[1..])
  }

  // ---------------------------------------------------------------------
  // Where registry entries come from
  // ---------------------------------------------------------------------

  lemma CutShrinks<T>(a: seq<T>, lo: nat, hi: nat)
    requires lo <= hi <= |a|
    ensures multiset(a[..lo] + a[hi..]) <= multiset(a)
  {
    assert a == a[..lo] + a[lo..hi] + a[hi..];
  }

  lemma DeleteOneShrinks(w: App.World, s: App.Session, index: int)
    ensures multiset(App.DeleteCloudObject(w, s, index).after.cloudObjects) <= multiset(s.cloudObjects)
  {
    var a := s.cloudObjects;
    if s.storage.Some? && PyList.SsizeMin <= index <= PyList.SsizeMax && -|a| <= index < |a| {
      var k := index % |a|;
      CutShrinks(a, k, k + 1);
    }
  }

  lemma DeleteRangeShrinks(w: App.World, s: App.Session, start: int, end: int)
    ensures multiset(App.DeleteCloudObjects(w, s, start, end).after.cloudObjects) <= multiset(s.cloudObjects)
  {
    var g := PyList.SliceRange(start, end, |s.cloudObjects|);
    CutShrinks(s.cloudObjects, g.lo, g.hi);
  }

  /** One call adds to the registry at most the handle it hands out; every
      other entry was already there. */
  lemma InvokeOrigin(w: App.World, s: App.Session, t: Tool)
    ensures var o := Invoke(w, s, t);
      multiset(o.after.cloudObjects) <= multiset(s.cloudObjects) + multiset(Minted(o))
  {
    var o := Invoke(w, s, t);
    match t
    case DeleteCloudObject(index) =>
      DeleteOneShrinks(w, s, index);
      assert o.after == App.DeleteCloudObject(w, s, index).after;
    case DeleteCloudObjects(start, end) =>
      DeleteRangeShrinks(w, s, start, end);
      assert o.after == App.DeleteCloudObjects(w, s, start, end).after;
    case PutCloudObject(args, aux) =>
      PutStep(w, s, t);
    case _ =>
      assert o.after.cloudObjects == s.cloudObjects;
  }

  /** After any run the registry holds only entries it held before or handles
      a put of the run returned, none more often than that. */
  lemma {:induction false} RunOrigin(s: App.Session, calls: seq<Invocation>)
    ensures multiset(End(s, calls).cloudObjects) <= multiset(s.cloudObjects) + multiset(Issued(s, calls))
    decreases |calls|
  {
    if |calls| > 0 {
      var o := Invoke(calls[0].world, s, calls[0].tool);
      InvokeOrigin(calls[0].world, s, calls[0].tool);
      RunOrigin(o.after, calls[1..]);
      assert multiset(Issued(s, calls)) == multiset(Minted(o)) + multiset(Issued(o.after, calls[1..]));
    }
  }

  // ---------------------------------------------------------------------
  // Puts append in order
  // ---------------------------------------------------------------------

  /** Every call of the run is a put-cloudobject. */
  ghost predicate OnlyPuts(calls: seq<Invocation>)
    decreases |calls|
  {
    |calls| == 0 || (calls[0].tool.PutCloudObject? && OnlyPuts(calls[1..]))
  }

  /** One put extends the registry by exactly the handle it hands out, if any. */
  lemma PutStep(w: App.World, s: App.Session, t: Tool)
    requires t.PutCloudObject?
    ensures var o := Invoke(w, s, t);
      o.after.cloudObjects == s.cloudObjects + Minted(o)
  {
  }

  /** A run of put-cloudobject calls (successful or not) extends the registry
      by exactly the handles handed out, in the order handed out. */
  lemma {:induction false} PutsAppendInOrder(s: App.Session, calls: seq<Invocation>)
    requires OnlyPuts(calls)
    ensures End(s, calls).cloudObjects == s.cloudObjects + Issued(s, calls)
    decreases |calls|
  {
    if |calls| > 0 {
      var w, t, rest := calls[0].world, calls[0].tool, calls[1..];
      var o := Invoke(w, s, t);
      Unfold(s, calls);
      PutStep(w, s, t);
      PutsAppendInOrder(o.after, rest);
      var m, later := Minted(o), Issued(o.after, rest);
      assert s.cloudObjects + m + later == s.cloudObjects + (m + later);
    }
  }

  /** The i-th handle handed out by a run of puts is afterwards found at index
      `n0 + i`, where `n0` is the registry length before the run. */
  lemma PutsAreIndexable(s: App.Session, calls: seq<Invocation>, i: nat)
    requires OnlyPuts(calls)
    requires i < |Issued(s, calls)|
    ensures PyList.Index(End(s, calls).cloudObjects, |s.cloudObjects| + i) == Ok(Issued(s, calls)[i])
  {
    PutsAppendInOrder(s, calls);
    var reg, issued := End(s, calls).cloudObjects, Issued(s, calls);
    assert reg == s.cloudObjects + issued;
    IndexAppended(s.cloudObjects, issued, i);
  }

  lemma IndexAppended(a: seq<App.Handle>, b: seq<App.Handle>, i: nat)
    requires i < |b|
    ensures PyList.Index(a + b, |a| + i) == Ok(b[i])
  {
  }

  // ---------------------------------------------------------------------
  // Nothing happens before initialisation
  // ---------------------------------------------------------------------

  /** No call of the run is `lithops_storage`. */
  ghost predicate NoInit(calls: seq<Invocation>)
    decreases |calls|
  {
    |calls| == 0 || (!calls[0].tool.InitStorage? && NoInit(calls[1..]))
  }

  /** Without a client every tool but initialisation fails, leaves the session
      alone and reaches no Storage method; all but a file-reading put fail with
      AttributeError. */
  lemma Uninitialised(w: App.World, s: App.Session, t: Tool)
    requires s.storage.None? && !t.InitStorage?
    ensures var o := Invoke(w, s, t);
      && o.result.Err? && o.after == s && App.StorageCalls(o.effects) == []
      && (o.effects == [] ==> o.result.error.AttributeError? || o.result.error.KeyError?)
      && ((t.PutCloudObject? || t.PutObject?) && t.aux.file == Some(false) ==> o.result == Err(App.AttributeError))
  {
  }

  lemma UninitialisedStep(w: App.World, s: App.Session, t: Tool)
    requires s.storage.None? && !t.InitStorage?
    ensures var o := Invoke(w, s, t);
      o.result.Err? && o.after == s && App.StorageCalls(o.effects) == []
  {
    Uninitialised(w, s, t);
  }

  lemma {:induction false} UninitialisedEnd(s: App.Session, calls: seq<Invocation>)
    requires s.storage.None? && NoInit(calls)
    ensures End(s, calls) == s && Issued(s, calls) == []
    decreases |calls|
  {
    if |calls| > 0 {
      UninitialisedStep(calls[0].world, s, calls[0].tool);
      Unfold(s, calls);
      UninitialisedEnd(s, calls[1..]);
    }
  }

  lemma {:induction false} UninitialisedSteps(s: App.Session, calls: seq<Invocation>)
    requires s.storage.None? && NoInit(calls)
    ensures forall i :: 0 <= i < |calls| ==>
      Run(s, calls)[i].result.Err? && App.StorageCalls(Run(s, calls)[i].effects) == []
    decreases |calls|
  {
    if |calls| > 0 {
      UninitialisedStep(calls[0].world, s, calls[0].tool);
      UnfoldRun(s, calls);
      UninitialisedSteps(s, calls[1..]);
      var steps := Run(s, calls);
      var tail := Run(s, calls[1..]);
      forall i | 0 <= i < |calls|
        ensures steps[i].result.Err? && App.StorageCalls(steps[i].effects) == []
      {
        if i > 0 {
          assert steps[i] == tail[i - 1];
        }
      }
    }
  }

  /** A whole run without initialisation changes nothing and calls no Storage method. */
  lemma UninitialisedRun(s: App.Session, calls: seq<Invocation>)
    requires s.storage.None? && NoInit(calls)
    ensures End(s, calls) == s
    ensures Issued(s, calls) == []
    ensures forall i :: 0 <= i < |calls| ==>
      Run(s, calls)[i].result.Err? && App.StorageCalls(Run(s, calls)[i].effects) == []
  {
    UninitialisedEnd(s, calls);
    UninitialisedSteps(s, calls);
  }

  // ---------------------------------------------------------------------
  // Usage scenarios
  // ---------------------------------------------------------------------

  /** File control switched off: the body comes from `args`. */
  const NoFile: App.Aux := App.Aux(Some(false), None, None)

  /** A put without file control on an initialised session appends the handle the backend returns. */
  lemma PlainPut(w: App.World, c: App.Client, reg: seq<App.Handle>, a: App.Args, h: App.Handle)
    requires w.putCloudObject(c, a) == App.Returned(h)
    ensures Invoke(w, App.Session(Some(c), reg), PutCloudObject(a, NoFile))
         == App.Step(App.Session(Some(c), reg + [h]), [App.PutCloudObjectCall(c, a)], Ok(CloudObject(h)))
  {
  }

  lemma DeleteFirstTwo(w: App.World, c: App.Client, h0: App.Handle, h1: App.Handle, h2: App.Handle)
    requires w.deleteCloudObjects(c, [h0, h1]).Returned?
    ensures Invoke(w, App.Session(Some(c), [h0, h1, h2]), DeleteCloudObjects(0, 2))
         == App.Step(App.Session(Some(c), [h2]), [App.DeleteCloudObjectsCall(c, [h0, h1])], Ok(Nothing))
  {
    assert [h0, h1, h2][0..2] == [h0, h1];
    assert [h0, h1, h2][..0] + [h0, h1, h2][2..] == [h2];
  }

  /** Three puts hand out h0, h1, h2; `delete_cloudobjects(0, 2)` then sends
      [h0, h1] to the backend and leaves h2 alone, now at index 0. */
  lemma ThreePutsThenDeleteTwo(c: App.Client, w0: App.World, w1: App.World, w2: App.World, w3: App.World,
                               a0: App.Args, a1: App.Args, a2: App.Args,
                               h0: App.Handle, h1: App.Handle, h2: App.Handle)
    requires w0.putCloudObject(c, a0) == App.Returned(h0)
    requires w1.putCloudObject(c, a1) == App.Returned(h1)
    requires w2.putCloudObject(c, a2) == App.Returned(h2)
    requires w3.deleteCloudObjects(c, [h0, h1]).Returned?
    ensures var s := App.Session(Some(c), []);
      var calls := [Invocation(w0, PutCloudObject(a0, NoFile)), Invocation(w1, PutCloudObject(a1, NoFile)),
                    Invocation(w2, PutCloudObject(a2, NoFile)), Invocation(w3, DeleteCloudObjects(0, 2))];
      && Issued(s, calls) == [h0, h1, h2]
      && Run(s, calls)[3].effects == [App.DeleteCloudObjectsCall(c, [h0, h1])]
      && End(s, calls) == App.Session(Some(c), [h2])
  {
    var s := App.Session(Some(c), []);
    var calls := [Invocation(w0, PutCloudObject(a0, NoFile)), Invocation(w1, PutCloudObject(a1, NoFile)),
                  Invocation(w2, PutCloudObject(a2, NoFile)), Invocation(w3, DeleteCloudObjects(0, 2))];
    var s1 := App.Session(Some(c), [h0]);
    var s2 := App.Session(Some(c), [h0, h1]);
    var s3 := App.Session(Some(c), [h0, h1, h2]);
    var s4 := App.Session(Some(c), [h2]);
    PlainPut(w0, c, [], a0, h0);
    PlainPut(w1, c, [h0], a1, h1);
    PlainPut(w2, c, [h0, h1], a2, h2);
    DeleteFirstTwo(w3, c, h0, h1, h2);
    var o0 := App.Step(s1, [App.PutCloudObjectCall(c, a0)], Ok(CloudObject(h0)));
    var o1 := App.Step(s2, [App.PutCloudObjectCall(c, a1)], Ok(CloudObject(h1)));
    var o2 := App.Step(s3, [App.PutCloudObjectCall(c, a2)], Ok(CloudObject(h2)));
    var o3 := App.Step(s4, [App.DeleteCloudObjectsCall(c, [h0, h1])], Ok(Nothing));
    Chain4(s, calls, o0, o1, o2, o3);
    Chain4Issued(s, calls, o0, o1, o2, o3);
  }

  /** Initialise, put `h`, get index 0 (reaches `h`), delete index 0 (the
      backend is asked to delete `h`), get index 0 again: IndexError. */
  lemma PutGetDeleteGet(config: App.Args, c: App.Client, a: App.Args, h: App.Handle,
                        w0: App.World, w1: App.World, w2: App.World, w3: App.World, w4: App.World)
    requires w0.construct(config) == App.Returned(c)
    requires w1.putCloudObject(c, a) == App.Returned(h)
    ensures var calls := [Invocation(w0, InitStorage(config)), Invocation(w1, PutCloudObject(a, NoFile)),
                          Invocation(w2, GetCloudObject(0, false)), Invocation(w3, DeleteCloudObject(0)),
                          Invocation(w4, GetCloudObject(0, false))];
      var steps := Run(App.Start, calls);
      && steps[1].result == Ok(CloudObject(h))
      && steps[2].effects == [App.GetCloudObjectCall(c, h, false)]
      && steps[3].effects == [App.DeleteCloudObjectCall(c, h)]
      && steps[4].effects == [] && steps[4].result == Err(App.IndexError)
      && End(App.Start, calls) == App.Session(Some(c), [])
  {
    var calls := [Invocation(w0, InitStorage(config)), Invocation(w1, PutCloudObject(a, NoFile)),
                  Invocation(w2, GetCloudObject(0, false)), Invocation(w3, DeleteCloudObject(0)),
                  Invocation(w4, GetCloudObject(0, false))];
    var s1 := App.Session(Some(c), []);
    var s2 := App.Session(Some(c), [h]);
    assert Invoke(w0, App.Start, calls[0].tool).after == s1;
    assert Invoke(w1, s1, calls[1].tool).after == s2;
    assert Invoke(w2, s2, calls[2].tool).after == s2;
    assert [h][..0] + [h][1..] == [];
    assert Invoke(w3, s2, calls[3].tool).after == s1;
    var r1 := calls[1..];
    var r2 := r1[1..];
    var r3 := r2[1..];
    var r4 := r3[1..];
    assert r4[1..] == [];
    Unfold(App.Start, calls);
    Unfold(s1, r1);
    Unfold(s2, r2);
    Unfold(s2, r3);
    Unfold(s1, r4);
    var steps := Run(App.Start, calls);
    assert steps[1] == Run(s1, r1)[0];
    assert steps[2] == Run(s2, r2)[0];
    assert steps[3] == Run(s2, r3)[0];
    assert steps[4] == Run(s1, r4)[0];
  }
}
