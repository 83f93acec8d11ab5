/** Sequences of lifecycle calls: the phase a well-behaved host walks
    through, and what the provider handle and the external resources look
    like at every point of such a run. */
module LifecycleRun {
  import opened PlatformTypes
  import opened Lifecycle

  /** The lifecycle phase. The code keeps no such variable; it is the
      caller's side of the contract. */
  datatype Phase = Unloaded | Loaded | Initialized

  /** One lifecycle entry point, with what the external steps return. */
  datatype Call = SystemLoad | Initialize(host: InitReplies) | Uninitialize

  /** The globals, the phase and the external calls made so far. */
  datatype Machine = Machine(phase: Phase, globals: GlobalState, trace: seq<Event>)

  const Start: Machine := Machine(Unloaded, StaticGlobals, [])

  /** The order in which the host calls the entry points. */
  predicate Admissible(phase: Phase, c: Call) {
    match c
    case SystemLoad => phase == Unloaded
    case Initialize(_) => phase == Loaded
    case Uninitialize => phase == Initialized
  }

  /** The effect of one call, admissible or not. */
  function Apply(m: Machine, c: Call): Machine {
    match c
    case SystemLoad =>
      Machine(Loaded, SystemLoadStep(m.globals), m.trace)
    case Initialize(host) =>
      var r := InitializeStep(m.globals, host);
      Machine(if Failed(r.status) then m.phase else Initialized, r.globals, m.trace + r.calls)
    case Uninitialize =>
      var (g, calls) := UninitializeStep(m.globals);
      Machine(Loaded, g, m.trace + calls)
  }

  function Run(m: Machine, calls: seq<Call>): Machine
    decreases |calls|
  {
    if calls == [] then m else Run(Apply(m, calls[0]), calls[1..])
  }

  /** Every call of the run is made in a phase that admits it. */
  predicate Disciplined(m: Machine, calls: seq<Call>)
    decreases |calls|
  {
    calls == [] || (Admissible(m.phase, calls[0]) && Disciplined(Apply(m, calls[0]), calls[1..]))
  }

  /** Every provider the run opens keeps the provider's contract. */
  predicate Conforming(calls: seq<Call>) {
    forall i :: 0 <= i < |calls| && calls[i].Initialize? ==> calls[i].host.ProviderConforms()
  }

  /** The external resources the lifecycle acquires: one RNG provider per
      handle, and the TLS library. */
  datatype Resource = RngProvider(handle: Ptr) | TlsLibrary

  /** How one external call changes the number of holdings of a resource. A
      handle written by the open is held even when the open reports failure:
      the code closes any non-null handle. A close releases only the handle it
      names. */
  function Delta(e: Event, res: Resource): int {
    match (e, res)
    case (OpenAlgorithmProvider(_, h), RngProvider(k)) => if h != Null && h == k then 1 else 0
    case (CloseAlgorithmProvider(h), RngProvider(k)) => if h == k then -1 else 0
    case (TlsLibraryInitialize(s), TlsLibrary) => if Failed(s) then 0 else 1
    case (TlsLibraryUninitialize, TlsLibrary) => -1
    case _ => 0
  }

  /** Acquisitions minus releases of a resource over a trace. */
  function Held(trace: seq<Event>, res: Resource): int {
    if trace == [] then 0 else Delta(trace[0], res) + Held(trace[1..], res)
  }

  lemma {:induction false} HeldAppend(a: seq<Event>, b: seq<Event>, res: Resource)
    ensures Held(a + b, res) == Held(a, res) + Held(b, res)
    decreases |a|
  {
    if a == [] {
      assert a + b == b;
    } else {
      assert (a + b)[0] == a[0];
      assert (a + b)[1..] == a[1..] + b;
      HeldAppend(a[1..], b, res);
      assert Held(a + b, res) == Delta(a[0], res) + Held(a[1..] + b, res);
    }
  }

  /** Held over a trace of at most four calls: the sum of their deltas. */
  lemma {:induction false} HeldOfShortTrace(calls: seq<Event>, res: Resource)
    requires |calls| <= 4
    ensures Held(calls, res) ==
      (if |calls| > 0 then Delta(calls[0], res) else 0) + (if |calls| > 1 then Delta(calls[1], res) else 0) +
      (if |calls| > 2 then Delta(calls[2], res) else 0) + (if |calls| > 3 then Delta(calls[3], res) else 0)
    decreases |calls|
  {
    if calls != [] {
      var t := calls[1..];
      HeldOfShortTrace(t, res);
      assert forall i :: 0 <= i < |t| ==> t[i] == calls[i + 1];
    }
  }

  /** The number of holdings each resource should have: in the Initialized
      phase, the current handle and the TLS library are held once; nothing
      else is ever held. */
  function Owed(m: Machine, res: Resource): int {
    match res
    case RngProvider(h) => if m.phase == Initialized && h == m.globals.rngAlgorithm then 1 else 0
    case TlsLibrary => if m.phase == Initialized then 1 else 0
  }

  /** The handle is set exactly in the Initialized phase, and every resource
      is held exactly as often as `Owed` says. */
  ghost predicate Consistent(m: Machine) {
    && (m.globals.rngAlgorithm != Null <==> m.phase == Initialized)
    && forall res :: Held(m.trace, res) == Owed(m, res)
  }

  lemma {:induction false} ApplyInitializeKeepsConsistent(m: Machine, host: InitReplies)
    requires Consistent(m) && m.phase == Loaded && host.ProviderConforms()
    ensures Consistent(Apply(m, Initialize(host)))
  {
    var r := InitializeStep(m.globals, host);
    var m' := Apply(m, Initialize(host));
    var open := OpenAlgorithmProvider(host.openStatus, host.openHandle);
    var query := QuerySystemInformation(host.queryStatus);
    var tls := TlsLibraryInitialize(host.tlsStatus);
    var close := [CloseAlgorithmProvider(host.openHandle)];
    if Failed(host.openStatus) {
      assert r.calls == [open] + (if host.openHandle != Null then close else []);
    } else if Failed(host.queryStatus) {
      assert r.calls == [open, query] + close;
    } else if Failed(host.tlsStatus) {
      assert r.calls == [open, query, tls] + close;
    } else {
      assert r.calls == [open, query, tls];
    }
    forall res ensures Held(m'.trace, res) == Owed(m', res) {
      HeldAppend(m.trace, r.calls, res);
      HeldOfShortTrace(r.calls, res);
      assert Held(m.trace, res) == Owed(m, res);
    }
  }

  lemma {:induction false} ApplyKeepsConsistent(m: Machine, c: Call)
    requires Consistent(m) && Admissible(m.phase, c)
    requires c.Initialize? ==> c.host.ProviderConforms()
    ensures Consistent(Apply(m, c))
  {
    var m' := Apply(m, c);
    match c
    case SystemLoad =>
      forall res ensures Held(m'.trace, res) == Owed(m', res) {
        assert Held(m.trace, res) == Owed(m, res);
      }
    case Initialize(host) =>
      ApplyInitializeKeepsConsistent(m, host);
    case Uninitialize =>
      var (_, calls) := UninitializeStep(m.globals);
      forall res ensures Held(m'.trace, res) == Owed(m', res) {
        HeldAppend(m.trace, calls, res);
        HeldOfShortTrace(calls, res);
        assert Held(m.trace, res) == Owed(m, res);
      }
  }

  /** Every disciplined run with conforming providers keeps the handle and
      the external resources in step with the phase. */
  lemma {:induction false} RunKeepsConsistent(m: Machine, calls: seq<Call>)
    requires Consistent(m) && Disciplined(m, calls) && Conforming(calls)
    ensures Consistent(Run(m, calls))
    decreases |calls|
  {
    if calls != [] {
      ApplyKeepsConsistent(m, calls[0]);
      assert Conforming(calls[1..]) by {
        forall i | 0 <= i < |calls[1..]| && calls[1..][i].Initialize?
          ensures calls[1..][i].host.ProviderConforms()
        {
          assert calls[1..][i] == calls[i + 1];
        }
      }
      RunKeepsConsistent(Apply(m, calls[0]), calls[1..]);
    }
  }

  /** From the static globals: the handle is non-null exactly when the
      platform is initialized; every provider handle other than the current
      one has been closed as often as it was opened, and outside that phase
      the current one too, as is every TLS initialization; and Uninitialize
      always finds a handle to close. */
  lemma HandleSetIffInitialized(calls: seq<Call>)
    requires Disciplined(Start, calls) && Conforming(calls)
    ensures var m := Run(Start, calls);
      && (m.globals.rngAlgorithm != Null <==> m.phase == Initialized)
      && (forall h :: h != m.globals.rngAlgorithm ==> Held(m.trace, RngProvider(h)) == 0)
      && (m.phase == Initialized ==> Held(m.trace, RngProvider(m.globals.rngAlgorithm)) == 1)
      && (m.phase != Initialized ==> (forall res :: Held(m.trace, res) == 0))
      && (Admissible(m.phase, Uninitialize) ==> m.globals.rngAlgorithm != Null)
  {
    forall res ensures Held(Start.trace, res) == Owed(Start, res) {
    }
    RunKeepsConsistent(Start, calls);
    var m := Run(Start, calls);
    assert forall h :: Held(m.trace, RngProvider(h)) == Owed(m, RngProvider(h));
  }

  /** Load, a successful Initialize, then Uninitialize: the calls go out in
      the order open, query, TLS initialize, TLS uninitialize, close, and the
      handle ends null. */
  lemma FullCycle(host: InitReplies)
    requires !Failed(host.openStatus) && !Failed(host.queryStatus) && !Failed(host.tlsStatus)
    requires host.ProviderConforms()
    ensures var m := Run(Start, [SystemLoad, Initialize(host), Uninitialize]);
      && m.phase == Loaded
      && m.globals.rngAlgorithm == Null
      && m.globals.totalMemory as int == host.sbi.numberOfPhysicalPages as int * host.sbi.pageSize as int
      && m.trace == host.PlannedCalls() + [TlsLibraryUninitialize, CloseAlgorithmProvider(host.openHandle)]
  {
    var calls := [SystemLoad, Initialize(host), Uninitialize];
    var m1 := Apply(Start, SystemLoad);
    var m2 := Apply(m1, Initialize(host));
    assert calls[1..] == [Initialize(host), Uninitialize];
    assert calls[1..][1..] == [Uninitialize];
    assert Run(Start, calls) == Run(m2, [Uninitialize]);
  }

  /** The code has no guard against a second Initialize: when one succeeds
      in the Initialized phase, the first provider is never closed and stays
      held beside the new one. */
  lemma SecondInitializeLeaksProvider(m: Machine, host: InitReplies)
    requires Consistent(m) && m.phase == Initialized
    requires !Failed(host.openStatus) && !Failed(host.queryStatus) && !Failed(host.tlsStatus)
    requires host.openHandle != Null
    ensures var m' := Apply(m, Initialize(host));
      && m'.globals.rngAlgorithm == host.openHandle
      && CloseAlgorithmProvider(m.globals.rngAlgorithm) !in m'.trace[|m.trace|..]
      && Held(m'.trace, RngProvider(m.globals.rngAlgorithm)) == (if host.openHandle == m.globals.rngAlgorithm then 2 else 1)
      && Held(m'.trace, RngProvider(host.openHandle)) == (if host.openHandle == m.globals.rngAlgorithm then 2 else 1)
  {
    var r := InitializeStep(m.globals, host);
    var first, second := RngProvider(m.globals.rngAlgorithm), RngProvider(host.openHandle);
    HeldAppend(m.trace, r.calls, first);
    HeldOfShortTrace(r.calls, first);
    HeldAppend(m.trace, r.calls, second);
    HeldOfShortTrace(r.calls, second);
    assert Held(m.trace, first) == Owed(m, first);
    assert Held(m.trace, second) == Owed(m, second);
    assert r.calls == host.PlannedCalls();
    assert (m.trace + r.calls)[|m.trace|..] == r.calls;
  }
}
