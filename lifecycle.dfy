/** The lifecycle of the Windows-kernel platform layer: loading the driver,
    initializing and uninitializing the platform, and the random-number
    service that uses the provider handle the lifecycle owns. */
module Lifecycle {
  import opened PlatformTypes
  import Capacity

  /** The two globals the lifecycle writes: QuicPlatform.RngAlgorithm and
      QuicTotalMemory. */
  datatype GlobalState = GlobalState(rngAlgorithm: Ptr, totalMemory: uint64)

  /** The static initial values of the globals. */
  const StaticGlobals: GlobalState := GlobalState(Null, 0)

  /** What the three external steps of QuicPlatformInitialize return:
      BCryptOpenAlgorithmProvider (its status and the handle it writes),
      ZwQuerySystemInformation (its status and the structure it fills) and
      QuicTlsLibraryInitialize (its status). */
  datatype InitReplies = InitReplies(
    openStatus: Status,
    openHandle: Ptr,
    queryStatus: Status,
    sbi: SystemBasicInformation,
    tlsStatus: Status)
  {
    /** The provider's contract, checked by the debug assertion after the
        open: an open that succeeds writes a non-null handle. */
    predicate ProviderConforms() {
      !Failed(openStatus) ==> openHandle != Null
    }

    /** The statuses of the three steps, in the order the code runs them. */
    function StepStatuses(): seq<Status> {
      [openStatus, queryStatus, tlsStatus]
    }

    /** The three external calls, in the order the code runs them. */
    function PlannedCalls(): seq<Event> {
      [OpenAlgorithmProvider(openStatus, openHandle),
       QuerySystemInformation(queryStatus),
       TlsLibraryInitialize(tlsStatus)]
    }
  }

  /** The index of the first failed status, or |statuses| if none failed. */
  function FirstFailure(statuses: seq<Status>): (k: nat)
    ensures k <= |statuses|
    ensures forall i :: 0 <= i < k ==> !Failed(statuses[i])
    ensures k < |statuses| ==> Failed(statuses[k])
  {
    if statuses == [] then 0
    else if Failed(statuses[0]) then 0
    else 1 + FirstFailure(statuses[1..])
  }

  /** How many of the three steps an initialization attempts: up to and
      including the first that fails, or all three. */
  function Attempted(host: InitReplies): (n: nat)
    ensures 1 <= n <= 3
  {
    var k := FirstFailure(host.StepStatuses());
    if k < 3 then k + 1 else 3
  }

  /** The result of one QuicPlatformInitialize: returned status, globals
      afterwards and the external calls made. */
  datatype InitOutcome = InitOutcome(status: Status, globals: GlobalState, calls: seq<Event>)

  /** The shared `Error:` block: close the provider if the handle is set. */
  function Rollback(status: Status, g: GlobalState, calls: seq<Event>): InitOutcome {
    if g.rngAlgorithm != Null then
      InitOutcome(status, g.(rngAlgorithm := Null), calls + [CloseAlgorithmProvider(g.rngAlgorithm)])
    else
      InitOutcome(status, g, calls)
  }

  /** QuicPlatformInitialize as a function of the globals before the call and
      of what the external steps return. */
  function InitializeStep(g: GlobalState, host: InitReplies): (r: InitOutcome)
    // The steps run in order and stop at the first failure.
    ensures Attempted(host) <= |r.calls|
    ensures r.calls[..Attempted(host)] == host.PlannedCalls()[..Attempted(host)]
    // The status returned is the last attempted step's own status.
    ensures r.status == host.StepStatuses()[Attempted(host) - 1]
    ensures Failed(r.status) <==> FirstFailure(host.StepStatuses()) < 3
    // Rollback closes a provider that was opened, once, and does nothing else.
    ensures r.calls[Attempted(host)..] ==
      if Failed(r.status) && host.openHandle != Null then [CloseAlgorithmProvider(host.openHandle)] else []
    // A failure leaves the handle null and QuicTotalMemory untouched.
    ensures Failed(r.status) ==> r.globals == g.(rngAlgorithm := Null)
    // Success keeps the opened handle and records the total memory.
    ensures !Failed(r.status) ==> r.globals == GlobalState(host.openHandle, Capacity.TotalMemory(host.sbi))
    ensures !Failed(r.status) && host.ProviderConforms() ==> r.globals.rngAlgorithm != Null
  {
    var withHandle := g.(rngAlgorithm := host.openHandle);
    var open := OpenAlgorithmProvider(host.openStatus, host.openHandle);
    var query := QuerySystemInformation(host.queryStatus);
    var tls := TlsLibraryInitialize(host.tlsStatus);
    if Failed(host.openStatus) then
      Rollback(host.openStatus, withHandle, [open])
    else if Failed(host.queryStatus) then
      Rollback(host.queryStatus, withHandle, [open, query])
    else if Failed(host.tlsStatus) then
      Rollback(host.tlsStatus, withHandle, [open, query, tls])
    else
      InitOutcome(host.tlsStatus, withHandle.(totalMemory := Capacity.TotalMemory(host.sbi)), [open, query, tls])
  }

  /** QuicPlatformSystemLoad as a function of the globals: the provider
      handle is reset and nothing else changes. */
  function SystemLoadStep(g: GlobalState): GlobalState {
    g.(rngAlgorithm := Null)
  }

  /** QuicPlatformUninitialize as a function: the globals afterwards and the
      external calls made. */
  function UninitializeStep(g: GlobalState): (GlobalState, seq<Event>) {
    (g.(rngAlgorithm := Null), [TlsLibraryUninitialize, CloseAlgorithmProvider(g.rngAlgorithm)])
  }

  /** The platform's global state, with a record of the external calls made. */
  class Platform {
    var rngAlgorithm: Ptr      // QuicPlatform.RngAlgorithm
    var totalMemory: uint64    // QuicTotalMemory
    ghost var trace: seq<Event>

    function Globals(): GlobalState
      reads this
    {
      GlobalState(rngAlgorithm, totalMemory)
    }

    /** The globals as the image loader sets them up. */
    constructor ()
      ensures Globals() == StaticGlobals && trace == []
    {
      rngAlgorithm := Null;
      totalMemory := 0;
      trace := [];
    }

    /** QuicPlatformSystemLoad, as far as the lifecycle is concerned: the
        provider handle is reset. */
    method SystemLoad()
      modifies this
      ensures Globals() == SystemLoadStep(old(Globals())) && trace == old(trace)
      ensures rngAlgorithm == Null && totalMemory == old(totalMemory)
    {
      rngAlgorithm := Null;
    }

    /** QuicPlatformInitialize: open the RNG provider, query the basic system
        information, initialize the TLS library, then record the total
        memory; on the first failure, close the provider if the handle is set. */
    method Initialize(host: InitReplies) returns (status: Status)
      modifies this
      ensures var r := InitializeStep(old(Globals()), host);
        status == r.status && Globals() == r.globals && trace == old(trace) + r.calls
      ensures Failed(status) ==> rngAlgorithm == Null && totalMemory == old(totalMemory)
      ensures !Failed(status) && host.ProviderConforms() ==> rngAlgorithm != Null
    {
      label Attempt: {
        status := host.openStatus;
        rngAlgorithm := host.openHandle;
        trace := trace + [OpenAlgorithmProvider(status, rngAlgorithm)];
        if Failed(status) {
          break Attempt;
        }

        status := host.queryStatus;
        trace := trace + [QuerySystemInformation(status)];
        if Failed(status) {
          break Attempt;
        }

        status := host.tlsStatus;
        trace := trace + [TlsLibraryInitialize(status)];
        if Failed(status) {
          break Attempt;
        }

        totalMemory := Capacity.TotalMemory(host.sbi);
      }

      // Error:
      if Failed(status) {
        if rngAlgorithm != Null {
          trace := trace + [CloseAlgorithmProvider(rngAlgorithm)];
          rngAlgorithm := Null;
        }
      }
    }

    /** QuicPlatformUninitialize: TLS library first, then the provider; the
        handle ends null. */
    method Uninitialize()
      requires rngAlgorithm != Null
      modifies this
      ensures Globals() == UninitializeStep(old(Globals())).0
      ensures trace == old(trace) + UninitializeStep(old(Globals())).1
    {
      trace := trace + [TlsLibraryUninitialize];
      trace := trace + [CloseAlgorithmProvider(rngAlgorithm)];
      rngAlgorithm := Null;
    }

    /** QuicRandom: fill a buffer from the provider opened at initialization.
        `genRandom` stands for BCryptGenRandom; its status is returned as is. */
    method Random(bufferLength: uint32, genRandom: (Ptr, uint32) -> Status) returns (status: Status)
      requires rngAlgorithm != Null
      ensures status == genRandom(rngAlgorithm, bufferLength)
    {
      status := genRandom(rngAlgorithm, bufferLength);
    }
  }
}
