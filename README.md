# MsQuic Windows-kernel platform layer: lifecycle and rollback model

This project models the platform layer that MsQuic uses in Windows kernel
mode (`src/platform/platform_winkernel.c`). It owns two globals:

- the RNG provider handle, `QuicPlatform.RngAlgorithm`;
- the total-memory figure, `QuicTotalMemory`.

The entry points modelled are:

- `QuicPlatformSystemLoad` resets the handle.
- `QuicPlatformInitialize` runs three external steps in order: open the BCrypt
  RNG provider, query the basic system information, initialize the TLS library.
  On full success it records the total memory. On the first failure it jumps to
  a shared `Error:` block. That block closes the provider if the handle is set,
  then nulls the handle.
- `QuicPlatformUninitialize` tears down the TLS library, then the provider.
- `QuicRandom` passes the provider's status straight back.
- `QuicEtwCallback` triggers a trace rundown for the enable and capture-state
  control codes, but only when the context is MsQuic's own provider context.

Modules:

- `PlatformTypes` (`platform_types.dfy`): 32- and 64-bit unsigned integers,
  the NTSTATUS type `Status`, and `Failed`. `Failed` is true exactly for a
  negative status, the kernel meaning of `QUIC_FAILED`. The module also defines
  opaque pointers and the `Event` type. An event records one call into code
  outside the layer.
- `Capacity` (`capacity.dfy`): `QuicTotalMemory` as C computes it, with a
  product that wraps modulo 2^64. The proof shows the wrap never happens.
- `EtwControl` (`etw_callback.dfy`): the decision rule of the tracing callback,
  as a function giving the number of rundowns it triggers.
- `Lifecycle` (`lifecycle.dfy`): the class `Platform`. It holds the two globals
  and a ghost `trace` of external calls. Its methods are SystemLoad, Initialize
  (the `goto Error` is a labelled block left by `break`), Uninitialize and
  Random. Each state-changing method is specified by a pure step function
  (`SystemLoadStep`, `InitializeStep`, `UninitializeStep`), and the run model
  below uses the same functions.
  `InitializeStep` carries the rollback properties. It is checked against an
  independent reference: the index of the first failed status
  (`FirstFailure`).
- `LifecycleRun` (`lifecycle_run.dfy`): any sequence of lifecycle calls. The
  host drives them in the order Unloaded, Loaded, Initialized (the code keeps
  no phase variable, so this is the caller's contract). For such a run, the
  model proves four things:
  - the handle is non-null exactly in the Initialized phase;
  - counted per handle, every provider handle is closed as often as it was
    opened, except the current handle in that phase, which is held once;
  - the successful TLS initializations minus uninitializations are 1 in that
    phase and 0 outside it;
  - so Uninitialize always finds a handle to close (`HandleSetIffInitialized`).

External calls are parameters, not code:

- BCrypt open and close, `ZwQuerySystemInformation` and the TLS library's
  initialization: an `InitReplies` value holds what each call returns (the
  status, plus the handle the open writes and the two fields of the query's
  structure).
- `BCryptGenRandom`: a function from handle and length to status.

The model follows the code as written:

- No size check on the query result. `ReturnLength` is passed as NULL and
  nothing compares sizes.
- Only `PageSize` and `NumberOfPhysicalPages` are read.
- A second `QuicPlatformInitialize` is not rejected. There is no guard, and
  `SecondInitializeLeaksProvider` states what then happens.
- On success, Initialize returns the TLS library's own success status. It is
  not forced to a single "success" code.

## Model

| member | source | states |
|---|---|---|
| `Lifecycle.Platform.constructor` | src/platform/platform_winkernel.c:70-72 | The globals start with a null RNG handle and zero total memory, and no external call has been made. |
| `Lifecycle.Platform.SystemLoad` | src/platform/platform_winkernel.c:92 | The new globals are `SystemLoadStep` of the old ones: the RNG handle is null and total memory is unchanged. The call record is unchanged. |
| `Lifecycle.FirstFailure` | src/platform/platform_winkernel.c:125-149 | The index of the first failed status: every earlier status succeeded, and the one at the index failed (or there is none). This is the reference for "stop at the first failed step". |
| `Lifecycle.InitializeStep` | src/platform/platform_winkernel.c:117-170 | The calls are open, query, TLS init: exactly the prefix up to and including the first failure, in that order. The status returned is the last attempted step's own status, and it fails iff some step failed. After a failure the only further call is one close of the handle the open wrote, and only when that handle is non-null; no TLS uninitialize is issued. A failure leaves the handle null and total memory unchanged. Success keeps the opened handle (non-null when the provider meets its contract) and records pages × page size. |
| `Lifecycle.Platform.Initialize` | src/platform/platform_winkernel.c:117-170 | The imperative Initialize, with `goto Error` as a labelled break. Its status, its new globals and the calls appended to the trace are exactly those of `InitializeStep`. On failure the handle is null and total memory unchanged; on success with a conforming provider the handle is non-null. |
| `Lifecycle.Platform.Uninitialize` | src/platform/platform_winkernel.c:180-182 | Requires a non-null handle. It appends a TLS uninitialize and then a close of the old handle, in that order, and leaves the handle null with total memory unchanged. |
| `Lifecycle.Platform.Random` | src/platform/platform_winkernel.c:207-213 | Requires a non-null handle. It returns the generator's status for the current handle and the requested length, unmodified. |
| `Capacity.ProductOfU32sFitsU64` | src/platform/platform_winkernel.c:155 | The product of two 32-bit values is below 2^64. |
| `Capacity.TotalMemory` | src/platform/platform_winkernel.c:155 | The 64-bit wrapping product of the widened page count and page size equals the exact mathematical product: no overflow. |
| `EtwControl.EtwCallback` | src/platform/platform_winkernel.c:236-246 | At most one rundown. It is exactly one iff the code is ENABLE_PROVIDER or CAPTURE_STATE and the context is the MsQuic provider context. It is zero for DISABLE_PROVIDER, for any other code and for any other context. |
| `LifecycleRun.ApplyInitializeKeepsConsistent` | src/platform/platform_winkernel.c:125-169 | An Initialize from the loaded state with a conforming provider leaves the handle set iff it succeeded. A failed attempt leaves no provider handle open and no TLS initialization outstanding. A successful one leaves the new handle held once, no other handle held, and one TLS initialization outstanding. |
| `LifecycleRun.ApplyKeepsConsistent` | src/platform/platform_winkernel.c:90-182 | Each of load, initialize and uninitialize, called in the order the caller's contract allows, preserves "handle set iff initialized; in that phase the current handle and the TLS library are each held once; every other provider handle, and everything outside that phase, is held zero times", counted per handle. |
| `LifecycleRun.RunKeepsConsistent` | src/platform/platform_winkernel.c:90-182 | The same invariant holds after any run of such calls, by induction on the run. |
| `LifecycleRun.HandleSetIffInitialized` | src/platform/platform_winkernel.c:70-182 | From the static globals, after any run in the allowed order: the handle is non-null exactly when initialized. Every provider handle other than the current one has been closed as often as it was opened; the current one is held once when initialized. Outside that phase, every handle and every TLS initialization has been released. Whenever the caller may call Uninitialize, the handle is non-null, so that method's requires is met. |
| `LifecycleRun.FullCycle` | src/platform/platform_winkernel.c:90-182 | Load, a successful Initialize, then Uninitialize issues open, query, TLS init, TLS uninit and close in that order. It ends loaded with a null handle and total memory = pages × page size. |
| `LifecycleRun.SecondInitializeLeaksProvider` | src/platform/platform_winkernel.c:125-135 | With no guard, a successful Initialize on an already-initialized platform overwrites the handle. The first provider is never closed: the old handle and the new handle each stay held (twice, if the provider hands back the same handle). |

## Left out

- `QuicPlatformSystemLoad`: the WPP, ETW and telemetry registration, storing
  the driver object, and the performance-counter frequency query. Only the
  handle reset is modelled; the rest is tracing plumbing and a hardware query.
- `QuicPlatformSystemUnload` is not modelled. It only logs and unregisters
  tracing and telemetry.
- `QuicPlatformLogAssert`, all trace and log calls, and the debug assertions
  are not modelled; they are diagnostic sinks. The assertion after a
  successful open is kept as `InitReplies.ProviderConforms`, an assumption
  about the provider.
- The internals of BCrypt, `ZwQuerySystemInformation` and the TLS library are
  not modelled. Each is a parameter giving its status, plus the handle written
  by the open and the two fields read from the query.
- `Lifecycle.Platform.Random`: the bytes written into the buffer and their
  randomness are not modelled. Only the status pass-through is.
- `EtwControl.EtwCallback`: the source id, level, keyword masks and filter
  data are not modelled, because the callback never reads them. The body of
  `QuicTraceRundown` is not part of this model.
- The definitions of `QUIC_FAILED` and of the `EVENT_CONTROL_CODE_*` values
  come from headers that are not part of this model. They use the NTSTATUS
  sign convention and the Windows values 0, 1 and 2.
- IRQL and paging annotations, and concurrent callers of `QuicRandom`, are not
  modelled; they are about execution context, not sequential logic.
- The unused `SYSTEM_BASIC_INFORMATION` fields, and the capping of the
  deprecated page-count fields on large machines, are not modelled. The code
  reads the value as given.
- Total memory is never refreshed after memory is hot-added. That is also
  true of the code, which records it only at Initialize.
