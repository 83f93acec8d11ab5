/** The tracing control callback registered with the kernel's event tracing. */
module EtwControl {
  import opened PlatformTypes

  /** Control codes of the Windows event-tracing API. */
  const EVENT_CONTROL_CODE_DISABLE_PROVIDER: uint32 := 0
  const EVENT_CONTROL_CODE_ENABLE_PROVIDER: uint32 := 1
  const EVENT_CONTROL_CODE_CAPTURE_STATE: uint32 := 2

  /** QuicEtwCallback: the number of times it calls QuicTraceRundown for one
      notification. `providerContext` is the address of the MsQuic provider's
      context, which is a global and so never null. */
  function EtwCallback(controlCode: uint32, callbackContext: Ptr, providerContext: Ptr): (rundowns: nat)
    requires providerContext != Null
    ensures rundowns <= 1
    ensures controlCode == EVENT_CONTROL_CODE_DISABLE_PROVIDER ==> rundowns == 0
    ensures callbackContext != providerContext ==> rundowns == 0
    ensures rundowns == 1 <==>
      (controlCode == EVENT_CONTROL_CODE_ENABLE_PROVIDER || controlCode == EVENT_CONTROL_CODE_CAPTURE_STATE)
      && callbackContext == providerContext
  {
    if controlCode == EVENT_CONTROL_CODE_ENABLE_PROVIDER || controlCode == EVENT_CONTROL_CODE_CAPTURE_STATE then
      if callbackContext == providerContext then 1 else 0
    else
      // DISABLE_PROVIDER and every other code
      0
  }
}
