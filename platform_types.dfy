/** Machine types, status codes and the external-call events shared by the
    Windows-kernel platform layer model. */
module PlatformTypes {

  /** ULONG / uint32_t */
  newtype uint32 = x: int | 0 <= x < 0x1_0000_0000

  /** uint64_t */
  newtype uint64 = x: int | 0 <= x < 0x1_0000_0000_0000_0000

  /** QUIC_STATUS in kernel mode is an NTSTATUS: a signed 32-bit code. */
  newtype Status = x: int | -0x8000_0000 <= x < 0x8000_0000

  /** QUIC_FAILED: an NTSTATUS is a failure exactly when it is negative. */
  predicate Failed(s: Status) {
    s < 0
  }

  /** An opaque kernel pointer or handle (BCRYPT_ALG_HANDLE, PVOID). */
  datatype Ptr = Null | Ptr(addr: nat)

  /** The two fields of SYSTEM_BASIC_INFORMATION that the platform layer reads. */
  datatype SystemBasicInformation = SystemBasicInformation(
    pageSize: uint32,
    numberOfPhysicalPages: uint32)

  /** One call from the platform layer into code outside it, with what that
      call returned. */
  datatype Event =
    | OpenAlgorithmProvider(status: Status, handle: Ptr)  // BCryptOpenAlgorithmProvider and the handle it wrote
    | QuerySystemInformation(status: Status)             // ZwQuerySystemInformation(SystemBasicInformation)
    | TlsLibraryInitialize(status: Status)               // QuicTlsLibraryInitialize
    | TlsLibraryUninitialize                             // QuicTlsLibraryUninitialize
    | CloseAlgorithmProvider(handle: Ptr)                // BCryptCloseAlgorithmProvider
}
