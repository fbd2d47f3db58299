/** Values shared by every component of the diagnostic server: machine integers,
    UDS constants, requests, responses, and the answers the SEC and PROV services
    and the clock give while one request is handled. */
module DiagTypes {

  datatype Option<+T> = None | Some(value: T)

  // ---- Machine integers -------------------------------------------------

  const U32_SIZE: nat := 0x1_0000_0000

  type byte = x: int | 0 <= x < 0x100
  type u16 = x: int | 0 <= x < 0x1_0000
  type u32 = x: int | 0 <= x < U32_SIZE
  type bytes = seq<byte>

  /** The two bytes of a 16-bit value, most significant first. */
  function Big16(x: u16): bytes { [x / 0x100, x % 0x100] }

  /** The 16-bit value of two bytes, most significant first. */
  function Join16(hi: byte, lo: byte): u16 { hi * 0x100 + lo }

  // ---- Time: the steady clock counts nanoseconds ------------------------

  const NS_PER_MS: nat := 1_000_000

  /** A duration in whole milliseconds; like `duration_cast` it truncates toward zero. */
  function WholeMs(ns: int): int {
    if ns >= 0 then ns / NS_PER_MS else -((-ns) / NS_PER_MS)
  }

  const S3_MS: nat := 5000
  const MAX_ATTEMPTS: nat := 3
  const LOCKOUT: nat := 10_000 * NS_PER_MS
  const P2_MS: u16 := 5000
  const P2_STAR_MS: u16 := 5000

  // ---- UDS constants ----------------------------------------------------

  const SESSION_CONTROL: byte := 0x10
  const READ_DATA: byte := 0x22
  const SECURITY_ACCESS: byte := 0x27
  const ROUTINE_CONTROL: byte := 0x31
  const TESTER_PRESENT: byte := 0x3E

  const LEVEL_1: byte := 0x01

  const DID_VIN: u16 := 0xF190
  const DID_BINDING_STATE: u16 := 0xF191

  const RID_WRITE_VIN: u16 := 0xFF00
  const RID_GENERATE_KEY_PAIR: u16 := 0xFF01
  const RID_READ_CSR: u16 := 0xFF02
  const RID_INJECT_CERTIFICATE: u16 := 0xFF03

  const NRC_SERVICE_NOT_SUPPORTED: byte := 0x11
  const NRC_SUB_FUNCTION_NOT_SUPPORTED: byte := 0x12
  const NRC_INCORRECT_LENGTH: byte := 0x13
  const NRC_CONDITIONS_NOT_CORRECT: byte := 0x22
  const NRC_SEQUENCE_ERROR: byte := 0x24
  const NRC_OUT_OF_RANGE: byte := 0x31
  const NRC_SECURITY_DENIED: byte := 0x33
  const NRC_INVALID_KEY: byte := 0x35
  const NRC_PROGRAMMING_FAILURE: byte := 0x72
  const NRC_NOT_IN_SESSION: byte := 0x7F

  const NEGATIVE_RESPONSE: byte := 0x7F
  const VIN_LENGTH: nat := 17

  // ---- Requests, responses, error codes ---------------------------------

  datatype Transport = DoIp | DoCan

  datatype Request = Request(
    serviceId: byte,
    subFunction: byte,
    didOrRid: u16,
    payload: bytes,
    source: u16,
    transport: Transport)

  /** A default-constructed request. */
  const FRESH_REQUEST: Request := Request(0, 0, 0, [], 0, DoIp)

  datatype Response = Response(
    positive: bool,
    payload: bytes,
    nrc: byte,
    serviceId: byte,
    subFunction: byte)

  datatype ErrorCode =
    | Success
    | SessionStateNotAllowed
    | SecurityAccessDenied
    | InvalidRequestFormat
    | DownstreamExecutionFailed
    | ProvIpcDisconnected
    | InternalError
    | SecUnavailable
    | ProvUnavailable
    | ConfigLoadFailed

  datatype CertFailure =
    | NoFailure
    | SecGone
    | StateNotAllowed
    | InvalidFormat
    | KeyMismatch
    | CertExpired
    | StorageFailed
    | UnknownFailure

  // ---- What the environment answers while one request is handled --------

  /** Answers of the SEC service. A missing SEC interface is one that is not available. */
  datatype SecAnswers = SecAnswers(
    available: bool,
    seedGranted: bool,
    seed: bytes,
    keyAccepted: bool,
    keyPairMade: bool,
    csrMade: bool,
    csr: bytes,
    certInstalled: bool,
    certFailure: CertFailure)

  /** Answers of the PROV service. */
  datatype ProvAnswers = ProvAnswers(
    available: bool,
    writeCode: ErrorCode,
    readValid: bool,
    vin: bytes,
    bindState: bytes)

  /** Everything one request can observe: both services and the successive clock
      readings. `s3At` is read by the S3 check, `firstAt` and `secondAt` by the
      handler, in this order. */
  datatype Env = Env(sec: SecAnswers, prov: ProvAnswers, s3At: nat, firstAt: nat, secondAt: nat)

  /** The readings come from one clock that stood at `clock` before the request. */
  ghost predicate Ordered(env: Env, clock: nat) {
    clock <= env.s3At <= env.firstAt <= env.secondAt
  }
}
