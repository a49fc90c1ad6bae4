/**
 * The Stratum V1 values the server session exchanges with a miner: the
 * decoded client requests it receives, the version-rolling parameters it
 * answers `mining.configure` with, and the fixed values it hands out.
 * Only what the session reads or produces is kept; JSON-RPC framing and
 * hex encoding are not modelled.
 */
module Messages {
  import opened Wrappers

  /** The nVersion bits the server lets a miner roll: bits 13 to 28, the
      sixteen general-purpose bits of BIP 320, offered through the
      version-rolling extension of `mining.configure` (BIP 310). */
  const SupportedVersionRollingMask: bv32 := 0x1FFF_E000

  /** The subscription identifier returned for both subscriptions. */
  const SubscriptionId: string := "ae6812eb4cd7735a302a8a9dd95cf71f"

  /** The extranonce1 every session is given: the 24 bytes written in hex as
      000000000000000000000000000000010000000000000001. */
  const Extranonce1Bytes: seq<bv8> :=
    [0, 0, 0, 0, 0, 0, 0, 0, 0, 0, 0, 0, 0, 0, 0, 1,
     0, 0, 0, 0, 0, 0, 0, 1]

  /** The extranonce2 size, in bytes, the server always assigns. */
  const Extranonce2Size: nat := 8

  /** What the `mining.configure` request reports through its accessors
      `version_rolling_mask()` and `version_rolling_min_bit_count()`. */
  datatype ConfigureRequest = ConfigureRequest(
    versionRollingMask: Option<bv32>,
    versionRollingMinBitCount: Option<bv32>)

  /** `mining.subscribe`: the miner's user agent and an optional extranonce1 it asks for. */
  datatype SubscribeRequest = SubscribeRequest(agentSignature: string, extranonce1: Option<seq<bv8>>)

  /** `mining.authorize`: worker name and password. */
  datatype AuthorizeRequest = AuthorizeRequest(name: string, password: string)

  /** `mining.submit`: a share. */
  datatype SubmitRequest = SubmitRequest(
    userName: string,
    jobId: string,
    extranonce2: seq<bv8>,
    time: bv32,
    nonce: bv32,
    versionBits: Option<bv32>)

  /** The version-rolling answer to `mining.configure`: mask and minimum bit count. */
  datatype VersionRollingParams = VersionRollingParams(mask: bv32, minBitCount: bv32)

  /** Bit `i` of `x`, counting from the least significant bit. */
  predicate HasBit(x: bv32, i: bv32)
    requires i < 32
  {
    (x >> i) & 1 == 1
  }

  /** The bits of `mask` the server supports: the `mask & 0x1FFFE000` the
      session applies to a requested mask. */
  function SupportedBits(mask: bv32): (granted: bv32)
    ensures forall i: bv32 :: i < 32 ==> (HasBit(granted, i) <==> HasBit(mask, i) && 13 <= i <= 28)
  {
    mask & SupportedVersionRollingMask
  }

  /** The mask the server grants for a requested one: the requested bits that
      it supports, or no bits at all when the request names no mask. */
  function NegotiatedMask(requested: Option<bv32>): (granted: bv32)
    ensures granted & SupportedVersionRollingMask == granted
    ensures requested.None? ==> granted == 0
    ensures forall i: bv32 :: i < 32 ==>
      (HasBit(granted, i) <==> requested.Some? && HasBit(requested.value, i) && 13 <= i <= 28)
  {
    match requested
    case Some(mask) => SupportedBits(mask)
    case None => 0
  }

  /** Asking for every bit yields exactly the supported bits; asking for none yields none. */
  lemma NegotiatedMaskExamples()
    ensures NegotiatedMask(Some(0xFFFF_FFFF)) == SupportedVersionRollingMask
    ensures NegotiatedMask(Some(0)) == 0
  {
  }

  /** Asking again for a granted mask grants the same mask: restricting the
      parameters to the supported bits a second time would not change them. */
  lemma NegotiatedMaskIdempotent(requested: Option<bv32>)
    ensures NegotiatedMask(Some(NegotiatedMask(requested))) == NegotiatedMask(requested)
  {
  }
}
