/** Values shared by every layer of the model. */
module Types {

  type byte = x: int | 0 <= x < 0x100
  type u16 = x: int | 0 <= x < 0x1_0000
  type u32 = x: int | 0 <= x < 0x1_0000_0000

  type Bytes = seq<byte>
  type Bytes32 = s: Bytes | |s| == 32 witness seq(32, _ => 0)
  type Bytes64 = s: Bytes | |s| == 64 witness seq(64, _ => 0)

  datatype Option<+T> = None | Some(value: T)

  /** A node's public key, its address on a relay. */
  datatype Id = Id(bytes: Bytes32)

  /** A 256-bit single-use capability to send one message. */
  datatype Preimage = Preimage(bytes: Bytes32)

  /**
   * The SHA-256 image of a preimage. SHA-256 is taken to be injective, so a commit is
   * represented by the preimage it hides; nothing but `Sha256` itself ever looks inside.
   */
  datatype Commit = Sha256(preimage: Preimage)
}
