/** What several components share: optional values, machine words and the key of an
    Application Server. */
module Common {

  datatype Option<+T> = None | Some(value: T)

  type byte = x: int | 0 <= x < 0x100
  type uint16 = x: int | 0 <= x < 0x1_0000
  type uint32 = x: int | 0 <= x < 0x1_0000_0000
  /** The width of the source's int. */
  type int64 = x: int | -0x8000_0000_0000_0000 <= x < 0x8000_0000_0000_0000

  /** askey.go:12-17. The presence flags are part of the identity. */
  datatype ASKey = ASKey(networkAppearance: uint32, networkAppearanceSet: bool, routingContext: uint32, routingContextSet: bool)
}
