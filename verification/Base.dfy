/** Types shared by every component of the model. */
module Base {

  datatype Option<+T> = None | Some(value: T)

  /** A UUID is the 128-bit number it encodes; its canonical text sorts in the same order. */
  type UUID = nat

  /** Nanoseconds; 0 is the zero time, the value for which IsZero holds. */
  type Time = int

  /** The value a 32-bit signed integer holds for x. */
  function Int32(x: int): (r: int)
    ensures -0x8000_0000 <= r < 0x8000_0000 && (r - x) % 0x1_0000_0000 == 0
  {
    (x + 0x8000_0000) % 0x1_0000_0000 - 0x8000_0000
  }

  /** Incrementing in 32 bits is incrementing and then cutting off. */
  lemma Int32Next(x: int)
    ensures Int32(Int32(x) + 1) == Int32(x + 1)
  {}

  function Max(a: int, b: int): int { if a >= b then a else b }

  function Min(a: int, b: int): int { if a <= b then a else b }
}
