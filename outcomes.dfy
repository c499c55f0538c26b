/** Kotlin's nullable values, its `Result<T>` and its 32-bit `Int`, as the AI layer uses them. */
module Outcomes {

  /** A Kotlin value of type `T?`: `None` stands for `null`. */
  datatype Option<+T> = None | Some(value: T)

  /**
   * Kotlin's `Result<T>`: a success carrying a value, or a failure carrying
   * the exception. Only the exception's `message` (itself nullable) is ever
   * looked at by the AI layer, so that is all a failure keeps.
   */
  datatype Result<+T> = Success(value: T) | Failure(message: Option<string>)

  /** A failure whose exception was created as `Exception(text)`. */
  function Fail<T>(text: string): Result<T>
  {
    Failure(Some(text))
  }

  /** Kotlin's `Int`. */
  type Int32 = x: int | -0x8000_0000 <= x <= 0x7FFF_FFFF

  /** Kotlin's `Int` addition, which wraps around on overflow. */
  function PlusInt32(a: Int32, b: Int32): (r: Int32)
    ensures -0x8000_0000 <= a + b <= 0x7FFF_FFFF ==> r == a + b
    ensures a + b > 0x7FFF_FFFF ==> r == a + b - 0x1_0000_0000
    ensures a + b < -0x8000_0000 ==> r == a + b + 0x1_0000_0000
  {
    (a + b + 0x8000_0000) % 0x1_0000_0000 - 0x8000_0000
  }

  /** The message every AI entry point fails with when no API key is stored. */
  const NotConfigured := "AI not configured"
}
