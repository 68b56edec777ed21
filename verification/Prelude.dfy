/** Wrapper datatypes and the machine-level vocabulary (bytes, 32-bit counters) shared by every module. */
module Prelude {

  datatype Option<+T> = None | Some(value: T)

  datatype Result<+T, +E> = Ok(value: T) | Err(error: E) {
    predicate IsFailure() {
      Err?
    }

    function PropagateFailure<U>(): Result<U, E>
      requires Err?
    {
      Err(error)
    }

    function Extract(): T
      requires Ok?
    {
      value
    }
  }

  type byte = b: int | 0 <= b < 0x100

  type Bytes = seq<byte>

  const U32_SIZE: int := 0x1_0000_0000

  type u32 = n: int | 0 <= n < U32_SIZE

  /** A 32-byte array: X25519 keys, root keys and chain keys are all of this shape. */
  type Key32 = k: Bytes | |k| == 32 witness seq(32, _ => 0)

  /** `u32::wrapping_add(1)`. */
  function Inc(n: u32): u32 {
    (n + 1) % U32_SIZE
  }

  /** `u32::to_be_bytes`. */
  function BigEndian(n: u32): (b: Bytes)
    ensures |b| == 4
  {
    [n / 0x100_0000, n / 0x1_0000 % 0x100, n / 0x100 % 0x100, n % 0x100]
  }

  /** `u32::to_le_bytes`. */
  function LittleEndian(n: u32): (b: Bytes)
    ensures |b| == 4
  {
    [n % 0x100, n / 0x100 % 0x100, n / 0x1_0000 % 0x100, n / 0x100_0000]
  }

  /** `u32::from_le_bytes`. */
  function FromLittleEndian(b: Bytes): u32
    requires |b| == 4
  {
    b[0] as int + 0x100 * (b[1] as int) + 0x1_0000 * (b[2] as int) + 0x100_0000 * (b[3] as int)
  }

  lemma LittleEndianRoundTrip(n: u32)
    ensures FromLittleEndian(LittleEndian(n)) == n
  {
    var q := n / 0x100;
    var r := q / 0x100;
    assert n / 0x1_0000 == r && n / 0x100_0000 == r / 0x100;
  }

  lemma BigEndianInjective(m: u32, n: u32)
    requires BigEndian(m) == BigEndian(n)
    ensures m == n
  {
    assert LittleEndian(m) == [BigEndian(m)[3], BigEndian(m)[2], BigEndian(m)[1], BigEndian(m)[0]];
    assert LittleEndian(n) == LittleEndian(m);
    LittleEndianRoundTrip(m);
    LittleEndianRoundTrip(n);
  }

  /** The four bytes are the base-256 digits, lowest first. */
  lemma LittleEndianDigits(n: u32)
    ensures var b := LittleEndian(n);
            && |b| == 4
            && n == b[0] as int + 0x100 * (b[1] as int) + 0x1_0000 * (b[2] as int) + 0x100_0000 * (b[3] as int)
  {
    LittleEndianRoundTrip(n);
  }

  /** The four bytes are the base-256 digits, highest first. */
  lemma BigEndianDigits(n: u32)
    ensures var b := BigEndian(n);
            && |b| == 4
            && n == 0x100_0000 * (b[0] as int) + 0x1_0000 * (b[1] as int) + 0x100 * (b[2] as int) + b[3] as int
  {
    LittleEndianDigits(n);
  }
}
