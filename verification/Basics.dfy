/** Names and types shared by the other modules. */
module Basics {
  /** A task id. */
  type Id = string

  datatype Option<+T> = None | Some(value: T)

  /** The range of Rust's u32. */
  const U32_LIMIT := 0x1_0000_0000

  type u32 = n: int | 0 <= n < U32_LIMIT

  /** Rust's strip_prefix. */
  function StripPrefix(s: string, prefix: string): Option<string> {
    if prefix <= s then Some(s[|prefix|..]) else None
  }

  lemma SubsetSize<T>(a: set<T>, b: set<T>)
    requires a <= b
    ensures |a| <= |b|
  {
    assert b == a + (b - a);
  }
}
