/** Vocabulary shared by every module: failure types and machine integers. */
module Common {
  datatype Option<+T> = None | Some(value: T)

  datatype Result<+T, +E> = Ok(value: T) | Err(error: E)

  datatype Unit = Unit

  const U16_MAX := 0xFFFF
  const U32_MAX := 0xFFFF_FFFF
  const U64_MAX := 0xFFFF_FFFF_FFFF_FFFF

  type u16 = x: int | 0 <= x <= U16_MAX
  type u32 = x: int | 0 <= x <= U32_MAX
  type u64 = x: int | 0 <= x <= U64_MAX

  type NonZeroU64 = x: int | 0 < x <= U64_MAX witness 1

  type byte = x: int | 0 <= x < 256

  /** Durations and instants are nanoseconds. */
  const MILLISECOND := 1_000_000
  const SECOND := 1_000 * MILLISECOND
  const DURATION_MAX := U64_MAX * SECOND + 999_999_999

  type Duration = d: int | 0 <= d <= DURATION_MAX

  type Instant = nat

  function Min(a: int, b: int): int { if a <= b then a else b }

  function Max(a: int, b: int): int { if a <= b then b else a }

  function Power(base: nat, n: nat): (p: nat)
    requires base > 0
    ensures p > 0
  {
    if n == 0 then 1 else base * Power(base, n - 1)
  }

  /** `checked_add(1)`. */
  function CheckedSucc(x: u64): (r: Option<u64>)
    ensures r.None? <==> x == U64_MAX
    ensures r.Some? ==> r.value == x + 1
  {
    if x == U64_MAX then None else Some(x + 1)
  }

  /** `BTreeMap::remove`. */
  function Without<K, V>(m: map<K, V>, key: K): map<K, V> {
    map k | k in m && k != key :: m[k]
  }

  predicate Distinct<T(==)>(s: seq<T>) {
    forall i, j :: 0 <= i < j < |s| ==> s[i] != s[j]
  }

  lemma TimesGrows(factor: nat, x: nat, y: nat)
    requires x <= y
    ensures factor * x <= factor * y
  {
  }
}
