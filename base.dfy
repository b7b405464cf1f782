/** Small value types shared by every module of the model. */
module Base {

  /** Rust's `Option<T>` (and abi_stable's `ROption<T>`). */
  datatype Option<+T> = None | Some(value: T) {
    /** `Option::unwrap_or`. */
    function UnwrapOr(default: T): T {
      match this
      case Some(v) => v
      case None => default
    }
  }

  /** The outcome of an operation that the source either completes or aborts with a panic. */
  datatype Result<+T, +E> = Ok(value: T) | Err(error: E)

  const U64_LIMIT: int := 0x1_0000_0000_0000_0000

  /** Rust's `u64`; the source stores plugin ids, match ids and query tokens in it. */
  type u64 = x: int | 0 <= x < U64_LIMIT

  /** Rust's `u8`. */
  type byte = x: int | 0 <= x < 256

  /**
   * The index of the first element of `s` that satisfies `p`, as Rust's
   * `Iterator::position` computes it.
   */
  function Position<T>(s: seq<T>, p: T -> bool): (r: Option<nat>)
    ensures r.Some? ==> r.value < |s| && p(s[r.value])
    ensures r.Some? ==> forall j :: 0 <= j < r.value ==> !p(s[j])
    ensures r.None? ==> forall j :: 0 <= j < |s| ==> !p(s[j])
  {
    if s == [] then None
    else if p(s[0]) then Some(0)
    else match Position(s[1..], p)
      case None => None
      case Some(k) => assert s[k + 1] == s[1..][k]; Some(k + 1)
  }

  /**
   * Concatenation is associative. Stated on its own so that the solver proves
   * it apart from the large contexts of the lemmas that regroup sequences.
   */
  lemma Associates<T>(a: seq<T>, b: seq<T>, c: seq<T>)
    ensures (a + b) + c == a + (b + c)
  {
  }

  /** Dropping a prefix of the left operand of a concatenation. */
  lemma DropOfConcat<T>(a: seq<T>, b: seq<T>, k: nat)
    requires k <= |a|
    ensures (a + b)[k..] == a[k..] + b
  {
  }
}
