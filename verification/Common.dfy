/** Types shared by the whole model. */
module Common {
  type Byte = b: int | 0 <= b < 256

  /** An encoded message. What the bytes mean is left open. */
  type Bytes = seq<Byte>

  /** Durations are in nanoseconds. */
  const SECOND := 1_000_000_000

  datatype Option<+T> = None | Some(value: T)

  function Max(a: int, b: int): int {
    if a < b then b else a
  }

  function Min(a: int, b: int): int {
    if a < b then a else b
  }

  predicate Between(lo: nat, j: nat, hi: nat) {
    lo <= j < hi
  }

  /** The numbers lo, lo + 1, ..., hi - 1. */
  function Span(lo: nat, hi: nat): set<nat> {
    set j: nat | lo <= j < hi && Between(lo, j, hi)
  }

  lemma {:induction false} SpanSize(lo: nat, hi: nat)
    ensures |Span(lo, hi)| == Max(0, hi - lo)
    decreases hi
  {
    if lo < hi {
      SpanSize(lo, hi - 1);
      assert Span(lo, hi) == Span(lo, hi - 1) + {hi - 1};
    } else {
      assert Span(lo, hi) == {};
    }
  }

  lemma SeqAssoc<T>(a: seq<T>, b: seq<T>, c: seq<T>)
    ensures a + b + c == a + (b + c)
  {
  }

  lemma MapAssoc<K, V>(a: map<K, V>, b: map<K, V>, c: map<K, V>)
    ensures a + b + c == a + (b + c)
  {
  }
}
