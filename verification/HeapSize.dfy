/**
 The JVM heap derived from the memory limit (internal/util/resource.go, container.go). Go integer
 division and the conversion to `int` both truncate toward zero; the factor 0.8 is exact here.
 */
module HeapSize {

  const MEBIBYTE := 1024 * 1024

  function Truncated(a: int, b: int): int
    requires b > 0
  {
    if a >= 0 then a / b else -((-a) / b)
  }

  function QuantityToMB(bytes: int): int
  {
    Truncated(bytes, MEBIBYTE)
  }

  /** `int(QuantityToMB(limit) * 0.8)`. */
  function HeapMB(limit: int): int
  {
    Truncated(4 * QuantityToMB(limit), 5)
  }

  /** The heap never exceeds 80% of the limit and misses it by less than 1.6 MiB. */
  lemma HeapBound(limit: int)
    requires limit >= 0
    ensures 0 <= HeapMB(limit)
    ensures 5 * HeapMB(limit) * MEBIBYTE <= 4 * limit
    ensures 4 * limit - 5 * HeapMB(limit) * MEBIBYTE < 8 * MEBIBYTE
  {
    var n := QuantityToMB(limit);
    assert MEBIBYTE * n <= limit < MEBIBYTE * n + MEBIBYTE;
    assert 5 * HeapMB(limit) <= 4 * n <= 5 * HeapMB(limit) + 4;
  }

  lemma QuantityToMBMonotone(bytes: int, bytes': int)
    requires bytes <= bytes'
    ensures QuantityToMB(bytes) <= QuantityToMB(bytes')
  {
  }

  lemma FourFifthsMonotone(n: int, n': int)
    requires n <= n'
    ensures Truncated(4 * n, 5) <= Truncated(4 * n', 5)
  {
  }

  /** A larger limit never gives a smaller heap. */
  lemma HeapMonotone(limit: int, limit': int)
    requires limit <= limit'
    ensures HeapMB(limit) <= HeapMB(limit')
  {
    QuantityToMBMonotone(limit, limit');
    FourFifthsMonotone(QuantityToMB(limit), QuantityToMB(limit'));
  }

  /** Truncation toward zero: a negative limit mirrors the positive one. */
  lemma HeapMirrored(limit: int)
    ensures QuantityToMB(-limit) == -QuantityToMB(limit)
    ensures HeapMB(-limit) == -HeapMB(limit)
  {
  }
}
