/** Shared vocabulary: the optional value returned by an entity-store load,
    the 32-bit integers the handlers convert event parameters to, and the
    graph-ts BigInt / BigDecimal arithmetic the handlers use on wad values. */
module Common {

  /** The result of loading an entity that may not be stored yet. */
  datatype Option<T> = None | Some(value: T)

  /** An AssemblyScript `i32`. */
  type i32 = x: int | -0x8000_0000 <= x < 0x8000_0000

  /** One whole token in wad units, `10^18`. */
  const WAD: int := 1_000_000_000_000_000_000

  /** `BigInt.div`: integer division that truncates toward zero (not Dafny's
      Euclidean `/`), so a negative dividend rounds up. */
  function TruncDiv(a: int, b: int): (q: int)
    requires b > 0
    ensures 0 <= a ==> 0 <= q && q * b <= a < q * b + b
    ensures a < 0 ==> q <= 0 && q * b - b < a <= q * b
  {
    if a >= 0 then
      NatDivBounds(a, b);
      a / b
    else
      NatDivBounds(-a, b);
      -((-a) / b)
  }

  /** Dafny's `/` on a non-negative dividend is the floor quotient. */
  lemma NatDivBounds(n: nat, b: int)
    requires b > 0
    ensures 0 <= n / b && (n / b) * b <= n < (n / b) * b + b
  {
    var q, r := n / b, n % b;
    assert n == q * b + r && 0 <= r < b;
  }

  /** A wad integer turned into the exact decimal it denotes (`wad / 10^18`). */
  function ScaleDown(wad: int): (d: real)
    ensures wad == 0 <==> d == 0.0
    ensures (wad > 0 <==> d > 0.0) && (d * WAD as real == wad as real)
  {
    wad as real / WAD as real
  }
}
