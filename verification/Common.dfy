/** Small definitions shared by the other modules. */
module Common {

  datatype Option<+T> = None | Some(value: T)

  /** `[c]` for a condition that was found, nothing otherwise: one "if found, append" step. */
  function AsSeq<T>(o: Option<T>): seq<T> {
    match o
    case None => []
    case Some(v) => [v]
  }

  predicate StartsWith(s: string, prefix: string) {
    prefix <= s
  }

  predicate EndsWith(s: string, suffix: string) {
    |suffix| <= |s| && s[|s| - |suffix|..] == suffix
  }

  predicate Distinct<T(==)>(s: seq<T>) {
    forall i, j :: 0 <= i < j < |s| ==> s[i] != s[j]
  }

  /** The multiple of 1/scale nearest to x; half-way between two of them, the even one. */
  ghost predicate IsRounding(x: real, scale: int, r: real)
    requires scale > 0
  {
    (r * scale as real).Floor as real == r * scale as real &&
    -0.5 <= r * scale as real - x * scale as real <= 0.5 &&
    (r * scale as real - x * scale as real in {-0.5, 0.5} ==> (r * scale as real).Floor % 2 == 0)
  }

  lemma NearestIsRounding(x: real, scale: int, m: int)
    requires scale > 0
    requires -0.5 <= m as real - x * scale as real <= 0.5
    requires m as real - x * scale as real in {-0.5, 0.5} ==> m % 2 == 0
    ensures IsRounding(x, scale, m as real / scale as real)
  {
  }

  /** Rounding to the nearest multiple of 1/scale, ties to the even multiple. */
  function Round(x: real, scale: int): (r: real)
    requires scale > 0
    ensures IsRounding(x, scale, r)
  {
    var y := x * scale as real;
    var n := y.Floor;
    var f := y - n as real;
    var m := if f < 0.5 || (f == 0.5 && n % 2 == 0) then n else n + 1;
    NearestIsRounding(x, scale, m);
    m as real / scale as real
  }
}
