/** Small helpers shared by the ledger modules: an optional value, absolute
    value, decimal rendering of integers and substring search. */
module Common {

  /** A value that may be missing (`null`/`undefined` in the application). */
  datatype Option<T> = None | Some(value: T)

  /** The account types stored in the account tables and views. */
  const Activo: string := "ACTIVO"
  const Pasivo: string := "PASIVO"
  const Capital: string := "CAPITAL"
  const Ingreso: string := "INGRESO"
  const Gasto: string := "GASTO"
  const Costo: string := "COSTO"

  function Abs(x: int): (r: int)
    ensures r >= 0
    ensures r == x || r == -x
  {
    if x < 0 then -x else x
  }

  predicate IsDigit(c: char) {
    '0' <= c <= '9'
  }

  predicate AllDigits(s: string) {
    forall i :: 0 <= i < |s| ==> IsDigit(s[i])
  }

  function DigitChar(d: nat): (c: char)
    requires d < 10
    ensures IsDigit(c)
  {
    ['0', '1', '2', '3', '4', '5', '6', '7', '8', '9'][d]
  }

  /** Decimal rendering of a natural number without leading zeros. */
  function NatToString(n: nat): (s: string)
    ensures 1 <= |s|
    ensures AllDigits(s)
    decreases n
  {
    if n < 10 then [DigitChar(n)] else NatToString(n / 10) + [DigitChar(n % 10)]
  }

  /** Decimal rendering of an integer, as a template literal `${n}` prints it. */
  function IntToString(n: int): (s: string)
    ensures n >= 0 ==> AllDigits(s)
    ensures 1 <= |s|
    ensures n < 0 ==> s[0] == '-'
  {
    if n < 0 then "-" + NatToString(-n) else NatToString(n)
  }

  /** `s.includes(t)`: t occurs in s at some position k or later. The first-character
      test is implied by the slice equality; it lets literal strings be checked quickly. */
  predicate ContainsFrom(s: string, t: string, k: nat)
    decreases |s| - k
  {
    k + |t| <= |s| && (((|t| == 0 || s[k] == t[0]) && s[k..k + |t|] == t) || ContainsFrom(s, t, k + 1))
  }

  predicate Contains(s: string, t: string) {
    ContainsFrom(s, t, 0)
  }

  predicate OccursAt(s: string, t: string, i: nat) {
    i + |t| <= |s| && s[i..i + |t|] == t
  }

  /** ContainsFrom means an occurrence at index k or later. */
  lemma {:induction false} ContainsFromIff(s: string, t: string, k: nat)
    ensures ContainsFrom(s, t, k) <==> exists i: nat :: k <= i && OccursAt(s, t, i)
    decreases |s| - k
  {
    if k + |t| <= |s| {
      ContainsFromIff(s, t, k + 1);
      if OccursAt(s, t, k) && |t| > 0 {
        assert s[k..k + |t|][0] == s[k];
      }
    } else {
      forall i: nat | k <= i ensures !OccursAt(s, t, i) {
      }
    }
  }
}
