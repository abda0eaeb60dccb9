/** Small value-level building blocks shared by every page and controller:
    optional values, ASCII case folding, substring search and decimal text. */
module Common {

  datatype Option<+T> = None | Some(value: T) {
    function GetOr(default: T): T {
      match this
      case Some(v) => v
      case None => default
    }
  }

  /** An HTTP error as FastAPI reports it: a status code and a detail text. */
  datatype HttpError = HttpError(status: int, detail: string)

  datatype Result<+T> = Ok(value: T) | Err(error: HttpError)

  // ---------------------------------------------------------------------------
  // Case folding (`toLowerCase` in the pages, `str.lower` in the service)
  // ---------------------------------------------------------------------------

  function LowerChar(c: char): char {
    if 'A' <= c <= 'Z' then (c as int + 32) as char else c
  }

  function Lower(s: string): (r: string)
    ensures |r| == |s|
    ensures forall i :: 0 <= i < |s| ==> r[i] == LowerChar(s[i])
  {
    if s == [] then [] else [LowerChar(s[0])] + Lower(s[1..])
  }

  /** Folding twice is folding once: a lower-cased text has no upper-case letter left. */
  lemma {:induction false} LowerIdempotent(s: string)
    ensures Lower(Lower(s)) == Lower(s)
  {
    if s != [] {
      LowerIdempotent(s[1..]);
      assert Lower(s)[1..] == Lower(s[1..]);
    }
  }

  // ---------------------------------------------------------------------------
  // Substring search (`includes` in the pages, `in` on str in the service)
  // ---------------------------------------------------------------------------

  /** `t` occurs in `s` as a contiguous block. */
  predicate Contains(s: string, t: string)
    decreases |s|
  {
    t <= s || (s != [] && Contains(s[1..], t))
  }

  lemma ContainsEmpty(s: string)
    ensures Contains(s, "")
  {
  }

  /** An occurrence at a position found by index gives `Contains`. */
  lemma {:induction false} ContainsAt(s: string, t: string, i: nat)
    requires i + |t| <= |s| && s[i..i + |t|] == t
    ensures Contains(s, t)
  {
    if i == 0 {
      assert t == s[..|t|];
    } else {
      assert s[1..][i - 1..i - 1 + |t|] == s[i..i + |t|];
      ContainsAt(s[1..], t, i - 1);
    }
  }

  /** `Contains` is witnessed by a position. */
  lemma {:induction false} ContainsWitness(s: string, t: string) returns (i: nat)
    requires Contains(s, t)
    ensures i + |t| <= |s| && s[i..i + |t|] == t
  {
    if t <= s {
      i := 0;
    } else {
      var j := ContainsWitness(s[1..], t);
      assert s[1..][j..j + |t|] == s[j + 1..j + 1 + |t|];
      i := j + 1;
    }
  }

  /** Case-insensitive containment as the pages write it:
      `field.toLowerCase().includes(query.toLowerCase())`. */
  predicate ContainsFolded(field: string, query: string) {
    Contains(Lower(field), Lower(query))
  }

  // ---------------------------------------------------------------------------
  // Decimal text (`toString`, `str`, `parseInt`)
  // ---------------------------------------------------------------------------

  function DigitChar(d: nat): char
    requires d < 10
  {
    "0123456789"[d]
  }

  predicate IsDigit(c: char) {
    '0' <= c <= '9'
  }

  function NatToString(n: nat): (r: string)
    ensures |r| > 0 && forall i :: 0 <= i < |r| ==> IsDigit(r[i])
    decreases n
  {
    if n < 10 then [DigitChar(n)] else NatToString(n / 10) + [DigitChar(n % 10)]
  }

  /** `String(n)` for an integer `n`. */
  function IntToString(n: int): string {
    if n < 0 then "-" + NatToString(-n) else NatToString(n)
  }

  /** Value of a non-empty run of decimal digits. */
  function DigitsValue(s: string): nat
    requires forall i :: 0 <= i < |s| ==> IsDigit(s[i])
    decreases |s|
  {
    if s == [] then 0
    else
      assert IsDigit(s[|s| - 1]);
      DigitsValue(s[..|s| - 1]) * 10 + (s[|s| - 1] as int - '0' as int)
  }

  /** `parseInt(s, 10)` restricted to the texts `toString` produces: an optional
      minus sign followed by digits; anything else reads as NaN (`None`). */
  function ParseDecimal(s: string): (r: Option<int>)
    ensures r.Some? ==> |s| > 0
  {
    if |s| > 0 && s[0] == '-' then
      var d := s[1..];
      if |d| > 0 && forall i :: 0 <= i < |d| ==> IsDigit(d[i]) then
        Some(0 - DigitsValue(d) as int)
      else None
    else if |s| > 0 && forall i :: 0 <= i < |s| ==> IsDigit(s[i]) then Some(DigitsValue(s))
    else None
  }

  lemma {:induction false} DigitsValueOfNat(n: nat)
    ensures DigitsValue(NatToString(n)) == n
    decreases n
  {
    var s := NatToString(n);
    if n >= 10 {
      DigitsValueOfNat(n / 10);
      assert s[..|s| - 1] == NatToString(n / 10);
    }
  }

  /** Reading back what `IntToString` wrote gives the same number. */
  lemma ParseIntToString(n: int)
    ensures ParseDecimal(IntToString(n)) == Some(n)
  {
    var s := IntToString(n);
    if n < 0 {
      var d := NatToString(-n);
      assert s == "-" + d && s[1..] == d;
      DigitsValueOfNat(-n);
    } else {
      assert IsDigit(s[0]) && s[0] != '-';
      DigitsValueOfNat(n);
    }
  }

  /** Distinct integers have distinct decimal texts. */
  lemma IntToStringInjective(a: int, b: int)
    requires IntToString(a) == IntToString(b)
    ensures a == b
  {
    ParseIntToString(a);
    ParseIntToString(b);
  }
}
