/** Ledger addresses as the client handles them: case-insensitive comparison
    and the fixed-width truncated display of the header and campaign cards. */
module Addresses {

  predicate IsUpper(c: char) {
    'A' <= c <= 'Z'
  }

  /** One character of String.prototype.toLowerCase, restricted to the ASCII
      letters that hexadecimal addresses contain. */
  function LowerChar(c: char): (r: char)
    ensures !IsUpper(r)
    ensures IsUpper(c) || r == c
    ensures IsUpper(c) ==> r as int - c as int == 32
  {
    if IsUpper(c) then (c as int + 32) as char else c
  }

  function Lower(s: string): (r: string)
    ensures |r| == |s|
    ensures forall i :: 0 <= i < |r| ==> !IsUpper(r[i])
  {
    seq(|s|, i requires 0 <= i < |s| => LowerChar(s[i]))
  }

  /** `a.toLowerCase() === b.toLowerCase()`: the admin check and the creator check. */
  predicate SameAddress(a: string, b: string) {
    Lower(a) == Lower(b)
  }

  /** Reference definition: two characters are equal up to ASCII case. */
  predicate EqualIgnoringCase(x: char, y: char) {
    x == y
    || (IsUpper(x) && y as int == x as int + 32)
    || (IsUpper(y) && x as int == y as int + 32)
  }

  lemma LowerCharAgree(x: char, y: char)
    ensures LowerChar(x) == LowerChar(y) <==> EqualIgnoringCase(x, y)
  {
  }

  /** The lower-casing comparison is exactly character-wise equality up to case. */
  lemma SameAddressIffEqualIgnoringCase(a: string, b: string)
    ensures SameAddress(a, b) <==>
            |a| == |b| && forall i :: 0 <= i < |a| ==> EqualIgnoringCase(a[i], b[i])
  {
    if |a| == |b| {
      forall i | 0 <= i < |a| ensures Lower(a)[i] == Lower(b)[i] <==> EqualIgnoringCase(a[i], b[i]) {
        LowerCharAgree(a[i], b[i]);
      }
      if forall i :: 0 <= i < |a| ==> EqualIgnoringCase(a[i], b[i]) {
        assert Lower(a) == Lower(b);
      }
    }
  }

  lemma LowerIdempotent(s: string)
    ensures Lower(Lower(s)) == Lower(s)
  {
  }

  /** SameAddress is an equivalence, and an address always matches its lower-cased form. */
  lemma SameAddressEquivalence(a: string, b: string, c: string)
    ensures SameAddress(a, a)
    ensures SameAddress(a, b) ==> SameAddress(b, a)
    ensures SameAddress(a, b) && SameAddress(b, c) ==> SameAddress(a, c)
    ensures SameAddress(a, Lower(a))
  {
    LowerIdempotent(a);
  }

  function Min(a: int, b: int): int {
    if a <= b then a else b
  }

  /** An index argument of String.prototype.substring, clamped to [0, n]. */
  function Clamp(i: int, n: nat): (r: nat)
    ensures r <= n
    ensures 0 <= i <= n ==> r == i
    ensures i < 0 ==> r == 0
    ensures i > n ==> r == n
  {
    if i < 0 then 0 else if i > n then n else i
  }

  /** String.prototype.substring(start, end): both indices are clamped to the
      string, and swapped when start exceeds end. */
  function Substring(s: string, start: int, end: int): (r: string)
    ensures 0 <= start <= end <= |s| ==> r == s[start..end]
    ensures 0 <= end <= start <= |s| ==> r == s[end..start]
    ensures |r| == if Clamp(start, |s|) <= Clamp(end, |s|) then Clamp(end, |s|) - Clamp(start, |s|)
                   else Clamp(start, |s|) - Clamp(end, |s|)
  {
    var a, b := Clamp(start, |s|), Clamp(end, |s|);
    if a <= b then s[a..b] else s[b..a]
  }

  /** `addr.substring(0, 6) + "..." + addr.substring(38)`. */
  function Truncate(addr: string): (r: string)
    ensures |r| == Min(6, |addr|) + 3 + (if |addr| > 38 then |addr| - 38 else 0)
    ensures r[..Min(6, |addr|)] == addr[..Min(6, |addr|)]
    ensures r[Min(6, |addr|)..Min(6, |addr|) + 3] == "..."
    ensures |addr| >= 38 ==> r == addr[..6] + "..." + addr[38..]
    ensures |addr| == 42 ==> |r| == 13 && r[9..] == addr[|addr| - 4..]
  {
    Substring(addr, 0, 6) + "..." + Substring(addr, 38, |addr|)
  }
}
