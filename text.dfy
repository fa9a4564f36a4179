/** String helpers shared by the model: SQLite's BINARY text order, its `LIKE '%term%'`, and the decimal text of whole numbers. */
module Text {
  import opened Wrappers

  /** SQLite compares TEXT byte by byte (BINARY collation); on code points that is lexicographic order. */
  predicate TextLe(a: string, b: string)
  {
    if a == [] then true
    else if b == [] then false
    else if a[0] != b[0] then a[0] < b[0]
    else TextLe(a[1..], b[1..])
  }

  lemma {:induction false} TextLeTotal(a: string, b: string)
    ensures TextLe(a, b) || TextLe(b, a)
  {
    if a != [] && b != [] && a[0] == b[0] {
      TextLeTotal(a[1..], b[1..]);
    }
  }

  lemma {:induction false} TextLeTransitive(a: string, b: string, c: string)
    requires TextLe(a, b) && TextLe(b, c)
    ensures TextLe(a, c)
  {
    if a != [] && b != [] && c != [] && a[0] == b[0] && b[0] == c[0] {
      TextLeTransitive(a[1..], b[1..], c[1..]);
    }
  }

  lemma {:induction false} TextLeAntisymmetric(a: string, b: string)
    requires TextLe(a, b) && TextLe(b, a)
    ensures a == b
  {
    if a != [] && b != [] {
      TextLeAntisymmetric(a[1..], b[1..]);
    }
  }

  /** SQLite's built-in case folding: ASCII letters only. */
  function FoldAscii(c: char): (r: char)
    ensures 'A' <= c <= 'Z' ==> r != c && 'a' <= r <= 'z'
    ensures !('A' <= c <= 'Z') ==> r == c
  {
    if 'A' <= c <= 'Z' then (c as int + 32) as char else c
  }

  function Fold(s: string): (r: string)
    ensures |r| == |s|
    ensures forall i :: 0 <= i < |s| ==> r[i] == FoldAscii(s[i])
  {
    seq(|s|, i requires 0 <= i < |s| => FoldAscii(s[i]))
  }

  predicate OccursAt(needle: string, hay: string, k: int)
  {
    0 <= k && k + |needle| <= |hay| && hay[k..k + |needle|] == needle
  }

  /** `hay LIKE '%needle%'` for a needle without wildcards: the folded needle occurs in the folded haystack. */
  predicate Like(hay: string, needle: string)
  {
    exists k | 0 <= k <= |hay| - |needle| :: OccursAt(Fold(needle), Fold(hay), k)
  }

  predicate NoneBefore(candidates: seq<Option<string>>, i: int)
  {
    forall j :: 0 <= j < i && j < |candidates| ==> candidates[j].None?
  }

  /**
   * The first candidate that is present, else the default: a chain of
   * `d.get(k1, d.get(k2, default))`, where a key present with an empty value still counts.
   */
  function FirstPresent(candidates: seq<Option<string>>, default: string): (r: string)
    ensures (forall i :: 0 <= i < |candidates| ==> candidates[i].None?) ==> r == default
    ensures forall i :: 0 <= i < |candidates| && candidates[i].Some? && NoneBefore(candidates, i) ==>
                          r == candidates[i].value
  {
    if candidates == [] then default
    else if candidates[0].Some? then candidates[0].value
    else FirstPresent(candidates[1..], default)
  }

  // ---------------------------------------------------------------------------
  // Decimal text of whole numbers

  /** `${n}`: the decimal digits of a whole number, with a minus sign when negative. */
  function Show(n: int): (r: string)
    ensures r != []
    ensures r[0] == '-' <==> n < 0
  {
    if n < 0 then "-" + ShowNat(-n) else ShowNat(n)
  }

  function Digit(d: int): (c: char)
    requires 0 <= d < 10
    ensures '0' <= c <= '9'
  {
    "0123456789"[d]
  }

  function ShowNat(n: nat): (r: string)
    ensures r != [] && forall i :: 0 <= i < |r| ==> '0' <= r[i] <= '9'
    decreases n
  {
    if n < 10 then [Digit(n)] else ShowNat(n / 10) + [Digit(n % 10)]
  }

  function ParseNat(s: string): int
  {
    if s == [] then 0 else 10 * ParseNat(s[..|s| - 1]) + (s[|s| - 1] as int - '0' as int)
  }

  /** Reading a number back from its text. */
  function Parse(s: string): int
  {
    if s != [] && s[0] == '-' then -ParseNat(s[1..]) else ParseNat(s)
  }

  lemma {:induction false} ParseShowNat(n: nat)
    ensures ParseNat(ShowNat(n)) == n
    decreases n
  {
    if n >= 10 {
      var s := ShowNat(n);
      assert s[..|s| - 1] == ShowNat(n / 10);
      ParseShowNat(n / 10);
    }
  }

  /** The shown number is the number. */
  lemma ParseShow(n: int)
    ensures Parse(Show(n)) == n
  {
    var m: nat := if n < 0 then -n else n;
    ParseShowNat(m);
    if n < 0 {
      ParseNegative(ShowNat(m));
    } else {
      assert ShowNat(m)[0] != '-';
    }
  }

  lemma ParseNegative(digits: string)
    ensures Parse("-" + digits) == -ParseNat(digits)
  {
    assert ("-" + digits)[1..] == digits;
  }
}
