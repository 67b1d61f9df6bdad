/** String helpers that the sources take from their standard libraries:
    JavaScript's `split`/`join`/`includes`, C++'s `std::string::find`,
    `std::tolower` in the default "C" locale and `std::to_string`. */
module Text {
  import opened Wrappers

  /** Index of the first `c` in `s`, if any. */
  function IndexOf(s: string, c: char): (r: Option<nat>)
    ensures r.Some? ==> r.value < |s| && s[r.value] == c && c !in s[..r.value]
    ensures r.None? <==> c !in s
  {
    if |s| == 0 then None
    else if s[0] == c then Some(0)
    else match IndexOf(s[1..], c)
      case None => None
      case Some(i) => assert s[1..][..i] == s[1..i + 1]; Some(i + 1)
  }

  /** Number of occurrences of `c` in `s`. */
  function Occurrences(s: string, c: char): nat
  {
    if |s| == 0 then 0 else (if s[0] == c then 1 else 0) + Occurrences(s[1..], c)
  }

  /** JavaScript's `s.split(sep)` for a one-character separator: the pieces
      between separators, including empty ones. */
  function Split(s: string, sep: char): (parts: seq<string>)
    ensures |parts| >= 1
    ensures forall k :: 0 <= k < |parts| ==> sep !in parts[k]
    decreases |s|
  {
    match IndexOf(s, sep)
    case None => [s]
    case Some(i) => [s[..i]] + Split(s[i + 1..], sep)
  }

  /** JavaScript's `parts.join(sep)`. */
  function Join(parts: seq<string>, sep: string): string
  {
    if |parts| == 0 then ""
    else if |parts| == 1 then parts[0]
    else parts[0] + sep + Join(parts[1..], sep)
  }

  lemma {:induction false} OccurrencesAppend(a: string, b: string, c: char)
    ensures Occurrences(a + b, c) == Occurrences(a, c) + Occurrences(b, c)
  {
    if |a| > 0 {
      assert (a + b)[1..] == a[1..] + b;
      OccurrencesAppend(a[1..], b, c);
    } else {
      assert a + b == b;
    }
  }

  lemma {:induction false} OccurrencesAbsent(s: string, c: char)
    requires c !in s
    ensures Occurrences(s, c) == 0
  {
    if |s| > 0 {
      assert s[0] in s;
      assert forall x :: x in s[1..] ==> x in s;
      OccurrencesAbsent(s[1..], c);
    }
  }

  /** Splitting yields one piece more than there are separators. */
  lemma {:induction false} SplitCount(s: string, sep: char)
    ensures |Split(s, sep)| == Occurrences(s, sep) + 1
    decreases |s|
  {
    match IndexOf(s, sep)
    case None =>
      OccurrencesAbsent(s, sep);
    case Some(i) =>
      assert s == s[..i] + [sep] + s[i + 1..];
      OccurrencesAppend(s[..i] + [sep], s[i + 1..], sep);
      OccurrencesAppend(s[..i], [sep], sep);
      OccurrencesAbsent(s[..i], sep);
      SplitCount(s[i + 1..], sep);
  }

  /** `s.includes(sep)` holds exactly when `s.split(sep)` has at least two pieces. */
  lemma SplitIncludes(s: string, sep: char)
    ensures sep in s <==> |Split(s, sep)| >= 2
  {
    match IndexOf(s, sep)
    case None =>
    case Some(i) =>
      assert |Split(s, sep)| == 1 + |Split(s[i + 1..], sep)|;
  }

  /** Joining the pieces of a split with the separator gives back the string. */
  lemma {:induction false} JoinSplit(s: string, sep: char)
    ensures Join(Split(s, sep), [sep]) == s
    decreases |s|
  {
    match IndexOf(s, sep)
    case None =>
    case Some(i) =>
      var rest := Split(s[i + 1..], sep);
      var parts := [s[..i]] + rest;
      assert Split(s, sep) == parts;
      assert parts[1..] == rest;
      JoinSplit(s[i + 1..], sep);
      calc {
        Join(parts, [sep]);
        parts[0] + [sep] + Join(rest, [sep]);
        s[..i] + [sep] + s[i + 1..];
        { assert s == s[..i] + [sep] + s[i + 1..]; }
        s;
      }
  }

  /** True when `pat` occurs in `text` starting at `i`. */
  predicate OccursAt(text: string, pat: string, i: nat)
  {
    i + |pat| <= |text| && text[i..i + |pat|] == pat
  }

  /** `text.find(pat, i)`: the first position at or after `i` where `pat`
      occurs, or `None` for `std::string::npos`. */
  function FindFrom(text: string, pat: string, i: nat): (r: Option<nat>)
    ensures r.Some? ==> i <= r.value && OccursAt(text, pat, r.value)
    ensures r.Some? ==> forall j :: i <= j < r.value ==> !OccursAt(text, pat, j)
    ensures r.None? ==> forall j :: i <= j ==> !OccursAt(text, pat, j)
    decreases |text| - i
  {
    if i + |pat| > |text| then None
    else if text[i..i + |pat|] == pat then Some(i)
    else FindFrom(text, pat, i + 1)
  }

  /** `text.find(pat)`. */
  function Find(text: string, pat: string): Option<nat>
  {
    FindFrom(text, pat, 0)
  }

  /** `text.find(pat) == 0` holds exactly when `pat` is a prefix of `text`. */
  lemma FindZeroIsPrefix(text: string, pat: string)
    ensures Find(text, pat) == Some(0) <==> pat <= text
  {
    if pat <= text {
      assert OccursAt(text, pat, 0);
    }
  }

  /** `std::tolower` on one byte in the "C" locale: only 'A'..'Z' change. */
  function LowerChar(c: char): char
  {
    if 'A' <= c <= 'Z' then (c as int + 32) as char else c
  }

  /** The string with every character passed through `LowerChar`. */
  function Lower(s: string): (r: string)
    ensures |r| == |s|
    ensures forall i :: 0 <= i < |s| ==> r[i] == LowerChar(s[i])
  {
    seq(|s|, i requires 0 <= i < |s| => LowerChar(s[i]))
  }

  function DigitChar(d: nat): char
    requires d < 10
  {
    ('0' as int + d) as char
  }

  /** The number a string of decimal digits spells, most significant first. */
  function DigitsValue(s: string): int
    decreases |s|
  {
    if |s| == 0 then 0 else DigitsValue(s[..|s| - 1]) * 10 + (s[|s| - 1] as int - '0' as int)
  }

  /** Decimal digits of `n`, without leading zeros: the digits spell `n`,
      and the first is '0' only for 0 itself. */
  function NatToString(n: nat): (r: string)
    ensures |r| >= 1
    ensures forall i :: 0 <= i < |r| ==> '0' <= r[i] <= '9'
    ensures DigitsValue(r) == n
    ensures r[0] == '0' <==> n == 0
  {
    if n < 10 then
      var r := [DigitChar(n)];
      assert r[..0] == [];
      r
    else
      var init := NatToString(n / 10);
      var r := init + [DigitChar(n % 10)];
      assert r[..|r| - 1] == init;
      r
  }

  /** Distinct numbers are written differently. */
  lemma NatToStringInjective(a: nat, b: nat)
    requires NatToString(a) == NatToString(b)
    ensures a == b
  {
  }

  /** `std::to_string` of a signed integer: a minus sign exactly for negative
      numbers, then the digits of the magnitude. */
  function IntToString(n: int): (r: string)
    ensures |r| >= 1
    ensures r[0] == '-' <==> n < 0
    ensures n < 0 ==> DigitsValue(r[1..]) == -n
    ensures n >= 0 ==> DigitsValue(r) == n
    ensures var digits := if n < 0 then r[1..] else r;
            && |digits| >= 1
            && (forall i :: 0 <= i < |digits| ==> '0' <= digits[i] <= '9')
            && (digits[0] == '0' <==> n == 0)
  {
    if n < 0 then
      var r := "-" + NatToString(-n);
      assert r[1..] == NatToString(-n);
      r
    else NatToString(n)
  }

  /** Distinct integers are written differently, so an error text names its number. */
  lemma IntToStringInjective(a: int, b: int)
    requires IntToString(a) == IntToString(b)
    ensures a == b
  {
    if a < 0 {
      assert IntToString(a)[1..] == IntToString(b)[1..];
    }
  }
}
