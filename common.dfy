/** Value types and string helpers shared by every module: optional and fallible values,
    the JavaScript string operations the services rely on (join, split, replace, padStart,
    toString(radix), charAt(0).toUpperCase()), and an infix predicate for stating what a
    generated text contains. */
module Common {

  datatype Option<T> = None | Some(value: T)

  /** An outcome that either carries a value or the message of the error that was thrown. */
  datatype Result<T> = Ok(value: T) | Err(error: string)

  /** JavaScript truthiness of an optional string: `undefined` and `""` are both falsy. */
  predicate Present(o: Option<string>) {
    o.Some? && o.value != ""
  }

  /** `o || d` for an optional string. */
  function OrElse(o: Option<string>, d: string): string {
    if Present(o) then o.value else d
  }

  /** `m[k] || d` for an object literal whose values are strings. */
  function LookupOr(m: map<string, string>, k: string, d: string): string {
    if k in m && m[k] != "" then m[k] else d
  }

  /** `m[k] || d` for an object literal whose values are numbers (0 is falsy). */
  function LookupIntOr(m: map<string, int>, k: string, d: int): int {
    if k in m && m[k] != 0 then m[k] else d
  }

  // ---------------------------------------------------------------------------
  // Array.prototype.join and Array.prototype.filter(Boolean)
  // ---------------------------------------------------------------------------

  /** `parts.join(sep)`. */
  function Join(parts: seq<string>, sep: string): string
    decreases |parts|
  {
    if |parts| == 0 then ""
    else if |parts| == 1 then parts[0]
    else parts[0] + sep + Join(parts[1..], sep)
  }

  /** A joined list starts with its first part, so it is empty only when that part is. */
  lemma {:induction false} JoinStartsWithHead(parts: seq<string>, sep: string)
    requires |parts| > 0
    ensures |Join(parts, sep)| >= |parts[0]|
    ensures Join(parts, sep)[..|parts[0]|] == parts[0]
  {
    if |parts| > 1 {
      var rest := sep + Join(parts[1..], sep);
      assert Join(parts, sep) == parts[0] + rest;
    }
  }

  /** A joined list ends with its last part. */
  lemma {:induction false} JoinEndsWithLast(parts: seq<string>, sep: string)
    requires |parts| > 0
    ensures |Join(parts, sep)| >= |parts[|parts| - 1]|
    ensures Join(parts, sep)[|Join(parts, sep)| - |parts[|parts| - 1]|..] == parts[|parts| - 1]
  {
    if |parts| > 1 {
      JoinEndsWithLast(parts[1..], sep);
      var tail := Join(parts[1..], sep);
      assert Join(parts, sep) == (parts[0] + sep) + tail;
      assert parts[1..][|parts[1..]| - 1] == parts[|parts| - 1];
    }
  }

  /** Joining with a non-empty separator gives "" only for [] or [""]. */
  lemma JoinEmpty(parts: seq<string>, sep: string)
    requires sep != ""
    ensures Join(parts, sep) == "" <==> (parts == [] || parts == [""])
  {
    if |parts| > 1 {
      assert |Join(parts, sep)| >= |sep|;
    }
  }

  /** `parts.filter(Boolean)` on strings: drops the empty ones, keeping order. */
  function DropEmpty(parts: seq<string>): (r: seq<string>)
    ensures forall i :: 0 <= i < |r| ==> r[i] != "" && r[i] in parts
    ensures forall p :: p in parts && p != "" ==> p in r
    ensures |r| <= |parts|
  {
    if parts == [] then []
    else if parts[0] == "" then DropEmpty(parts[1..])
    else [parts[0]] + DropEmpty(parts[1..])
  }

  /** Filtering keeps a trailing non-empty part in last position. */
  lemma {:induction false} DropEmptyKeepsLast(parts: seq<string>, last: string)
    requires last != ""
    ensures DropEmpty(parts + [last]) == DropEmpty(parts) + [last]
  {
    if parts == [] {
      assert [] + [last] == [last];
    } else {
      assert (parts + [last])[1..] == parts[1..] + [last];
      DropEmptyKeepsLast(parts[1..], last);
    }
  }

  /** Filtering distributes over concatenation. */
  lemma {:induction false} DropEmptyConcat(a: seq<string>, b: seq<string>)
    ensures DropEmpty(a + b) == DropEmpty(a) + DropEmpty(b)
  {
    if a == [] {
      assert a + b == b;
    } else {
      assert (a + b)[1..] == a[1..] + b;
      DropEmptyConcat(a[1..], b);
    }
  }

  /** Filtering a list with no empty part changes nothing. */
  lemma {:induction false} DropEmptyNoop(parts: seq<string>)
    requires forall i :: 0 <= i < |parts| ==> parts[i] != ""
    ensures DropEmpty(parts) == parts
  {
    if parts != [] {
      DropEmptyNoop(parts[1..]);
    }
  }

  // ---------------------------------------------------------------------------
  // Infix (substring) predicate
  // ---------------------------------------------------------------------------

  /** `hay.includes(needle)`. */
  ghost predicate IsInfix(needle: string, hay: string) {
    exists k: nat :: MatchesAt(hay, needle, k)
  }

  predicate MatchesAt(s: string, pat: string, k: nat) {
    k + |pat| <= |s| && s[k..k + |pat|] == pat
  }

  lemma InfixOfConcat(a: string, needle: string, b: string)
    ensures IsInfix(needle, a + needle + b)
  {
    var hay := a + needle + b;
    assert MatchesAt(hay, needle, |a|);
  }

  /** Every part of a joined list occurs in the joined string. */
  lemma {:induction false} JoinContainsPart(parts: seq<string>, sep: string, i: nat)
    requires i < |parts|
    ensures IsInfix(parts[i], Join(parts, sep))
    decreases i
  {
    var j := Join(parts, sep);
    if i == 0 {
      JoinStartsWithHead(parts, sep);
      assert MatchesAt(j, parts[0], 0);
    } else {
      JoinContainsPart(parts[1..], sep, i - 1);
      var rest := Join(parts[1..], sep);
      var k: nat :| MatchesAt(rest, parts[1..][i - 1], k);
      var pre := parts[0] + sep;
      assert j == pre + rest;
      assert j[|pre| + k..|pre| + k + |parts[i]|] == rest[k..k + |parts[i]|];
      assert MatchesAt(j, parts[i], |pre| + k);
    }
  }

  // ---------------------------------------------------------------------------
  // Number.prototype.toString(radix)
  // ---------------------------------------------------------------------------

  /** The digit `d` of `Number.prototype.toString(radix)`: 0-9, then lower-case a-z. */
  function Digit(d: nat): (c: char)
    requires d < 36
    ensures IsRadixDigit(c, d + 1)
  {
    if d < 10 then ('0' as int + d) as char else ('a' as int + d - 10) as char
  }

  /** `c` is a digit of base `base` as toString(radix) prints it. */
  predicate IsRadixDigit(c: char, base: nat) {
    ('0' <= c <= '9' && (c as int - '0' as int) < base)
    || ('a' <= c <= 'z' && (c as int - 'a' as int) + 10 < base)
  }

  /** The value of a printed digit. */
  function DigitValue(c: char): (d: nat)
    requires IsRadixDigit(c, 36)
    ensures d < 36 && Digit(d) == c
  {
    if '0' <= c <= '9' then c as int - '0' as int else c as int - 'a' as int + 10
  }

  lemma DigitRoundTrip(d: nat)
    requires d < 36
    ensures DigitValue(Digit(d)) == d
  {
  }

  /** `n.toString(base)` for a non-negative integer: no leading zeros, lower-case digits. */
  function NatToRadix(n: nat, base: nat): (r: string)
    requires 2 <= base <= 36
    ensures |r| >= 1
    ensures forall i :: 0 <= i < |r| ==> IsRadixDigit(r[i], base)
    decreases n
  {
    if n < base then [Digit(n)]
    else DivMod(n, base); NatToRadix(n / base, base) + [Digit(n % base)]
  }

  /** Euclidean division by a base of at least 2 makes progress. */
  lemma DivMod(n: nat, b: nat)
    requires 2 <= b <= n
    ensures 0 < n / b < n && n % b < b && n == n / b * b + n % b
  {
    var q, r := n / b, n % b;
    assert n == q * b + r && 0 <= r < b;
    assert q * b == q * 2 + q * (b - 2);
    assert q * (b - 2) >= 0;
    assert q != 0 by {
      if q == 0 {
        assert q * b == 0;
      }
    }
  }

  /** Reading a digit string back in base `base`. */
  function RadixValue(s: string, base: nat): nat
    requires 2 <= base <= 36
    requires forall i :: 0 <= i < |s| ==> IsRadixDigit(s[i], 36)
    decreases |s|
  {
    if s == [] then 0
    else RadixValue(s[..|s| - 1], base) * base + DigitValue(s[|s| - 1])
  }

  /** Every digit of some base is a digit of base 36. */
  lemma {:induction false} RadixDigitsWiden(s: string, base: nat)
    requires base <= 36
    requires forall i :: 0 <= i < |s| ==> IsRadixDigit(s[i], base)
    ensures forall i :: 0 <= i < |s| ==> IsRadixDigit(s[i], 36)
  {
  }

  lemma RadixValueSnoc(s: string, c: char, base: nat)
    requires 2 <= base <= 36
    requires forall i :: 0 <= i < |s| ==> IsRadixDigit(s[i], 36)
    requires IsRadixDigit(c, 36)
    ensures RadixValue(s + [c], base) == RadixValue(s, base) * base + DigitValue(c)
  {
    assert (s + [c])[..|s + [c]| - 1] == s;
  }

  /** The printed digits read back to the number: toString(radix) loses nothing. */
  lemma {:induction false} NatToRadixRoundTrip(n: nat, base: nat)
    requires 2 <= base <= 36
    ensures forall i :: 0 <= i < |NatToRadix(n, base)| ==> IsRadixDigit(NatToRadix(n, base)[i], 36)
    ensures RadixValue(NatToRadix(n, base), base) == n
    decreases n
  {
    RadixDigitsWiden(NatToRadix(n, base), base);
    if n < base {
      DigitRoundTrip(n);
      assert RadixValue(NatToRadix(n, base), base) == RadixValue([], base) * base + n;
    } else {
      DivMod(n, base);
      var q, d := n / base, n % base;
      NatToRadixRoundTrip(q, base);
      DigitRoundTrip(d);
      RadixValueSnoc(NatToRadix(q, base), Digit(d), base);
      assert n == q * base + d;
    }
  }

  /** Decimal printing of an integer, as a JavaScript template literal does it. */
  function IntToString(n: int): (r: string)
    ensures |r| >= 1
  {
    if n < 0 then "-" + NatToRadix(-n, 10) else NatToRadix(n, 10)
  }

  /** Decimal printing is injective: two numbers print alike only if they are equal. */
  lemma IntToStringInjective(a: int, b: int)
    requires IntToString(a) == IntToString(b)
    ensures a == b
  {
    if a >= 0 && b >= 0 {
      NatToRadixRoundTrip(a, 10);
      NatToRadixRoundTrip(b, 10);
    } else if a < 0 && b < 0 {
      var sa, sb := NatToRadix(-a, 10), NatToRadix(-b, 10);
      assert ("-" + sa)[1..] == sa;
      assert ("-" + sb)[1..] == sb;
      NatToRadixRoundTrip(-a, 10);
      NatToRadixRoundTrip(-b, 10);
    } else {
      var nonneg := if a < 0 then b else a;
      var neg := if a < 0 then a else b;
      assert IntToString(neg)[0] == '-';
      assert IsRadixDigit(NatToRadix(nonneg, 10)[0], 10);
      assert false;
    }
  }

  // ---------------------------------------------------------------------------
  // String.prototype.padStart, charAt(0).toUpperCase() + slice(1)
  // ---------------------------------------------------------------------------

  /** `s.padStart(width, [pad])`. */
  function PadStart(s: string, width: nat, pad: char): (r: string)
    ensures |r| == if |s| >= width then |s| else width
    ensures r[|r| - |s|..] == s
    ensures forall i :: 0 <= i < |r| - |s| ==> r[i] == pad
  {
    if |s| >= width then s else seq(width - |s|, _ => pad) + s
  }

  /** `c.toUpperCase()` on ASCII letters; other characters are left as they are. */
  function ToUpper(c: char): char {
    if 'a' <= c <= 'z' then (c as int - 32) as char else c
  }

  /** `s.charAt(0).toUpperCase() + s.slice(1)`. */
  function Capitalize(s: string): (r: string)
    ensures |r| == |s|
    ensures s != "" ==> r[0] == ToUpper(s[0]) && r[1..] == s[1..]
  {
    if s == "" then "" else [ToUpper(s[0])] + s[1..]
  }

  // ---------------------------------------------------------------------------
  // String.prototype.indexOf, replace(pattern, replacement), split(separator)
  // ---------------------------------------------------------------------------

  /** The first position at or after `from` where `pat` occurs. */
  function IndexOfFrom(s: string, pat: string, from: nat): (r: Option<nat>)
    ensures r.Some? ==> from <= r.value && MatchesAt(s, pat, r.value)
    ensures r.Some? ==> forall j :: from <= j < r.value ==> !MatchesAt(s, pat, j)
    ensures r.None? ==> forall j :: from <= j ==> !MatchesAt(s, pat, j)
    decreases |s| - from
  {
    if from + |pat| > |s| then None
    else if s[from..from + |pat|] == pat then Some(from)
    else IndexOfFrom(s, pat, from + 1)
  }

  /** `s.indexOf(pat)`, with None for -1. */
  function IndexOf(s: string, pat: string): Option<nat> {
    IndexOfFrom(s, pat, 0)
  }

  /** `s.replace(pat, rep)` with a string pattern: only the first occurrence is replaced. */
  function ReplaceFirst(s: string, pat: string, rep: string): string {
    match IndexOf(s, pat)
    case None => s
    case Some(k) => s[..k] + rep + s[k + |pat|..]
  }

  /** Replacing a pattern the string starts with removes exactly that prefix. */
  lemma ReplaceFirstPrefix(pat: string, t: string)
    ensures ReplaceFirst(pat + t, pat, "") == t
  {
    var s := pat + t;
    assert MatchesAt(s, pat, 0);
    assert (pat + t)[|pat|..] == t;
  }

  /** Replacing a pattern that does not occur leaves the string unchanged. */
  lemma ReplaceFirstAbsent(s: string, pat: string)
    requires forall j :: !MatchesAt(s, pat, j)
    ensures ReplaceFirst(s, pat, "") == s
  {
  }

  /** `s.split(c)` with a one-character separator. */
  function Split(s: string, c: char): (r: seq<string>)
    ensures |r| >= 1
    decreases |s|
  {
    if s == [] then [""]
    else
      var rest := Split(s[1..], c);
      if s[0] == c then [""] + rest else [[s[0]] + rest[0]] + rest[1..]
  }

  /** No field produced by a split contains the separator. */
  lemma {:induction false} SplitFieldsLackSeparator(s: string, c: char)
    ensures forall i :: 0 <= i < |Split(s, c)| ==> c !in Split(s, c)[i]
    decreases |s|
  {
    if s != [] {
      SplitFieldsLackSeparator(s[1..], c);
    }
  }

  /** Joining the fields of a split with the separator gives back the string. */
  lemma {:induction false} SplitJoinRoundTrip(s: string, c: char)
    ensures Join(Split(s, c), [c]) == s
    decreases |s|
  {
    if s != [] {
      SplitJoinRoundTrip(s[1..], c);
      var rest := Split(s[1..], c);
      if s[0] == c {
        assert Join([""] + rest, [c]) == "" + [c] + Join(rest, [c]);
      } else {
        var r := [[s[0]] + rest[0]] + rest[1..];
        if |rest| == 1 {
          assert r == [[s[0]] + rest[0]];
        } else {
          assert r[1..] == rest[1..];
          assert Join(rest, [c]) == rest[0] + [c] + Join(rest[1..], [c]);
          assert Join(r, [c]) == [s[0]] + rest[0] + [c] + Join(rest[1..], [c]);
        }
        assert s == [s[0]] + s[1..];
      }
    }
  }

  /** A string without the separator is a single field. */
  lemma {:induction false} SplitWithoutSeparator(s: string, c: char)
    requires c !in s
    ensures Split(s, c) == [s]
    decreases |s|
  {
    if s != [] {
      SplitWithoutSeparator(s[1..], c);
      assert s == [s[0]] + s[1..];
    }
  }

  /** Splitting `w + c + t` where `w` lacks the separator gives `w` first, then t's fields. */
  lemma {:induction false} SplitAfterWord(w: string, c: char, t: string)
    requires c !in w
    ensures Split(w + [c] + t, c) == [w] + Split(t, c)
    decreases |w|
  {
    var s := w + [c] + t;
    if w == [] {
      assert s == [c] + t;
      assert s[1..] == t;
    } else {
      assert s[1..] == w[1..] + [c] + t;
      SplitAfterWord(w[1..], c, t);
      assert w == [w[0]] + w[1..];
    }
  }

  // ---------------------------------------------------------------------------
  // Math.floor(Math.random() * n)
  // ---------------------------------------------------------------------------

  /** `Math.floor(rand * n)` for a draw `rand` of `Math.random()`, which lies in [0, 1). */
  function ScaledIndex(rand: real, n: nat): (i: nat)
    requires 0.0 <= rand < 1.0 && n > 0
    ensures i < n
  {
    assert rand * (n as real) < n as real by {
      assert (1.0 - rand) * (n as real) > 0.0;
    }
    (rand * (n as real)).Floor
  }

  /** Every index is drawn by some value of `Math.random()`: the draw `i / n` picks index `i`. */
  lemma ScaledIndexCovers(i: nat, n: nat)
    requires i < n
    ensures 0.0 <= (i as real) / (n as real) < 1.0
    ensures ScaledIndex((i as real) / (n as real), n) == i
  {
    var rand := (i as real) / (n as real);
    assert rand * (n as real) == i as real;
  }
}
