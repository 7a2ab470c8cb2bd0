/** ASCII text primitives standing in for the Rust `str` methods the chat overlay
    relies on (`to_lowercase`, `contains`, `find`, `split`, `split_whitespace`,
    `replace`, `starts_with`, `parse::<usize>()`, `to_string()` on integers).
    Strings are sequences of ASCII characters: byte offsets and character offsets
    coincide, and case mapping only touches `A`-`Z` / `a`-`z`. */
module Text {
  import opened Wrappers

  // ---------------------------------------------------------------------------
  // Character classes
  // ---------------------------------------------------------------------------

  predicate IsDigit(c: char) { '0' <= c <= '9' }
  predicate IsUpper(c: char) { 'A' <= c <= 'Z' }
  predicate IsLower(c: char) { 'a' <= c <= 'z' }
  predicate IsAlpha(c: char) { IsUpper(c) || IsLower(c) }

  /** `char::is_alphanumeric`, restricted to ASCII. */
  predicate IsAlnum(c: char) { IsAlpha(c) || IsDigit(c) }

  /** Characters of the regex class `[A-Za-z0-9_]`. */
  predicate IsWordChar(c: char) { IsAlnum(c) || c == '_' }

  /** `char::is_whitespace` on ASCII: tab, line feed, vertical tab, form feed,
      carriage return and space. */
  predicate IsSpace(c: char) { c == ' ' || '\t' <= c <= '\r' }

  predicate AllDigits(s: string) { forall i :: 0 <= i < |s| ==> IsDigit(s[i]) }

  // ---------------------------------------------------------------------------
  // Case mapping
  // ---------------------------------------------------------------------------

  function LowerChar(c: char): (r: char)
    ensures !IsUpper(r)
    ensures IsUpper(c) ==> IsLower(r)
    ensures !IsUpper(c) ==> r == c
  {
    if IsUpper(c) then (c as int + 32) as char else c
  }

  function UpperChar(c: char): (r: char)
    ensures !IsLower(r)
    ensures IsLower(c) ==> IsUpper(r)
    ensures !IsLower(c) ==> r == c
  {
    if IsLower(c) then (c as int - 32) as char else c
  }

  /** `str::to_lowercase`. */
  function Lower(s: string): (r: string)
    ensures |r| == |s|
    ensures forall i :: 0 <= i < |s| ==> r[i] == LowerChar(s[i])
  {
    if s == [] then [] else [LowerChar(s[0])] + Lower(s[1..])
  }

  /** `str::to_uppercase`. */
  function Upper(s: string): (r: string)
    ensures |r| == |s|
    ensures forall i :: 0 <= i < |s| ==> r[i] == UpperChar(s[i])
  {
    if s == [] then [] else [UpperChar(s[0])] + Upper(s[1..])
  }

  lemma LowerIdempotent(s: string)
    ensures Lower(Lower(s)) == Lower(s)
  {
    assert forall i :: 0 <= i < |s| ==> Lower(Lower(s))[i] == Lower(s)[i];
  }

  lemma LowerAppend(a: string, b: string)
    ensures Lower(a + b) == Lower(a) + Lower(b)
  {
    var l, r := Lower(a + b), Lower(a) + Lower(b);
    forall i | 0 <= i < |l| ensures l[i] == r[i] {
      if i < |a| {
        assert (a + b)[i] == a[i];
      } else {
        assert (a + b)[i] == b[i - |a|];
      }
    }
  }

  // ---------------------------------------------------------------------------
  // Prefixes and substrings
  // ---------------------------------------------------------------------------

  predicate StartsWith(s: string, p: string) { |p| <= |s| && s[..|p|] == p }

  predicate OccursAt(s: string, p: string, i: nat) { i + |p| <= |s| && s[i..i + |p|] == p }

  /** `str::contains` with a string pattern. */
  predicate Contains(s: string, p: string) { exists i: nat | i <= |s| :: OccursAt(s, p, i) }

  /** Occurrences in `s[1..]` are the occurrences in `s` shifted by one. */
  lemma OccursShift(s: string, p: string, j: nat)
    requires |s| > 0
    ensures OccursAt(s, p, j + 1) <==> OccursAt(s[1..], p, j)
  {
    if j + 1 + |p| <= |s| { assert s[j + 1..j + 1 + |p|] == s[1..][j..j + |p|]; }
  }

  /** `str::find`: the first index at which `p` occurs in `s`. */
  function Find(s: string, p: string): (r: Option<nat>)
    ensures r.Some? ==> OccursAt(s, p, r.value)
    ensures r.Some? ==> forall j: nat :: j < r.value ==> !OccursAt(s, p, j)
    ensures r.None? ==> !Contains(s, p)
    decreases |s|
  {
    if StartsWith(s, p) then Some(0)
    else if |s| <= |p| then
      assert forall j: nat :: OccursAt(s, p, j) ==> j == 0 && StartsWith(s, p);
      None
    else
      assert !OccursAt(s, p, 0);
      match Find(s[1..], p)
      case Some(k) =>
        OccursShift(s, p, k);
        assert forall j: nat :: 0 < j < k + 1 ==> !OccursAt(s, p, j) by {
          forall j: nat | 0 < j < k + 1 ensures !OccursAt(s, p, j) { OccursShift(s, p, j - 1); }
        }
        Some(k + 1)
      case None =>
        assert forall j: nat :: j <= |s| ==> !OccursAt(s, p, j) by {
          forall j: nat | 0 < j <= |s| ensures !OccursAt(s, p, j) { OccursShift(s, p, j - 1); }
        }
        None
  }

  lemma FindSomeIffContains(s: string, p: string)
    ensures Find(s, p).Some? <==> Contains(s, p)
  {
    if Find(s, p).Some? { assert OccursAt(s, p, Find(s, p).value); }
  }

  /** `str::contains` after lowering both sides, as the overlay's word filters do. */
  predicate ContainsIgnoreCase(s: string, p: string) { Contains(Lower(s), Lower(p)) }

  lemma EmptyContained(s: string)
    ensures Contains(s, [])
  {
    assert OccursAt(s, [], 0);
  }

  // ---------------------------------------------------------------------------
  // Splitting
  // ---------------------------------------------------------------------------

  function IndexOfChar(s: string, c: char): (i: nat)
    requires c in s
    ensures i < |s| && s[i] == c && c !in s[..i]
  {
    if s[0] == c then 0 else 1 + IndexOfChar(s[1..], c)
  }

  /** Glues pieces back together with `sep` between consecutive pieces. */
  function Join(parts: seq<string>, sep: char): string
    requires |parts| >= 1
  {
    if |parts| == 1 then parts[0] else parts[0] + [sep] + Join(parts[1..], sep)
  }

  /** `str::split` on a single character: at least one piece, pieces free of the
      separator, and joining them back gives the input. */
  function Split(s: string, sep: char): (parts: seq<string>)
    ensures |parts| >= 1
    ensures forall i :: 0 <= i < |parts| ==> sep !in parts[i]
    ensures Join(parts, sep) == s
    decreases |s|
  {
    if sep !in s then [s]
    else
      var i := IndexOfChar(s, sep);
      var rest := Split(s[i + 1..], sep);
      assert s == s[..i] + [sep] + s[i + 1..];
      [s[..i]] + rest
  }

  lemma {:induction false} SplitOfJoin(parts: seq<string>, sep: char)
    requires |parts| >= 1
    requires forall i :: 0 <= i < |parts| ==> sep !in parts[i]
    ensures Split(Join(parts, sep), sep) == parts
    decreases |parts|
  {
    if |parts| == 1 {
    } else {
      var s := Join(parts, sep);
      var tail := Join(parts[1..], sep);
      assert s == parts[0] + [sep] + tail;
      assert sep in s by { assert s[|parts[0]|] == sep; }
      var i := IndexOfChar(s, sep);
      assert i == |parts[0]|;
      assert s[..i] == parts[0];
      assert s[i + 1..] == tail;
      SplitOfJoin(parts[1..], sep);
    }
  }

  /** The first piece of `str::split(sep)`, i.e. `split(sep).next()`. */
  function FirstPiece(s: string, sep: char): (r: string)
    ensures StartsWith(s, r) && sep !in r
    ensures |r| < |s| ==> s[|r|] == sep
  {
    if sep in s then s[..IndexOfChar(s, sep)] else s
  }

  /** The second piece of `str::split(m)` with a string separator `m`, when `m`
      occurs: the text after the first occurrence up to the next one. */
  function SecondPiece(s: string, m: string): (r: string)
    requires |m| > 0 && Contains(s, m)
    ensures !Contains(r, m)
  {
    var i := Find(s, m).value;
    var rest := s[i + |m|..];
    match Find(rest, m)
    case Some(j) =>
      assert !Contains(rest[..j], m) by {
        forall k: nat | OccursAt(rest[..j], m, k) ensures false {
          PrefixOccurrence(rest, m, j, k);
        }
      }
      rest[..j]
    case None => rest
  }

  /** An occurrence inside a prefix is an occurrence in the whole text. */
  lemma PrefixOccurrence(s: string, p: string, j: nat, k: nat)
    requires j <= |s| && OccursAt(s[..j], p, k)
    ensures OccursAt(s, p, k) && k + |p| <= j
  {
    assert s[..j][k..k + |p|] == s[k..k + |p|];
  }

  /** Maximal runs of non-whitespace characters: `str::split_whitespace`. */
  function Words(s: string): (ws: seq<string>)
    ensures forall k :: 0 <= k < |ws| ==> |ws[k]| > 0
    ensures forall k, j :: 0 <= k < |ws| && 0 <= j < |ws[k]| ==> !IsSpace(ws[k][j])
    decreases |s|
  {
    if s == [] then []
    else if IsSpace(s[0]) then Words(s[1..])
    else
      var n := RunLength(s);
      [s[..n]] + Words(s[n..])
  }

  function RunLength(s: string): (n: nat)
    ensures n <= |s|
    ensures forall j :: 0 <= j < n ==> !IsSpace(s[j])
    ensures n < |s| ==> IsSpace(s[n])
    ensures |s| > 0 && !IsSpace(s[0]) ==> n > 0
  {
    if s == [] || IsSpace(s[0]) then 0 else 1 + RunLength(s[1..])
  }

  /** Words separated by exactly one space. */
  function JoinSpaces(ws: seq<string>): string
  {
    if ws == [] then [] else if |ws| == 1 then ws[0] else ws[0] + " " + JoinSpaces(ws[1..])
  }

  predicate IsWord(w: string) { |w| > 0 && forall j :: 0 <= j < |w| ==> !IsSpace(w[j]) }

  lemma {:induction false} WordsOfJoinSpaces(ws: seq<string>)
    requires forall k :: 0 <= k < |ws| ==> IsWord(ws[k])
    ensures Words(JoinSpaces(ws)) == ws
    decreases |ws|
  {
    if ws == [] {
    } else {
      var w := ws[0];
      var s := JoinSpaces(ws);
      RunOfWord(w, if |ws| == 1 then [] else " " + JoinSpaces(ws[1..]));
      if |ws| == 1 {
        assert s == w + [];
        assert s[|w|..] == [];
      } else {
        var rest := JoinSpaces(ws[1..]);
        assert s == w + (" " + rest);
        assert s[|w|..] == " " + rest;
        assert Words(" " + rest) == Words(rest) by { assert (" " + rest)[1..] == rest; }
        WordsOfJoinSpaces(ws[1..]);
      }
    }
  }

  lemma {:induction false} RunOfWord(w: string, tail: string)
    requires IsWord(w)
    requires tail == [] || IsSpace(tail[0])
    ensures RunLength(w + tail) == |w|
    ensures (w + tail)[..|w|] == w && (w + tail)[|w|..] == tail
    decreases |w|
  {
    if |w| > 1 {
      assert (w + tail)[1..] == w[1..] + tail;
      RunOfWord(w[1..], tail);
    }
  }

  // ---------------------------------------------------------------------------
  // Replacement
  // ---------------------------------------------------------------------------

  /** `str::replace(from, to)`: every non-overlapping occurrence of a non-empty
      `from`, scanned left to right, becomes `to`; an empty `from` inserts `to`
      before every character and at the end. */
  function Replace(s: string, from: string, to: string): string
    decreases |s|
  {
    if from == [] then
      if s == [] then to else to + [s[0]] + Replace(s[1..], from, to)
    else if StartsWith(s, from) then to + Replace(s[|from|..], from, to)
    else if s == [] then []
    else [s[0]] + Replace(s[1..], from, to)
  }

  lemma {:induction false} ReplaceAbsent(s: string, from: string, to: string)
    requires from != [] && !Contains(s, from)
    ensures Replace(s, from, to) == s
    decreases |s|
  {
    assert !StartsWith(s, from) by { if StartsWith(s, from) { assert OccursAt(s, from, 0); } }
    if s != [] {
      assert !Contains(s[1..], from) by {
        forall k: nat | OccursAt(s[1..], from, k) ensures false {
          assert s[1..][k..k + |from|] == s[k + 1..k + 1 + |from|];
          assert OccursAt(s, from, k + 1);
        }
      }
      ReplaceAbsent(s[1..], from, to);
    }
  }

  lemma {:induction false} ReplaceSelf(s: string, from: string)
    requires from != []
    ensures Replace(s, from, from) == s
    decreases |s|
  {
    if StartsWith(s, from) {
      ReplaceSelf(s[|from|..], from);
      assert s == from + s[|from|..];
    } else if s != [] {
      ReplaceSelf(s[1..], from);
      assert s == [s[0]] + s[1..];
    }
  }

  // ---------------------------------------------------------------------------
  // Decimal numbers
  // ---------------------------------------------------------------------------

  function DigitValue(c: char): nat requires IsDigit(c) { c as nat - '0' as nat }

  /** The value of a string of decimal digits, most significant first. */
  function DecimalValue(s: string): nat
    requires AllDigits(s)
  {
    if s == [] then 0 else 10 * DecimalValue(s[..|s| - 1]) + DigitValue(s[|s| - 1])
  }

  /** Rust's `parse::<uN>()` for an unsigned type whose values are below
      `bound`: one optional `+`, then one or more decimal digits (leading zeros
      allowed), and a value that fits. */
  function ParseUnsigned(s: string, bound: nat): (r: Option<nat>)
    ensures r.Some? ==> r.value < bound
    ensures r.Some? ==> |s| > 0
    ensures r.Some? && !StartsWith(s, "+") ==> AllDigits(s) && r.value == DecimalValue(s)
  {
    var digits := if |s| > 0 && s[0] == '+' then s[1..] else s;
    if |digits| > 0 && AllDigits(digits) && DecimalValue(digits) < bound then
      Some(DecimalValue(digits))
    else None
  }

  const USIZE_BOUND: nat := 0x1_0000_0000_0000_0000
  const U32_BOUND: nat := 0x1_0000_0000

  function ParseUsize(s: string): Option<nat> { ParseUnsigned(s, USIZE_BOUND) }

  /** `to_string()` of a non-negative integer: shortest decimal form. */
  function NatToString(n: nat): (r: string)
    ensures |r| > 0 && AllDigits(r)
    ensures |r| > 1 ==> r[0] != '0'
  {
    if n < 10 then ['0' + n as char]
    else NatToString(n / 10) + ['0' + (n % 10) as char]
  }

  lemma {:induction false} NatToStringValue(n: nat)
    ensures DecimalValue(NatToString(n)) == n
  {
    if n >= 10 {
      var s := NatToString(n);
      assert s[..|s| - 1] == NatToString(n / 10);
      NatToStringValue(n / 10);
    }
  }

  /** Printing then parsing an integer gives it back. */
  lemma ParseNatToString(n: nat, bound: nat)
    requires n < bound
    ensures ParseUnsigned(NatToString(n), bound) == Some(n)
  {
    NatToStringValue(n);
  }
}
