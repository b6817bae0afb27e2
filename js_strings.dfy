/** The few JavaScript string operations the authentication code relies on:
    `trim`, `split(',')`, `startsWith` and `substring`. Strings are
    sequences of code points; no case folding or normalisation happens. */
module JsStrings {

  const Comma: char := ','

  /** The code points `String.prototype.trim` removes: the ECMAScript
      WhiteSpace (tab, vertical tab, form feed, space, no-break space,
      byte-order mark and the Unicode space separators) and LineTerminator
      (line feed, carriage return, line and paragraph separators) sets. */
  predicate IsWhitespace(c: char) {
    var n := c as int;
    n == 0x09 || n == 0x0A || n == 0x0B || n == 0x0C || n == 0x0D ||
    n == 0x20 || n == 0xA0 || n == 0x1680 || (0x2000 <= n <= 0x200A) ||
    n == 0x2028 || n == 0x2029 || n == 0x202F || n == 0x205F ||
    n == 0x3000 || n == 0xFEFF
  }

  predicate AllWhitespace(s: string) {
    forall i :: 0 <= i < |s| ==> IsWhitespace(s[i])
  }

  /** No whitespace at either end. */
  predicate IsTrimmed(s: string) {
    s == [] || (!IsWhitespace(s[0]) && !IsWhitespace(s[|s| - 1]))
  }

  /** How many whitespace code points `s` starts with. */
  function LeadingBlanks(s: string): (n: nat)
    ensures n <= |s|
    ensures forall i :: 0 <= i < n ==> IsWhitespace(s[i])
    ensures n < |s| ==> !IsWhitespace(s[n])
  {
    if |s| > 0 && IsWhitespace(s[0]) then 1 + LeadingBlanks(s[1..]) else 0
  }

  /** How many whitespace code points `s` ends with. */
  function TrailingBlanks(s: string): (n: nat)
    ensures n <= |s|
    ensures forall i :: |s| - n <= i < |s| ==> IsWhitespace(s[i])
    ensures n < |s| ==> !IsWhitespace(s[|s| - 1 - n])
  {
    if |s| > 0 && IsWhitespace(s[|s| - 1]) then 1 + TrailingBlanks(s[..|s| - 1]) else 0
  }

  /** `s.trim()`: what is left once whitespace is dropped at both ends
      (`trimStart`, then `trimEnd`). Nothing it returns starts or ends with
      whitespace, and a string that does not is returned unchanged. */
  function Trim(s: string): (r: string)
    ensures IsTrimmed(r)
    ensures IsTrimmed(s) ==> r == s
  {
    TrimOfTrimmed(s);
    var rest := s[LeadingBlanks(s)..];
    rest[..|rest| - TrailingBlanks(rest)]
  }

  lemma TrimOfTrimmed(s: string)
    ensures IsTrimmed(s) ==> s[LeadingBlanks(s)..][..|s| - TrailingBlanks(s)] == s
  {
    if s != [] && IsTrimmed(s) {
      assert LeadingBlanks(s) == 0;
      assert TrailingBlanks(s) == 0;
      assert s[0..] == s;
    }
  }

  /** Where the trimmed string sits inside `s`. */
  lemma TrimIsSlice(s: string)
    ensures LeadingBlanks(s) + |Trim(s)| <= |s|
    ensures Trim(s) == s[LeadingBlanks(s)..LeadingBlanks(s) + |Trim(s)|]
  {
    var a := LeadingBlanks(s);
    var rest := s[a..];
    assert Trim(s) == rest[..|rest| - TrailingBlanks(rest)];
  }

  /** Trimming removes whitespace only, and only at the two ends: the result
      is a stretch of `s` with nothing but whitespace before and after it. */
  lemma TrimDropsOnlyBlanks(s: string)
    ensures exists a :: (0 <= a <= |s| - |Trim(s)| && Trim(s) == s[a..a + |Trim(s)|] &&
      AllWhitespace(s[..a]) && AllWhitespace(s[a + |Trim(s)|..]))
  {
    TrimIsSlice(s);
    var a := LeadingBlanks(s);
    var rest := s[a..];
    var t := TrailingBlanks(rest);
    var r := Trim(s);
    assert |r| == |rest| - t;
    assert AllWhitespace(s[..a]);
    var tail := s[a + |r|..];
    forall i | 0 <= i < |tail| ensures IsWhitespace(tail[i]) {
      assert tail[i] == rest[|rest| - t + i];
    }
  }

  /** Trimming only removes characters. */
  lemma TrimKeepsChars(s: string)
    ensures forall c :: c in Trim(s) ==> c in s
  {
    TrimIsSlice(s);
    var a := LeadingBlanks(s);
    var r := Trim(s);
    forall c | c in r ensures c in s {
      var i :| 0 <= i < |r| && r[i] == c;
      assert s[a + i] == c;
    }
  }

  /** Trimming leaves nothing exactly when there is nothing but whitespace. */
  lemma TrimEmptyIff(s: string)
    ensures Trim(s) == [] <==> AllWhitespace(s)
  {
    var a := LeadingBlanks(s);
    var rest := s[a..];
    var t := TrailingBlanks(rest);
    if Trim(s) == [] {
      assert |rest| - t == 0;
      assert a == |s|;
    }
    if AllWhitespace(s) {
      assert a == |s|;
    }
  }

  /** `s.startsWith(prefix)`. */
  predicate StartsWith(s: string, prefix: string) {
    |prefix| <= |s| && s[..|prefix|] == prefix
  }

  /** `s.split(',')`: the pieces between commas, empty pieces included, so
      that a string with n commas gives n + 1 pieces. */
  function Split(s: string): (parts: seq<string>)
    ensures |parts| >= 1
    ensures forall i :: 0 <= i < |parts| ==> Comma !in parts[i]
  {
    if |s| == 0 then [""]
    else
      var rest := Split(s[1..]);
      if s[0] == Comma then [""] + rest
      else [[s[0]] + rest[0]] + rest[1..]
  }

  /** `parts.join(',')`, the inverse of `Split`. */
  function Join(parts: seq<string>): string
    requires |parts| >= 1
  {
    if |parts| == 1 then parts[0] else parts[0] + [Comma] + Join(parts[1..])
  }

  /** Splitting at a comma splits the two sides independently. */
  lemma {:induction false} SplitAround(a: string, b: string)
    ensures Split(a + [Comma] + b) == Split(a) + Split(b)
  {
    if a == [] {
      assert a + [Comma] + b == [Comma] + b;
      assert ([Comma] + b)[1..] == b;
    } else {
      assert (a + [Comma] + b)[1..] == a[1..] + [Comma] + b;
      assert (a + [Comma] + b)[0] == a[0];
      SplitAround(a[1..], b);
    }
  }

  /** `Join` undoes `Split`: splitting loses nothing. */
  lemma {:induction false} JoinSplit(s: string)
    ensures Join(Split(s)) == s
  {
    if |s| > 0 {
      var rest := Split(s[1..]);
      JoinSplit(s[1..]);
      if s[0] == Comma {
        assert Split(s) == [""] + rest;
        assert Join(Split(s)) == [Comma] + Join(rest);
        assert s == [s[0]] + s[1..];
      } else {
        var parts := Split(s);
        assert parts == [[s[0]] + rest[0]] + rest[1..];
        if |rest| == 1 {
          assert Join(parts) == [s[0]] + rest[0];
        } else {
          assert parts[1..] == rest[1..];
          assert Join(parts) == [s[0]] + rest[0] + [Comma] + Join(rest[1..]);
        }
        assert s == [s[0]] + s[1..];
      }
    }
  }

  /** `Split` undoes `Join` when no piece holds a comma. */
  lemma {:induction false} SplitJoin(parts: seq<string>)
    requires |parts| >= 1
    requires forall i :: 0 <= i < |parts| ==> Comma !in parts[i]
    ensures Split(Join(parts)) == parts
  {
    NoCommaSplit(parts[0]);
    if |parts| > 1 {
      SplitJoin(parts[1..]);
      SplitAround(parts[0], Join(parts[1..]));
    }
  }

  /** A string without a comma is a single piece. */
  lemma {:induction false} NoCommaSplit(s: string)
    requires Comma !in s
    ensures Split(s) == [s]
  {
    if |s| > 0 {
      assert s[0] in s;
      assert forall c :: c in s[1..] ==> c in s;
      NoCommaSplit(s[1..]);
      assert s == [s[0]] + s[1..];
    }
  }
}
