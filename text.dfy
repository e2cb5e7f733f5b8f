/** The few Python `str` operations the system relies on, with Python's semantics restricted
    to ASCII text: `split(sep)`, `strip()`, `lower()` and `split(sep)[-1]`. */
module Text {

  // ---------------------------------------------------------------- lower()

  /** `c.lower()` for an ASCII character; every other character is returned unchanged. */
  function LowerChar(c: char): (r: char)
    ensures 'A' <= c <= 'Z' ==> r as int == c as int + 32
    ensures !('A' <= c <= 'Z') ==> r == c
  {
    if 'A' <= c <= 'Z' then (c as int + 32) as char else c
  }

  /** `s.lower()`, ASCII only. */
  function Lower(s: string): (r: string)
    ensures |r| == |s|
    ensures forall i :: 0 <= i < |s| ==> r[i] == LowerChar(s[i])
  {
    seq(|s|, i requires 0 <= i < |s| => LowerChar(s[i]))
  }

  /** Two strings that differ only in the case of ASCII letters. */
  predicate EqualIgnoringCase(s: string, t: string) {
    |s| == |t| && forall i :: 0 <= i < |s| ==> LowerChar(s[i]) == LowerChar(t[i])
  }

  /** Lower-casing depends only on the string up to case, and lower-casing twice is lower-casing once. */
  lemma LowerRespectsCase(s: string, t: string)
    requires EqualIgnoringCase(s, t)
    ensures Lower(s) == Lower(t)
  {
  }

  lemma LowerIdempotent(s: string)
    ensures Lower(Lower(s)) == Lower(s)
  {
    forall i | 0 <= i < |s| ensures Lower(Lower(s))[i] == Lower(s)[i] {
      var c := s[i];
      if 'A' <= c <= 'Z' {
        assert !('A' <= LowerChar(c) <= 'Z');
      }
    }
  }

  // ---------------------------------------------------------------- strip()

  /** The characters `str.isspace` accepts among ASCII: space, \t, \n, \v, \f, \r and the four
      information separators \x1c..\x1f. */
  predicate IsSpace(c: char) {
    c == ' ' || c == '\t' || c == '\n' || c == '\U{0B}' || c == '\U{0C}' || c == '\r'
    || ('\U{1C}' <= c <= '\U{1F}')
  }

  /** The index of the first non-whitespace character at or after `i`, or `|s|` if there is none
      (the scan of `s.lstrip()`). */
  function TextStart(s: string, i: nat): (k: nat)
    requires i <= |s|
    ensures i <= k <= |s|
    ensures forall j :: i <= j < k ==> IsSpace(s[j])
    ensures k == |s| || !IsSpace(s[k])
    decreases |s| - i
  {
    if i < |s| && IsSpace(s[i]) then TextStart(s, i + 1) else i
  }

  /** The index just past the last non-whitespace character of `s[lo..hi]`, or `lo` if there is none
      (the scan of `s.rstrip()`). */
  function TextEnd(s: string, lo: nat, hi: nat): (e: nat)
    requires lo <= hi <= |s|
    ensures lo <= e <= hi
    ensures forall j :: e <= j < hi ==> IsSpace(s[j])
    ensures e == lo || !IsSpace(s[e - 1])
    decreases hi
  {
    if lo < hi && IsSpace(s[hi - 1]) then TextEnd(s, lo, hi - 1) else hi
  }

  /** `s.strip()`: `s` is the result with whitespace on either side, and the result neither starts
      nor ends with whitespace. */
  function Strip(s: string): (r: string)
    ensures var k := TextStart(s, 0);
      && k + |r| <= |s| && s[k..k + |r|] == r
      && (forall j :: 0 <= j < k ==> IsSpace(s[j]))
      && (forall j :: k + |r| <= j < |s| ==> IsSpace(s[j]))
    ensures r == [] || (!IsSpace(r[0]) && !IsSpace(r[|r| - 1]))
  {
    var k := TextStart(s, 0);
    s[k..TextEnd(s, k, |s|)]
  }

  /** Text without surrounding whitespace is left unchanged, so stripping twice equals stripping once. */
  lemma StripUnchanged(s: string)
    requires s == [] || (!IsSpace(s[0]) && !IsSpace(s[|s| - 1]))
    ensures Strip(s) == s
  {
  }

  lemma StripIdempotent(s: string)
    ensures Strip(Strip(s)) == Strip(s)
  {
    StripUnchanged(Strip(s));
  }

  // ---------------------------------------------------------------- split(sep)

  /** Number of occurrences of `c` in `s`. */
  function Count(s: string, c: char): nat {
    if s == [] then 0 else (if s[0] == c then 1 else 0) + Count(s[1..], c)
  }

  /** `s.split(sep)` for a one-character separator: one more piece than there are separators,
      and no piece contains the separator. */
  function Split(s: string, sep: char): (r: seq<string>)
    ensures |r| == Count(s, sep) + 1
    ensures forall i :: 0 <= i < |r| ==> sep !in r[i]
    decreases |s|
  {
    if s == [] then [""]
    else
      var rest := Split(s[1..], sep);
      if s[0] == sep then [""] + rest
      else [[s[0]] + rest[0]] + rest[1..]
  }

  /** `sep.join(parts)`. */
  function Join(parts: seq<string>, sep: char): string
    decreases |parts|
  {
    if parts == [] then ""
    else if |parts| == 1 then parts[0]
    else parts[0] + [sep] + Join(parts[1..], sep)
  }

  /** Joining the pieces of a split with the same separator gives back the original text. */
  lemma {:induction false} JoinSplit(s: string, sep: char)
    ensures Join(Split(s, sep), sep) == s
    decreases |s|
  {
    if s != [] {
      var rest := Split(s[1..], sep);
      JoinSplit(s[1..], sep);
      if s[0] == sep {
        assert Split(s, sep) == [""] + rest;
        assert ([""] + rest)[1..] == rest;
      } else {
        var r := Split(s, sep);
        assert r == [[s[0]] + rest[0]] + rest[1..];
        if |rest| == 1 {
          assert Join(r, sep) == [s[0]] + rest[0];
        } else {
          assert r[1..] == rest[1..];
          assert Join(r, sep) == [s[0]] + rest[0] + [sep] + Join(rest[1..], sep);
        }
      }
    }
  }

  /** Splitting a joined list of separator-free pieces gives back the pieces. */
  lemma {:induction false} SplitJoin(parts: seq<string>, sep: char)
    requires |parts| >= 1
    requires forall i :: 0 <= i < |parts| ==> sep !in parts[i]
    ensures Split(Join(parts, sep), sep) == parts
    decreases |parts|
  {
    if |parts| == 1 {
      SplitFree(parts[0], sep);
    } else {
      SplitJoin(parts[1..], sep);
      SplitAfterFree(parts[0], Join(parts[1..], sep), sep);
      assert parts == [parts[0]] + parts[1..];
    }
  }

  /** Text without the separator splits into itself alone. */
  lemma {:induction false} SplitFree(s: string, sep: char)
    requires sep !in s
    ensures Split(s, sep) == [s]
    decreases |s|
  {
    if s != [] {
      SplitFree(s[1..], sep);
      assert [s[0]] + s[1..] == s;
    }
  }

  /** A separator-free prefix followed by the separator becomes the first piece. */
  lemma {:induction false} SplitAfterFree(a: string, b: string, sep: char)
    requires sep !in a
    ensures Split(a + [sep] + b, sep) == [a] + Split(b, sep)
    decreases |a|
  {
    var s := a + [sep] + b;
    if a == [] {
      assert s[1..] == b;
    } else {
      assert s[1..] == a[1..] + [sep] + b;
      SplitAfterFree(a[1..], b, sep);
      assert [a[0]] + a[1..] == a;
    }
  }

  // ---------------------------------------------------------------- split(sep)[-1]

  /** `s.split(sep)[-1]`: the last piece of a split. It never holds the separator, and text
      without the separator is its own last piece. */
  function LastPiece(s: string, sep: char): (r: string)
    ensures sep !in r
    ensures sep !in s ==> r == s
  {
    var pieces := Split(s, sep);
    assert sep !in s ==> pieces == [s] by {
      if sep !in s {
        SplitFree(s, sep);
      }
    }
    pieces[|pieces| - 1]
  }

  /** The last piece is the text after the last separator: a suffix of `s` without the separator,
      and either all of `s` or preceded by a separator. */
  lemma {:induction false} LastPieceIsTail(s: string, sep: char)
    ensures var r := LastPiece(s, sep);
      && |r| <= |s| && s[|s| - |r|..] == r && sep !in r
      && (|r| < |s| ==> s[|s| - |r| - 1] == sep)
    decreases |s|
  {
    var r := LastPiece(s, sep);
    if s != [] {
      var rest := Split(s[1..], sep);
      LastPieceIsTail(s[1..], sep);
      var r' := LastPiece(s[1..], sep);
      if s[0] == sep {
        assert Split(s, sep) == [""] + rest;
        assert r == r';
      } else if |rest| == 1 {
        JoinSplit(s[1..], sep);
        assert rest[0] == s[1..];
        assert r == [s[0]] + s[1..] == s;
      } else {
        assert r == r';
        if |r'| == |s| - 1 {
          assert false;
        }
      }
    }
  }

  /** The facts of LastPieceIsTail determine the last piece: it is the only suffix with them. */
  lemma TailUnique(s: string, sep: char, t: string)
    requires |t| <= |s| && s[|s| - |t|..] == t && sep !in t
    requires |t| < |s| ==> s[|s| - |t| - 1] == sep
    ensures LastPiece(s, sep) == t
  {
    LastPieceIsTail(s, sep);
  }
}
