/** Character classes and string operations shared by the rest of the model:
    the classes behind the regular-expression escapes `\d` and `\s`, `str.strip`,
    the `in` substring test, `str.split`, `str.join`, `str.lower` and `str(int)`. */
module Text {

  /** `\d`: the ASCII digits and the full-width digits U+FF10..U+FF19. */
  predicate IsDigit(c: char) {
    ('0' <= c <= '9') || ('\U{FF10}' <= c <= '\U{FF19}')
  }

  /** `\s` and `str.isspace()`: the characters Python treats as whitespace. */
  predicate IsSpace(c: char) {
    || c == ' ' || ('\t' <= c <= '\r')            // \t \n \v \f \r
    || ('\U{1C}' <= c <= '\U{1F}')                // file, group, record, unit separators
    || c == '\U{85}' || c == '\U{A0}' || c == '\U{1680}'
    || ('\U{2000}' <= c <= '\U{200A}')
    || c == '\U{2028}' || c == '\U{2029}' || c == '\U{202F}' || c == '\U{205F}'
    || c == '\U{3000}'
  }

  /** `not s.strip()`: the string is empty or made of whitespace only. */
  predicate IsBlank(s: string) {
    forall i :: 0 <= i < |s| ==> IsSpace(s[i])
  }

  /** `t in s`: `t` occurs in `s` as a contiguous substring. */
  predicate Contains(s: string, t: string) {
    exists i | 0 <= i <= |s| - |t| :: OccursAt(s, t, i)
  }

  predicate OccursAt(s: string, t: string, i: int) {
    0 <= i && i + |t| <= |s| && s[i..i + |t|] == t
  }

  lemma ContainsAppend(a: string, b: string, t: string)
    requires Contains(a, t) || Contains(b, t)
    ensures Contains(a + b, t)
  {
    if Contains(a, t) {
      var i :| 0 <= i <= |a| - |t| && OccursAt(a, t, i);
      assert (a + b)[i..i + |t|] == a[i..i + |t|];
      assert OccursAt(a + b, t, i);
    } else {
      var i :| 0 <= i <= |b| - |t| && OccursAt(b, t, i);
      assert (a + b)[|a| + i..|a| + i + |t|] == b[i..i + |t|];
      assert OccursAt(a + b, t, |a| + i);
    }
  }

  lemma ContainsSelf(s: string)
    ensures Contains(s, s)
  {
    assert OccursAt(s, s, 0);
  }

  /** A string occurs in any text that has it between two others. */
  lemma ContainsMiddle(a: string, t: string, b: string)
    ensures Contains(a + t + b, t)
  {
    ContainsSelf(t);
    ContainsAppend(a, t, t);
    ContainsAppend(a + t, b, t);
  }

  /** What occurs in `s` occurs in `prefix + s`. */
  lemma ContainsAllAfter(prefix: string, s: string, parts: seq<string>)
    requires forall j | 0 <= j < |parts| :: Contains(s, parts[j])
    ensures forall j | 0 <= j < |parts| :: Contains(prefix + s, parts[j])
  {
    forall j | 0 <= j < |parts|
      ensures Contains(prefix + s, parts[j])
    {
      ContainsAppend(prefix, s, parts[j]);
    }
  }

  /** `s.split(c)` for a one-character separator: never empty, and the pieces
      hold no separator. */
  function Split(s: string, c: char): (r: seq<string>)
    ensures |r| >= 1
    ensures forall k :: 0 <= k < |r| ==> c !in r[k]
    ensures (c in s) == (|r| > 1)
    ensures |r| == 1 ==> r[0] == s
  {
    if |s| == 0 then [""]
    else
      var rest := Split(s[1..], c);
      if s[0] == c then [""] + rest else [[s[0]] + rest[0]] + rest[1..]
  }

  function Last(parts: seq<string>): string
    requires |parts| >= 1
  {
    parts[|parts| - 1]
  }

  /** The last piece of a split, one character at a time. */
  lemma LastSplitCons(s: string, c: char)
    requires |s| > 0
    ensures Last(Split(s, c)) == if s[0] != c && c !in s[1..] then s else Last(Split(s[1..], c))
  {
    var t := s[1..];
    var rest := Split(t, c);
    var parts := Split(s, c);
    if s[0] == c {
      assert parts == [""] + rest;
      assert Last(parts) == Last(rest);
    } else {
      assert parts == [[s[0]] + rest[0]] + rest[1..];
      if c !in t {
        assert |rest| == 1 && rest[0] == t;
        assert Last(parts) == [s[0]] + t;
        assert [s[0]] + t == s;
      } else {
        assert |rest| > 1;
        assert Last(parts) == Last(rest);
      }
    }
  }

  /** `s.split(c)[-1]` is the text after the last `c`, or all of `s` when
      `c` does not occur in it. */
  lemma {:induction false} LastSplit(s: string, c: char)
    ensures var r := Last(Split(s, c));
      && |r| <= |s| && s[|s| - |r|..] == r && c !in r
      && (|r| < |s| ==> s[|s| - |r| - 1] == c)
  {
    if |s| > 0 {
      var t := s[1..];
      LastSplitCons(s, c);
      if s[0] == c || c in t {
        LastSplit(t, c);
        var r := Last(Split(t, c));
        assert s[|s| - |r|..] == t[|t| - |r|..];
        if |r| < |t| {
          assert s[|s| - |r| - 1] == t[|t| - |r| - 1];
        } else {
          assert t[|t| - |r|..] == t;
        }
      } else {
        assert Last(Split(s, c)) == s;
        assert c !in s;
      }
    }
  }

  lemma LastSplitNoSeparator(s: string, c: char)
    requires c !in s
    ensures Last(Split(s, c)) == s
  {
    LastSplit(s, c);
  }

  /** The last piece is whatever follows the last separator. */
  lemma {:induction false} LastSplitAfter(prefix: string, tail: string, c: char)
    requires c !in tail
    ensures Last(Split(prefix + [c] + tail, c)) == tail
  {
    var s := prefix + [c] + tail;
    if |prefix| == 0 {
      assert s[1..] == tail;
      SplitNoSeparator(tail, c);
    } else {
      assert s[1..] == prefix[1..] + [c] + tail;
      LastSplitAfter(prefix[1..], tail, c);
      assert c in s[1..] by { assert s[1..][|prefix| - 1] == c; }
    }
  }

  /** `sep.join(parts)`. */
  function Join(sep: string, parts: seq<string>): string {
    if |parts| == 0 then ""
    else if |parts| == 1 then parts[0]
    else parts[0] + sep + Join(sep, parts[1..])
  }

  /** Every part occurs in the join. */
  lemma {:induction false} JoinContains(sep: string, parts: seq<string>)
    ensures forall j | 0 <= j < |parts| :: Contains(Join(sep, parts), parts[j])
  {
    if |parts| == 1 {
      ContainsSelf(parts[0]);
    } else if |parts| > 1 {
      var rest := Join(sep, parts[1..]);
      JoinContains(sep, parts[1..]);
      assert Join(sep, parts) == parts[0] + sep + rest;
      forall j | 0 <= j < |parts|
        ensures Contains(Join(sep, parts), parts[j])
      {
        if j == 0 {
          ContainsSelf(parts[0]);
          ContainsAppend(parts[0], sep + rest, parts[0]);
          assert parts[0] + (sep + rest) == Join(sep, parts);
        } else {
          assert parts[1..][j - 1] == parts[j];
          ContainsAppend(parts[0] + sep, rest, parts[j]);
        }
      }
    }
  }

  /** Splitting the join on a one-character separator gives back the parts
      when no part contains the separator. */
  lemma {:induction false} SplitJoin(parts: seq<string>, c: char)
    requires |parts| >= 1
    requires forall k :: 0 <= k < |parts| ==> c !in parts[k]
    ensures Split(Join([c], parts), c) == parts
  {
    if |parts| == 1 {
      SplitNoSeparator(parts[0], c);
    } else {
      SplitJoin(parts[1..], c);
      SplitAppend(parts[0], Join([c], parts[1..]), c);
    }
  }

  lemma SplitNoSeparator(s: string, c: char)
    requires c !in s
    ensures Split(s, c) == [s]
  {
  }

  /** Splitting `a + [c] + b` with `c` not in `a` puts `a` first. */
  lemma {:induction false} SplitAppend(a: string, b: string, c: char)
    requires c !in a
    ensures Split(a + [c] + b, c) == [a] + Split(b, c)
  {
    if |a| == 0 {
      assert a + [c] + b == [c] + b;
      assert ([c] + b)[1..] == b;
    } else {
      assert (a + [c] + b)[1..] == a[1..] + [c] + b;
      SplitAppend(a[1..], b, c);
      assert [a[0]] + a[1..] == a;
    }
  }

  /** The ASCII part of `str.lower()`. */
  function LowerChar(c: char): char {
    if 'A' <= c <= 'Z' then (c as int + 32) as char else c
  }

  function Lower(s: string): (r: string)
    ensures |r| == |s|
    ensures forall i :: 0 <= i < |s| ==> r[i] == LowerChar(s[i])
  {
    if |s| == 0 then "" else [LowerChar(s[0])] + Lower(s[1..])
  }

  function DigitChar(d: nat): char
    requires d < 10
  {
    "0123456789"[d]
  }

  /** `str(n)` for a natural number: decimal digits, no leading zero. */
  function NatToString(n: nat): (r: string)
    ensures |r| >= 1
    ensures forall i :: 0 <= i < |r| ==> '0' <= r[i] <= '9'
    decreases n
  {
    if n < 10 then [DigitChar(n)] else NatToString(n / 10) + [DigitChar(n % 10)]
  }

  /** `str(n)` for any integer. */
  function IntToString(n: int): string {
    if n < 0 then "-" + NatToString(-n) else NatToString(n)
  }
}
