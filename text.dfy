/** The string operations the loaders and the object names use: Python's
    one-character `str.replace`, `str.split`, and the decimal formatting of
    an `int` in an f-string, each with the definition that undoes it. */
module Text {
  import opened Common

  /** `s.replace(c, d)` for single characters. */
  function ReplaceChar(s: string, c: char, d: char): (r: string)
    ensures |r| == |s|
    ensures forall i :: 0 <= i < |s| ==> r[i] == if s[i] == c then d else s[i]
    ensures c != d ==> c !in r
    decreases |s|
  {
    if s == [] then [] else [if s[0] == c then d else s[0]] + ReplaceChar(s[1..], c, d)
  }

  /** Replacing twice is replacing once. */
  lemma {:induction false} ReplaceCharIdempotent(s: string, c: char, d: char)
    ensures ReplaceChar(ReplaceChar(s, c, d), c, d) == ReplaceChar(s, c, d)
  {
    var once := ReplaceChar(s, c, d);
    var twice := ReplaceChar(once, c, d);
    assert |twice| == |once|;
    forall i | 0 <= i < |once| ensures twice[i] == once[i] {
      if c != d { assert once[i] != c; }
    }
  }

  /** A string without `c` is left as it is. */
  lemma {:induction false} ReplaceCharAbsent(s: string, c: char, d: char)
    requires c !in s
    ensures ReplaceChar(s, c, d) == s
  {
    var r := ReplaceChar(s, c, d);
    forall i | 0 <= i < |s| ensures r[i] == s[i] {
      assert s[i] != c;
    }
  }

  /** `s.replace(c, '')`: every occurrence of `c` deleted. */
  function DeleteChar(s: string, c: char): (r: string)
    ensures c !in r
    decreases |s|
  {
    if s == [] then []
    else (if s[0] == c then [] else [s[0]]) + DeleteChar(s[1..], c)
  }

  /** Deletion removes every `c` and no other character. */
  lemma {:induction false} DeleteCharMultiset(s: string, c: char)
    ensures multiset(DeleteChar(s, c)) == multiset(s)[c := 0]
    ensures |DeleteChar(s, c)| == |s| - multiset(s)[c]
    decreases |s|
  {
    if s != [] {
      assert s == [s[0]] + s[1..];
      DeleteCharMultiset(s[1..], c);
    }
  }

  /** Deletion keeps the order of what remains: it distributes over `+`. */
  lemma {:induction false} DeleteCharAppend(a: string, b: string, c: char)
    ensures DeleteChar(a + b, c) == DeleteChar(a, c) + DeleteChar(b, c)
    decreases |a|
  {
    if a == [] {
      assert a + b == b;
    } else {
      var head := if a[0] == c then [] else [a[0]];
      assert (a + b)[0] == a[0];
      assert (a + b)[1..] == a[1..] + b;
      calc {
        DeleteChar(a + b, c);
        head + DeleteChar(a[1..] + b, c);
        { DeleteCharAppend(a[1..], b, c); }
        head + (DeleteChar(a[1..], c) + DeleteChar(b, c));
        (head + DeleteChar(a[1..], c)) + DeleteChar(b, c);
        DeleteChar(a, c) + DeleteChar(b, c);
      }
    }
  }

  /** A string without `c` is left as it is. */
  lemma {:induction false} DeleteCharAbsent(s: string, c: char)
    requires c !in s
    ensures DeleteChar(s, c) == s
    decreases |s|
  {
    if s != [] {
      assert c !in s[1..];
      DeleteCharAbsent(s[1..], c);
    }
  }

  /** The inverse of `Split`: the parts glued back with `c` between them. */
  function Join(parts: seq<string>, c: char): string
    requires |parts| > 0
    decreases |parts|
  {
    if |parts| == 1 then parts[0] else parts[0] + [c] + Join(parts[1..], c)
  }

  /** `s.split(c)`: the maximal runs between occurrences of `c`, so one
      more part than there are separators (`"".split(",") == [""]`). */
  function Split(s: string, c: char): (parts: seq<string>)
    ensures |parts| > 0
    decreases |s|
  {
    if s == [] then [[]]
    else
      var rest := Split(s[1..], c);
      if s[0] == c then [[]] + rest else [[s[0]] + rest[0]] + rest[1..]
  }

  /** One more part than separators, and no part holds a separator. */
  lemma {:induction false} SplitParts(s: string, c: char)
    ensures |Split(s, c)| == multiset(s)[c] + 1
    ensures forall i :: 0 <= i < |Split(s, c)| ==> c !in Split(s, c)[i]
    decreases |s|
  {
    if s != [] {
      assert s == [s[0]] + s[1..];
      SplitParts(s[1..], c);
    }
  }

  /** Joining the parts gives back the string. */
  lemma {:induction false} JoinSplit(s: string, c: char)
    ensures Join(Split(s, c), c) == s
    decreases |s|
  {
    if s != [] {
      JoinSplit(s[1..], c);
      var rest := Split(s[1..], c);
      if s[0] == c {
        assert Split(s, c)[1..] == rest;
      } else {
        var parts := Split(s, c);
        if |rest| > 1 {
          assert parts[1..] == rest[1..];
          assert Join(parts, c) == ([s[0]] + rest[0]) + [c] + Join(rest[1..], c);
        }
        assert s == [s[0]] + s[1..];
      }
    }
  }

  /** Splitting undoes joining, when no part contains the separator. */
  lemma {:induction false} SplitJoin(parts: seq<string>, c: char)
    requires |parts| > 0
    requires forall i :: 0 <= i < |parts| ==> c !in parts[i]
    ensures Split(Join(parts, c), c) == parts
    decreases |parts|, |parts[0]|
  {
    var p := parts[0];
    var s := Join(parts, c);
    if p == [] {
      if |parts| > 1 {
        SplitJoin(parts[1..], c);
        assert s == [c] + Join(parts[1..], c);
        assert s[1..] == Join(parts[1..], c);
        assert [p] + parts[1..] == parts;
      }
    } else {
      var tail := [p[1..]] + parts[1..];
      assert forall i :: 1 <= i < |tail| ==> tail[i] == parts[i];
      SplitJoin(tail, c);
      assert s == [p[0]] + Join(tail, c) by {
        if |parts| > 1 {
          assert tail[1..] == parts[1..];
          assert s == p + [c] + Join(parts[1..], c);
          assert Join(tail, c) == p[1..] + [c] + Join(parts[1..], c);
          assert p == [p[0]] + p[1..];
        } else {
          assert p == [p[0]] + p[1..];
        }
      }
      assert s[1..] == Join(tail, c);
      assert s[0] == p[0] && p[0] != c;
      assert Split(s, c) == [[p[0]] + p[1..]] + tail[1..];
      assert tail[1..] == parts[1..];
      assert p == [p[0]] + p[1..];
      assert parts == [p] + parts[1..];
    }
  }

  /** The prefix of `s` before the first `c`, or all of `s`. */
  function TakeUntil(s: string, c: char): (r: string)
    ensures |r| <= |s| && r == s[..|r|] && c !in r
    decreases |s|
  {
    if s == [] || s[0] == c then [] else [s[0]] + TakeUntil(s[1..], c)
  }

  lemma {:induction false} TakeUntilPrefix(p: string, c: char, rest: string)
    requires c !in p
    ensures TakeUntil(p + [c] + rest, c) == p
    decreases |p|
  {
    if p != [] {
      assert (p + [c] + rest)[1..] == p[1..] + [c] + rest;
      TakeUntilPrefix(p[1..], c, rest);
    }
  }

  predicate IsDigit(ch: char) {
    '0' <= ch <= '9'
  }

  predicate AllDigits(s: string) {
    forall i :: 0 <= i < |s| ==> IsDigit(s[i])
  }

  function DigitChar(d: nat): (ch: char)
    requires d < 10
    ensures IsDigit(ch)
  {
    ('0' as int + d) as char
  }

  function DigitValue(ch: char): (d: nat)
    requires IsDigit(ch)
    ensures d < 10 && DigitChar(d) == ch
  {
    ch as int - '0' as int
  }

  /** The decimal digits of `n`, most significant first, no leading zero. */
  function NatToString(n: nat): (s: string)
    ensures |s| > 0 && AllDigits(s)
    ensures |s| > 1 ==> s[0] != '0'
  {
    if n < 10 then [DigitChar(n)] else NatToString(n / 10) + [DigitChar(n % 10)]
  }

  /** Python's `str(n)` for an `int`: a minus sign, then the digits. */
  function IntToString(n: int): (s: string)
    ensures |s| > 0
    ensures forall i :: 0 <= i < |s| ==> s[i] == '-' || IsDigit(s[i])
  {
    if n < 0 then "-" + NatToString(-n) else NatToString(n)
  }

  /** The value of a string of decimal digits. */
  function ReadNat(s: string): nat
    requires AllDigits(s)
    decreases |s|
  {
    if s == [] then 0 else ReadNat(s[..|s| - 1]) * 10 + DigitValue(s[|s| - 1])
  }

  /** The value of an optionally negative decimal numeral, if `s` is one. */
  function ReadInt(s: string): Option<int> {
    if |s| > 1 && s[0] == '-' && AllDigits(s[1..]) then Some(0 - ReadNat(s[1..]))
    else if |s| > 0 && AllDigits(s) then Some(ReadNat(s))
    else None
  }

  lemma {:induction false} ReadNatRoundTrip(n: nat)
    ensures ReadNat(NatToString(n)) == n
  {
    if n >= 10 {
      var s := NatToString(n);
      assert s[..|s| - 1] == NatToString(n / 10);
      ReadNatRoundTrip(n / 10);
    }
  }

  /** Reading back what `IntToString` wrote gives the number. */
  lemma IntToStringRoundTrip(n: int)
    ensures ReadInt(IntToString(n)) == Some(n)
  {
    if n < 0 {
      var s := IntToString(n);
      assert s[1..] == NatToString(-n);
      ReadNatRoundTrip(-n);
    } else {
      ReadNatRoundTrip(n);
    }
  }
}
