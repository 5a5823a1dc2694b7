/** The Python string built-ins the two ingestion scripts rely on, `sep.join(parts)`,
    `sub in s` and `str(n)` for an int, and their reading side, `s.split(sep)` and
    `int(s)`, which the scripts do not call but which state the round trips. */
module Text {

  datatype Option<T> = None | Some(value: T)

  /** `sep.join(parts)`: the parts with one `sep` between neighbours, none at either end. */
  function Join(sep: string, parts: seq<string>): string
  {
    if |parts| == 0 then ""
    else if |parts| == 1 then parts[0]
    else parts[0] + sep + Join(sep, parts[1..])
  }

  /** `s.split(sep)` for a one-character separator: the pieces between separators.
      Like Python, the empty string splits into one empty piece. */
  function Split(s: string, sep: char): (r: seq<string>)
    ensures |r| >= 1
  {
    if |s| == 0 then [""]
    else
      var rest := Split(s[1..], sep);
      if s[0] == sep then [""] + rest
      else [[s[0]] + rest[0]] + rest[1..]
  }

  /** The number of times `c` occurs in `s`. */
  function Occurrences(s: string, c: char): nat
  {
    if |s| == 0 then 0
    else (if s[0] == c then 1 else 0) + Occurrences(s[1..], c)
  }

  /** `sub` occurs in `s` starting at position `i`. */
  predicate OccursAt(sub: string, s: string, i: int)
  {
    0 <= i <= |s| - |sub| && s[i..i + |sub|] == sub
  }

  /** Python's `sub in s` on two strings. */
  function IsSubstring(sub: string, s: string): (r: bool)
    ensures r <==> exists i :: OccursAt(sub, s, i)
  {
    if |sub| > |s| then false
    else if s[..|sub|] == sub then assert OccursAt(sub, s, 0); true
    else
      var r := IsSubstring(sub, s[1..]);
      assert r ==> exists i :: OccursAt(sub, s, i) by {
        if r {
          var j :| OccursAt(sub, s[1..], j);
          assert s[j + 1..j + 1 + |sub|] == s[1..][j..j + |sub|];
          assert OccursAt(sub, s, j + 1);
        }
      }
      assert (exists i :: OccursAt(sub, s, i)) ==> r by {
        if exists i :: OccursAt(sub, s, i) {
          var i :| OccursAt(sub, s, i);
          assert i != 0;
          assert s[1..][i - 1..i - 1 + |sub|] == s[i..i + |sub|];
          assert OccursAt(sub, s[1..], i - 1);
        }
      }
      r
  }

  // ---------------------------------------------------------------------------
  // Splitting a joined text recovers its parts

  lemma {:induction false} SplitWithoutSeparator(s: string, sep: char)
    requires sep !in s
    ensures Split(s, sep) == [s]
  {
    if |s| > 0 {
      SplitWithoutSeparator(s[1..], sep);
      assert [s[0]] + s[1..] == s;
    }
  }

  lemma {:induction false} SplitAfterPiece(p: string, sep: char, rest: string)
    requires sep !in p
    ensures Split(p + [sep] + rest, sep) == [p] + Split(rest, sep)
  {
    var s := p + [sep] + rest;
    if |p| == 0 {
      assert s == [sep] + rest;
      assert s[1..] == rest;
    } else {
      assert s[1..] == p[1..] + [sep] + rest;
      SplitAfterPiece(p[1..], sep, rest);
      assert [p[0]] + p[1..] == p;
    }
  }

  /** Splitting `sep.join(parts)` on `sep` gives back `parts`, provided there is at least
      one part and no part contains the separator. */
  lemma {:induction false} SplitJoin(parts: seq<string>, sep: char)
    requires |parts| >= 1
    requires forall i :: 0 <= i < |parts| ==> sep !in parts[i]
    ensures Split(Join([sep], parts), sep) == parts
  {
    if |parts| == 1 {
      SplitWithoutSeparator(parts[0], sep);
    } else {
      SplitJoin(parts[1..], sep);
      SplitAfterPiece(parts[0], sep, Join([sep], parts[1..]));
      assert [parts[0]] + parts[1..] == parts;
    }
  }

  /** Every separator in `s` ends one piece of `s.split(sep)`. */
  lemma {:induction false} SplitCountsSeparators(s: string, sep: char)
    ensures |Split(s, sep)| == Occurrences(s, sep) + 1
  {
    if |s| > 0 {
      SplitCountsSeparators(s[1..], sep);
    }
  }

  /** `sep.join(parts)` holds exactly `|parts| - 1` separators when no part holds one. */
  lemma SeparatorCount(parts: seq<string>, sep: char)
    requires |parts| >= 1
    requires forall i :: 0 <= i < |parts| ==> sep !in parts[i]
    ensures Occurrences(Join([sep], parts), sep) == |parts| - 1
  {
    SplitJoin(parts, sep);
    SplitCountsSeparators(Join([sep], parts), sep);
  }

  /** `sep.join(parts)` ends with the last part: there is no trailing separator. */
  lemma {:induction false} JoinEndsWithLastPart(sep: string, parts: seq<string>)
    requires |parts| >= 1
    ensures var s := Join(sep, parts); var last := parts[|parts| - 1];
      |last| <= |s| && s[|s| - |last|..] == last
  {
    if |parts| > 1 {
      JoinEndsWithLastPart(sep, parts[1..]);
      var tail := Join(sep, parts[1..]);
      assert (parts[0] + sep + tail)[|parts[0] + sep|..] == tail;
    }
  }

  /** A character absent from the separator and from every part is absent from the joined text. */
  lemma {:induction false} JoinAvoids(sep: string, parts: seq<string>, c: char)
    requires c !in sep
    requires forall i :: 0 <= i < |parts| ==> c !in parts[i]
    ensures c !in Join(sep, parts)
  {
    if |parts| > 1 {
      JoinAvoids(sep, parts[1..], c);
    }
  }

  // ---------------------------------------------------------------------------
  // Decimal text of integers, as an f-string renders them

  predicate IsDigit(c: char)
  {
    '0' <= c <= '9'
  }

  function DigitChar(d: nat): (c: char)
    requires d < 10
    ensures IsDigit(c) && (c as int) - ('0' as int) == d
  {
    (('0' as int) + d) as char
  }

  /** The decimal digits of `n`, most significant first, without leading zeros. */
  function NatText(n: nat): (r: string)
    ensures |r| >= 1 && forall i :: 0 <= i < |r| ==> IsDigit(r[i])
  {
    if n < 10 then [DigitChar(n)] else NatText(n / 10) + [DigitChar(n % 10)]
  }

  /** `str(n)` for a Python int. */
  function IntText(n: int): string
  {
    if n < 0 then "-" + NatText(-n) else NatText(n)
  }

  function DigitValue(c: char): (d: nat)
    requires IsDigit(c)
    ensures d < 10
  {
    (c as int) - ('0' as int)
  }

  /** The value of a run of decimal digits. */
  function DigitsValue(s: string): nat
    requires forall i :: 0 <= i < |s| ==> IsDigit(s[i])
  {
    if |s| == 0 then 0
    else DigitsValue(s[..|s| - 1]) * 10 + DigitValue(s[|s| - 1])
  }

  predicate AllDigits(s: string)
  {
    |s| >= 1 && forall i :: 0 <= i < |s| ==> IsDigit(s[i])
  }

  /** `int(s)` restricted to an optional minus sign followed by decimal digits. */
  function ParseInt(s: string): Option<int>
  {
    if AllDigits(s) then Some(DigitsValue(s) as int)
    else if |s| >= 2 && s[0] == '-' && AllDigits(s[1..]) then Some(0 - DigitsValue(s[1..]))
    else None
  }

  lemma {:induction false} NatTextValue(n: nat)
    ensures DigitsValue(NatText(n)) == n
  {
    if n >= 10 {
      NatTextValue(n / 10);
      var s := NatText(n);
      assert s[..|s| - 1] == NatText(n / 10);
    }
  }

  /** The text `str(n)` reads back as `n`: a status code written into a message is recoverable. */
  lemma IntTextRoundTrip(n: int)
    ensures ParseInt(IntText(n)) == Some(n)
  {
    var s := IntText(n);
    if n < 0 {
      NatTextValue(-n);
      assert s[1..] == NatText(-n);
      assert !IsDigit(s[0]);
      assert !AllDigits(s);
      assert AllDigits(s[1..]);
    } else {
      NatTextValue(n);
      assert AllDigits(s);
    }
  }
}
