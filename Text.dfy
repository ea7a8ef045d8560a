/**
  The string operations JavaScript performs for the template builder:
  `Array.prototype.join('\n')` over lines, and the rendering of an integer
  inside a template literal. Each comes with a partner that reads the text
  back (Split for Join, ReadInt for ShowInt) and a round-trip lemma.
*/
module Text {
  import opened Wrappers

  /** `lines.join('\n')`: the lines separated by one line feed each, none after the last. */
  function Join(lines: seq<string>): string {
    if |lines| == 0 then ""
    else if |lines| == 1 then lines[0]
    else lines[0] + "\n" + Join(lines[1..])
  }

  /** Splits a text at every line feed: the line view of a text. */
  function Split(s: string): (lines: seq<string>)
    ensures |lines| > 0
  {
    if |s| == 0 then [""]
    else
      var rest := Split(s[1..]);
      assert s == [s[0]] + s[1..];
      if s[0] == '\n' then [""] + rest
      else [[s[0]] + rest[0]] + rest[1..]
  }

  /** Splitting at a line feed splits the two sides independently. */
  lemma {:induction false} SplitAppend(a: string, b: string)
    ensures Split(a + "\n" + b) == Split(a) + Split(b)
  {
    if |a| == 0 {
      assert a + "\n" + b == "\n" + b;
      assert ("\n" + b)[1..] == b;
    } else {
      var t := a + "\n" + b;
      assert t[0] == a[0];
      assert t[1..] == a[1..] + "\n" + b;
      SplitAppend(a[1..], b);
    }
  }

  /** A text without a line feed is one line. */
  lemma {:induction false} SplitSingle(a: string)
    requires '\n' !in a
    ensures Split(a) == [a]
  {
    if |a| > 0 {
      SplitSingle(a[1..]);
      assert [a[0]] + a[1..] == a;
    }
  }

  /** A line without a line feed, then a line feed, starts the line view. */
  lemma SplitLine(line: string, rest: string)
    requires '\n' !in line
    ensures Split(line + "\n" + rest) == [line] + Split(rest)
  {
    SplitAppend(line, rest);
    SplitSingle(line);
  }

  /** Joined lines without line feeds, then a line feed, start the line view. */
  lemma SplitLines(lines: seq<string>, rest: string)
    requires |lines| > 0
    requires forall k :: 0 <= k < |lines| ==> '\n' !in lines[k]
    ensures Split(Join(lines) + "\n" + rest) == lines + Split(rest)
  {
    SplitAppend(Join(lines), rest);
    SplitJoin(lines);
  }

  /** Join appends one line feed between two non-empty groups of lines. */
  lemma {:induction false} JoinAppend(xs: seq<string>, ys: seq<string>)
    requires |xs| > 0 && |ys| > 0
    ensures Join(xs + ys) == Join(xs) + "\n" + Join(ys)
  {
    if |xs| == 1 {
      assert (xs + ys)[1..] == ys;
    } else {
      assert (xs + ys)[1..] == xs[1..] + ys;
      JoinAppend(xs[1..], ys);
    }
  }

  /** Splitting joined lines gives the lines back when none holds a line feed. */
  lemma {:induction false} SplitJoin(lines: seq<string>)
    requires |lines| > 0
    requires forall k :: 0 <= k < |lines| ==> '\n' !in lines[k]
    ensures Split(Join(lines)) == lines
  {
    if |lines| == 1 {
      SplitSingle(lines[0]);
    } else {
      var rest := lines[1..];
      assert Join(lines) == lines[0] + "\n" + Join(rest);
      SplitAppend(lines[0], Join(rest));
      SplitSingle(lines[0]);
      SplitJoin(rest);
      assert lines == [lines[0]] + rest;
    }
  }

  /** Joining the lines of a text gives the text back. */
  lemma {:induction false} JoinSplit(s: string)
    ensures Join(Split(s)) == s
  {
    if |s| > 0 {
      var rest := Split(s[1..]);
      JoinSplit(s[1..]);
      if s[0] == '\n' {
        assert Split(s) == [""] + rest;
        assert ([""] + rest)[1..] == rest;
      } else {
        var lines := Split(s);
        assert lines == [[s[0]] + rest[0]] + rest[1..];
        if |rest| > 1 {
          assert lines[1..] == rest[1..];
        }
      }
    }
  }

  predicate IsDigit(c: char) {
    '0' <= c <= '9'
  }

  function DigitChar(d: nat): (c: char)
    requires d < 10
    ensures IsDigit(c)
  {
    (('0' as int) + d) as char
  }

  function DigitValue(c: char): nat
    requires IsDigit(c)
  {
    (c as int) - ('0' as int)
  }

  /** Decimal digits of a natural number, most significant first, no leading zero. */
  function ShowNat(n: nat): (s: string)
    ensures |s| > 0
    ensures forall k :: 0 <= k < |s| ==> IsDigit(s[k])
    ensures n >= 10 ==> s[0] != '0'
  {
    if n < 10 then [DigitChar(n)]
    else ShowNat(n / 10) + [DigitChar(n % 10)]
  }

  /** `${i}` in a template literal, for an integer i. */
  function ShowInt(i: int): (s: string)
    ensures '\n' !in s && ':' !in s
  {
    if i < 0 then "-" + ShowNat(-i) else ShowNat(i)
  }

  /** Value of a non-empty string of decimal digits. */
  function DigitsValue(s: string): nat
    requires forall k :: 0 <= k < |s| ==> IsDigit(s[k])
  {
    if |s| == 0 then 0
    else DigitsValue(s[..|s| - 1]) * 10 + DigitValue(s[|s| - 1])
  }

  /** Reads an optional minus sign followed by at least one decimal digit. */
  function ReadInt(s: string): (r: Option<int>)
    ensures r.Some? ==> |s| > 0
  {
    var negative := |s| > 0 && s[0] == '-';
    var digits := if negative then s[1..] else s;
    if |digits| == 0 || exists k :: 0 <= k < |digits| && !IsDigit(digits[k]) then None
    else
      var magnitude: int := DigitsValue(digits);
      Some(if negative then -magnitude else magnitude)
  }

  lemma {:induction false} DigitsValueShowNat(n: nat)
    ensures DigitsValue(ShowNat(n)) == n
  {
    if n >= 10 {
      var s := ShowNat(n);
      assert s[..|s| - 1] == ShowNat(n / 10);
      DigitsValueShowNat(n / 10);
    }
  }

  /** Reading back a rendered integer gives the integer. */
  lemma ReadShowInt(i: int)
    ensures ReadInt(ShowInt(i)) == Some(i)
  {
    if i < 0 {
      DigitsValueShowNat(-i);
      assert ("-" + ShowNat(-i))[1..] == ShowNat(-i);
    } else {
      DigitsValueShowNat(i);
    }
  }

  /** The middle of s once prefix and suffix are taken off, if s has both. */
  function StripAffixes(prefix: string, suffix: string, s: string): (r: Option<string>)
    ensures r.Some? ==> s == prefix + r.value + suffix
  {
    if |prefix| + |suffix| <= |s| && s[..|prefix|] == prefix && s[|s| - |suffix|..] == suffix
    then
      var middle := s[|prefix|..|s| - |suffix|];
      assert s == s[..|prefix|] + middle + s[|s| - |suffix|..];
      Some(middle)
    else None
  }

  lemma StripAffixesOf(prefix: string, middle: string, suffix: string)
    ensures StripAffixes(prefix, suffix, prefix + middle + suffix) == Some(middle)
  {
  }

  /** The text before and after the first occurrence of c. */
  function SplitAtFirst(s: string, c: char): (r: Option<(string, string)>)
    ensures r.Some? ==> c !in r.value.0 && s == r.value.0 + [c] + r.value.1
    ensures r.None? <==> c !in s
  {
    if |s| == 0 then None
    else if s[0] == c then Some(([], s[1..]))
    else match SplitAtFirst(s[1..], c)
      case None => None
      case Some((before, after)) => Some(([s[0]] + before, after))
  }

  /** A text cut at a separator that its first part lacks is cut there. */
  lemma SplitAtFirstOf(before: string, c: char, after: string)
    requires c !in before
    ensures SplitAtFirst(before + [c] + after, c) == Some((before, after))
  {
    var s := before + [c] + after;
    assert s[|before|] == c;
    var r := SplitAtFirst(s, c);
    var found := r.value.0;
    assert forall k :: 0 <= k < |before| ==> s[k] == before[k];
    assert forall k :: 0 <= k < |found| ==> s[k] == found[k];
    assert s[|found|] == c;
    assert found == s[..|before|] == before;
    assert r.value.1 == s[|before| + 1..] == after;
  }
}
