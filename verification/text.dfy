/** String helpers with JavaScript semantics: `includes`, `toUpperCase`, `join` and number formatting. */
module Text {

  /** `pat` occurs in `s` at position `i`. */
  predicate OccursAt(s: string, pat: string, i: nat) {
    i + |pat| <= |s| && s[i..i + |pat|] == pat
  }

  /** `s` ends with `suffix`. */
  predicate EndsWith(s: string, suffix: string) {
    |suffix| <= |s| && s[|s| - |suffix|..] == suffix
  }


  /** An occurrence is kept when text is appended. */
  lemma OccursBefore(s: string, b: string, pat: string, i: nat)
    requires OccursAt(s, pat, i)
    ensures OccursAt(s + b, pat, i)
  {
    assert (s + b)[i..i + |pat|] == s[i..i + |pat|];
  }

  /** An occurrence shifts by the length of text prepended. */
  lemma OccursAfter(a: string, s: string, pat: string, i: nat)
    requires OccursAt(s, pat, i)
    ensures OccursAt(a + s, pat, |a| + i)
  {
    assert (a + s)[|a| + i..|a| + i + |pat|] == s[i..i + |pat|];
  }

  /** An occurrence in the middle piece shifts by the length of the head, whatever follows. */
  lemma OccursInside(head: string, mid: string, tail: string, pat: string, i: nat)
    requires OccursAt(mid, pat, i)
    ensures OccursAt(head + mid + tail, pat, |head| + i)
  {
    OccursAfter(head, mid, pat, i);
    OccursBefore(head + mid, tail, pat, |head| + i);
  }

  /** `s.includes(pat)`: a left-to-right scan for `pat`; the empty pattern is always found. */
  predicate Includes(s: string, pat: string)
    decreases |s|
  {
    if |s| < |pat| then false
    else s[..|pat|] == pat || Includes(s[1..], pat)
  }

  /** The scan finds `pat` exactly when `pat` occurs at some position of `s`. */
  lemma {:induction false} IncludesIffOccurs(s: string, pat: string)
    ensures Includes(s, pat) <==> exists i: nat :: OccursAt(s, pat, i)
    decreases |s|
  {
    if |s| < |pat| {
    } else if s[..|pat|] == pat {
      assert OccursAt(s, pat, 0);
    } else {
      IncludesIffOccurs(s[1..], pat);
      if exists i: nat :: OccursAt(s[1..], pat, i) {
        var i: nat :| OccursAt(s[1..], pat, i);
        assert s[i + 1..i + 1 + |pat|] == s[1..][i..i + |pat|];
        assert OccursAt(s, pat, i + 1);
      }
      if exists i: nat :: OccursAt(s, pat, i) {
        var i: nat :| OccursAt(s, pat, i);
        assert i != 0;
        assert s[1..][i - 1..i - 1 + |pat|] == s[i..i + |pat|];
        assert OccursAt(s[1..], pat, i - 1);
      }
    }
  }

  /**
   * A prefix that never contains the pattern's first character cannot start
   * an occurrence, so it does not change whether the pattern is found.
   */
  lemma {:induction false} IncludesSkipsPrefix(a: string, b: string, pat: string)
    requires |pat| > 0 && pat[0] !in a
    ensures Includes(a + b, pat) <==> Includes(b, pat)
    decreases |a|
  {
    if |a| > 0 {
      assert (a + b)[0] == a[0];
      if |a + b| >= |pat| {
        assert (a + b)[..|pat|][0] == a[0];
        assert (a + b)[..|pat|] != pat;
      }
      assert (a + b)[1..] == a[1..] + b;
      IncludesSkipsPrefix(a[1..], b, pat);
    } else {
      assert a + b == b;
    }
  }

  /**
   * The pattern's first character followed by a text that does not go on
   * with the rest of the pattern opens no occurrence there.
   */
  lemma FirstCharWithoutRest(rest: string, pat: string)
    requires |pat| > 1 && |rest| > 0 && rest[0] != pat[1]
    ensures Includes([pat[0]] + rest, pat) <==> Includes(rest, pat)
  {
    var s := [pat[0]] + rest;
    assert s[1..] == rest;
    if |s| >= |pat| {
      assert s[..|pat|][1] == rest[0];
    }
  }

  /**
   * A text in which the pattern's first character occurs only twice, each
   * time followed by something other than the pattern's second character,
   * does not include the pattern.
   */
  lemma ExcludesAcrossTwoStarts(a: string, b: string, c: string, pat: string)
    requires |pat| > 1 && pat[0] !in a && pat[0] !in b && pat[0] !in c
    requires |b| > 0 && b[0] != pat[1] && |c| > 0 && c[0] != pat[1]
    ensures !Includes(a + ([pat[0]] + (b + ([pat[0]] + c))), pat)
  {
    ExcludesWithoutFirstChar(c, pat);
    FirstCharWithoutRest(c, pat);
    IncludesSkipsPrefix(b, [pat[0]] + c, pat);
    FirstCharWithoutRest(b + ([pat[0]] + c), pat);
    IncludesSkipsPrefix(a, [pat[0]] + (b + ([pat[0]] + c)), pat);
  }

  /** A text without the pattern's first character does not include the pattern. */
  lemma {:induction false} ExcludesWithoutFirstChar(s: string, pat: string)
    requires |pat| > 0 && pat[0] !in s
    ensures !Includes(s, pat)
  {
    IncludesSkipsPrefix(s, "", pat);
    assert s + "" == s;
  }

  /** JavaScript's `toUpperCase` on one character, for the ASCII letters the credibility names use. */
  function UpperChar(c: char): char {
    if 'a' <= c <= 'z' then (c as int - 32) as char else c
  }

  /** Upper case, character by character (ASCII letters only). */
  function ToUpper(s: string): (r: string)
    ensures |r| == |s|
    ensures forall i :: 0 <= i < |s| && 'a' <= s[i] <= 'z' ==> r[i] as int == s[i] as int - 32
    ensures forall i :: 0 <= i < |s| && !('a' <= s[i] <= 'z') ==> r[i] == s[i]
  {
    seq(|s|, i requires 0 <= i < |s| => UpperChar(s[i]))
  }

  /** The parts with `sep` between each neighbouring pair. */
  function Join(parts: seq<string>, sep: string): string
    decreases |parts|
  {
    if |parts| == 0 then ""
    else if |parts| == 1 then parts[0]
    else parts[0] + sep + Join(parts[1..], sep)
  }

  /** Where the `i`-th part starts inside `Join(parts, sep)`. */
  function JoinOffset(parts: seq<string>, sep: string, i: nat): nat
    requires i <= |parts|
    decreases i
  {
    if i == 0 then 0 else JoinOffset(parts, sep, i - 1) + |parts[i - 1]| + |sep|
  }

  /** Every part of a join sits in the result at its offset, intact. */
  lemma {:induction false} JoinPlacesParts(parts: seq<string>, sep: string, i: nat)
    requires i < |parts|
    ensures OccursAt(Join(parts, sep), parts[i], JoinOffset(parts, sep, i))
    decreases |parts|
  {
    if |parts| > 1 {
      var rest := Join(parts[1..], sep);
      assert Join(parts, sep) == parts[0] + sep + rest;
      if i > 0 {
        JoinPlacesParts(parts[1..], sep, i - 1);
        JoinOffsetShift(parts, sep, i);
        var off := JoinOffset(parts[1..], sep, i - 1);
        var k := |parts[0]| + |sep|;
        assert rest[off..off + |parts[i]|] == parts[i];
        assert (parts[0] + sep + rest)[k + off..k + off + |parts[i]|] == rest[off..off + |parts[i]|];
      }
    }
  }

  /** Offsets into a join of a list shift by the first part and one separator. */
  lemma {:induction false} JoinOffsetShift(parts: seq<string>, sep: string, i: nat)
    requires 0 < i <= |parts|
    ensures JoinOffset(parts, sep, i) == |parts[0]| + |sep| + JoinOffset(parts[1..], sep, i - 1)
    decreases i
  {
    if i > 1 {
      JoinOffsetShift(parts, sep, i - 1);
    }
  }

  /** A part of a join keeps its place, shifted, when text is put around the join. */
  lemma JoinPlacedInContext(front: string, parts: seq<string>, sep: string, back: string, i: nat)
    requires i < |parts|
    ensures OccursAt(front + Join(parts, sep) + back, parts[i], |front| + JoinOffset(parts, sep, i))
  {
    JoinPlacesParts(parts, sep, i);
    OccursAfter(front, Join(parts, sep), parts[i], JoinOffset(parts, sep, i));
    OccursBefore(front + Join(parts, sep), back, parts[i], |front| + JoinOffset(parts, sep, i));
  }

  /**
   * The pieces of `head + digits + rest + tail` can be read off by position:
   * `head` opens it, `digits` follow, then the first character of `rest`,
   * and `tail` closes it.
   */
  lemma FourPieces(head: string, digits: string, rest: string, tail: string)
    requires |rest| > 0
    ensures var s := head + digits + rest + tail;
            && OccursAt(s, head, 0)
            && s[|head|..|head| + |digits|] == digits
            && s[|head| + |digits|] == rest[0]
            && EndsWith(s, tail)
  {
    var s := head + digits + rest + tail;
    assert s[..|head|] == head;
    assert s[|head|..|head| + |digits|] == digits;
    assert s[|s| - |tail|..] == tail;
  }

  /** With a non-empty separator, later parts start strictly later: a join keeps the list's order. */
  lemma {:induction false} JoinKeepsOrder(parts: seq<string>, sep: string, i: nat, j: nat)
    requires |sep| > 0 && i < j <= |parts|
    ensures JoinOffset(parts, sep, i) < JoinOffset(parts, sep, j)
    decreases j
  {
    if i < j - 1 {
      JoinKeepsOrder(parts, sep, i, j - 1);
    }
  }

  /** The decimal digit character for `d`. */
  function DigitChar(d: nat): char
    requires d < 10
  {
    "0123456789"[d]
  }

  predicate IsDigit(c: char) {
    '0' <= c <= '9'
  }

  /** The value of a decimal digit character. */
  function DigitValue(c: char): (d: nat)
    requires IsDigit(c)
    ensures d < 10
  {
    c as int - '0' as int
  }

  /** The decimal spelling of a natural number, with no leading zero. */
  function NatToString(n: nat): (r: string)
    ensures |r| > 0
    ensures forall i :: 0 <= i < |r| ==> IsDigit(r[i])
    ensures n > 0 ==> r[0] != '0'
    decreases n
  {
    if n < 10 then [DigitChar(n)] else NatToString(n / 10) + [DigitChar(n % 10)]
  }

  /** Reads a string of decimal digits back as a number. */
  function ParseNat(s: string): nat
    requires forall i :: 0 <= i < |s| ==> IsDigit(s[i])
    decreases |s|
  {
    if |s| == 0 then 0
    else
      assert IsDigit(s[|s| - 1]);
      ParseNat(s[..|s| - 1]) * 10 + DigitValue(s[|s| - 1])
  }

  /** Reading a formatted number gives the number back, so distinct numbers print differently. */
  lemma {:induction false} ParseNatInvertsNatToString(n: nat)
    ensures ParseNat(NatToString(n)) == n
    decreases n
  {
    var r := NatToString(n);
    if n >= 10 {
      ParseNatInvertsNatToString(n / 10);
      assert r[..|r| - 1] == NatToString(n / 10);
    }
  }
}
