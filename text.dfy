// The Python string operations the pipeline relies on, written out over
// `seq<char>`: `str(int)`, `int(str)`, `split`, `join`, `replace`, `in`,
// `startswith`, `strip`, `lower` and the slices `s[:-2]` / `s[-2:]`.
module Text {
  import opened Wrappers

  predicate IsDigit(c: char) { '0' <= c <= '9' }

  predicate AllDigits(s: string) { forall i :: 0 <= i < |s| ==> IsDigit(s[i]) }

  function DigitValue(c: char): nat
    requires IsDigit(c)
  {
    (c as int) - ('0' as int)
  }

  function DigitChar(d: nat): (c: char)
    requires d < 10
    ensures IsDigit(c) && DigitValue(c) == d
  {
    (('0' as int) + d) as char
  }

  /** Python `str(n)` for a non-negative integer: its decimal digits. */
  function NatToString(n: nat): (s: string)
    ensures |s| > 0 && AllDigits(s)
    ensures n < 10 <==> |s| == 1
    decreases n
  {
    if n < 10 then [DigitChar(n)] else NatToString(n / 10) + [DigitChar(n % 10)]
  }

  /** Python `str(i)` for any integer. */
  function IntToString(i: int): string
  {
    if i < 0 then "-" + NatToString(-i) else NatToString(i)
  }

  /** The value of a string of decimal digits. */
  function DigitsValue(s: string): nat
    requires AllDigits(s)
    decreases |s|
  {
    if s == [] then 0 else DigitsValue(s[..|s| - 1]) * 10 + DigitValue(s[|s| - 1])
  }

  lemma {:induction false} NatToStringValue(n: nat)
    ensures DigitsValue(NatToString(n)) == n
  {
    if n >= 10 {
      var s := NatToString(n / 10) + [DigitChar(n % 10)];
      assert s[..|s| - 1] == NatToString(n / 10);
      NatToStringValue(n / 10);
    }
  }

  lemma NatToStringInjective(m: nat, n: nat)
    requires NatToString(m) == NatToString(n)
    ensures m == n
  {
    NatToStringValue(m);
    NatToStringValue(n);
  }

  /**
   * Python `int(s)` on an optional sign followed by decimal digits;
   * `None` stands for the ValueError raised on anything else.
   */
  function ParseInt(s: string): (r: Option<int>)
    ensures r.Some? ==> |s| > 0
  {
    if |s| > 1 && (s[0] == '-' || s[0] == '+') && AllDigits(s[1..]) then
      var v: int := DigitsValue(s[1..]);
      Some(if s[0] == '-' then -v else v)
    else if |s| > 0 && AllDigits(s) then Some(DigitsValue(s))
    else None
  }

  lemma ParseIntOfNatToString(n: nat)
    ensures ParseInt(NatToString(n)) == Some(n)
  {
    NatToStringValue(n);
  }

  lemma ParseIntOfNegative(n: nat)
    requires n > 0
    ensures ParseInt("-" + NatToString(n)) == Some(-(n as int))
  {
    var d := NatToString(n);
    var s := "-" + d;
    assert s[0] == '-' && s[1..] == d && |s| > 1;
    NatToStringValue(n);
  }

  lemma ParseIntOfIntToString(i: int)
    ensures ParseInt(IntToString(i)) == Some(i)
  {
    if i < 0 {
      ParseIntOfNegative(-i);
    } else {
      ParseIntOfNatToString(i);
    }
  }

  /** Python `s.split(c)` for a one-character separator. */
  function Split(s: string, c: char): (parts: seq<string>)
    ensures |parts| > 0
    ensures forall i :: 0 <= i < |parts| ==> c !in parts[i]
    decreases |s|
  {
    if s == [] then [""]
    else
      var rest := Split(s[1..], c);
      if s[0] == c then [""] + rest else [[s[0]] + rest[0]] + rest[1..]
  }

  /** Python `sep.join(parts)`. */
  function Join(parts: seq<string>, sep: string): string
    decreases |parts|
  {
    if |parts| == 0 then ""
    else if |parts| == 1 then parts[0]
    else parts[0] + sep + Join(parts[1..], sep)
  }

  lemma {:induction false} SplitWithoutSeparator(w: string, c: char)
    requires c !in w
    ensures Split(w, c) == [w]
    decreases |w|
  {
    if w != [] {
      SplitWithoutSeparator(w[1..], c);
      assert [w[0]] + w[1..] == w;
    }
  }

  lemma {:induction false} SplitAtFirstSeparator(w: string, t: string, c: char)
    requires c !in w
    ensures Split(w + [c] + t, c) == [w] + Split(t, c)
    decreases |w|
  {
    var s := w + [c] + t;
    if w == [] {
      assert s[0] == c && s[1..] == t;
    } else {
      assert s[0] == w[0] && s[1..] == w[1..] + [c] + t;
      SplitAtFirstSeparator(w[1..], t, c);
      assert [w[0]] + w[1..] == w;
    }
  }

  /** Splitting a join on a separator that no part contains gives the parts back. */
  lemma {:induction false} SplitJoin(parts: seq<string>, c: char)
    requires |parts| > 0
    requires forall i :: 0 <= i < |parts| ==> c !in parts[i]
    ensures Split(Join(parts, [c]), c) == parts
    decreases |parts|
  {
    if |parts| == 1 {
      SplitWithoutSeparator(parts[0], c);
    } else {
      SplitJoin(parts[1..], c);
      SplitAtFirstSeparator(parts[0], Join(parts[1..], [c]), c);
      assert [parts[0]] + parts[1..] == parts;
    }
  }

  lemma JoinCons(p: string, rest: seq<string>, sep: string)
    requires |rest| > 0
    ensures Join([p] + rest, sep) == p + sep + Join(rest, sep)
  {
    assert ([p] + rest)[1..] == rest;
  }

  /** Joining the pieces of a split restores the string. */
  lemma {:induction false} JoinSplit(s: string, c: char)
    ensures Join(Split(s, c), [c]) == s
    decreases |s|
  {
    if s != [] {
      var rest := Split(s[1..], c);
      JoinSplit(s[1..], c);
      if s[0] == c {
        JoinCons("", rest, [c]);
        assert s == [c] + s[1..];
      } else {
        var parts := [[s[0]] + rest[0]] + rest[1..];
        if |rest| == 1 {
          assert s == [s[0]] + s[1..];
        } else {
          JoinCons(rest[0], rest[1..], [c]);
          assert [rest[0]] + rest[1..] == rest;
          assert parts == [[s[0]] + rest[0]] + rest[1..];
          JoinCons([s[0]] + rest[0], rest[1..], [c]);
          assert s == [s[0]] + s[1..];
        }
      }
    }
  }

  /** The last piece of `s.split(c)`, Python's `s.split(c)[-1]`. */
  function LastField(s: string, c: char): (r: string)
    ensures c !in r
  {
    var parts := Split(s, c);
    parts[|parts| - 1]
  }

  /** Python `s.split(c)[k]`, `None` for the IndexError. */
  function Field(s: string, c: char, k: nat): (r: Option<string>)
    ensures r.Some? ==> c !in r.value
  {
    var parts := Split(s, c);
    if k < |parts| then Some(parts[k]) else None
  }

  /** Python `s.replace(pat, rep)`: every non-overlapping occurrence, left to right. */
  function ReplaceAll(s: string, pat: string, rep: string): string
    decreases |s|
  {
    if pat == [] then
      (if s == [] then rep else rep + [s[0]] + ReplaceAll(s[1..], pat, rep))
    else if |s| < |pat| then s
    else if s[..|pat|] == pat then rep + ReplaceAll(s[|pat|..], pat, rep)
    else [s[0]] + ReplaceAll(s[1..], pat, rep)
  }

  /** With a one-character pattern, the first letter is replaced on its own. */
  lemma ReplaceCharHead(s: string, p: char, rep: string)
    requires |s| > 0
    ensures ReplaceAll(s, [p], rep) == (if s[0] == p then rep else [s[0]]) + ReplaceAll(s[1..], [p], rep)
  {
    assert s[..1] == [s[0]];
  }

  /** For a one-character pattern, replacing acts letter by letter. */
  lemma {:induction false} ReplaceCharConcat(a: string, b: string, p: char, rep: string)
    ensures ReplaceAll(a + b, [p], rep) == ReplaceAll(a, [p], rep) + ReplaceAll(b, [p], rep)
    decreases |a|
  {
    if a == [] {
      assert a + b == b;
    } else {
      ReplaceCharConcat(a[1..], b, p, rep);
      assert (a + b)[0] == a[0] && (a + b)[1..] == a[1..] + b;
      ReplaceCharHead(a, p, rep);
      ReplaceCharHead(a + b, p, rep);
      var head := if a[0] == p then rep else [a[0]];
      assert head + (ReplaceAll(a[1..], [p], rep) + ReplaceAll(b, [p], rep))
        == (head + ReplaceAll(a[1..], [p], rep)) + ReplaceAll(b, [p], rep);
    }
  }

  lemma {:induction false} ReplaceCharRemoves(s: string, p: char, rep: string)
    requires p !in rep
    ensures p !in ReplaceAll(s, [p], rep)
    decreases |s|
  {
    if s != [] {
      ReplaceCharRemoves(s[1..], p, rep);
    }
  }

  lemma {:induction false} ReplaceCharKeepsAbsent(s: string, p: char, rep: string, q: char)
    requires q !in s && q !in rep
    ensures q !in ReplaceAll(s, [p], rep)
    decreases |s|
  {
    if s != [] {
      ReplaceCharKeepsAbsent(s[1..], p, rep, q);
    }
  }

  lemma {:induction false} ReplaceCharAbsent(s: string, p: char, rep: string)
    requires p !in s
    ensures ReplaceAll(s, [p], rep) == s
    decreases |s|
  {
    if s != [] {
      ReplaceCharAbsent(s[1..], p, rep);
      assert s == [s[0]] + s[1..];
    }
  }

  /** A non-empty pattern that does not occur is not replaced. */
  lemma {:induction false} ReplaceAllAbsent(s: string, pat: string, rep: string)
    requires pat != [] && !Contains(s, pat)
    ensures ReplaceAll(s, pat, rep) == s
    decreases |s|
  {
    if |s| >= |pat| {
      assert !(pat <= s);
      assert s[..|pat|] != pat;
      ReplaceAllAbsent(s[1..], pat, rep);
      assert s == [s[0]] + s[1..];
    }
  }

  /** A non-empty pattern at the front is replaced there. */
  lemma ReplaceAllHead(pat: string, rest: string, rep: string)
    requires pat != []
    ensures ReplaceAll(pat + rest, pat, rep) == rep + ReplaceAll(rest, pat, rep)
  {
    assert (pat + rest)[..|pat|] == pat && (pat + rest)[|pat|..] == rest;
  }

  /** A character the pattern lacks splits the replacement in two. */
  lemma {:induction false} ReplaceAllAround(a: string, c: char, b: string, pat: string, rep: string)
    requires pat != [] && c !in pat
    ensures ReplaceAll(a + [c] + b, pat, rep) == ReplaceAll(a, pat, rep) + [c] + ReplaceAll(b, pat, rep)
    decreases |a|, 1
  {
    var s := a + [c] + b;
    if |a| < |pat| {
      ReplaceAllAroundShort(a, c, b, pat, rep);
    } else if a[..|pat|] == pat {
      assert s[..|pat|] == pat;
      assert s[|pat|..] == a[|pat|..] + [c] + b;
      ReplaceAllAround(a[|pat|..], c, b, pat, rep);
    } else {
      assert s[..|pat|] == a[..|pat|];
      assert s[1..] == a[1..] + [c] + b;
      ReplaceAllAround(a[1..], c, b, pat, rep);
    }
  }

  lemma {:induction false} ReplaceAllAroundShort(a: string, c: char, b: string, pat: string, rep: string)
    requires pat != [] && c !in pat && |a| < |pat|
    ensures ReplaceAll(a + [c] + b, pat, rep) == a + [c] + ReplaceAll(b, pat, rep)
    decreases |a|, 0
  {
    var s := a + [c] + b;
    ShortStartNotPat(a, c, b, pat);
    ReplaceAllSkip(s, pat, rep);
    if a == [] {
      assert s[1..] == b;
    } else {
      JoinTail(a, c, b);
      ReplaceAllAroundShort(a[1..], c, b, pat, rep);
      JoinTail(a, c, ReplaceAll(b, pat, rep));
    }
  }

  /** A character outside the pattern within its length of the start: the pattern does not start there. */
  lemma ShortStartNotPat(a: string, c: char, b: string, pat: string)
    requires c !in pat && |a| < |pat|
    ensures |a + [c] + b| < |pat| || (a + [c] + b)[..|pat|] != pat
  {
    var s := a + [c] + b;
    if |s| >= |pat| {
      assert s[..|pat|][|a|] == c;
    }
  }

  lemma JoinTail(a: string, c: char, b: string)
    requires a != []
    ensures (a + [c] + b)[1..] == a[1..] + [c] + b
    ensures (a + [c] + b)[0] == a[0]
    ensures [a[0]] + (a[1..] + [c] + b) == a + [c] + b
  {
    assert a == [a[0]] + a[1..];
  }

  /** Where the pattern does not start, the first letter is kept. */
  lemma ReplaceAllSkip(s: string, pat: string, rep: string)
    requires pat != [] && |s| > 0 && (|s| < |pat| || s[..|pat|] != pat)
    ensures ReplaceAll(s, pat, rep) == [s[0]] + ReplaceAll(s[1..], pat, rep)
  {
    if |s| < |pat| {
      ReplaceAllShort(s[1..], pat, rep);
      assert s == [s[0]] + s[1..];
    }
  }

  /** Text shorter than the pattern is left alone. */
  lemma ReplaceAllShort(s: string, pat: string, rep: string)
    requires pat != []
    ensures |s| < |pat| ==> ReplaceAll(s, pat, rep) == s
  {
  }

  /** The last piece of `a + c + b` is the last piece of `b`. */
  lemma {:induction false} SplitLastAfter(a: string, c: char, b: string)
    ensures |Split(a + [c] + b, c)| >= 2
    ensures LastField(a + [c] + b, c) == LastField(b, c)
    decreases |a|
  {
    var s := a + [c] + b;
    if a == [] {
      assert s[0] == c && s[1..] == b;
    } else {
      assert s[0] == a[0] && s[1..] == a[1..] + [c] + b;
      SplitLastAfter(a[1..], c, b);
    }
  }

  /** Splitting at a separator splits the two sides independently. */
  lemma {:induction false} SplitConcat(a: string, c: char, b: string)
    ensures Split(a + [c] + b, c) == Split(a, c) + Split(b, c)
    decreases |a|
  {
    var s := a + [c] + b;
    if a == [] {
      assert s[0] == c && s[1..] == b;
    } else {
      assert s[0] == a[0] && s[1..] == a[1..] + [c] + b;
      SplitConcat(a[1..], c, b);
    }
  }

  /** Joining two non-empty lists puts one separator between their joins. */
  lemma {:induction false} JoinConcat(p: seq<string>, q: seq<string>, sep: string)
    requires |p| > 0 && |q| > 0
    ensures Join(p + q, sep) == Join(p, sep) + sep + Join(q, sep)
    decreases |p|
  {
    if |p| == 1 {
      JoinCons(p[0], q, sep);
      assert [p[0]] + q == p + q;
    } else {
      JoinConcat(p[1..], q, sep);
      assert (p + q)[1..] == p[1..] + q;
    }
  }

  /** Joining with one more part appends the separator and the part. */
  lemma JoinSnoc(p: seq<string>, x: string, sep: string)
    requires |p| > 0
    ensures Join(p + [x], sep) == Join(p, sep) + sep + x
  {
    JoinConcat(p, [x], sep);
    assert Join([x], sep) == x;
  }

  /** Text without the separator extends the last piece. */
  lemma {:induction false} SplitExtend(s: string, t: string, c: char)
    requires c !in t
    ensures Split(s + t, c) == Split(s, c)[..|Split(s, c)| - 1] + [Split(s, c)[|Split(s, c)| - 1] + t]
    decreases |s|
  {
    if s == [] {
      assert s + t == t;
      SplitWithoutSeparator(t, c);
    } else {
      assert (s + t)[0] == s[0] && (s + t)[1..] == s[1..] + t;
      SplitExtend(s[1..], t, c);
      var rs := Split(s[1..], c);
      if s[0] == c {
        ExtendLastAfterEmpty(rs, t);
      } else {
        ExtendLastAfterHead([s[0]], rs, t);
      }
    }
  }

  /** Extending the last piece commutes with an empty piece in front. */
  lemma ExtendLastAfterEmpty(rs: seq<string>, t: string)
    requires |rs| > 0
    ensures ([""] + rs)[..|rs|] + [([""] + rs)[|rs|] + t] == [""] + (rs[..|rs| - 1] + [rs[|rs| - 1] + t])
  {
    assert ([""] + rs)[..|rs|] == [""] + rs[..|rs| - 1];
  }

  /** Extending the last piece commutes with a head glued to the first piece. */
  lemma ExtendLastAfterHead(h: string, rs: seq<string>, t: string)
    requires |rs| > 0
    ensures var ps := [h + rs[0]] + rs[1..]; var es := rs[..|rs| - 1] + [rs[|rs| - 1] + t];
      ps[..|ps| - 1] + [ps[|ps| - 1] + t] == [h + es[0]] + es[1..]
  {
    var n := |rs|;
    var ps := [h + rs[0]] + rs[1..];
    var es := rs[..n - 1] + [rs[n - 1] + t];
    if n == 1 {
      assert ps == [h + rs[0]];
      assert h + rs[0] + t == h + (rs[0] + t);
    } else {
      assert ps[..n - 1] == [h + rs[0]] + rs[1..n - 1];
      assert es[1..] == rs[1..n - 1] + [rs[n - 1] + t];
    }
  }

  /** Python `pat in s` for strings. */
  predicate Contains(s: string, pat: string)
    decreases |s|
  {
    pat <= s || (|s| > 0 && Contains(s[1..], pat))
  }

  /** Whatever sits between two texts is contained in their concatenation. */
  lemma {:induction false} ContainsMiddle(a: string, p: string, b: string)
    ensures Contains(a + p + b, p)
    decreases |a|
  {
    if a == [] {
      assert a + p + b == p + b;
    } else {
      assert (a + p + b)[1..] == a[1..] + p + b;
      ContainsMiddle(a[1..], p, b);
    }
  }

  /** Python's whitespace, as `str.strip()` removes it. */
  predicate IsSpace(c: char)
  {
    c == ' ' || ('\t' <= c <= '\r') || ((28 as char) <= c <= (31 as char))
    || c == (0x85 as char) || c == (0xA0 as char) || c == (0x1680 as char)
    || ((0x2000 as char) <= c <= (0x200A as char)) || c == (0x2028 as char)
    || c == (0x2029 as char) || c == (0x202F as char) || c == (0x205F as char)
    || c == (0x3000 as char)
  }

  predicate NoSpace(s: string) { forall i :: 0 <= i < |s| ==> !IsSpace(s[i]) }

  function StripLeft(s: string): string
    decreases |s|
  {
    if |s| > 0 && IsSpace(s[0]) then StripLeft(s[1..]) else s
  }

  function StripRight(s: string): string
    decreases |s|
  {
    if |s| > 0 && IsSpace(s[|s| - 1]) then StripRight(s[..|s| - 1]) else s
  }

  /** Python `s.strip()`. */
  function Strip(s: string): string
  {
    StripRight(StripLeft(s))
  }

  predicate NoUpper(s: string) { forall i :: 0 <= i < |s| ==> !('A' <= s[i] <= 'Z') }

  /** Python `s.lower()` on ASCII letters. */
  function Lower(s: string): (r: string)
    ensures |r| == |s| && NoUpper(r)
    ensures forall i :: 0 <= i < |s| && !('A' <= s[i] <= 'Z') ==> r[i] == s[i]
    ensures forall i :: 0 <= i < |s| ==> r[i] == s[i] || 'a' <= r[i] <= 'z'
  {
    seq(|s|, i requires 0 <= i < |s| => if 'A' <= s[i] <= 'Z' then ((s[i] as int) + 32) as char else s[i])
  }

  /** `lower` brings in no character but a lower-case letter. */
  lemma LowerAvoids(s: string, d: char)
    requires d !in s && !('a' <= d <= 'z')
    ensures d !in Lower(s)
  {
    var r := Lower(s);
    forall i | 0 <= i < |r| ensures r[i] != d {
      assert r[i] == s[i] || 'a' <= r[i] <= 'z';
    }
  }

  /** `replace` keeps a text free of capitals when the replacement is. */
  lemma ReplaceAllNoUpper(s: string, pat: string, rep: string)
    requires NoUpper(s) && NoUpper(rep)
    ensures NoUpper(ReplaceAll(s, pat, rep))
  {
    var r := ReplaceAll(s, pat, rep);
    forall i | 0 <= i < |r| ensures !('A' <= r[i] <= 'Z') {
      if 'A' <= r[i] <= 'Z' {
        ReplaceAllAvoids(s, pat, rep, r[i]);
      }
    }
  }

  /** Python `s[:-2]`: everything but the last two characters. */
  function DropLast2(s: string): string
  {
    if |s| <= 2 then "" else s[..|s| - 2]
  }

  /** Python `s[-2:]`: the last two characters, or all of a shorter string. */
  function Last2(s: string): string
  {
    if |s| <= 2 then s else s[|s| - 2..]
  }

  /** A string holding the separator splits into at least two pieces. */
  lemma SplitAtLeastTwo(s: string, c: char)
    requires c in s
    ensures |Split(s, c)| >= 2
  {
    JoinSplit(s, c);
  }

  /** A character the string lacks is in none of the pieces of its split. */
  lemma {:induction false} SplitAvoids(s: string, c: char, d: char)
    requires d !in s
    ensures forall i :: 0 <= i < |Split(s, c)| ==> d !in Split(s, c)[i]
    decreases |s|
  {
    if s != [] {
      assert s == [s[0]] + s[1..];
      SplitAvoids(s[1..], c, d);
    }
  }

  /** `replace` brings in no character that neither the text nor the replacement holds. */
  lemma {:induction false} ReplaceAllAvoids(s: string, pat: string, rep: string, d: char)
    requires d !in s && d !in rep
    ensures d !in ReplaceAll(s, pat, rep)
    decreases |s|
  {
    if pat == [] {
      if s != [] {
        assert s == [s[0]] + s[1..];
        ReplaceAllAvoids(s[1..], pat, rep, d);
      }
    } else if |s| >= |pat| {
      if s[..|pat|] == pat {
        assert s == s[..|pat|] + s[|pat|..];
        ReplaceAllAvoids(s[|pat|..], pat, rep, d);
      } else {
        assert s == [s[0]] + s[1..];
        ReplaceAllAvoids(s[1..], pat, rep, d);
      }
    }
  }

  /** Python `s.split(sep)` for a separator of several characters. */
  function SplitOn(s: string, sep: string): (parts: seq<string>)
    requires sep != []
    ensures |parts| > 0
    decreases |s|
  {
    if |s| < |sep| then [s]
    else if s[..|sep|] == sep then [""] + SplitOn(s[|sep|..], sep)
    else
      var rest := SplitOn(s[1..], sep);
      [[s[0]] + rest[0]] + rest[1..]
  }

  /** Joining the pieces of `s.split(sep)` with `sep` restores `s`. */
  lemma {:induction false} JoinSplitOn(s: string, sep: string)
    requires sep != []
    ensures Join(SplitOn(s, sep), sep) == s
    decreases |s|
  {
    if |s| >= |sep| {
      if s[..|sep|] == sep {
        JoinSplitOn(s[|sep|..], sep);
        JoinCons("", SplitOn(s[|sep|..], sep), sep);
        assert s == "" + sep + s[|sep|..];
      } else {
        JoinSplitOn(s[1..], sep);
        JoinGlueHead([s[0]], SplitOn(s[1..], sep), sep);
        assert s == [s[0]] + s[1..];
      }
    }
  }

  /** Gluing text to the first piece puts it in front of the joined text. */
  lemma JoinGlueHead(h: string, rest: seq<string>, sep: string)
    requires |rest| > 0
    ensures Join([h + rest[0]] + rest[1..], sep) == h + Join(rest, sep)
  {
    if |rest| > 1 {
      JoinCons(h + rest[0], rest[1..], sep);
      JoinCons(rest[0], rest[1..], sep);
      assert [rest[0]] + rest[1..] == rest;
      assert h + rest[0] + sep + Join(rest[1..], sep) == h + (rest[0] + sep + Join(rest[1..], sep));
    }
  }

  lemma {:induction false} SplitOnWithout(w: string, sep: string)
    requires sep != [] && sep[0] !in w
    ensures SplitOn(w, sep) == [w]
    decreases |w|
  {
    if |w| >= |sep| {
      assert w[..|sep|][0] == w[0];
      SplitOnWithout(w[1..], sep);
      assert [w[0]] + w[1..] == w;
    }
  }

  lemma {:induction false} SplitOnFirst(w: string, t: string, sep: string)
    requires sep != [] && sep[0] !in w
    ensures SplitOn(w + sep + t, sep) == [w] + SplitOn(t, sep)
    decreases |w|
  {
    var s := w + sep + t;
    if w == [] {
      assert s[..|sep|] == sep && s[|sep|..] == t;
    } else {
      assert s[..|sep|][0] == w[0];
      assert s[1..] == w[1..] + sep + t;
      SplitOnFirst(w[1..], t, sep);
      assert [w[0]] + w[1..] == w;
    }
  }

  /** Splitting a join gives the parts back when no part holds the separator's first character. */
  lemma {:induction false} SplitOnJoin(parts: seq<string>, sep: string)
    requires sep != [] && |parts| > 0
    requires forall i :: 0 <= i < |parts| ==> sep[0] !in parts[i]
    ensures SplitOn(Join(parts, sep), sep) == parts
    decreases |parts|
  {
    if |parts| == 1 {
      SplitOnWithout(parts[0], sep);
    } else {
      SplitOnJoin(parts[1..], sep);
      SplitOnFirst(parts[0], Join(parts[1..], sep), sep);
      assert [parts[0]] + parts[1..] == parts;
    }
  }

  /** Python's `<` on strings: code point by code point, a proper prefix first. */
  predicate StrLt(a: string, b: string)
    decreases |a|
  {
    |b| > 0 && (|a| == 0 || a[0] < b[0] || (a[0] == b[0] && StrLt(a[1..], b[1..])))
  }

  lemma {:induction false} StrLtAsym(a: string, b: string)
    ensures StrLt(a, b) ==> !StrLt(b, a)
    decreases |a|
  {
    if |a| > 0 && |b| > 0 && a[0] == b[0] {
      StrLtAsym(a[1..], b[1..]);
    }
  }

  lemma {:induction false} StrLtTrans(a: string, b: string, c: string)
    requires StrLt(a, b) && StrLt(b, c)
    ensures StrLt(a, c)
    decreases |a|
  {
    if |a| > 0 && a[0] == b[0] && b[0] == c[0] {
      StrLtTrans(a[1..], b[1..], c[1..]);
    }
  }

  /** Two different strings are ordered one way or the other. */
  lemma {:induction false} StrLtTotal(a: string, b: string)
    requires a != b
    ensures StrLt(a, b) || StrLt(b, a)
    decreases |a|
  {
    if |a| > 0 && |b| > 0 && a[0] == b[0] {
      assert a == [a[0]] + a[1..] && b == [b[0]] + b[1..];
      StrLtTotal(a[1..], b[1..]);
    }
  }
}
