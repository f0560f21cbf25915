// What an OverrideCycles mask says: a ';'-separated list of tokens, one per
// read, each a run of segments such as `I8` or `N2` (an operation letter
// followed by a cycle count). The parser here gives the masks built by the
// pipeline a meaning the lemmas can talk about; the pipeline itself only
// renders masks.
module MaskSyntax {
  import opened Wrappers
  import opened Text

  datatype Segment = Segment(op: char, cycles: nat)

  function RenderSegment(s: Segment): string
  {
    [s.op] + NatToString(s.cycles)
  }

  function Render(segs: seq<Segment>): string
    decreases |segs|
  {
    if |segs| == 0 then "" else RenderSegment(segs[0]) + Render(segs[1..])
  }

  predicate LetterOps(segs: seq<Segment>)
  {
    forall i :: 0 <= i < |segs| ==> !IsDigit(segs[i].op) && segs[i].op != ';'
  }

  /** The length of the run of digits at the start of `s`. */
  function DigitRun(s: string): (k: nat)
    ensures k <= |s| && AllDigits(s[..k])
    ensures k < |s| ==> !IsDigit(s[k])
    decreases |s|
  {
    if |s| > 0 && IsDigit(s[0]) then
      var k := 1 + DigitRun(s[1..]);
      assert s[..k] == [s[0]] + s[1..][..k - 1];
      k
    else 0
  }

  /** Reads a token back into its segments; `None` if it is not letter-digits runs. */
  function ParseSegments(s: string): Option<seq<Segment>>
    decreases |s|
  {
    if s == [] then Some([])
    else if IsDigit(s[0]) then None
    else
      var k := DigitRun(s[1..]);
      if k == 0 then None
      else
        assert s[1..1 + k] == s[1..][..k];
        match ParseSegments(s[1 + k..])
        case None => None
        case Some(rest) => Some([Segment(s[0], DigitsValue(s[1..1 + k]))] + rest)
  }

  lemma {:induction false} DigitRunOfDigits(d: string, t: string)
    requires AllDigits(d)
    requires t == [] || !IsDigit(t[0])
    ensures DigitRun(d + t) == |d|
    decreases |d|
  {
    if d != [] {
      assert (d + t)[1..] == d[1..] + t;
      DigitRunOfDigits(d[1..], t);
    } else {
      assert d + t == t;
    }
  }

  lemma {:induction false} RenderStart(segs: seq<Segment>)
    requires LetterOps(segs)
    ensures Render(segs) == [] || !IsDigit(Render(segs)[0])
  {
    if |segs| > 0 {
      assert Render(segs)[0] == segs[0].op;
    }
  }

  /** Rendering then parsing gives the segments back. */
  lemma {:induction false} ParseRender(segs: seq<Segment>)
    requires LetterOps(segs)
    ensures ParseSegments(Render(segs)) == Some(segs)
    decreases |segs|
  {
    if |segs| > 0 {
      var s := Render(segs);
      var digits := NatToString(segs[0].cycles);
      var tail := Render(segs[1..]);
      assert s == [segs[0].op] + digits + tail;
      assert s[1..] == digits + tail;
      RenderStart(segs[1..]);
      DigitRunOfDigits(digits, tail);
      var k := |digits|;
      assert s[1..1 + k] == digits;
      assert s[1 + k..] == tail;
      NatToStringValue(segs[0].cycles);
      ParseRender(segs[1..]);
      assert [segs[0]] + segs[1..] == segs;
    }
  }

  lemma {:induction false} RenderHasNoSemicolon(segs: seq<Segment>)
    requires LetterOps(segs)
    ensures ';' !in Render(segs)
    decreases |segs|
  {
    if |segs| > 0 {
      var digits := NatToString(segs[0].cycles);
      assert ';' !in digits by {
        forall i | 0 <= i < |digits| ensures digits[i] != ';' {
          assert IsDigit(digits[i]);
        }
      }
      RenderHasNoSemicolon(segs[1..]);
    }
  }

  /** The cycles a token's segments consume. */
  function Cycles(segs: seq<Segment>): nat
    decreases |segs|
  {
    if |segs| == 0 then 0 else segs[0].cycles + Cycles(segs[1..])
  }

  /** The cycles each ';'-separated token of a mask consumes, or `None` if a token is malformed. */
  function TokenCycles(tokens: seq<string>): Option<seq<nat>>
    decreases |tokens|
  {
    if |tokens| == 0 then Some([])
    else
      match (ParseSegments(tokens[0]), TokenCycles(tokens[1..]))
      case (Some(segs), Some(rest)) => Some([Cycles(segs)] + rest)
      case _ => None
  }

  function MaskCycles(mask: string): Option<seq<nat>>
  {
    TokenCycles(Split(mask, ';'))
  }
}
