/** The JavaScript string operations the application relies on: `trim`,
    global literal `replace`, `split(c)[k]`, `includes`, ASCII
    `toLowerCase` and decimal formatting of a number. */
module Strings {

  import opened Types

  /** The characters `String.prototype.trim` removes: ECMAScript white space
      (tab, vertical tab, form feed, space, no-break space, byte order mark and
      the other space separators) and the four line terminators. */
  predicate IsSpace(c: char)
  {
    c == '\t' || c == '\n' || c == '\U{000B}' || c == '\U{000C}' || c == '\r'
    || c == ' ' || c == '\U{00A0}' || c == '\U{1680}'
    || ('\U{2000}' <= c <= '\U{200A}')
    || c == '\U{2028}' || c == '\U{2029}' || c == '\U{202F}' || c == '\U{205F}'
    || c == '\U{3000}' || c == '\U{FEFF}'
  }

  /** Drops leading white space: the result is a suffix of `s`, everything
      dropped is white space, and the result does not start with white space. */
  function TrimStart(s: string): (r: string)
    ensures |r| <= |s| && r == s[|s| - |r|..]
    ensures forall i | 0 <= i < |s| - |r| :: IsSpace(s[i])
    ensures r == [] || !IsSpace(r[0])
  {
    if s != [] && IsSpace(s[0]) then TrimStart(s[1..]) else s
  }

  /** Drops trailing white space: the mirror image of `TrimStart`. */
  function TrimEnd(s: string): (r: string)
    ensures |r| <= |s| && r == s[..|r|]
    ensures forall i | |r| <= i < |s| :: IsSpace(s[i])
    ensures r == [] || !IsSpace(r[|r| - 1])
  {
    if s != [] && IsSpace(s[|s| - 1]) then TrimEnd(s[..|s| - 1]) else s
  }

  /** `r` is `s` with only white space cut off on either side: starting at
      `i`, it runs for `|r|` characters. */
  predicate TrimmedFrom(s: string, r: string, i: int)
  {
    0 <= i && i + |r| <= |s| && r == s[i..i + |r|]
    && (forall k | 0 <= k < i :: IsSpace(s[k]))
    && (forall k | i + |r| <= k < |s| :: IsSpace(s[k]))
  }

  /** `s.trim()`: a contiguous piece of `s`, with only white space cut off on
      either side, that neither starts nor ends with white space. */
  function Trim(s: string): (r: string)
    ensures TrimmedFrom(s, r, |s| - |TrimStart(s)|)
    ensures r == [] || (!IsSpace(r[0]) && !IsSpace(r[|r| - 1]))
  {
    TrimPieces(s);
    TrimEnd(TrimStart(s))
  }

  lemma TrimPieces(s: string)
    ensures TrimmedFrom(s, TrimEnd(TrimStart(s)), |s| - |TrimStart(s)|)
    ensures var r := TrimEnd(TrimStart(s)); r == [] || !IsSpace(r[0])
  {
    var a := TrimStart(s);
    var r := TrimEnd(a);
    TrimmedPieces(s, a, r);
    PrefixKeepsHead(a, r);
  }

  /** A prefix of a string that does not start with white space does not
      start with white space either. */
  lemma PrefixKeepsHead(a: string, r: string)
    requires |r| <= |a| && r == a[..|r|]
    requires a == [] || !IsSpace(a[0])
    ensures r == [] || !IsSpace(r[0])
  {
    if r != [] {
      assert r[0] == a[0];
    }
  }

  /** A suffix `a` of `s` after white space only, and a prefix `r` of `a`
      before white space only: `r` is `s` trimmed from position |s| - |a|. */
  lemma TrimmedPieces(s: string, a: string, r: string)
    requires |a| <= |s| && a == s[|s| - |a|..]
    requires forall k | 0 <= k < |s| - |a| :: IsSpace(s[k])
    requires |r| <= |a| && r == a[..|r|]
    requires forall k | |r| <= k < |a| :: IsSpace(a[k])
    ensures TrimmedFrom(s, r, |s| - |a|)
  {
    var i := |s| - |a|;
    assert r == s[i..i + |r|];
    forall k | i + |r| <= k < |s| ensures IsSpace(s[k]) {
      assert s[k] == a[k - i];
    }
  }

  /** Every character of `s` is white space. */
  predicate AllSpace(s: string)
  {
    forall i | 0 <= i < |s| :: IsSpace(s[i])
  }

  /** `s.trim()` is empty exactly when `s` is white space only. */
  lemma TrimEmptyIffAllSpace(s: string)
    ensures Trim(s) == "" <==> AllSpace(s)
  {
    var r := Trim(s);
    var i := |s| - |TrimStart(s)|;
    assert TrimmedFrom(s, r, i);
    if r != [] {
      assert r[0] == s[i];
    }
  }

  /** `pat` occurs in `s` at position `i`. */
  predicate OccursAt(s: string, pat: string, i: int)
  {
    0 <= i && i + |pat| <= |s| && s[i..i + |pat|] == pat
  }

  predicate Contains(s: string, pat: string)
  {
    exists i | 0 <= i <= |s| :: OccursAt(s, pat, i)
  }

  /** `s.replace(/pat/g, '')` for a literal pattern: scan left to right and
      drop every non-overlapping occurrence. */
  function RemoveAll(s: string, pat: string): (r: string)
    requires pat != []
    ensures |r| <= |s|
    decreases |s|
  {
    if |s| < |pat| then s
    else if s[..|pat|] == pat then RemoveAll(s[|pat|..], pat)
    else [s[0]] + RemoveAll(s[1..], pat)
  }

  const Fence: string := "```"

  /** The number of leading back-ticks of `s`. */
  function LeadingTicks(s: string): (n: nat)
    ensures n <= |s|
  {
    if s != [] && s[0] == '`' then 1 + LeadingTicks(s[1..]) else 0
  }

  /** A fence stands at the front of `t` exactly when `t` starts with at
      least three back-ticks. */
  lemma FenceAtFront(t: string)
    ensures OccursAt(t, Fence, 0) <==> LeadingTicks(t) >= 3
  {
    if |t| >= 1 && t[0] == '`' {
      assert LeadingTicks(t) == 1 + LeadingTicks(t[1..]);
      if |t| >= 2 && t[1] == '`' {
        assert t[1..][0] == t[1];
        assert LeadingTicks(t[1..]) == 1 + LeadingTicks(t[2..]) by {
          assert t[1..][1..] == t[2..];
        }
        if |t| >= 3 && t[2] == '`' {
          assert t[2..][0] == t[2];
          assert t[..3] == Fence;
        } else {
          assert LeadingTicks(t[2..]) == 0;
        }
      } else {
        assert LeadingTicks(t[1..]) == 0;
      }
    }
  }

  /** An occurrence after the first character of `[x] + t` is one in `t`. */
  lemma OccursAfterHead(x: char, t: string, i: int)
    requires i >= 1 && OccursAt([x] + t, Fence, i)
    ensures OccursAt(t, Fence, i - 1)
  {
    assert ([x] + t)[i..i + 3] == t[i - 1..i + 2];
  }

  /** Removing every fence leaves a leading run of back-ticks shorter than
      a fence and no longer than the original one. */
  lemma {:induction false} RemoveFencesLeadingRun(s: string)
    ensures LeadingTicks(RemoveAll(s, Fence)) < 3
    ensures LeadingTicks(RemoveAll(s, Fence)) <= LeadingTicks(s)
    decreases |s|
  {
    if |s| < 3 {
      FenceAtFront(s);
    } else if s[..3] == Fence {
      RemoveFencesLeadingRun(s[3..]);
      ThreeTicks(s);
    } else {
      RemoveFencesLeadingRun(s[1..]);
      LeadingRunStep(s);
    }
  }

  /** One step of the induction: a text that does not start with a fence
      keeps its first character, and its leading run grows by that character
      on both sides. */
  lemma LeadingRunStep(s: string)
    requires |s| >= 3 && s[..3] != Fence
    requires LeadingTicks(RemoveAll(s[1..], Fence)) <= LeadingTicks(s[1..])
    ensures LeadingTicks(RemoveAll(s, Fence)) < 3
    ensures LeadingTicks(RemoveAll(s, Fence)) <= LeadingTicks(s)
  {
    FenceAtFront(s);
    var t := RemoveAll(s[1..], Fence);
    assert |Fence| == 3 && s[..|Fence|] != Fence;
    var u := [s[0]] + t;
    assert RemoveAll(s, Fence) == u;
    assert u[0] == s[0] && u[1..] == t;
    if s[0] == '`' {
      assert LeadingTicks(s) == 1 + LeadingTicks(s[1..]);
      assert LeadingTicks(u) == 1 + LeadingTicks(t);
    } else {
      assert LeadingTicks(u) == 0;
    }
  }

  /** A text that starts with a fence has three more leading back-ticks than
      the text after it. */
  lemma ThreeTicks(s: string)
    requires |s| >= 3 && s[..3] == Fence
    ensures LeadingTicks(s) == 3 + LeadingTicks(s[3..])
  {
    assert s[0] == s[..3][0] && s[1] == s[..3][1] && s[2] == s[..3][2];
    var s1, s2 := s[1..], s[2..];
    assert s1[1..] == s2 && s2[1..] == s[3..];
    assert s1[0] == '`' && s2[0] == '`';
    assert LeadingTicks(s2) == 1 + LeadingTicks(s[3..]);
    assert LeadingTicks(s1) == 1 + LeadingTicks(s2);
  }

  /** After removing every fence, no fence is left: removal can join two runs
      of back-ticks only if they were one run already, and each run is left
      with fewer than three. */
  lemma {:induction false} RemoveFencesLeavesNone(s: string)
    ensures !Contains(RemoveAll(s, Fence), Fence)
    decreases |s|
  {
    var r := RemoveAll(s, Fence);
    if |s| < 3 {
      assert r == s;
    } else if s[..3] == Fence {
      RemoveFencesLeavesNone(s[3..]);
    } else {
      var t := RemoveAll(s[1..], Fence);
      RemoveFencesLeavesNone(s[1..]);
      assert r == [s[0]] + t;
      forall i | 0 <= i <= |r| ensures !OccursAt(r, Fence, i) {
        if i >= 1 && OccursAt(r, Fence, i) {
          OccursAfterHead(s[0], t, i);
        }
        if i == 0 && OccursAt(r, Fence, 0) {
          // Then s starts with a back-tick, and so does t twice over.
          FenceAtFront(s);
          assert s[0] == '`' && LeadingTicks(s) < 3;
          assert LeadingTicks(s) == 1 + LeadingTicks(s[1..]);
          RemoveFencesLeadingRun(s[1..]);
          FenceAtFront(r);
          assert false;
        }
      }
    }
  }

  /** A piece of a fence-free string is fence-free. */
  lemma SliceKeepsNoFence(s: string, i: int, j: int)
    requires 0 <= i <= j <= |s|
    requires !Contains(s, Fence)
    ensures !Contains(s[i..j], Fence)
  {
    forall k | 0 <= k <= j - i ensures !OccursAt(s[i..j], Fence, k) {
      if OccursAt(s[i..j], Fence, k) {
        assert k + 3 <= j - i;
        var u, v := s[i..j][k..k + 3], s[i + k..i + k + 3];
        forall m | 0 <= m < 3 ensures u[m] == v[m] {
          assert s[i..j][k + m] == s[i + k + m];
        }
        assert u == v;
        assert OccursAt(s, Fence, i + k);
      }
    }
  }

  /** The text before the first `c`: `s.split(c)[0]`. */
  function BeforeFirst(s: string, c: char): (r: string)
    ensures |r| <= |s| && r == s[..|r|]
    ensures c !in r
    ensures |r| < |s| ==> s[|r|] == c
  {
    if s == [] || s[0] == c then [] else [s[0]] + BeforeFirst(s[1..], c)
  }

  /** The text before the first `c` of `h + [c] + t` is `h` when `h` has no `c`. */
  lemma {:induction false} BeforeFirstJoin(h: string, c: char, t: string)
    requires c !in h
    ensures BeforeFirst(h + [c] + t, c) == h
  {
    if h != [] {
      assert (h + [c] + t)[1..] == h[1..] + [c] + t;
      BeforeFirstJoin(h[1..], c, t);
    }
  }

  /** `s.split(c)[1]`: the field after the first `c`, up to the next `c`;
      `None` (`undefined`) when `s` has no `c`. */
  function SecondField(s: string, c: char): (r: Option<string>)
    ensures r.None? <==> c !in s
    ensures r.Some? ==> (c !in r.value &&
              var k := |BeforeFirst(s, c)|;
              k + 1 + |r.value| <= |s| && s[k] == c && s[k + 1..k + 1 + |r.value|] == r.value
              && (k + 1 + |r.value| == |s| || s[k + 1 + |r.value|] == c))
  {
    var head := BeforeFirst(s, c);
    if |head| == |s| then
      assert s == head;
      None
    else
      var k := |head|;
      var field := BeforeFirst(s[k + 1..], c);
      assert s[k + 1..][..|field|] == s[k + 1..k + 1 + |field|];
      Some(field)
  }

  /** ASCII `toLowerCase`. */
  function Lower(s: string): (r: string)
    ensures |r| == |s|
    ensures forall i | 0 <= i < |s| :: r[i] == LowerChar(s[i])
  {
    if s == [] then [] else [LowerChar(s[0])] + Lower(s[1..])
  }

  function LowerChar(c: char): char
  {
    if 'A' <= c <= 'Z' then (c as int + 32) as char else c
  }

  function Digit(d: int): char
    requires 0 <= d < 10
  {
    "0123456789"[d]
  }

  /** `String(n)` for a natural number. */
  function Decimal(n: nat): (r: string)
    ensures r != []
    ensures forall i | 0 <= i < |r| :: '0' <= r[i] <= '9'
  {
    if n < 10 then [Digit(n)] else Decimal(n / 10) + [Digit(n % 10)]
  }

  /** Reading a string of decimal digits back as a number. */
  function ParseDecimal(s: string): nat
    requires forall i | 0 <= i < |s| :: '0' <= s[i] <= '9'
  {
    if s == [] then 0
    else ParseDecimal(s[..|s| - 1]) * 10 + (s[|s| - 1] as int - '0' as int)
  }

  /** Formatting a number and reading it back gives the number. */
  lemma {:induction false} DecimalRoundTrip(n: nat)
    ensures ParseDecimal(Decimal(n)) == n
  {
    var r := Decimal(n);
    if n >= 10 {
      DecimalRoundTrip(n / 10);
      assert r[..|r| - 1] == Decimal(n / 10);
    }
  }

  /** A four-digit number is written with exactly four characters. */
  lemma FourDigits(n: nat)
    requires 1000 <= n <= 9999
    ensures |Decimal(n)| == 4
  {
    assert |Decimal(n / 1000)| == 1;
    assert |Decimal(n / 100)| == 2 by { assert (n / 100) / 10 == n / 1000; }
    assert |Decimal(n / 10)| == 3 by { assert (n / 10) / 10 == n / 100; }
  }
}
