/**
 String helpers with the meaning the JavaScript built-ins have on the inputs this
 model feeds them: `startsWith`, `includes`, `Array.prototype.join`, and the
 case folding that a regular expression with the `i` flag and an ASCII pattern
 performs (ASCII letters only: without the `u` flag no non-ASCII character
 folds onto an ASCII one).
 */
module Text {

  function LowerChar(c: char): char {
    if 'A' <= c <= 'Z' then (c as int + 32) as char else c
  }

  /** ASCII lower-casing, character by character */
  function Lower(s: string): (r: string)
    ensures |r| == |s|
    ensures forall i | 0 <= i < |s| :: r[i] == LowerChar(s[i])
  {
    seq(|s|, i requires 0 <= i < |s| => LowerChar(s[i]))
  }

  lemma LowerConcat(a: string, b: string)
    ensures Lower(a + b) == Lower(a) + Lower(b)
  {
    assert forall i | 0 <= i < |a + b| :: Lower(a + b)[i] == (Lower(a) + Lower(b))[i];
  }

  /** `s.startsWith(p)` */
  predicate StartsWith(s: string, p: string) {
    |p| <= |s| && s[..|p|] == p
  }

  lemma StartsWithHead(s: string, p: string)
    requires |p| > 0
    ensures StartsWith(s, p) ==> |s| > 0 && s[0] == p[0]
  {
    if StartsWith(s, p) {
      assert s[..|p|][0] == s[0];
    }
  }

  /** `s.endsWith(p)`, and a regular expression anchored with `$` */
  predicate EndsWith(s: string, p: string) {
    |p| <= |s| && s[|s| - |p|..] == p
  }

  /** `s.includes(p)`: scans the start positions left to right */
  predicate Contains(s: string, p: string)
    decreases |s|
  {
    StartsWith(s, p) || (|s| > 0 && Contains(s[1..], p))
  }

  /** p occurs in s starting at position i */
  ghost predicate OccursAt(s: string, p: string, i: int) {
    0 <= i && i + |p| <= |s| && s[i..i + |p|] == p
  }

  /** The scanning definition of `Contains` agrees with "p occurs somewhere in s". */
  lemma {:induction false} ContainsIffOccurs(s: string, p: string)
    ensures Contains(s, p) <==> exists i :: OccursAt(s, p, i)
    decreases |s|
  {
    if StartsWith(s, p) {
      assert OccursAt(s, p, 0);
    } else if |s| == 0 {
      assert forall i | OccursAt(s, p, i) :: i == 0;
    } else {
      ContainsIffOccurs(s[1..], p);
      if Contains(s[1..], p) {
        var i :| OccursAt(s[1..], p, i);
        assert s[1..][i..i + |p|] == s[i + 1..i + 1 + |p|];
        assert OccursAt(s, p, i + 1);
      }
      if i :| OccursAt(s, p, i) {
        assert i != 0;
        assert s[1..][i - 1..i - 1 + |p|] == s[i..i + |p|];
        assert OccursAt(s[1..], p, i - 1);
      }
    }
  }

  /** A pattern cannot occur where its first character does not. */
  lemma {:induction false} ContainsNeedsHead(s: string, p: string)
    requires |p| > 0 && p[0] !in s
    ensures !Contains(s, p)
    decreases |s|
  {
    StartsWithHead(s, p);
    if |s| > 0 {
      assert p[0] !in s[1..] by {
        assert forall i | 0 <= i < |s[1..]| :: s[1..][i] == s[i + 1];
      }
      ContainsNeedsHead(s[1..], p);
    }
  }

  /** Case-insensitive `test` of a lower-case ASCII pattern without metacharacters */
  predicate ContainsIgnoringCase(s: string, p: string) {
    Contains(Lower(s), p)
  }

  /** `xs.join(sep)` */
  function Join(xs: seq<string>, sep: string): string
    decreases |xs|
  {
    if |xs| == 0 then ""
    else if |xs| == 1 then xs[0]
    else xs[0] + sep + Join(xs[1..], sep)
  }

  lemma ContainsInLeft(a: string, b: string, p: string)
    requires Contains(a, p)
    ensures Contains(a + b, p)
  {
    ContainsIffOccurs(a, p);
    var i :| OccursAt(a, p, i);
    assert (a + b)[i..i + |p|] == a[i..i + |p|];
    assert OccursAt(a + b, p, i);
    ContainsIffOccurs(a + b, p);
  }

  lemma ContainsInRight(a: string, b: string, p: string)
    requires Contains(b, p)
    ensures Contains(a + b, p)
  {
    ContainsIffOccurs(b, p);
    var i :| OccursAt(b, p, i);
    assert (a + b)[|a| + i..|a| + i + |p|] == b[i..i + |p|];
    assert OccursAt(a + b, p, |a| + i);
    ContainsIffOccurs(a + b, p);
  }

  /** A pattern without spaces found in `a + " " + b` lies within a or within b:
      the separator stops a match from spanning both. */
  lemma ContainsAcrossSpace(a: string, b: string, p: string)
    requires ' ' !in p
    ensures Contains(a + " " + b, p) <==> Contains(a, p) || Contains(b, p)
  {
    var s := a + " " + b;
    if Contains(a, p) {
      ContainsInLeft(a, " " + b, p);
      assert a + (" " + b) == s;
    } else if Contains(b, p) {
      ContainsInRight(a + " ", b, p);
    } else if Contains(s, p) {
      ContainsIffOccurs(s, p);
      var i :| OccursAt(s, p, i);
      assert s[|a|] == ' ';
      assert forall k | i <= k < i + |p| :: s[k] == s[i..i + |p|][k - i];
      if i + |p| <= |a| {
        assert s[i..i + |p|] == a[i..i + |p|];
        assert OccursAt(a, p, i);
        ContainsIffOccurs(a, p);
        assert false;
      } else if i > |a| {
        var c := a + " ";
        assert s == c + b;
        assert s[i..i + |p|] == b[i - |c|..i - |c| + |p|];
        assert OccursAt(b, p, i - |a| - 1);
        ContainsIffOccurs(b, p);
        assert false;
      } else {
        assert false;
      }
    }
  }

  /** The same for the case-insensitive test */
  lemma ContainsIgnoringCaseAcrossSpace(a: string, b: string, p: string)
    requires ' ' !in p
    ensures ContainsIgnoringCase(a + " " + b, p) <==> ContainsIgnoringCase(a, p) || ContainsIgnoringCase(b, p)
  {
    LowerConcat(a, " ");
    LowerConcat(a + " ", b);
    assert Lower(" ") == " ";
    ContainsAcrossSpace(Lower(a), Lower(b), p);
  }

  /** A space-joined list contains a pattern without spaces exactly when one element does. */
  lemma {:induction false} JoinContains(xs: seq<string>, p: string)
    requires ' ' !in p && |p| > 0
    ensures ContainsIgnoringCase(Join(xs, " "), p) <==> exists j | 0 <= j < |xs| :: ContainsIgnoringCase(xs[j], p)
    decreases |xs|
  {
    if |xs| == 0 {
      assert Lower("") == "";
      ContainsIffOccurs("", p);
      assert forall i :: !OccursAt("", p, i);
    } else if |xs| == 1 {
      assert ContainsIgnoringCase(xs[0], p) ==> exists j | 0 <= j < |xs| :: ContainsIgnoringCase(xs[j], p);
    } else {
      var rest := xs[1..];
      JoinContains(rest, p);
      assert Join(xs, " ") == xs[0] + " " + Join(rest, " ");
      ContainsIgnoringCaseAcrossSpace(xs[0], Join(rest, " "), p);
      if ContainsIgnoringCase(Join(xs, " "), p) {
        if ContainsIgnoringCase(xs[0], p) {
          assert ContainsIgnoringCase(xs[0], p);
        } else {
          var j :| 0 <= j < |rest| && ContainsIgnoringCase(rest[j], p);
          assert xs[j + 1] == rest[j];
          assert ContainsIgnoringCase(xs[j + 1], p);
        }
        assert exists j | 0 <= j < |xs| :: ContainsIgnoringCase(xs[j], p);
      }
      if exists j | 0 <= j < |xs| :: ContainsIgnoringCase(xs[j], p) {
        var j :| 0 <= j < |xs| && ContainsIgnoringCase(xs[j], p);
        if j > 0 {
          assert rest[j - 1] == xs[j];
          assert ContainsIgnoringCase(Join(rest, " "), p);
        }
        assert ContainsIgnoringCase(Join(xs, " "), p);
      }
    }
  }
}
