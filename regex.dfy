/** Anchored regular expressions of the form `^c1{m1,n1}c2{m2,n2}...$`,
    each `c` a character class. `RegExp.prototype.test` with both anchors
    and no flags matches the whole input. */
module Regex {

  /** `a-b` inside a character class; a single character is `c-c`. */
  datatype Range = Range(lo: char, hi: char)

  predicate InClass(c: char, cls: seq<Range>) {
    exists i :: 0 <= i < |cls| && cls[i].lo <= c <= cls[i].hi
  }

  predicate AllIn(s: string, cls: seq<Range>) {
    forall i :: 0 <= i < |s| ==> InClass(s[i], cls)
  }

  /** A character class with a `{min,max}` quantifier. */
  datatype Piece = Piece(cls: seq<Range>, min: nat, max: nat)

  /** The whole of `s` matches the pieces in order. */
  predicate Matches(pieces: seq<Piece>, s: string)
    decreases |pieces|
  {
    if pieces == [] then s == ""
    else exists k :: pieces[0].min <= k <= pieces[0].max && k <= |s|
                     && AllIn(s[..k], pieces[0].cls) && Matches(pieces[1..], s[k..])
  }

  /** The literal characters of `s`, each as a one-character range. */
  function Singles(s: string): (cls: seq<Range>)
    ensures |cls| == |s|
    ensures forall i :: 0 <= i < |s| ==> cls[i] == Range(s[i], s[i])
  {
    seq(|s|, i requires 0 <= i < |s| => Range(s[i], s[i]))
  }

  lemma InClassAppend(c: char, a: seq<Range>, b: seq<Range>)
    ensures InClass(c, a + b) <==> InClass(c, a) || InClass(c, b)
  {
    if InClass(c, a + b) {
      var i :| 0 <= i < |a + b| && (a + b)[i].lo <= c <= (a + b)[i].hi;
      if i >= |a| {
        assert b[i - |a|] == (a + b)[i];
      }
    }
    if InClass(c, a) {
      var i :| 0 <= i < |a| && a[i].lo <= c <= a[i].hi;
      assert (a + b)[i] == a[i];
    }
    if InClass(c, b) {
      var i :| 0 <= i < |b| && b[i].lo <= c <= b[i].hi;
      assert (a + b)[|a| + i] == b[i];
    }
  }

  lemma InSingles(c: char, s: string)
    ensures InClass(c, Singles(s)) <==> c in s
  {
    if c in s {
      var i :| 0 <= i < |s| && s[i] == c;
      assert Singles(s)[i] == Range(c, c);
    }
  }

  lemma InOneRange(c: char, r: Range)
    ensures InClass(c, [r]) <==> r.lo <= c <= r.hi
  {
    if r.lo <= c <= r.hi {
      assert [r][0] == r;
    }
  }

  /** One piece matches exactly the strings of its class with an allowed length. */
  lemma MatchesOne(p: Piece, s: string)
    ensures Matches([p], s) <==> p.min <= |s| <= p.max && AllIn(s, p.cls)
  {
    assert [p][1..] == [];
    if p.min <= |s| <= p.max && AllIn(s, p.cls) {
      assert s[..|s|] == s && s[|s|..] == "";
    }
  }

  /** A piece of length exactly one followed by more pieces. */
  lemma MatchesHead(p: Piece, rest: seq<Piece>, s: string)
    requires p.min == 1 && p.max == 1
    ensures Matches([p] + rest, s) <==> |s| >= 1 && InClass(s[0], p.cls) && Matches(rest, s[1..])
  {
    var pieces := [p] + rest;
    assert pieces[0] == p && pieces[1..] == rest;
    if |s| >= 1 && InClass(s[0], p.cls) && Matches(rest, s[1..]) {
      assert s[..1][0] == s[0];
    }
    if Matches(pieces, s) {
      var k :| 1 <= k <= 1 && k <= |s| && AllIn(s[..k], p.cls) && Matches(rest, s[k..]);
      assert s[..k][0] == s[0];
    }
  }
}
