/** Event-type patterns: an exact type, or a prefix followed by ".*". */
module Glob {

  predicate StartsWith(s: string, p: string) {
    p <= s
  }

  predicate EndsWith(s: string, t: string) {
    |t| <= |s| && s[|s| - |t|..] == t
  }

  predicate TypeMatches(subType: string, eventType: string) {
    if subType == eventType then true
    else if EndsWith(subType, ".*") then StartsWith(eventType, subType[..|subType| - 1])
    else false
  }

  /** The dot-separated segments; the empty string is one empty segment. */
  function Segments(s: string): (r: seq<string>)
    ensures r != []
  {
    if s == "" then [""]
    else
      var rest := Segments(s[1..]);
      if s[0] == '.' then [""] + rest else [[s[0]] + rest[0]] + rest[1..]
  }

  ghost predicate ProperPrefix<T>(a: seq<T>, b: seq<T>) {
    a <= b && |a| < |b|
  }

  lemma {:induction false} SegmentsConcat(p: string, r: string)
    ensures Segments(p + "." + r) == Segments(p) + Segments(r)
  {
    if p == "" {
      assert (p + "." + r)[1..] == r;
    } else {
      assert (p + "." + r)[1..] == p[1..] + "." + r;
      SegmentsConcat(p[1..], r);
    }
  }

  function Join(segs: seq<string>): string
    requires segs != []
  {
    if |segs| == 1 then segs[0] else segs[0] + "." + Join(segs[1..])
  }

  lemma {:induction false} JoinSegments(s: string)
    ensures Join(Segments(s)) == s
  {
    if s != "" {
      JoinSegments(s[1..]);
      var rest := Segments(s[1..]);
      if s[0] == '.' {
        assert ([""] + rest)[1..] == rest;
        assert s == "." + s[1..];
      } else if |rest| == 1 {
        assert s == [s[0]] + s[1..];
      } else {
        assert Segments(s)[1..] == rest[1..];
        assert s == [s[0]] + s[1..];
      }
    }
  }

  lemma {:induction false} JoinConcat(a: seq<string>, b: seq<string>)
    requires a != [] && b != []
    ensures Join(a + b) == Join(a) + "." + Join(b)
  {
    if |a| == 1 {
      assert (a + b)[1..] == b;
    } else {
      assert (a + b)[1..] == a[1..] + b;
      JoinConcat(a[1..], b);
    }
  }

  /** A string starts with p and a dot exactly when p's segments properly start its segments. */
  lemma DottedPrefix(p: string, e: string)
    ensures StartsWith(e, p + ".") <==> ProperPrefix(Segments(p), Segments(e))
  {
    if StartsWith(e, p + ".") {
      var r := e[|p| + 1..];
      assert e == p + "." + r;
      SegmentsConcat(p, r);
    }
    if ProperPrefix(Segments(p), Segments(e)) {
      var tail := Segments(e)[|Segments(p)|..];
      assert Segments(e) == Segments(p) + tail;
      JoinConcat(Segments(p), tail);
      JoinSegments(p);
      JoinSegments(e);
      assert e == p + "." + Join(tail);
      assert e[..|p| + 1] == p + ".";
    }
  }

  /**
   A pattern matches exactly the equal type, and, when it is p + ".*", every type that
   p's segments properly start.
   */
  lemma MatchesExactly(subType: string, eventType: string)
    ensures TypeMatches(subType, eventType) <==>
            || subType == eventType
            || exists p :: subType == p + ".*" && ProperPrefix(Segments(p), Segments(eventType))
  {
    if EndsWith(subType, ".*") {
      var p := subType[..|subType| - 2];
      assert subType == p + ".*" && subType[..|subType| - 1] == p + ".";
      DottedPrefix(p, eventType);
      forall q | subType == q + ".*" ensures q == p { assert q == (q + ".*")[..|subType| - 2]; }
    }
    forall q: string ensures EndsWith(q + ".*", ".*") { assert (q + ".*")[|q|..] == ".*"; }
  }

  /** A longer glob matches nothing its segment-prefix globs do not. */
  lemma LongerGlobMatchesLess(p: string, q: string, eventType: string)
    requires Segments(q) <= Segments(p)
    requires TypeMatches(p + ".*", eventType)
    ensures TypeMatches(q + ".*", eventType)
  {
    var glob, wide := p + ".*", q + ".*";
    assert EndsWith(glob, ".*") && glob[..|glob| - 1] == p + ".";
    assert EndsWith(wide, ".*") && wide[..|wide| - 1] == q + ".";
    if glob == eventType { assert eventType[..|p| + 1] == p + "."; }
    DottedPrefix(p, eventType);
    DottedPrefix(q, eventType);
  }
}
