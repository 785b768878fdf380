/** Lexicographic order on identifiers, and the sorted iteration the store and executor rely on. */
module StringOrder {
  predicate Less(a: string, b: string) {
    if b == "" then false
    else if a == "" then true
    else if a[0] != b[0] then a[0] < b[0]
    else Less(a[1..], b[1..])
  }

  lemma {:induction false} LessTotal(a: string, b: string)
    ensures Less(a, b) || Less(b, a) || a == b
    decreases |a|
  {
    if a != "" && b != "" && a[0] == b[0] {
      LessTotal(a[1..], b[1..]);
      assert a == [a[0]] + a[1..] && b == [b[0]] + b[1..];
    }
  }

  lemma {:induction false} LessStrict(a: string, b: string)
    ensures !(Less(a, b) && Less(b, a)) && !Less(a, a)
    decreases |a|
  {
    if a != "" {
      LessStrict(a[1..], if b == "" then "" else b[1..]);
    }
  }

  lemma {:induction false} LessTransitive(a: string, b: string, c: string)
    requires Less(a, b) && Less(b, c)
    ensures Less(a, c)
    decreases |a|
  {
    if a != "" && a[0] == b[0] == c[0] {
      LessTransitive(a[1..], b[1..], c[1..]);
    }
  }

  ghost predicate Increasing(s: seq<string>) {
    forall i, j :: 0 <= i < j < |s| ==> Less(s[i], s[j])
  }

  method Least(ids: set<string>) returns (least: string)
    requires ids != {}
    ensures least in ids && forall x :: x in ids && x != least ==> Less(least, x)
  {
    least :| least in ids;
    var rest := ids - {least};
    while rest != {}
      invariant rest <= ids && least in ids && least !in rest
      invariant forall x :: x in ids && x !in rest && x != least ==> Less(least, x)
      decreases rest
    {
      var x :| x in rest;
      rest := rest - {x};
      LessTotal(x, least);
      if Less(x, least) {
        forall y | y in ids && y !in rest && y != x
          ensures Less(x, y)
        {
          if y != least {
            LessTransitive(x, least, y);
          }
        }
        least := x;
      }
    }
  }

  /** Python's `sorted` on a set of strings. */
  method Sorted(ids: set<string>) returns (s: seq<string>)
    ensures Increasing(s) && forall x :: x in s <==> x in ids
  {
    s := [];
    var rest := ids;
    while rest != {}
      invariant rest <= ids && Increasing(s)
      invariant forall x :: x in s <==> x in ids && x !in rest
      invariant forall x, y :: x in s && y in rest ==> Less(x, y)
      decreases rest
    {
      var least := Least(rest);
      s, rest := s + [least], rest - {least};
    }
  }

  lemma IncreasingDistinct(s: seq<string>)
    requires Increasing(s)
    ensures forall i, j :: 0 <= i < j < |s| ==> s[i] != s[j]
  {
    forall i, j | 0 <= i < j < |s|
      ensures s[i] != s[j]
    {
      LessStrict(s[i], s[j]);
    }
  }

  lemma HasMember(t: seq<string>)
    requires t != []
    ensures exists x :: x in t
  {
    assert t[0] in t;
  }

  /** A set has one increasing listing, so sorting leaves nothing to chance. */
  lemma {:induction false} SortedUnique(s: seq<string>, t: seq<string>)
    requires Increasing(s) && Increasing(t)
    requires forall x :: x in s <==> x in t
    ensures s == t
    decreases |s|
  {
    if s == [] {
      if t != [] {
        HasMember(t);
      }
    } else {
      assert s[0] in s && s[0] in t;
      var i :| 0 <= i < |t| && t[i] == s[0];
      assert t[0] in t && t[0] in s;
      var j :| 0 <= j < |s| && s[j] == t[0];
      LessStrict(s[0], t[0]);
      assert s[0] == t[0];
      IncreasingDistinct(s);
      IncreasingDistinct(t);
      forall x
        ensures x in s[1..] <==> x in t[1..]
      {
        assert x in s[1..] ==> x in s && x != s[0];
        assert x in t[1..] ==> x in t && x != t[0];
      }
      SortedUnique(s[1..], t[1..]);
      assert s == [s[0]] + s[1..] && t == [t[0]] + t[1..];
    }
  }
}
