/**
 * The string operations the core relies on: Python's `str.lower()` and
 * SQL's ILIKE, both restricted to ASCII case folding.
 */
module Text {

  function LowerChar(c: char): char
  {
    if 'A' <= c <= 'Z' then (c as int + 32) as char else c
  }

  /** `s.lower()`, folding only the ASCII letters. */
  function Lower(s: string): (r: string)
    ensures |r| == |s|
    ensures forall i :: 0 <= i < |s| ==> r[i] == LowerChar(s[i])
  {
    if s == [] then [] else [LowerChar(s[0])] + Lower(s[1..])
  }

  lemma {:induction false} LowerAppend(a: string, b: string)
    ensures Lower(a + b) == Lower(a) + Lower(b)
  {
    var l, r := Lower(a + b), Lower(a) + Lower(b);
    assert |l| == |r|;
    forall i | 0 <= i < |l| ensures l[i] == r[i] {
      if i < |a| { assert (a + b)[i] == a[i]; } else { assert (a + b)[i] == b[i - |a|]; }
    }
  }

  /** A string with no upper-case ASCII letter is its own lower case. */
  lemma {:induction false} LowerOfLowerCase(s: string)
    requires forall i :: 0 <= i < |s| ==> !('A' <= s[i] <= 'Z')
    ensures Lower(s) == s
  {
    var r := Lower(s);
    forall i | 0 <= i < |s| ensures r[i] == s[i] { }
  }

  // ---------------------------------------------------------------------
  // LIKE patterns: `%` matches any run of characters, `_` exactly one.
  // The store's queries declare no escape character, so none exists.
  // ---------------------------------------------------------------------

  /** `s LIKE p`; a pattern without wildcards matches only itself. */
  predicate Like(s: string, p: string)
    ensures NoWildcards(p) ==> (Like(s, p) <==> s == p)
    decreases |s| + |p|
  {
    if p == [] then s == []
    else if p[0] == '%' then Like(s, p[1..]) || (s != [] && Like(s[1..], p))
    else
      assert NoWildcards(p) ==> NoWildcards(p[1..]) by {
        assert forall i :: 0 <= i < |p[1..]| ==> p[1..][i] == p[i + 1];
      }
      assert s != [] && |s| == |p| ==> (s == p <==> s[0] == p[0] && s[1..] == p[1..]) by {
        if s != [] && |s| == |p| && s[0] == p[0] && s[1..] == p[1..] {
          assert s == [s[0]] + s[1..] && p == [p[0]] + p[1..];
        }
      }
      s != [] && (p[0] == '_' || p[0] == s[0]) && Like(s[1..], p[1..])
  }

  /** `s ILIKE p`: LIKE after folding both sides to lower case. */
  predicate ILike(s: string, p: string)
    ensures NoWildcards(p) ==> (ILike(s, p) <==> Lower(s) == Lower(p))
  {
    Like(Lower(s), Lower(p))
  }

  predicate NoWildcards(q: string)
  {
    forall i :: 0 <= i < |q| ==> q[i] != '%' && q[i] != '_'
  }

  /** `q` occurs in `s` starting at position `i`. */
  predicate OccursAt(s: string, q: string, i: int)
  {
    0 <= i <= |s| - |q| && s[i..i + |q|] == q
  }

  /** `q` occurs in `s` as a contiguous substring. */
  predicate Contains(s: string, q: string)
  {
    exists i :: 0 <= i <= |s| - |q| && OccursAt(s, q, i)
  }

  /** The pattern `f"%{query}%"` that search binds to all three ILIKEs. */
  function SearchPattern(query: string): (p: string)
    ensures |p| == |query| + 2 && p[0] == '%' && p[|p| - 1] == '%'
    ensures p[1..|p| - 1] == query
  {
    "%" + query + "%"
  }

  lemma {:induction false} LikePercentMatchesAll(s: string)
    ensures Like(s, "%")
    decreases |s|
  {
    assert "%"[1..] == [];
    if s != [] { LikePercentMatchesAll(s[1..]); }
  }

  /** Without wildcards, `q%` matches exactly the strings that start with `q`. */
  lemma {:induction false} LikePrefix(s: string, q: string)
    requires NoWildcards(q)
    ensures Like(s, q + "%") <==> |q| <= |s| && s[..|q|] == q
    decreases |q|
  {
    if q == [] {
      assert q + "%" == "%";
      LikePercentMatchesAll(s);
    } else {
      var p := q + "%";
      assert p[0] == q[0] && p[1..] == q[1..] + "%";
      assert NoWildcards(q[1..]) by {
        forall i | 0 <= i < |q[1..]| ensures q[1..][i] != '%' && q[1..][i] != '_' {
          assert q[1..][i] == q[i + 1];
        }
      }
      assert q[0] != '%' && q[0] != '_';
      if s != [] {
        LikePrefix(s[1..], q[1..]);
        if |q| <= |s| {
          assert s[..|q|] == [s[0]] + s[1..][..|q| - 1];
          assert q == [q[0]] + q[1..];
        }
      }
    }
  }

  /** A leading `%` lets the rest of the pattern match any suffix. */
  lemma {:induction false} LikeLeadingPercent(s: string, p: string)
    ensures Like(s, "%" + p) <==> exists i :: 0 <= i <= |s| && Like(s[i..], p)
    decreases |s|
  {
    var pp := "%" + p;
    assert pp[0] == '%' && pp[1..] == p;
    if s == [] {
      assert s[0..] == s;
    } else {
      LikeLeadingPercent(s[1..], p);
      if Like(s, pp) {
        if Like(s, p) {
          assert s[0..] == s;
        } else {
          assert Like(s[1..], pp);
          var j :| 0 <= j <= |s[1..]| && Like(s[1..][j..], p);
          assert s[1..][j..] == s[j + 1..];
        }
      } else {
        forall i | 0 <= i <= |s| ensures !Like(s[i..], p) {
          if i == 0 {
            assert s[0..] == s;
          } else {
            assert s[1..][i - 1..] == s[i..];
          }
        }
      }
    }
  }

  /** For a query free of wildcards, `%q%` is plain substring search. */
  lemma LikeSearchIsContains(s: string, q: string)
    requires NoWildcards(q)
    ensures Like(s, SearchPattern(q)) <==> Contains(s, q)
  {
    assert SearchPattern(q) == "%" + (q + "%");
    LikeLeadingPercent(s, q + "%");
    if Like(s, SearchPattern(q)) {
      var i :| 0 <= i <= |s| && Like(s[i..], q + "%");
      LikePrefix(s[i..], q);
      assert s[i..][..|q|] == s[i..i + |q|];
      assert OccursAt(s, q, i);
    }
    if Contains(s, q) {
      var i :| 0 <= i <= |s| - |q| && OccursAt(s, q, i);
      LikePrefix(s[i..], q);
      assert s[i..][..|q|] == s[i..i + |q|];
      assert Like(s[i..], q + "%");
    }
  }

  lemma LowerKeepsNoWildcards(q: string)
    requires NoWildcards(q)
    ensures NoWildcards(Lower(q))
  {
  }

  /**
   * The case-insensitive search of the store: for a wildcard-free query,
   * `s ILIKE '%q%'` holds exactly when lower(q) occurs in lower(s).
   */
  lemma ILikeSearchIsContains(s: string, q: string)
    requires NoWildcards(q)
    ensures ILike(s, SearchPattern(q)) <==> Contains(Lower(s), Lower(q))
  {
    LowerAppend("%", q);
    LowerAppend("%" + q, "%");
    assert Lower("%") == "%";
    assert Lower(SearchPattern(q)) == SearchPattern(Lower(q));
    LowerKeepsNoWildcards(q);
    LikeSearchIsContains(Lower(s), Lower(q));
  }

  /** `%` and `_` are not escaped: the query `"__"` matches every string of length two or more. */
  lemma {:induction false} UnderscoresMatchAnyLongString(s: string)
    requires |s| >= 2
    ensures Like(s, SearchPattern("__"))
  {
    var p := SearchPattern("__");
    assert p == "%" + "__%";
    LikeLeadingPercent(s, "__%");
    var rest := s[2..];
    LikePercentMatchesAll(rest);
    assert "__%"[1..] == "_%" && "_%"[1..] == "%";
    assert s[1..][1..] == rest;
    assert Like(s[1..], "_%");
    assert Like(s, "__%");
    assert s[0..] == s;
  }
}
