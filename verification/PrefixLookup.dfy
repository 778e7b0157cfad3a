/** Finding a record by a prefix of its ID, in a Go map and with an SQL `LIKE`. */
module PrefixLookup {
  import opened Text

  datatype Lookup<+T> = Found(value: T) | NotFound | Ambiguous

  /** The verdict for given matches: an exact ID first, else the only match. */
  ghost function Decide(ids: set<string>, prefix: string, matches: set<string>): Lookup<string> {
    if prefix in ids then Found(prefix)
    else if matches == {} then NotFound
    else if exists id :: matches == {id} then
      var id :| matches == {id};
      Found(id)
    else Ambiguous
  }

  ghost function PrefixMatches(ids: set<string>, prefix: string): set<string> {
    set id | id in ids && prefix <= id
  }

  ghost function ByPrefix(ids: set<string>, prefix: string): Lookup<string> {
    Decide(ids, prefix, PrefixMatches(ids, prefix))
  }

  /** SQL `LIKE` with the default escape character. A pattern that ends in the escape character is an
      error in SQL and matches nothing here. */
  predicate Like(s: string, pattern: string)
    decreases |s| + |pattern|
  {
    if pattern == "" then s == ""
    else if pattern[0] == '%' then Like(s, pattern[1..]) || (s != "" && Like(s[1..], pattern))
    else if s == "" then false
    else if pattern[0] == '_' then Like(s[1..], pattern[1..])
    else if pattern[0] == '\\' then |pattern| > 1 && s[0] == pattern[1] && Like(s[1..], pattern[2..])
    else s[0] == pattern[0] && Like(s[1..], pattern[1..])
  }

  ghost function LikeMatches(ids: set<string>, prefix: string): set<string> {
    set id | id in ids && Like(id, prefix + "%")
  }

  ghost function ByLike(ids: set<string>, prefix: string): Lookup<string> {
    Decide(ids, prefix, LikeMatches(ids, prefix))
  }

  predicate Special(c: char) {
    c == '%' || c == '_' || c == '\\'
  }

  /** Free of `LIKE` wildcards and of the escape character. */
  predicate Plain(p: string) {
    forall i :: 0 <= i < |p| ==> !Special(p[i])
  }

  // ---- The two lookups ----

  /** The loop over the map: the verdict does not depend on the order in which it visits the IDs. */
  method ScanForPrefix(ids: set<string>, prefix: string) returns (r: Lookup<string>)
    ensures r == ByPrefix(ids, prefix)
  {
    if prefix in ids {
      return Found(prefix);
    }
    var only := None;
    var todo := ids;
    while todo != {}
      invariant todo <= ids
      invariant PrefixMatches(ids - todo, prefix) == if only.Some? then {only.value} else {}
    {
      var id :| id in todo;
      assert ids - (todo - {id}) == (ids - todo) + {id};
      assert PrefixMatches((ids - todo) + {id}, prefix) ==
             PrefixMatches(ids - todo, prefix) + if prefix <= id then {id} else {};
      if prefix <= id {
        if only.Some? {
          TwoMatches(ids, prefix, PrefixMatches(ids, prefix), only.value, id);
          return Ambiguous;
        }
        only := Some(id);
      }
      todo := todo - {id};
    }
    assert ids - {} == ids;
    r := if only.Some? then Found(only.value) else NotFound;
  }

  lemma TwoMatches(ids: set<string>, prefix: string, matches: set<string>, a: string, b: string)
    requires prefix !in ids && a in matches && b in matches && a != b
    ensures Decide(ids, prefix, matches) == Ambiguous
  {
  }

  /** `SELECT ... WHERE id LIKE pattern LIMIT n`: some of the matching rows, as many as there are up to `n`. */
  method SelectLike(ids: set<string>, pattern: string, limit: nat) returns (rows: seq<string>)
    ensures forall i :: 0 <= i < |rows| ==> rows[i] in ids && Like(rows[i], pattern)
    ensures forall i, j :: 0 <= i < j < |rows| ==> rows[i] != rows[j]
    ensures |rows| <= limit
    ensures |rows| < limit ==> forall id :: id in ids && Like(id, pattern) ==> id in rows
  {
    rows := [];
    var todo := ids;
    while todo != {} && |rows| < limit
      invariant todo <= ids && |rows| <= limit
      invariant forall i :: 0 <= i < |rows| ==> rows[i] in ids - todo && Like(rows[i], pattern)
      invariant forall i, j :: 0 <= i < j < |rows| ==> rows[i] != rows[j]
      invariant forall id :: id in ids - todo && Like(id, pattern) ==> id in rows
      decreases |todo|
    {
      var id :| id in todo;
      todo := todo - {id};
      if Like(id, pattern) {
        rows := rows + [id];
      }
    }
  }

  /** The exact lookup, then the row loop over a `LIKE` with `LIMIT 2`. */
  method QueryByPrefix(ids: set<string>, prefix: string) returns (r: Lookup<string>)
    ensures r == ByLike(ids, prefix)
  {
    if prefix in ids {
      return Found(prefix);
    }
    var rows := SelectLike(ids, prefix + "%", 2);
    var only := None;
    for i := 0 to |rows|
      invariant only == if i == 0 then None else Some(rows[0])
      invariant i <= 1
    {
      if only.Some? {
        TwoMatches(ids, prefix, LikeMatches(ids, prefix), only.value, rows[i]);
        return Ambiguous;
      }
      only := Some(rows[i]);
    }
    if only.Some? {
      assert forall id :: id in rows <==> id == rows[0];
      assert LikeMatches(ids, prefix) == {rows[0]};
    } else {
      assert LikeMatches(ids, prefix) == {};
    }
    r := if only.Some? then Found(only.value) else NotFound;
  }

  // ---- Properties ----

  lemma OnlyMatch(ids: set<string>, prefix: string, matches: set<string>, x: string)
    ensures Decide(ids, prefix, matches) == Found(x) <==>
            if prefix in ids then x == prefix else matches == {x}
  {
    if prefix !in ids && exists id :: matches == {id} {
      var id :| matches == {id};
      assert matches == {x} ==> x in matches;
    }
  }

  /** The verdict on given matches, one by one: none is not found, two are ambiguous, and an exact ID wins over both. */
  lemma DecideIff(ids: set<string>, prefix: string, matches: set<string>)
    ensures Decide(ids, prefix, matches).NotFound? <==> prefix !in ids && forall id :: id !in matches
    ensures Decide(ids, prefix, matches).Ambiguous? <==>
            prefix !in ids && exists a, b :: a in matches && b in matches && a != b
    ensures forall x :: Decide(ids, prefix, matches) == Found(x) <==>
                          if prefix in ids then x == prefix else x in matches && forall id :: id in matches ==> id == x
  {
    forall x ensures Decide(ids, prefix, matches) == Found(x) <==>
                     if prefix in ids then x == prefix else x in matches && forall id :: id in matches ==> id == x
    {
      OnlyMatch(ids, prefix, matches, x);
      assert matches == {x} <==> x in matches && forall id :: id in matches ==> id == x;
    }
    if prefix !in ids && matches != {} {
      var a :| a in matches;
      if matches != {a} {
        var b :| b in matches && b != a;
        TwoMatches(ids, prefix, matches, a, b);
      }
    }
  }

  /** The prefix lookup: not found exactly if no ID begins with the prefix, ambiguous exactly if the prefix is no ID
      and two IDs begin with it, and found is the prefix itself or else the only ID that begins with it. */
  lemma PrefixVerdict(ids: set<string>, p: string)
    ensures ByPrefix(ids, p).NotFound? <==> forall id :: id in ids ==> !(p <= id)
    ensures ByPrefix(ids, p).Ambiguous? <==>
            p !in ids && exists a, b :: a in ids && b in ids && a != b && p <= a && p <= b
    ensures forall x :: ByPrefix(ids, p) == Found(x) <==>
                          x in ids && (x == p || (p !in ids && p <= x && forall id :: id in ids && p <= id ==> id == x))
  {
    DecideIff(ids, p, PrefixMatches(ids, p));
    if p in ids {
      assert p <= p;
    }
    assert forall id :: id in PrefixMatches(ids, p) <==> id in ids && p <= id;
  }

  /** The same of the lookup with `LIKE`, for IDs that the pattern matches. */
  lemma LikeVerdict(ids: set<string>, p: string)
    ensures ByLike(ids, p).NotFound? <==> p !in ids && forall id :: id in ids ==> !Like(id, p + "%")
    ensures ByLike(ids, p).Ambiguous? <==>
            p !in ids && exists a, b :: a in LikeMatches(ids, p) && b in LikeMatches(ids, p) && a != b
    ensures forall x :: ByLike(ids, p) == Found(x) <==>
                          if p in ids then x == p
                          else x in LikeMatches(ids, p) && forall id :: id in LikeMatches(ids, p) ==> id == x
    ensures forall id :: id in LikeMatches(ids, p) <==> id in ids && Like(id, p + "%")
  {
    DecideIff(ids, p, LikeMatches(ids, p));
    forall id | id in ids && Like(id, p + "%") ensures id in LikeMatches(ids, p) {
    }
  }

  /** If a prefix resolves to an ID, then so does every longer prefix of that ID. */
  lemma LongerPrefixResolves(ids: set<string>, p: string, q: string, x: string)
    requires ByPrefix(ids, p) == Found(x) && p <= q <= x
    ensures ByPrefix(ids, q) == Found(x)
  {
    OnlyMatch(ids, p, PrefixMatches(ids, p), x);
    OnlyMatch(ids, q, PrefixMatches(ids, q), x);
    if p in ids {
      assert q == x;
    } else {
      assert x in PrefixMatches(ids, p);
      forall id | id in PrefixMatches(ids, q)
        ensures id == x
      {
        PrefixTrans(p, q, id);
        assert id in PrefixMatches(ids, p);
      }
      assert PrefixMatches(ids, q) == {x};
      if q in ids {
        assert q in PrefixMatches(ids, q);
      }
    }
  }

  lemma PrefixTrans(p: string, q: string, s: string)
    requires p <= q && q <= s
    ensures p <= s
  {
    assert s[..|q|] == q && q[..|p|] == p;
    assert s[..|p|] == p;
  }

  lemma {:induction false} PercentMatchesAll(s: string)
    ensures Like(s, "%")
  {
    if s != "" {
      PercentMatchesAll(s[1..]);
    } else {
      assert Like(s, "%"[1..]);
    }
  }

  /** `%` stands for any stretch of characters. */
  lemma {:induction false} PercentIsAnyStretch(s: string, p: string)
    ensures Like(s, "%" + p) <==> exists i :: 0 <= i <= |s| && Like(s[i..], p)
    decreases |s|
  {
    assert ("%" + p)[1..] == p && s[0..] == s;
    if s != "" {
      PercentIsAnyStretch(s[1..], p);
      if i :| 0 <= i <= |s| && Like(s[i..], p) {
        if i > 0 {
          assert s[1..][i - 1..] == s[i..];
        }
      }
      if j :| 0 <= j <= |s[1..]| && Like(s[1..][j..], p) {
        assert s[1..][j..] == s[j + 1..];
      }
    }
  }

  /** `_` stands for one character, an escaped character for itself, any other for itself, and nothing is left over. */
  lemma LikeCharacters(s: string, p: string, c: char)
    ensures Like(s, "_" + p) <==> s != "" && Like(s[1..], p)
    ensures Like(s, ['\\', c] + p) <==> s != "" && s[0] == c && Like(s[1..], p)
    ensures !Special(c) ==> (Like(s, [c] + p) <==> s != "" && s[0] == c && Like(s[1..], p))
    ensures Like(s, "") <==> s == ""
  {
    assert ("_" + p)[1..] == p && ([c] + p)[1..] == p && (['\\', c] + p)[2..] == p;
  }

  /** For a plain prefix the pattern matches exactly the strings that begin with it. */
  lemma {:induction false} LikePlain(s: string, p: string)
    requires Plain(p)
    ensures Like(s, p + "%") <==> p <= s
  {
    if p == "" {
      assert p + "%" == "%";
      PercentMatchesAll(s);
    } else {
      assert (p + "%")[0] == p[0] && (p + "%")[1..] == p[1..] + "%";
      assert !Special(p[0]);
      if s != "" {
        LikePlain(s[1..], p[1..]);
        assert p <= s <==> p[0] == s[0] && p[1..] <= s[1..];
      }
    }
  }

  /** A string that a pattern matches: each wildcard filled as briefly as possible. */
  function Sample(pattern: string): string {
    if pattern == "" then ""
    else if pattern[0] == '%' then Sample(pattern[1..])
    else if pattern[0] == '_' then "x" + Sample(pattern[1..])
    else if pattern[0] == '\\' then (if |pattern| > 1 then [pattern[1]] + Sample(pattern[2..]) else "")
    else [pattern[0]] + Sample(pattern[1..])
  }

  /** The prefix followed by `%` never ends in a lone escape character. */
  predicate WellEscaped(pattern: string) {
    if pattern == "" then true
    else if pattern[0] == '\\' then |pattern| > 1 && WellEscaped(pattern[2..])
    else WellEscaped(pattern[1..])
  }

  lemma {:induction false} PatternWellEscaped(p: string)
    ensures WellEscaped(p + "%")
  {
    var q := p + "%";
    if p == "" {
      assert q[1..] == "";
    } else if p[0] == '\\' {
      if |p| == 1 {
        assert q[2..] == "";
      } else {
        PatternWellEscaped(p[2..]);
        assert q[2..] == p[2..] + "%";
      }
    } else {
      PatternWellEscaped(p[1..]);
      assert q[1..] == p[1..] + "%";
    }
  }

  lemma {:induction false} SampleMatches(pattern: string)
    requires WellEscaped(pattern)
    ensures Like(Sample(pattern), pattern)
  {
    if pattern != "" {
      if pattern[0] == '\\' {
        SampleMatches(pattern[2..]);
      } else {
        SampleMatches(pattern[1..]);
      }
    }
  }

  lemma {:induction false} SampleNoLonger(p: string)
    ensures |Sample(p + "%")| <= |p|
  {
    var q := p + "%";
    if p == "" {
      assert q[1..] == "";
    } else if p[0] == '\\' && |p| > 1 {
      SampleNoLonger(p[2..]);
      assert q[2..] == p[2..] + "%";
    } else if p[0] == '\\' {
      assert q[2..] == "";
    } else {
      SampleNoLonger(p[1..]);
      assert q[1..] == p[1..] + "%";
    }
  }

  /** The sample of a pattern with a wildcard does not begin with the prefix as written. */
  lemma {:induction false} SampleNotPrefix(p: string)
    requires !Plain(p)
    ensures !(p <= Sample(p + "%"))
  {
    var q := p + "%";
    var s := Sample(q);
    SampleNoLonger(p);
    if p[0] == '%' {
      assert q[1..] == p[1..] + "%";
      SampleNoLonger(p[1..]);
    } else if p[0] == '\\' && |p| > 1 {
      assert q[2..] == p[2..] + "%";
      SampleNoLonger(p[2..]);
    } else if p[0] == '\\' {
      assert q[2..] == "" && s == "%";
    } else if p[0] == '_' {
      assert s[0] == 'x';
    } else {
      assert q[1..] == p[1..] + "%" && s[1..] == Sample(q[1..]);
      assert !Plain(p[1..]) by {
        var i :| 0 <= i < |p| && Special(p[i]);
        assert p[1..][i - 1] == p[i];
      }
      SampleNotPrefix(p[1..]);
    }
  }

  /** The two lookups agree on every set of IDs exactly for the plain prefixes. */
  lemma LikeAgreesIffPlain(p: string)
    ensures (forall ids: set<string> :: ByPrefix(ids, p) == ByLike(ids, p)) <==> Plain(p)
  {
    if Plain(p) {
      forall ids: set<string>
        ensures ByPrefix(ids, p) == ByLike(ids, p)
      {
        SameVerdict(ids, p);
      }
    } else {
      var x := Sample(p + "%");
      PatternWellEscaped(p);
      SampleMatches(p + "%");
      SampleNotPrefix(p);
      var ids := {x};
      assert p != x;
      assert PrefixMatches(ids, p) == {};
      assert LikeMatches(ids, p) == {x};
      assert ByPrefix(ids, p) == NotFound && ByLike(ids, p) != NotFound;
    }
  }

  lemma SameVerdict(ids: set<string>, p: string)
    requires Plain(p)
    ensures ByPrefix(ids, p) == ByLike(ids, p)
  {
    forall id | id in ids
      ensures Like(id, p + "%") <==> p <= id
    {
      LikePlain(id, p);
    }
    assert PrefixMatches(ids, p) == LikeMatches(ids, p);
  }

  /** What a lookup finds is an ID of the table. */
  lemma FoundIsIn(ids: set<string>, p: string)
    ensures ByPrefix(ids, p).Found? ==> ByPrefix(ids, p).value in ids
    ensures ByLike(ids, p).Found? ==> ByLike(ids, p).value in ids
  {
    if ByPrefix(ids, p).Found? {
      OnlyMatch(ids, p, PrefixMatches(ids, p), ByPrefix(ids, p).value);
      assert p !in ids ==> ByPrefix(ids, p).value in PrefixMatches(ids, p);
    }
    if ByLike(ids, p).Found? {
      OnlyMatch(ids, p, LikeMatches(ids, p), ByLike(ids, p).value);
      assert p !in ids ==> ByLike(ids, p).value in LikeMatches(ids, p);
    }
  }
}
