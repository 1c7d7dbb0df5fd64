/** Orders on strings, and the sorts the program relies on. */
module Order {
  /** Code-point order, as `sorted` and `ORDER BY` apply it to paths and names. */
  predicate Less(a: string, b: string) {
    if b == "" then false
    else if a == "" then true
    else a[0] < b[0] || (a[0] == b[0] && Less(a[1..], b[1..]))
  }

  lemma {:induction false} LessIsTotal(a: string, b: string)
    ensures Less(a, b) || Less(b, a) || a == b
    ensures !(Less(a, b) && Less(b, a)) && (a == b ==> !Less(a, b))
  {
    if a != "" && b != "" {
      LessIsTotal(a[1..], b[1..]);
      assert a == [a[0]] + a[1..] && b == [b[0]] + b[1..];
    }
  }

  lemma {:induction false} LessIsTransitive(a: string, b: string, c: string)
    requires Less(a, b) && Less(b, c)
    ensures Less(a, c)
  {
    if a != "" && a[0] == b[0] == c[0] {
      LessIsTransitive(a[1..], b[1..], c[1..]);
    }
  }

  /** `rel_path.count("/")`. */
  function Slashes(s: string): nat {
    if s == "" then 0 else Slashes(s[1..]) + if s[0] == '/' then 1 else 0
  }

  lemma {:induction false} SlashesAdd(a: string, b: string)
    ensures Slashes(a + b) == Slashes(a) + Slashes(b)
  {
    if a == "" {
      assert a + b == b;
    } else {
      assert (a + b)[1..] == a[1..] + b;
      SlashesAdd(a[1..], b);
    }
  }

  /** `sorted(key=_depth_first, reverse=True)`: deeper paths first. */
  predicate DeeperFirst(a: string, b: string) {
    Slashes(a) > Slashes(b) || (Slashes(a) == Slashes(b) && Less(b, a))
  }

  ghost predicate StrictOrder(before: (string, string) -> bool) {
    && (forall a, b :: (before(a, b) || before(b, a) || a == b) && !(before(a, b) && before(b, a)))
    && (forall a, b, c :: before(a, b) && before(b, c) ==> before(a, c))
  }

  lemma LessIsStrict()
    ensures StrictOrder(Less)
  {
    forall a, b ensures (Less(a, b) || Less(b, a) || a == b) && !(Less(a, b) && Less(b, a)) {
      LessIsTotal(a, b);
    }
    forall a, b, c | Less(a, b) && Less(b, c) ensures Less(a, c) { LessIsTransitive(a, b, c); }
  }

  lemma DeeperIsStrict()
    ensures StrictOrder(DeeperFirst)
  {
    LessIsStrict();
  }

  ghost predicate Sorted(s: seq<string>, before: (string, string) -> bool) {
    forall i, j | 0 <= i < j < |s| :: before(s[i], s[j])
  }

  method SortBy(names: set<string>, before: (string, string) -> bool) returns (s: seq<string>)
    requires StrictOrder(before)
    ensures Sorted(s, before) && (set x | x in s) == names && |s| == |names|
  {
    s := [];
    var rest := names;
    while rest != {}
      invariant Sorted(s, before) && rest !! (set x | x in s) && rest + (set x | x in s) == names
      invariant forall x, y | x in s && y in rest :: before(x, y)
      decreases rest
    {
      var m := First(rest, before);
      rest := rest - {m};
      ghost var was := s;
      s := s + [m];
      assert (set x | x in s) == (set x | x in was) + {m};
    }
    SortedCounts(s, before);
  }

  lemma {:induction false} SortedCounts(s: seq<string>, before: (string, string) -> bool)
    requires StrictOrder(before) && Sorted(s, before)
    ensures |set x | x in s| == |s|
    decreases |s|
  {
    if s == [] {
      assert (set x | x in s) == {};
    } else {
      var rest, last := s[..|s| - 1], s[|s| - 1];
      SortedCounts(rest, before);
      assert forall i | 0 <= i < |rest| :: before(s[i], last);
      assert last !in rest && s == rest + [last];
      assert (set x | x in s) == (set x | x in rest) + {last};
    }
  }

  method First(names: set<string>, before: (string, string) -> bool) returns (m: string)
    requires StrictOrder(before) && names != {}
    ensures m in names && forall x | x in names && x != m :: before(m, x)
  {
    m :| m in names;
    var rest := names - {m};
    while rest != {}
      invariant rest <= names && m in names
      invariant forall x | x in names && x !in rest && x != m :: before(m, x)
      decreases rest
    {
      var x :| x in rest;
      if before(x, m) { m := x; }
      rest := rest - {x};
    }
  }

  /** There is only one way to put a set of names in order. */
  lemma {:induction false} SortedIsUnique(s: seq<string>, t: seq<string>, before: (string, string) -> bool)
    requires StrictOrder(before) && Sorted(s, before) && Sorted(t, before)
    requires forall x :: x in s <==> x in t
    ensures s == t
  {
    assert forall i | 0 <= i < |s| :: s[i] in s;
    assert forall i | 0 <= i < |t| :: t[i] in t;
    assert t != [] ==> t[0] in s;
    if s != [] {
      assert s[0] == t[0];
      forall x ensures x in s[1..] <==> x in t[1..] {
        assert s == [s[0]] + s[1..] && t == [t[0]] + t[1..];
        assert x in s <==> x == s[0] || x in s[1..];
        assert x in t <==> x == t[0] || x in t[1..];
        assert s[0] !in s[1..] && t[0] !in t[1..];
      }
      SortedIsUnique(s[1..], t[1..], before);
      assert s == [s[0]] + s[1..] && t == [t[0]] + t[1..];
    }
  }

  predicate Least(m: string, names: set<string>) {
    m in names && forall x | x in names && x != m :: Less(m, x)
  }

  lemma {:induction false} LeastExists(names: set<string>)
    requires names != {}
    ensures exists m :: Least(m, names)
    decreases |names|
  {
    var y :| y in names;
    LessIsStrict();
    if names == {y} {
      assert Least(y, names);
    } else {
      LeastExists(names - {y});
      var m :| Least(m, names - {y});
      assert Least(if Less(y, m) then y else m, names);
    }
  }

  /** The names in order. */
  function Ordered(names: set<string>): (s: seq<string>)
    ensures Sorted(s, Less) && forall x :: x in s <==> x in names
    decreases |names|
  {
    if names == {} then [] else
      LeastExists(names);
      LessIsStrict();
      var m :| Least(m, names);
      [m] + Ordered(names - {m})
  }
}
