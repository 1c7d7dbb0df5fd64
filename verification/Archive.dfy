/** Outcomes that may be absent, used throughout the model. */
module Wrappers {
  datatype Option<+T> = None | Some(value: T)
}

/** Occurrence states and the transitions the protocol permits. */
module States {
  datatype State =
    | Recorded | Transferred | Verified | Recoverable | Evicting | Evicted | Abandoned

  function Allowed(s: State): set<State> {
    match s
    case Recorded => {Transferred, Abandoned}
    case Transferred => {Verified, Recorded, Abandoned}
    case Verified => {Recoverable, Recorded, Abandoned}
    case Recoverable => {Evicting, Abandoned}
    case Evicting => {Evicted}
    case Evicted => {}
    case Abandoned => {}
  }

  predicate CanTransition(current: State, target: State) {
    target in Allowed(current)
  }

  /** Position in the linear pipeline; `Abandoned` has none. */
  function Rank(s: State): int {
    match s
    case Recorded => 0
    case Transferred => 1
    case Verified => 2
    case Recoverable => 3
    case Evicting => 4
    case Evicted => 5
    case Abandoned => -1
  }

  /** States the driver still works on. */
  predicate Active(s: State) {
    s != Evicted && s != Abandoned
  }
}

/** Slash-separated paths, as the program handles them: plain strings. */
module Paths {
  /** Where an entry of an item lives: the item's own path for the root. */
  function Abs(spool: string, rel: string): string {
    if rel == "" then spool else spool + "/" + rel
  }

  /** `p` lies strictly below the directory `a`. */
  predicate Below(p: string, a: string) {
    |p| > |a| + 1 && p[..|a|] == a && p[|a|] == '/'
  }

  predicate Within(p: string, a: string) {
    p == a || Below(p, a)
  }

  function Rel(p: string, a: string): string
    requires Within(p, a)
  {
    if p == a then "" else p[|a| + 1..]
  }

  /** Strict descent among an item's relative paths; "" is the item's root. */
  predicate Under(p: string, a: string) {
    if a == "" then p != "" else Below(p, a)
  }

  lemma AbsIsWithin(spool: string, rel: string)
    ensures Within(Abs(spool, rel), spool)
    ensures Rel(Abs(spool, rel), spool) == rel
  {
    if rel != "" {
      var p := Abs(spool, rel);
      assert p[..|spool|] == spool;
      assert p[|spool| + 1..] == rel;
    }
  }

  lemma AbsOfRel(p: string, spool: string)
    requires Within(p, spool)
    ensures Abs(spool, Rel(p, spool)) == p
  {
    if p != spool {
      assert p == p[..|spool|] + [p[|spool|]] + p[|spool| + 1..];
    }
  }

  lemma AbsInjective(spool: string, a: string, b: string)
    requires Abs(spool, a) == Abs(spool, b)
    ensures a == b
  {
    AbsIsWithin(spool, a);
    AbsIsWithin(spool, b);
  }

  lemma UnderIsBelow(spool: string, p: string, a: string)
    ensures p != "" ==> (Under(p, a) <==> Below(Abs(spool, p), Abs(spool, a)))
    ensures !Below(spool, Abs(spool, a))
  {
    var x, y := Abs(spool, p), Abs(spool, a);
    if p != "" && a == "" {
      assert x[..|spool|] == spool;
    } else if p != "" {
      assert x[|spool| + 1..] == p && y[|spool| + 1..] == a;
      if Below(p, a) {
        assert p == a + "/" + p[|a| + 1..];
        assert x == y + "/" + p[|a| + 1..];
        assert x[..|y|] == y;
      }
      assert |x| > |y| ==> x[..|y|][|spool| + 1..] == p[..|a|];
    }
  }

  /** `path.rpartition("/")[0]`. */
  function Parent(p: string): string {
    if p == "" then "" else if p[|p| - 1] == '/' then p[..|p| - 1] else Parent(p[..|p| - 1])
  }

  /** The parent ends where the last slash stands. */
  lemma {:induction false} ParentIsPrefix(p: string)
    ensures '/' in p ==> |Parent(p)| < |p| && p[..|Parent(p)|] == Parent(p) && p[|Parent(p)|] == '/'
    ensures forall i | 0 <= i < |p| && p[i] == '/' :: i <= |Parent(p)|
    ensures '/' !in p ==> Parent(p) == ""
  {
    if p != "" && p[|p| - 1] != '/' {
      var init := p[..|p| - 1];
      ParentIsPrefix(init);
      if '/' in p {
        assert '/' in init;
        assert p[..|Parent(init)|] == init[..|Parent(init)|];
      }
      assert forall i | 0 <= i < |p| && p[i] == '/' :: init[i] == '/';
    }
  }

  lemma ParentIsAbove(p: string)
    requires Parent(p) != "" && p[|p| - 1] != '/'
    ensures Below(p, Parent(p))
  {
    ParentIsPrefix(p);
  }

  /** Going up from below `a` one meets `a`, or stays below it. */
  lemma ParentStaysBelow(p: string, a: string)
    requires Below(p, a)
    ensures |a| <= |Parent(p)| < |p|
    ensures |Parent(p)| == |a| ==> Parent(p) == a
    ensures |Parent(p)| > |a| ==> Parent(p)[..|a|] == a && Parent(p)[|a|] == '/'
  {
    ParentIsPrefix(p);
    assert p[|a|] == '/';
    if |Parent(p)| > |a| {
      assert Parent(p)[..|a|] == p[..|Parent(p)|][..|a|];
    }
  }

  /** Whatever lies between an entry of an item and the folder is part of the item. */
  lemma BetweenIsWithin(p: string, a: string, spool: string)
    requires Within(p, spool) && Below(p, a) && Below(a, Parent(spool)) && a[|a| - 1] != '/'
    ensures Within(a, spool)
  {
    ParentIsPrefix(spool);
    if |a| < |spool| {
      assert false;
    } else if |a| == |spool| {
      assert a == p[..|a|] && spool == p[..|a|];
    } else {
      assert a == p[..|a|];
      assert a[..|spool|] == p[..|spool|] && a[|spool|] == p[|spool|];
    }
  }

  /** `s.split("/")`. */
  function Split(s: string): (parts: seq<string>)
    ensures |parts| > 0
  {
    if s == "" then [""]
    else if s[0] == '/' then [""] + Split(s[1..])
    else var rest := Split(s[1..]); [[s[0]] + rest[0]] + rest[1..]
  }

  /** Every segment is a real name: not empty, not "." and not "..". */
  predicate Plain(s: string) {
    forall part | part in Split(s) :: part != "" && part != "." && part != ".."
  }

  lemma {:induction false} SplitJoin(a: string, b: string)
    ensures Split(a + "/" + b) == Split(a) + Split(b)
  {
    if a == "" {
      assert (a + "/" + b)[1..] == b;
    } else {
      assert (a + "/" + b)[1..] == a[1..] + "/" + b;
      SplitJoin(a[1..], b);
    }
  }

  lemma PlainStart(s: string)
    requires Plain(s)
    ensures s != "" && s[0] != '/'
  {
    assert Split(s)[0] in Split(s);
  }

  lemma PlainEnd(s: string)
    requires Plain(s)
    ensures s != "" && s[|s| - 1] != '/'
  {
    PlainStart(s);
    var init := s[..|s| - 1];
    SplitJoin(init, "");
    assert Split(s)[|Split(s)| - 1] in Split(s);
    assert s == init + [s[|s| - 1]];
    assert init + "/" + "" == init + ['/'];
  }

  lemma PlainParts(a: string, b: string)
    requires Plain(a + "/" + b)
    ensures Plain(a) && Plain(b)
  {
    SplitJoin(a, b);
    assert forall x | x in Split(a) :: x in Split(a) + Split(b);
    assert forall x | x in Split(b) :: x in Split(a) + Split(b);
  }

  /** The absolute path of a real entry. */
  predicate Absolute(p: string) {
    |p| > 1 && p[0] == '/' && Plain(p[1..])
  }

  lemma AbsoluteParts(spool: string, rel: string)
    requires Absolute(Abs(spool, rel)) && spool != "" && rel != ""
    ensures Plain(rel)
    ensures Parent(Abs(spool, rel)) == Abs(spool, Parent(rel))
  {
    hide Plain, Split;
    var p := Abs(spool, rel);
    assert p[1..] == spool[1..] + "/" + rel;
    PlainParts(spool[1..], rel);
    PlainStart(rel);
    ParentIsPrefix(rel);
    ParentIsPrefix(p);
    assert p[|spool|] == '/';
    if '/' in rel {
      var k := |Parent(rel)|;
      assert rel[k] == '/' && p[|spool| + 1 + k] == '/';
      assert Parent(rel) != "";
      assert |Parent(p)| >= |spool| + 1 + k;
      assert p[|Parent(p)|] == rel[|Parent(p)| - |spool| - 1];
      assert |Parent(p)| == |spool| + 1 + k;
      assert Parent(p) == p[..|Parent(p)|];
    } else {
      assert |Parent(p)| >= |spool|;
      assert Parent(p) == p[..|spool|];
    }
  }

  lemma AbsoluteIsBelow(p: string)
    requires Absolute(p)
    ensures Below(p, Parent(p)) && p[|p| - 1] != '/'
  {
    PlainEnd(p[1..]);
    ParentIsPrefix(p);
  }
}
