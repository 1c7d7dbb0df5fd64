/** Merging catalog exports into one store: exact on agreement, closed on collision. */
module Merge {
  import opened Wrappers
  import opened States
  import opened Paths
  import opened Records

  /** The working database and the lineage rows of the exports it took in. */
  datatype Work = Work(db: Db, rows: set<LineageRow>)

  /** The columns and child rows that may never differ between two exports of one id. */
  predicate SameOccurrence(x: Occ, y: Occ) {
    && x.origin == y.origin && x.item == y.item && x.archive == y.archive && x.kind == y.kind
    && x.spool == y.spool && x.root == y.root && x.count == y.count
    && x.entries == y.entries && x.prints == y.prints
  }

  predicate SamePublication(x: Attempt, y: Attempt) {
    x.origin == y.origin && x.occ == y.occ && x.seqno == y.seqno
  }

  /** `_base_seq_for`. */
  function BaseSeq(rows: set<LineageRow>, store: StoreId): nat {
    HighestSeq(set r | r in rows && r.store == store :: r.seqno)
  }

  predicate IsTop(m: nat, s: set<nat>) {
    m in s && forall x | x in s :: x <= m
  }

  function HighestSeq(s: set<nat>): (n: nat)
    ensures if s == {} then n == 0 else IsTop(n, s)
  {
    if s == {} then 0 else
      TopExists(s);
      var m: nat :| IsTop(m, s);
      m
  }

  lemma {:induction false} TopExists(s: set<nat>)
    requires s != {}
    ensures exists m :: IsTop(m, s)
    decreases |s|
  {
    var y :| y in s;
    if s == {y} {
      assert IsTop(y, s);
    } else {
      TopExists(s - {y});
      var m: nat :| IsTop(m, s - {y});
      var top: nat := if m < y then y else m;
      forall x | x in s ensures x <= top {
        if x != y { assert x in s - {y}; }
      }
      assert IsTop(top, s);
    }
  }

  /** Does this export come later in the row's own lineage than anything taken in? */
  predicate Later(work: Work, row: LineageRow, origin: StoreId) {
    row.store == origin && row.seqno > BaseSeq(work.rows, origin)
  }

  /** The row `_merge_occurrence` leaves; `abandoned` is terminal, else the higher state. */
  function MergedOcc(existing: Occ, incoming: Occ, later: bool): Occ {
    if existing.state == Abandoned then existing
    else if incoming.state == Abandoned then if later then incoming else existing
    else if Rank(incoming.state) > Rank(existing.state) then incoming
    else existing
  }

  /** The row `_merge_attempt` leaves: only a pending one learns, only from a later export. */
  function MergedAttempt(existing: Attempt, incoming: Attempt, later: bool): Attempt {
    if existing.outcome == Pending && incoming.outcome != Pending && later then
      existing.(outcome := incoming.outcome, finished := incoming.finished,
                snapshot := if existing.snapshot.Some? then existing.snapshot else incoming.snapshot)
    else existing
  }

  /** No identifier names two different things. */
  predicate Agree(x: Db, y: Db) {
    && (forall o | o in x.occs && o in y.occs :: SameOccurrence(x.occs[o], y.occs[o]))
    && (forall a | a in x.attempts && a in y.attempts :: SamePublication(x.attempts[a], y.attempts[a]))
  }

  function Highest(x: map<StoreId, nat>, y: map<StoreId, nat>): map<StoreId, nat> {
    map s | s in x.Keys + y.Keys ::
      if s !in y then x[s] else if s !in x || x[s] < y[s] then y[s] else x[s]
  }

  function OccAt(work: Work, e: Export, row: LineageRow, o: Id): Occ
    requires o in work.db.occs || o in e.db.occs
  {
    if o !in work.db.occs then e.db.occs[o]
    else if o !in e.db.occs then work.db.occs[o]
    else MergedOcc(work.db.occs[o], e.db.occs[o], Later(work, row, work.db.occs[o].origin))
  }

  function AttemptAt(work: Work, e: Export, row: LineageRow, a: Id): Attempt
    requires a in work.db.attempts || a in e.db.attempts
  {
    if a !in work.db.attempts then e.db.attempts[a]
    else if a !in e.db.attempts then work.db.attempts[a]
    else MergedAttempt(work.db.attempts[a], e.db.attempts[a], Later(work, row, work.db.attempts[a].origin))
  }

  function MergedOccs(work: Work, e: Export, row: LineageRow): map<Id, Occ> {
    map o | o in work.db.occs.Keys + e.db.occs.Keys :: OccAt(work, e, row, o)
  }

  function MergedAttempts(work: Work, e: Export, row: LineageRow): map<Id, Attempt> {
    map a | a in work.db.attempts.Keys + e.db.attempts.Keys :: AttemptAt(work, e, row, a)
  }

  /** `INSERT OR IGNORE`: an intent already there stays; a new one is marked. */
  function MergedIntents(x: map<Id, Intent>, y: map<Id, Intent>): map<Id, Intent> {
    map o | o in x.Keys + y.Keys :: if o in x then x[o] else y[o].(recovered := true)
  }

  /** `_merge_export`, when nothing collides. */
  function Merged(work: Work, e: Export, row: LineageRow): Work {
    Work(work.db.(occs := MergedOccs(work, e, row), attempts := MergedAttempts(work, e, row),
                  intents := MergedIntents(work.db.intents, e.db.intents),
                  lineage := Highest(work.db.lineage, e.db.lineage)),
         work.rows + (set r | r in e.rows))
  }

  /** Merging one export after the other; `None` is an identifier collision. */
  function MergedAll(work: Work, es: seq<Export>): Option<Work>
    requires forall e | e in es :: |e.rows| == 1
    decreases |es|
  {
    if es == [] then Some(work)
    else if !Agree(work.db, es[0].db) then None
    else MergedAll(Merged(work, es[0], es[0].rows[0]), es[1..])
  }

  // ---- the loops ------------------------------------------------------------------------------

  method MergeExport(work: Work, e: Export) returns (merged: Option<Work>)
    requires |e.rows| == 1
    ensures merged == if Agree(work.db, e.db) then Some(Merged(work, e, e.rows[0])) else None
  {
    hide SameOccurrence, SamePublication, OccAt, AttemptAt;
    var occs := MergeOccurrences(work, e);
    if occs == None { return None; }
    var attempts := MergeAttempts(work, e);
    if attempts == None { return None; }
    return Some(Work(work.db.(occs := occs.value, attempts := attempts.value,
                              intents := MergedIntents(work.db.intents, e.db.intents),
                              lineage := Highest(work.db.lineage, e.db.lineage)),
                     work.rows + (set r | r in e.rows)));
  }

  /** `_merge_occurrence` over all incoming rows. */
  method MergeOccurrences(work: Work, e: Export) returns (merged: Option<map<Id, Occ>>)
    requires |e.rows| == 1
    ensures merged == if forall o | o in work.db.occs && o in e.db.occs :: SameOccurrence(work.db.occs[o], e.db.occs[o])
                      then Some(MergedOccs(work, e, e.rows[0])) else None
  {
    hide SameOccurrence, MergedOcc, Later, OccAt, MergedOccs;
    var occs, rest := work.db.occs, e.db.occs.Keys;
    while rest != {}
      invariant rest <= e.db.occs.Keys && occs.Keys == work.db.occs.Keys + (e.db.occs.Keys - rest)
      invariant forall o | o in e.db.occs && o !in rest && o in work.db.occs ::
                  SameOccurrence(work.db.occs[o], e.db.occs[o])
      invariant forall o | o in e.db.occs && o !in rest :: occs[o] == OccAt(work, e, e.rows[0], o)
      invariant forall o | o in work.db.occs && (o in rest || o !in e.db.occs) :: occs[o] == work.db.occs[o]
      decreases rest
    {
      var o :| o in rest;
      rest := rest - {o};
      var row := e.db.occs[o];
      OccAtIs(work, e, e.rows[0], o);
      if o in work.db.occs {
        var taken := MergeOccurrence(work.db.occs[o], row, Later(work, e.rows[0], work.db.occs[o].origin));
        if taken == None { return None; }
        row := taken.value;
      }
      occs := occs[o := row];
    }
    AllOccs(work, e, e.rows[0], occs);
    return Some(occs);
  }

  lemma OccAtIs(work: Work, e: Export, row: LineageRow, o: Id)
    requires o in e.db.occs
    ensures OccAt(work, e, row, o) ==
            if o in work.db.occs then MergedOcc(work.db.occs[o], e.db.occs[o], Later(work, row, work.db.occs[o].origin))
            else e.db.occs[o]
  {}

  lemma AllOccs(work: Work, e: Export, row: LineageRow, occs: map<Id, Occ>)
    requires occs.Keys == work.db.occs.Keys + e.db.occs.Keys
    requires forall o | o in e.db.occs :: occs[o] == OccAt(work, e, row, o)
    requires forall o | o in work.db.occs && o !in e.db.occs :: occs[o] == work.db.occs[o]
    ensures occs == MergedOccs(work, e, row)
  {}

  /** `_merge_occurrence`: identity first, then who knows more. */
  method MergeOccurrence(existing: Occ, incoming: Occ, later: bool) returns (row: Option<Occ>)
    ensures row == if SameOccurrence(existing, incoming) then Some(MergedOcc(existing, incoming, later)) else None
  {
    if !SameOccurrence(existing, incoming) { return None; }
    if existing.state == Abandoned { return Some(existing); }
    var take := if incoming.state == Abandoned then later else Rank(incoming.state) > Rank(existing.state);
    return Some(if take then incoming else existing);
  }

  /** `_merge_attempt` over all incoming rows. */
  method MergeAttempts(work: Work, e: Export) returns (merged: Option<map<Id, Attempt>>)
    requires |e.rows| == 1
    ensures merged == if forall a | a in work.db.attempts && a in e.db.attempts ::
                           SamePublication(work.db.attempts[a], e.db.attempts[a])
                      then Some(MergedAttempts(work, e, e.rows[0])) else None
  {
    hide SamePublication, MergedAttempt, Later;
    var attempts, rest := work.db.attempts, e.db.attempts.Keys;
    while rest != {}
      invariant rest <= e.db.attempts.Keys && attempts.Keys == work.db.attempts.Keys + (e.db.attempts.Keys - rest)
      invariant forall a | a in e.db.attempts && a !in rest && a in work.db.attempts ::
                  SamePublication(work.db.attempts[a], e.db.attempts[a])
      invariant forall a | a in e.db.attempts && a !in rest :: attempts[a] == AttemptAt(work, e, e.rows[0], a)
      invariant forall a | a in work.db.attempts && (a in rest || a !in e.db.attempts) ::
                  attempts[a] == work.db.attempts[a]
      decreases rest
    {
      var a :| a in rest;
      rest := rest - {a};
      if a in work.db.attempts {
        var existing := work.db.attempts[a];
        if !SamePublication(existing, e.db.attempts[a]) { return None; }
        attempts := attempts[a := MergedAttempt(existing, e.db.attempts[a], Later(work, e.rows[0], existing.origin))];
      } else {
        attempts := attempts[a := e.db.attempts[a]];
      }
    }
    assert attempts == MergedAttempts(work, e, e.rows[0]);
    return Some(attempts);
  }

  /** `_merge`: the other exports in order, then every intent marked as reconstructed. */
  method MergeThem(base: Work, es: seq<Export>) returns (merged: Option<Work>)
    requires forall e | e in es :: |e.rows| == 1
    ensures merged == match MergedAll(base, es) { case None => None case Some(w) => Some(Marked(w)) }
  {
    var work, rest := base, es;
    while rest != []
      invariant forall e | e in rest :: |e.rows| == 1
      invariant MergedAll(base, es) == MergedAll(work, rest)
      decreases |rest|
    {
      var next := MergeExport(work, rest[0]);
      if next == None { return None; }
      work, rest := next.value, rest[1..];
    }
    return Some(Marked(work));
  }

  function Marked(w: Work): Work {
    w.(db := w.db.(intents := map o | o in w.db.intents :: w.db.intents[o].(recovered := true)))
  }

  // ---- what a merge keeps and refuses ---------------------------------------------------------

  /** The merged rows are of the very things each export speaks of. */
  ghost predicate Contains(work: Work, e: Export) {
    && (forall o | o in e.db.occs :: o in work.db.occs && SameOccurrence(e.db.occs[o], work.db.occs[o]))
    && (forall a | a in e.db.attempts ::
         a in work.db.attempts && SamePublication(e.db.attempts[a], work.db.attempts[a]))
  }

  /** Nothing was made up: every row is about something some export speaks of. */
  ghost predicate Drawn(work: Work, es: seq<Export>) {
    && (forall o | o in work.db.occs :: exists e | e in es :: o in e.db.occs)
    && (forall a | a in work.db.attempts :: exists e | e in es :: a in e.db.attempts)
  }

  lemma MergedHolds(work: Work, e: Export, row: LineageRow)
    requires Agree(work.db, e.db)
    ensures Contains(Merged(work, e, row), e)
    ensures forall d: Export :: Contains(work, d) ==> Contains(Merged(work, e, row), d)
  {
    forall d: Export | Contains(work, d) ensures Contains(Merged(work, e, row), d) {
      forall o | o in d.db.occs ensures SameOccurrence(d.db.occs[o], Merged(work, e, row).db.occs[o]) {
        assert o in work.db.occs;
      }
      forall a | a in d.db.attempts ensures SamePublication(d.db.attempts[a], Merged(work, e, row).db.attempts[a]) {
        assert a in work.db.attempts;
      }
    }
    hide Later;
  }

  lemma MergedDraws(work: Work, es: seq<Export>, e: Export, row: LineageRow)
    requires Drawn(work, es)
    ensures Drawn(Merged(work, e, row), es + [e])
  {
    var w' := Merged(work, e, row);
    forall o | o in w'.db.occs ensures exists d | d in es + [e] :: o in d.db.occs {
      if o in e.db.occs { assert e in es + [e]; } else {
        assert o in work.db.occs;
        var d :| d in es && o in d.db.occs;
        assert d in es + [e];
      }
    }
    forall a | a in w'.db.attempts ensures exists d | d in es + [e] :: a in d.db.attempts {
      if a in e.db.attempts { assert e in es + [e]; } else {
        assert a in work.db.attempts;
        var d :| d in es && a in d.db.attempts;
        assert d in es + [e];
      }
    }
  }

  /** `work` is what `es` together say. */
  ghost predicate Represents(work: Work, es: seq<Export>) {
    (forall e | e in es :: Contains(work, e)) && Drawn(work, es)
  }

  lemma RepresentsOn(work: Work, es: seq<Export>, e: Export, row: LineageRow)
    requires Represents(work, es) && Agree(work.db, e.db)
    ensures Represents(Merged(work, e, row), es + [e])
  {
    MergedHolds(work, e, row);
    MergedDraws(work, es, e, row);
    hide Contains, Drawn, Merged, Agree;
  }

  /** One export agrees with the merged rows exactly when it agrees with each export in them. */
  lemma AgreesThrough(work: Work, es: seq<Export>, e: Export)
    requires Represents(work, es)
    ensures Agree(work.db, e.db) <==> forall d | d in es :: Agree(d.db, e.db)
  {
    if Agree(work.db, e.db) {
      forall d | d in es ensures Agree(d.db, e.db) { assert Contains(work, d); }
    }
    if forall d | d in es :: Agree(d.db, e.db) {
      forall o | o in work.db.occs && o in e.db.occs ensures SameOccurrence(work.db.occs[o], e.db.occs[o]) {
        var d :| d in es && o in d.db.occs;
        assert Contains(work, d) && Agree(d.db, e.db);
      }
      forall a | a in work.db.attempts && a in e.db.attempts
        ensures SamePublication(work.db.attempts[a], e.db.attempts[a])
      {
        var d :| d in es && a in d.db.attempts;
        assert Contains(work, d) && Agree(d.db, e.db);
      }
    }
  }

  /** No two of the exports use one identifier for two things. */
  ghost predicate AllAgree(es: seq<Export>) {
    forall i, j | 0 <= i < j < |es| :: Agree(es[i].db, es[j].db)
  }

  /**
   * A merge succeeds exactly when all exports agree pairwise, and then every
   * occurrence and attempt of every export is in the result, as it was.
   */
  lemma {:induction false} MergeIsExact(work: Work, done: seq<Export>, es: seq<Export>)
    requires Represents(work, done) && AllAgree(done) && forall e | e in es :: |e.rows| == 1
    ensures MergedAll(work, es).Some? <==> AllAgree(done + es)
    ensures MergedAll(work, es).Some? ==> Represents(MergedAll(work, es).value, done + es)
    decreases |es|
  {
    if es == [] {
      assert done + es == done;
    } else {
      var e := es[0];
      AgreesThrough(work, done, e);
      assert (done + [e]) + es[1..] == done + es;
      var all := done + es;
      if Agree(work.db, e.db) {
        RepresentsOn(work, done, e, e.rows[0]);
        OneMoreAgrees(done, e);
        MergeIsExact(Merged(work, e, e.rows[0]), done + [e], es[1..]);
      } else {
        var d :| d in done && !Agree(d.db, e.db);
        var i :| 0 <= i < |done| && done[i] == d;
        assert all[i] == d && all[|done|] == e;
      }
    }
  }

  lemma OneMoreAgrees(done: seq<Export>, e: Export)
    requires AllAgree(done) && forall d | d in done :: Agree(d.db, e.db)
    ensures AllAgree(done + [e])
  {
    hide Agree;
    assert forall i | 0 <= i < |done| :: done[i] in done;
  }

  // ---- which state the merged row has -----------------------------------------------------------

  ghost predicate SaysOf(e: Export, o: Id, s: State) {
    o in e.db.occs && e.db.occs[o].state == s
  }

  /** Some export recorded the state; unless one says abandoned, none recorded a higher one. */
  ghost predicate Ranked(work: Work, es: seq<Export>, o: Id) {
    o in work.db.occs ==>
      && (exists e | e in es :: SaysOf(e, o, work.db.occs[o].state))
      && ((forall e | e in es :: !SaysOf(e, o, Abandoned)) ==>
            forall e | e in es :: o in e.db.occs ==> Rank(e.db.occs[o].state) <= Rank(work.db.occs[o].state))
  }

  lemma RankedOn(work: Work, es: seq<Export>, e: Export, row: LineageRow, o: Id)
    requires Represents(work, es) && Ranked(work, es, o) && Agree(work.db, e.db)
    ensures Ranked(Merged(work, e, row), es + [e], o)
  {
    hide OccAt, Contains, Drawn, SaysOf, Rank, MergedAttempts, MergedIntents, Highest;
    var w', all := Merged(work, e, row), es + [e];
    if o in w'.db.occs {
      var s := w'.db.occs[o].state;
      StateFrom(work, e, row, o);
      if o in work.db.occs && s == work.db.occs[o].state {
        var d :| d in es && SaysOf(d, o, s);
        assert d in all && SaysOf(d, o, s);
      } else {
        assert e in all && SaysOf(e, o, s);
      }
      if forall x | x in all :: !SaysOf(x, o, Abandoned) {
        assert e in all && forall d | d in es :: d in all;
        NotAbandoned(work, es, o);
        StateIsHighest(work, e, row, o);
        forall d | d in all && o in d.db.occs ensures Rank(d.db.occs[o].state) <= Rank(s) {
          if d in es { ContainedOcc(work, d, o); }
        }
      }
    }
  }

  lemma ContainedOcc(work: Work, e: Export, o: Id)
    requires Contains(work, e) && o in e.db.occs
    ensures o in work.db.occs
  {}

  /** The merged state is one of the two it was drawn from. */
  lemma StateFrom(work: Work, e: Export, row: LineageRow, o: Id)
    requires o in work.db.occs || o in e.db.occs
    ensures var s := OccAt(work, e, row, o).state;
            (o in work.db.occs && s == work.db.occs[o].state) || SaysOf(e, o, s)
  {}

  /** Without an abandoned one it is the higher of the two. */
  lemma StateIsHighest(work: Work, e: Export, row: LineageRow, o: Id)
    requires o in work.db.occs || o in e.db.occs
    requires (o in work.db.occs ==> work.db.occs[o].state != Abandoned) && !SaysOf(e, o, Abandoned)
    ensures o in work.db.occs ==> Rank(work.db.occs[o].state) <= Rank(OccAt(work, e, row, o).state)
    ensures o in e.db.occs ==> Rank(e.db.occs[o].state) <= Rank(OccAt(work, e, row, o).state)
  {}

  lemma NotAbandoned(work: Work, es: seq<Export>, o: Id)
    requires Ranked(work, es, o) && forall e | e in es :: !SaysOf(e, o, Abandoned)
    ensures o in work.db.occs ==> work.db.occs[o].state != Abandoned
  {}

  /** Where nobody says abandoned, the merged state is the highest any export recorded. */
  lemma {:induction false} MergeTakesTheHighest(work: Work, done: seq<Export>, es: seq<Export>, o: Id)
    requires Represents(work, done) && Ranked(work, done, o) && forall e | e in es :: |e.rows| == 1
    requires MergedAll(work, es).Some?
    ensures Ranked(MergedAll(work, es).value, done + es, o)
    decreases |es|
  {
    if es == [] {
      assert done + es == done;
    } else {
      var e := es[0];
      RankedOn(work, done, e, e.rows[0], o);
      RepresentsOn(work, done, e, e.rows[0]);
      MergeTakesTheHighest(Merged(work, e, e.rows[0]), done + [e], es[1..], o);
      assert (done + [e]) + es[1..] == done + es;
    }
  }

  /** Once abandoned in the merged rows, abandoned whatever later exports say. */
  lemma {:induction false} AbandonedAbsorbs(work: Work, es: seq<Export>, o: Id)
    requires forall e | e in es :: |e.rows| == 1
    requires o in work.db.occs && work.db.occs[o].state == Abandoned && MergedAll(work, es).Some?
    ensures o in MergedAll(work, es).value.db.occs && MergedAll(work, es).value.db.occs[o] == work.db.occs[o]
    decreases |es|
  {
    if es != [] { AbandonedAbsorbs(Merged(work, es[0], es[0].rows[0]), es[1..], o); }
  }

  // ---- which outcome the merged attempt has -------------------------------------------------------

  ghost predicate Outcomes(work: Work, es: seq<Export>, a: Id) {
    a in work.db.attempts ==>
      exists e | e in es :: a in e.db.attempts && e.db.attempts[a].outcome == work.db.attempts[a].outcome
  }

  /** A merged attempt's outcome is one that some export recorded. */
  lemma {:induction false} OutcomesAreRecorded(work: Work, done: seq<Export>, es: seq<Export>, a: Id)
    requires forall e | e in es :: |e.rows| == 1
    requires Outcomes(work, done, a) && MergedAll(work, es).Some?
    ensures Outcomes(MergedAll(work, es).value, done + es, a)
    decreases |es|
  {
    hide Outcomes, Merged, Agree;
    if es == [] {
      assert done + es == done;
    } else {
      var e := es[0];
      OutcomeOn(work, done, e, e.rows[0], a);
      OutcomesAreRecorded(Merged(work, e, e.rows[0]), done + [e], es[1..], a);
      assert (done + [e]) + es[1..] == done + es;
    }
  }

  lemma OutcomeOn(work: Work, done: seq<Export>, e: Export, row: LineageRow, a: Id)
    requires Outcomes(work, done, a)
    ensures Outcomes(Merged(work, e, row), done + [e], a)
  {
    hide AttemptAt, MergedOccs, MergedIntents, Highest;
    if a in Merged(work, e, row).db.attempts {
      OutcomeFrom(work, e, row, a);
      var x := AttemptAt(work, e, row, a).outcome;
      if a in work.db.attempts && x == work.db.attempts[a].outcome {
        var d :| d in done && a in d.db.attempts && d.db.attempts[a].outcome == x;
        assert d in done + [e];
      } else {
        assert e in done + [e];
      }
    }
  }

  lemma OutcomeFrom(work: Work, e: Export, row: LineageRow, a: Id)
    requires a in work.db.attempts || a in e.db.attempts
    ensures var x := AttemptAt(work, e, row, a).outcome;
            || (a in work.db.attempts && x == work.db.attempts[a].outcome)
            || (a in e.db.attempts && x == e.db.attempts[a].outcome)
  {}

  // ---- what later exports teach -----------------------------------------------------------------

  /** Of one lineage, and `e` taken no earlier than `d`. */
  predicate NoEarlier(d: Export, e: Export)
    requires |d.rows| == |e.rows| == 1
  {
    d.rows[0].store == e.rows[0].store && d.rows[0].seqno <= e.rows[0].seqno
  }

  predicate Single(es: seq<Export>) {
    forall e | e in es :: |e.rows| == 1
  }

  /** How an attempt was settled: its outcome, when, and the snapshot it was bound to. */
  predicate SettledAlike(x: Attempt, y: Attempt) {
    x.outcome == y.outcome && x.finished == y.finished && x.snapshot == y.snapshot
  }

  /**
   * The exports tell one story of the attempt: only its own lineage speaks of it,
   * and of two exports the later one knows what the earlier one knew.
   */
  ghost predicate OneStory(es: seq<Export>, a: Id)
    requires Single(es)
  {
    && (forall e | e in es && a in e.db.attempts :: e.db.attempts[a].origin == e.rows[0].store)
    && forall d, e | d in es && e in es && NoEarlier(d, e) && a in d.db.attempts :: Continued(d, e, a)
  }

  predicate Continued(d: Export, e: Export, a: Id)
    requires a in d.db.attempts
  {
    && a in e.db.attempts
    && (d.db.attempts[a].outcome != Pending ==> SettledAlike(e.db.attempts[a], d.db.attempts[a]))
    && (d.db.attempts[a].snapshot.Some? ==> e.db.attempts[a].snapshot == d.db.attempts[a].snapshot)
  }

  /** The lineage rows taken in are those of the exports, no more and no less. */
  ghost predicate RowsOf(rows: set<LineageRow>, es: seq<Export>)
    requires Single(es)
  {
    forall r :: r in rows <==> exists e | e in es :: e.rows[0] == r
  }

  /** The merged row is settled as every export that settled it says, and bound as one says. */
  ghost predicate Learned(db: Db, es: seq<Export>, a: Id) {
    a in db.attempts ==>
      && (forall e | e in es && a in e.db.attempts && e.db.attempts[a].outcome != Pending ::
            SettledAlike(db.attempts[a], e.db.attempts[a]))
      && (db.attempts[a].snapshot.Some? ==>
            exists e | e in es :: a in e.db.attempts && e.db.attempts[a].snapshot == db.attempts[a].snapshot)
  }

  /** What is not later than all taken in is no later than one of them. */
  lemma NotLater(work: Work, es: seq<Export>, e: Export, b: Export, origin: StoreId) returns (d: Export)
    requires Single(es) && RowsOf(work.rows, es) && |e.rows| == 1 && e.rows[0].store == origin
    requires b in es && b.rows[0].store == origin && !Later(work, e.rows[0], origin)
    ensures d in es && NoEarlier(e, d)
  {
    var seqs := set r | r in work.rows && r.store == origin :: r.seqno;
    assert b.rows[0] in work.rows && b.rows[0].seqno in seqs;
    var top := HighestSeq(seqs);
    var r :| r in work.rows && r.store == origin && r.seqno == top;
    d :| d in es && d.rows[0] == r;
  }

  /** What is later than all taken in is later than each of them. */
  lemma LaterThanAll(work: Work, es: seq<Export>, e: Export, d: Export, origin: StoreId)
    requires Single(es) && RowsOf(work.rows, es) && |e.rows| == 1 && Later(work, e.rows[0], origin)
    requires d in es && d.rows[0].store == origin
    ensures NoEarlier(d, e)
  {
    var seqs := set r | r in work.rows && r.store == origin :: r.seqno;
    assert d.rows[0] in work.rows && d.rows[0].seqno in seqs;
  }

  lemma RowsOn(work: Work, es: seq<Export>, e: Export)
    requires Single(es) && RowsOf(work.rows, es) && |e.rows| == 1
    ensures Single(es + [e]) && RowsOf(Merged(work, e, e.rows[0]).rows, es + [e])
  {
    var rows := Merged(work, e, e.rows[0]).rows;
    assert e.rows == [e.rows[0]];
    forall r ensures r in rows <==> exists d | d in es + [e] :: d.rows[0] == r {
      if r in work.rows {
        var d :| d in es && d.rows[0] == r;
        assert d in es + [e];
      }
      if r == e.rows[0] { assert e in es + [e]; }
      if exists d | d in es + [e] :: d.rows[0] == r {
        var d :| d in es + [e] && d.rows[0] == r;
        if d in es { assert r in work.rows; }
      }
    }
  }

  /** An export that settled the attempt is learned from, or says what is known already. */
  lemma LearnsOne(work: Work, es: seq<Export>, e: Export, a: Id)
    requires Single(es) && |e.rows| == 1 && RowsOf(work.rows, es) && Represents(work, es) && OneStory(es + [e], a)
    requires Learned(work.db, es, a) && Outcomes(work, es, a) && a in work.db.attempts && a in e.db.attempts
    requires Agree(work.db, e.db)
    ensures e.db.attempts[a].outcome != Pending ==>
              SettledAlike(AttemptAt(work, e, e.rows[0], a), e.db.attempts[a])
    ensures work.db.attempts[a].outcome != Pending ==> AttemptAt(work, e, e.rows[0], a) == work.db.attempts[a]
    ensures e.db.attempts[a].outcome == Pending ==> AttemptAt(work, e, e.rows[0], a) == work.db.attempts[a]
  {
    hide Represents, Later, RowsOf, SettledAlike, Learned;
    var x, y := work.db.attempts[a], e.db.attempts[a];
    var b :| b in es && a in b.db.attempts && b.db.attempts[a].outcome == x.outcome;
    assert b in es + [e] && e in es + [e];
    OriginOf(work, es, b, a);
    if y.outcome != Pending {
      if x.outcome != Pending {
        SettledOnce(work, es, e, b, a);
      } else if Later(work, e.rows[0], x.origin) {
        BoundBefore(work, es, e, a);
        TakenOver(work, e, e.rows[0], a);
      } else {
        var d := NotLater(work, es, e, b, x.origin);
        assert d in es + [e] && Continued(e, d, a);
        KnownSettled(work.db, es, d, a, y);
      }
    }
  }

  lemma TakenOver(work: Work, e: Export, row: LineageRow, a: Id)
    requires a in work.db.attempts && a in e.db.attempts && Later(work, row, work.db.attempts[a].origin)
    requires work.db.attempts[a].outcome == Pending && e.db.attempts[a].outcome != Pending
    requires work.db.attempts[a].snapshot.Some? ==> e.db.attempts[a].snapshot == work.db.attempts[a].snapshot
    ensures SettledAlike(AttemptAt(work, e, row, a), e.db.attempts[a])
  {
    hide Later;
  }

  lemma OriginOf(work: Work, es: seq<Export>, b: Export, a: Id)
    requires Represents(work, es) && b in es && a in b.db.attempts
    ensures a in work.db.attempts && work.db.attempts[a].origin == b.db.attempts[a].origin
  {
    assert Contains(work, b);
  }

  lemma SettledOnce(work: Work, es: seq<Export>, e: Export, b: Export, a: Id)
    requires Single(es) && |e.rows| == 1 && OneStory(es + [e], a) && Learned(work.db, es, a) && a in work.db.attempts
    requires b in es && a in b.db.attempts && a in e.db.attempts
    requires b.db.attempts[a].outcome != Pending && e.db.attempts[a].outcome != Pending
    requires b.db.attempts[a].origin == e.db.attempts[a].origin
    ensures SettledAlike(work.db.attempts[a], e.db.attempts[a])
  {
    assert b in es + [e] && e in es + [e];
    if NoEarlier(b, e) { assert Continued(b, e, a); } else { assert Continued(e, b, a); }
  }

  lemma BoundBefore(work: Work, es: seq<Export>, e: Export, a: Id)
    requires Single(es) && |e.rows| == 1 && RowsOf(work.rows, es) && Represents(work, es) && OneStory(es + [e], a)
    requires Learned(work.db, es, a) && a in work.db.attempts && a in e.db.attempts
    requires Later(work, e.rows[0], work.db.attempts[a].origin) && Agree(work.db, e.db)
    ensures work.db.attempts[a].snapshot.Some? ==> e.db.attempts[a].snapshot == work.db.attempts[a].snapshot
  {
    hide Represents, Later, RowsOf;
    if work.db.attempts[a].snapshot.Some? {
      var d :| d in es && a in d.db.attempts && d.db.attempts[a].snapshot == work.db.attempts[a].snapshot;
      assert d in es + [e] && e in es + [e];
      OriginOf(work, es, d, a);
      LaterThanAll(work, es, e, d, work.db.attempts[a].origin);
      assert Continued(d, e, a);
    }
  }

  lemma KnownSettled(db: Db, es: seq<Export>, d: Export, a: Id, y: Attempt)
    requires Learned(db, es, a) && a in db.attempts && d in es && a in d.db.attempts
    requires y.outcome != Pending && SettledAlike(d.db.attempts[a], y)
    ensures SettledAlike(db.attempts[a], y)
  {}

  lemma LearnedOn(work: Work, es: seq<Export>, e: Export, a: Id)
    requires Single(es) && |e.rows| == 1 && RowsOf(work.rows, es) && Represents(work, es) && OneStory(es + [e], a)
    requires Learned(work.db, es, a) && Outcomes(work, es, a) && Agree(work.db, e.db)
    ensures Learned(Merged(work, e, e.rows[0]).db, es + [e], a)
  {
    hide AttemptAt, Represents, RowsOf, OneStory, MergedOccs, MergedIntents, Highest, Outcomes;
    var w', all := Merged(work, e, e.rows[0]), es + [e];
    if a in w'.db.attempts {
      AttemptIs(work, es, e, a);
      if a in work.db.attempts && a in e.db.attempts { LearnsOne(work, es, e, a); }
      BoundAs(work, es, e, a);
      assert forall d | d in all :: d in es || d == e;
      SettledAsItself(e, a);
    }
  }

  lemma SettledAsItself(e: Export, a: Id)
    ensures a in e.db.attempts ==> SettledAlike(e.db.attempts[a], e.db.attempts[a])
  {}

  lemma AttemptIs(work: Work, es: seq<Export>, e: Export, a: Id)
    requires |e.rows| == 1 && Represents(work, es) && (a in work.db.attempts || a in e.db.attempts)
    ensures a !in work.db.attempts ==>
              AttemptAt(work, e, e.rows[0], a) == e.db.attempts[a] && forall d | d in es :: a !in d.db.attempts
    ensures a in work.db.attempts && a !in e.db.attempts ==> AttemptAt(work, e, e.rows[0], a) == work.db.attempts[a]
  {
    forall d | d in es && a in d.db.attempts ensures a in work.db.attempts { assert Contains(work, d); }
  }

  lemma BoundAs(work: Work, es: seq<Export>, e: Export, a: Id)
    requires |e.rows| == 1 && Learned(work.db, es, a) && (a in work.db.attempts || a in e.db.attempts)
    ensures var x := AttemptAt(work, e, e.rows[0], a);
            x.snapshot.Some? ==>
              exists d | d in es + [e] :: a in d.db.attempts && d.db.attempts[a].snapshot == x.snapshot
  {
    hide Later, SettledAlike;
    var x := AttemptAt(work, e, e.rows[0], a);
    if x.snapshot.Some? {
      if a in work.db.attempts && x.snapshot == work.db.attempts[a].snapshot {
        var d :| d in es && a in d.db.attempts && d.db.attempts[a].snapshot == x.snapshot;
        assert d in es + [e];
      } else {
        assert e in es + [e];
      }
    }
  }

  /**
   * Whatever any of the exports settled is settled so in the merged rows, however
   * they are ordered; what stays pending, no export has settled.
   */
  lemma {:induction false} SettlementIsLearned(work: Work, done: seq<Export>, es: seq<Export>, a: Id)
    requires Represents(work, done) && AllAgree(done) && Single(done + es) && Single(done) && Single(es)
    requires RowsOf(work.rows, done) && OneStory(done + es, a)
    requires Learned(work.db, done, a) && Outcomes(work, done, a) && MergedAll(work, es).Some?
    ensures Learned(MergedAll(work, es).value.db, done + es, a)
    decreases |es|
  {
    hide Represents, RowsOf, Learned, Outcomes, Merged, Agree, AllAgree, NoEarlier, Continued;
    if es == [] {
      assert done + es == done;
    } else {
      var e := es[0];
      assert (done + [e]) + es[1..] == done + es;
      StoryOf(done + [e], es[1..], a);
      AgreesThrough(work, done, e);
      OneMoreAgrees(done, e);
      RowsOn(work, done, e);
      LearnedOn(work, done, e, a);
      OutcomeOn(work, done, e, e.rows[0], a);
      RepresentsOn(work, done, e, e.rows[0]);
      SettlementIsLearned(Merged(work, e, e.rows[0]), done + [e], es[1..], a);
    }
  }

  lemma StoryOf(es: seq<Export>, more: seq<Export>, a: Id)
    requires Single(es + more) && OneStory(es + more, a)
    ensures Single(es) && Single(more) && OneStory(es, a)
  {
    hide NoEarlier, Continued;
    assert forall e | e in es :: e in es + more;
    assert forall e | e in more :: e in es + more;
  }

  // ---- how far each lineage was merged ------------------------------------------------------------

  /** Of each lineage the highest mark any of the exports has, and no other. */
  ghost predicate HighestMarks(lineage: map<StoreId, nat>, es: seq<Export>) {
    && (forall t | t in lineage :: exists e | e in es :: t in e.db.lineage && e.db.lineage[t] == lineage[t])
    && forall e, t | e in es && t in e.db.lineage :: t in lineage && e.db.lineage[t] <= lineage[t]
  }

  lemma MarksOn(x: map<StoreId, nat>, es: seq<Export>, e: Export)
    requires HighestMarks(x, es)
    ensures HighestMarks(Highest(x, e.db.lineage), es + [e])
  {
    var z := Highest(x, e.db.lineage);
    forall t | t in z ensures exists d | d in es + [e] :: t in d.db.lineage && d.db.lineage[t] == z[t] {
      if t in x && z[t] == x[t] {
        var d :| d in es && t in d.db.lineage && d.db.lineage[t] == x[t];
        assert d in es + [e];
      } else {
        assert e in es + [e];
      }
    }
  }

  lemma {:induction false} MergeTakesTheMarks(work: Work, done: seq<Export>, es: seq<Export>)
    requires (forall e | e in es :: |e.rows| == 1) && HighestMarks(work.db.lineage, done) && MergedAll(work, es).Some?
    ensures HighestMarks(MergedAll(work, es).value.db.lineage, done + es)
    decreases |es|
  {
    hide HighestMarks, Highest, Agree;
    if es == [] {
      assert done + es == done;
    } else {
      var e := es[0];
      MarksOn(work.db.lineage, done, e);
      MergeTakesTheMarks(Merged(work, e, e.rows[0]), done + [e], es[1..]);
      assert (done + [e]) + es[1..] == done + es;
    }
  }

  // ---- the intents ---------------------------------------------------------------------------------

  predicate FirstSays(es: seq<Export>, i: nat, o: Id, prints: map<string, Print>) {
    && i < |es| && o in es[i].db.intents && es[i].db.intents[o].prints == prints
    && forall j | 0 <= j < i :: o !in es[j].db.intents
  }

  /** Of every intent in an export there is one, as the first export that has it says, and no other. */
  ghost predicate IntentsOf(intents: map<Id, Intent>, es: seq<Export>) {
    && (forall e, o | e in es && o in e.db.intents :: o in intents)
    && (forall o | o in intents :: exists i: nat :: FirstSays(es, i, o, intents[o].prints))
  }

  lemma IntentsOn(x: map<Id, Intent>, es: seq<Export>, e: Export)
    requires IntentsOf(x, es)
    ensures IntentsOf(MergedIntents(x, e.db.intents), es + [e])
  {
    var z, all := MergedIntents(x, e.db.intents), es + [e];
    forall o | o in z ensures exists i: nat :: FirstSays(all, i, o, z[o].prints) {
      if o in x {
        var i: nat :| FirstSays(es, i, o, x[o].prints);
        assert FirstSays(all, i, o, z[o].prints);
      } else {
        forall j | 0 <= j < |es| ensures o !in all[j].db.intents { assert es[j] in es; }
        assert FirstSays(all, |es|, o, z[o].prints);
      }
    }
  }

  /** No intent is lost or made up. */
  lemma {:induction false} MergeKeepsTheIntents(work: Work, done: seq<Export>, es: seq<Export>)
    requires (forall e | e in es :: |e.rows| == 1) && IntentsOf(work.db.intents, done) && MergedAll(work, es).Some?
    ensures IntentsOf(MergedAll(work, es).value.db.intents, done + es)
    decreases |es|
  {
    hide IntentsOf, MergedIntents, Agree;
    if es == [] {
      assert done + es == done;
    } else {
      var e := es[0];
      IntentsOn(work.db.intents, done, e);
      MergeKeepsTheIntents(Merged(work, e, e.rows[0]), done + [e], es[1..]);
      assert (done + [e]) + es[1..] == done + es;
    }
  }

  // ---- abandoned by a later export --------------------------------------------------------------

  /** Only its own lineage speaks of the occurrence, and a later export repeats that it is abandoned. */
  ghost predicate OneFate(es: seq<Export>, o: Id)
    requires Single(es)
  {
    && (forall e | e in es && o in e.db.occs :: e.db.occs[o].origin == e.rows[0].store)
    && forall d, e | d in es && e in es && NoEarlier(d, e) && SaysOf(d, o, Abandoned) :: SaysOf(e, o, Abandoned)
  }

  /** If any export says abandoned, so do the merged rows. */
  ghost predicate FateKnown(db: Db, es: seq<Export>, o: Id) {
    forall e | e in es && SaysOf(e, o, Abandoned) :: o in db.occs && db.occs[o].state == Abandoned
  }

  lemma FateCarried(es: seq<Export>, d: Export, e: Export, o: Id)
    requires Single(es) && OneFate(es, o) && d in es && e in es && NoEarlier(d, e) && SaysOf(d, o, Abandoned)
    ensures SaysOf(e, o, Abandoned)
  {}

  lemma FateOn(work: Work, es: seq<Export>, e: Export, o: Id)
    requires Single(es) && |e.rows| == 1 && RowsOf(work.rows, es) && Represents(work, es) && OneFate(es + [e], o)
    requires FateKnown(work.db, es, o) && Agree(work.db, e.db)
    ensures FateKnown(Merged(work, e, e.rows[0]).db, es + [e], o)
  {
    hide RowsOf, Later, NoEarlier;
    var w', all := Merged(work, e, e.rows[0]), es + [e];
    forall d | d in all && SaysOf(d, o, Abandoned) ensures o in w'.db.occs && w'.db.occs[o].state == Abandoned {
      if o in work.db.occs && work.db.occs[o].state != Abandoned {
        assert d == e && e in all;
        var b :| b in es && o in b.db.occs;
        assert b in all && Contains(work, b);
        if !Later(work, e.rows[0], work.db.occs[o].origin) {
          var c := NotLater(work, es, e, b, work.db.occs[o].origin);
          FateCarried(all, e, c, o);
        }
      }
    }
  }

  /** Abandoned in any export is abandoned in the merged rows, however the exports are ordered. */
  lemma {:induction false} AbandonmentIsLearned(work: Work, done: seq<Export>, es: seq<Export>, o: Id)
    requires Represents(work, done) && AllAgree(done) && Single(done + es) && Single(done) && Single(es)
    requires RowsOf(work.rows, done) && OneFate(done + es, o)
    requires FateKnown(work.db, done, o) && MergedAll(work, es).Some?
    ensures FateKnown(MergedAll(work, es).value.db, done + es, o)
    decreases |es|
  {
    hide Represents, RowsOf, FateKnown, Merged, Agree, AllAgree, NoEarlier, SaysOf;
    if es == [] {
      assert done + es == done;
    } else {
      var e := es[0];
      assert (done + [e]) + es[1..] == done + es;
      FateOf(done + [e], es[1..], o);
      AgreesThrough(work, done, e);
      OneMoreAgrees(done, e);
      RowsOn(work, done, e);
      FateOn(work, done, e, o);
      RepresentsOn(work, done, e, e.rows[0]);
      AbandonmentIsLearned(Merged(work, e, e.rows[0]), done + [e], es[1..], o);
    }
  }

  lemma FateOf(es: seq<Export>, more: seq<Export>, o: Id)
    requires Single(es + more) && OneFate(es + more, o)
    ensures Single(es) && Single(more) && OneFate(es, o)
  {
    hide NoEarlier, SaysOf;
    assert forall e | e in es :: e in es + more;
    assert forall e | e in more :: e in es + more;
  }
}
