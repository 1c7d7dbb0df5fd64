/** A store from the repository and the password alone: `dropin recover`. */
module Recovering {
  import opened Wrappers
  import opened States
  import opened Paths
  import opened Records
  import opened Order
  import opened Protocol
  import opened Safety
  import opened Merge
  import V = Verify

  // ---- what the repository shows --------------------------------------------------------

  /**
   * What one recovery finds: the snapshots; those whose export cannot be dumped;
   * those whose listing or payload read fails; and streams that end early, on a
   * member boundary, without an error.
   */
  datatype Evidence = Evidence(repo: map<SnapId, Snap>, unreadable: set<SnapId>, broken: set<SnapId>,
                               cut: map<SnapId, nat>)

  predicate Observable(ev: Evidence, s: SnapId) {
    s in ev.repo && ev.repo[s].tags.Canonical?
  }

  function IdOf(ev: Evidence, s: SnapId): Identity
    requires Observable(ev, s)
  {
    ev.repo[s].tags.id
  }

  /** The export was dumped and proved itself against the tags. */
  predicate Valid(ev: Evidence, s: SnapId) {
    Observable(ev, s) && s !in ev.unreadable && CatalogFileProven(ev.repo[s].catalog, IdOf(ev, s))
  }

  function Observed(ev: Evidence): set<SnapId> {
    set s | s in ev.repo && Observable(ev, s)
  }

  function ValidOnes(ev: Evidence): set<SnapId> {
    set s | s in ev.repo && Valid(ev, s)
  }

  function ExportAt(ev: Evidence, s: SnapId): Export
    requires Valid(ev, s)
  {
    ev.repo[s].catalog.value
  }

  function TimeOf(ev: Evidence, s: SnapId): int {
    if s in ev.repo then ev.repo[s].time else 0
  }

  /** `(time, snapshot_id)`, newest first. */
  predicate Newer(ev: Evidence, s: SnapId, t: SnapId) {
    TimeOf(ev, s) > TimeOf(ev, t) || (TimeOf(ev, s) == TimeOf(ev, t) && Less(t, s))
  }

  predicate Newest(ev: Evidence, s: SnapId, among: set<SnapId>) {
    s in among && forall t | t in among && t != s :: Newer(ev, s, t)
  }

  /** None of them was taken at a later time. */
  predicate Latest(ev: Evidence, s: SnapId, among: set<SnapId>) {
    s in among && forall t | t in among :: TimeOf(ev, t) <= TimeOf(ev, s)
  }

  lemma NewestIsLatest(ev: Evidence, s: SnapId, among: set<SnapId>)
    requires Newest(ev, s, among)
    ensures Latest(ev, s, among)
  {}

  lemma NewerIsStrict(ev: Evidence)
    ensures StrictOrder((s, t) => Newer(ev, s, t))
  {
    LessIsStrict();
  }

  /** Merge order: by store, then by sequence. */
  predicate Earlier(ev: Evidence, s: SnapId, t: SnapId) {
    var x := if Observable(ev, s) then IdOf(ev, s).store else "";
    var y := if Observable(ev, t) then IdOf(ev, t).store else "";
    var m, n := if Observable(ev, s) then IdOf(ev, s).seqno else 0, if Observable(ev, t) then IdOf(ev, t).seqno else 0;
    Less(x, y) || (x == y && (m < n || (m == n && Less(s, t))))
  }

  lemma EarlierIsStrict(ev: Evidence)
    ensures StrictOrder((s, t) => Earlier(ev, s, t))
  {
    LessIsStrict();
  }

  // ---- the base -----------------------------------------------------------------------------

  /** The newest lineage by time, and in it the highest sequence. */
  ghost predicate IsBase(ev: Evidence, b: SnapId) {
    && Valid(ev, b)
    && (exists n :: Newest(ev, n, ValidOnes(ev)) && IdOf(ev, n).store == IdOf(ev, b).store)
    && forall s | s in ValidOnes(ev) && IdOf(ev, s).store == IdOf(ev, b).store :: IdOf(ev, s).seqno <= IdOf(ev, b).seqno
  }

  method NewestOf(ev: Evidence, among: set<SnapId>) returns (s: SnapId)
    requires among != {}
    ensures Newest(ev, s, among) && Latest(ev, s, among)
  {
    NewerIsStrict(ev);
    s := First(among, (s, t) => Newer(ev, s, t));
  }

  method ChooseBase(ev: Evidence) returns (base: Option<SnapId>)
    ensures base == None <==> ValidOnes(ev) == {}
    ensures base.Some? ==> IsBase(ev, base.value)
    ensures base.Some? ==> exists n | n in ValidOnes(ev) ::
              IdOf(ev, n).store == IdOf(ev, base.value).store && Latest(ev, n, ValidOnes(ev))
  {
    var valid := ValidOnes(ev);
    if valid == {} { return None; }
    var newest := NewestOf(ev, valid);
    var store := IdOf(ev, newest).store;
    var b, rest := newest, valid;
    while rest != {}
      invariant rest <= valid && b in valid && IdOf(ev, b).store == store
      invariant forall s | s in valid && s !in rest && IdOf(ev, s).store == store ::
                  IdOf(ev, s).seqno <= IdOf(ev, b).seqno
      decreases rest
    {
      var s :| s in rest;
      if IdOf(ev, s).store == store && IdOf(ev, s).seqno > IdOf(ev, b).seqno { b := s; }
      rest := rest - {s};
    }
    return Some(b);
  }

  /** The other valid exports, in merge order. */
  method Others(ev: Evidence, base: SnapId) returns (order: seq<SnapId>, es: seq<Export>)
    requires IsBase(ev, base)
    ensures Arranged(ev, base, order, es)
  {
    hide Earlier, CatalogFileProven, Newest;
    EarlierIsStrict(ev);
    var rest := ValidOnes(ev) - {base};
    order := SortBy(rest, (s, t) => Earlier(ev, s, t));
    forall s ensures s in order <==> Valid(ev, s) && s != base {
      assert s in (set x | x in order) <==> s in rest;
    }
    es := [];
    for i := 0 to |order|
      invariant |es| == i && forall k | 0 <= k < i :: Valid(ev, order[k]) && es[k] == ExportAt(ev, order[k])
    {
      assert order[i] in order;
      es := es + [ExportAt(ev, order[i])];
    }
  }

  /** `es` are the exports of every valid snapshot but the base, each once, by store and then by sequence. */
  ghost predicate Arranged(ev: Evidence, base: SnapId, order: seq<SnapId>, es: seq<Export>) {
    && |es| == |order| && |order| + 1 == |ValidOnes(ev)|
    && (forall s :: s in order <==> Valid(ev, s) && s != base)
    && (forall i, j | 0 <= i < j < |order| :: order[i] != order[j] && Earlier(ev, order[i], order[j]))
    && (forall i | 0 <= i < |order| :: Valid(ev, order[i]) && es[i] == ExportAt(ev, order[i]))
  }

  lemma ArrangedRows(ev: Evidence, base: SnapId, order: seq<SnapId>, es: seq<Export>)
    requires Arranged(ev, base, order, es)
    ensures forall e | e in es :: |e.rows| == 1
  {}

  // ---- the observation ledger ------------------------------------------------------------------

  function LedgerRow(ev: Evidence, db: Db, s: SnapId): Ledgered
    requires Observable(ev, s)
  {
    Ledgered(IdOf(ev, s),
             if !Valid(ev, s) then SnapOrphaned else if s in db.ledger then db.ledger[s].status else SnapPending)
  }

  /** No snapshot was ledgered under tags other than those it carries. */
  predicate LedgerClear(ev: Evidence, ledger: map<SnapId, Ledgered>) {
    forall s | s in Observed(ev) && s in ledger :: ledger[s].identity == IdOf(ev, s)
  }

  function LedgeredDb(ev: Evidence, db: Db): Db {
    db.(ledger := map s | s in db.ledger.Keys + Observed(ev) ::
          if Observable(ev, s) then LedgerRow(ev, db, s) else db.ledger[s])
  }

  /** `_ledger`: every parseable snapshot, exact tags, before any verdict. */
  method LedgerAll(ev: Evidence, db: Db) returns (ledgered: Option<Db>)
    ensures ledgered == if LedgerClear(ev, db.ledger) then Some(LedgeredDb(ev, db)) else None
  {
    hide IdOf, LedgerClear, LedgeredDb;
    var ledger, rest := db.ledger, Observed(ev);
    while rest != {}
      invariant rest <= Observed(ev) && ledger.Keys == db.ledger.Keys + (Observed(ev) - rest)
      invariant forall s | s in Observed(ev) && s !in rest ::
                  && ledger[s] == LedgerRow(ev, db, s)
                  && (s in db.ledger ==> db.ledger[s].identity == IdOf(ev, s))
      invariant forall s | s in db.ledger && (s in rest || s !in Observed(ev)) :: ledger[s] == db.ledger[s]
      decreases rest
    {
      var s :| s in rest;
      rest := rest - {s};
      if s in db.ledger && db.ledger[s].identity != IdOf(ev, s) {
        NotClear(ev, db.ledger, s);
        return None;
      }
      ledger := ledger[s := LedgerRow(ev, db, s)];
    }
    AllLedgered(ev, db, ledger);
    return Some(db.(ledger := ledger));
  }

  lemma NotClear(ev: Evidence, ledger: map<SnapId, Ledgered>, s: SnapId)
    requires s in Observed(ev) && s in ledger && ledger[s].identity != IdOf(ev, s)
    ensures !LedgerClear(ev, ledger)
  {
    hide Observed, Observable, IdOf;
  }

  lemma AllLedgered(ev: Evidence, db: Db, ledger: map<SnapId, Ledgered>)
    requires ledger.Keys == db.ledger.Keys + Observed(ev)
    requires forall s | s in Observed(ev) ::
               ledger[s] == LedgerRow(ev, db, s) && (s in db.ledger ==> db.ledger[s].identity == IdOf(ev, s))
    requires forall s | s in db.ledger && s !in Observed(ev) :: ledger[s] == db.ledger[s]
    ensures LedgerClear(ev, db.ledger) && db.(ledger := ledger) == LedgeredDb(ev, db)
  {
    hide IdOf, LedgerRow;
    assert ledger == LedgeredDb(ev, db).ledger;
  }

  // ---- confirmation from evidence ----------------------------------------------------------------

  function Candidates(ev: Evidence, o: Id): set<SnapId> {
    set s | s in ev.repo && Observable(ev, s) && IdOf(ev, s).occ == o
  }

  /** Authenticated history excludes an attempt recorded as failed. */
  predicate Excluded(ev: Evidence, db: Db, s: SnapId)
    requires Observable(ev, s)
  {
    IdOf(ev, s).attempt in db.attempts && db.attempts[IdOf(ev, s).attempt].outcome == Failed
  }

  /** The members the snapshot's stream shows, in its order. */
  function Shown(ev: Evidence, s: SnapId, spool: string): (paths: seq<string>)
    requires s in ev.repo
    ensures forall p | p in paths :: p in ev.repo[s].tree
  {
    var all := V.DumpOrder(ev.repo[s].tree, spool);
    all[..if s in ev.cut && ev.cut[s] < |all| then ev.cut[s] else |all|]
  }

  predicate FileReads(tree: map<string, Source>, row: Occ) {
    && "" in row.entries && row.spool in tree && tree[row.spool].SourceFile?
    && row.entries[""].sha == Some(Sha256(tree[row.spool].content))
  }

  /** `reconcile` and `verify_payload` of one snapshot against one occurrence's rows. */
  predicate ReadsBack(ev: Evidence, s: SnapId, row: Occ) {
    && s in ev.repo && s !in ev.broken
    && var tree := ev.repo[s].tree;
    && V.ListingAgrees(V.Listing(tree, row.spool), row.spool, row.entries)
    && if row.kind == FileKind then FileReads(tree, row)
       else V.StreamAgrees(V.StreamOf(Shown(ev, s, row.spool), tree), V.StripSlashes(row.spool), row.entries)
  }

  /** The two readers run as the driver runs them; whatever they raise is caught and proves nothing. */
  method ReadBack(ev: Evidence, s: SnapId, row: Occ) returns (ok: bool)
    ensures ok <==> ReadsBack(ev, s, row)
  {
    hide V.ListingAgrees, V.StreamAgrees, V.StreamOf, V.Listing, V.DumpOrder, V.StripSlashes;
    if s !in ev.repo || s in ev.broken { return false; }
    var tree := ev.repo[s].tree;
    ok := V.Reconcile(V.Listing(tree, row.spool), row.spool, row.entries);
    if !ok { return; }
    if row.kind == FileKind {
      if "" !in row.entries { return false; }
      var content := if row.spool in tree && tree[row.spool].SourceFile? then Some(tree[row.spool].content) else None;
      ok := V.VerifyFile(content, row.entries);
    } else {
      ok := V.VerifyTree(V.StreamOf(Shown(ev, s, row.spool), tree), false, row.spool, row.entries);
    }
  }

  /** No read of the snapshot fails, and its stream is not cut short. */
  predicate ReadWhole(ev: Evidence, s: SnapId, row: Occ)
    requires s in ev.repo
  {
    s !in ev.broken && (row.kind != FileKind ==> |Shown(ev, s, row.spool)| == |V.DumpOrder(ev.repo[s].tree, row.spool)|)
  }

  /**
   * Against a manifest in shape the readers accept exactly a snapshot whose tree is
   * that manifest, read whole - and never one of a bare symbolic link.
   */
  lemma ReadsBackExactly(ev: Evidence, s: SnapId, row: Occ)
    requires s in ev.repo && ItemShape(row)
    ensures ReadsBack(ev, s, row) <==>
            (ReadWhole(ev, s, row) && PlainRoot(row.entries) && SameTree(ev.repo[s].tree, row.spool, row.entries))
  {
    hide ItemShape, SameTree, V.ListingAgrees, V.StreamAgrees, V.StreamOf, V.Listing, V.DumpOrder, V.Lists,
         V.Enumerates;
    var tree := ev.repo[s].tree;
    var nodes := V.Listing(tree, row.spool);
    RootOfItem(row);
    if row.kind == FileKind {
      if row.entries[""].etype == FileEntry { V.FileProofIsExact(row, tree, nodes); }
    } else {
      V.TreeProofIsExact(row, tree, nodes, V.DumpOrder(tree, row.spool), |Shown(ev, s, row.spool)|);
    }
  }

  lemma RootOfItem(row: Occ)
    requires ItemShape(row)
    ensures "" in row.entries && (row.kind == FileKind <==> row.entries[""].etype != DirEntry)
    ensures row.entries[""].etype == LinkEntry ==> row.entries[""].sha == None
  {
    assert RowShape(row, "");
  }

  /** A valid export, an attempt not recorded failed, and a payload that reconciles and reads back. */
  predicate Proves(ev: Evidence, db: Db, s: SnapId) {
    && Valid(ev, s) && !Excluded(ev, db, s)
    && IdOf(ev, s).occ in db.occs && ReadsBack(ev, s, db.occs[IdOf(ev, s).occ])
  }

  function Provers(ev: Evidence, db: Db, o: Id): set<SnapId> {
    set s | s in Candidates(ev, o) && Proves(ev, db, s)
  }

  ghost predicate Wins(ev: Evidence, db: Db, o: Id, winner: Option<SnapId>) {
    match winner
    case None => Provers(ev, db, o) == {}
    case Some(s) => Newest(ev, s, Provers(ev, db, o))
  }

  /** `_confirm_one`: the first snapshot, newest first, that proves itself. */
  method ConfirmOne(ev: Evidence, db: Db, o: Id) returns (winner: Option<SnapId>)
    requires o in db.occs
    ensures Wins(ev, db, o, winner)
    ensures winner.Some? ==> Latest(ev, winner.value, Provers(ev, db, o))
  {
    hide ReadsBack, Newer, Excluded, Valid;
    var eligible := set s | s in Candidates(ev, o) && Valid(ev, s) && !Excluded(ev, db, s);
    NewerIsStrict(ev);
    var order := SortBy(eligible, (s, t) => Newer(ev, s, t));
    forall s ensures s in order <==> s in eligible {
      assert s in order <==> s in (set x | x in order);
    }
    for i := 0 to |order|
      invariant forall k | 0 <= k < i :: !ReadsBack(ev, order[k], db.occs[o])
    {
      assert order[i] in order;
      var ok := ReadBack(ev, order[i], db.occs[o]);
      if ok {
        forall t | t in Provers(ev, db, o) && t != order[i] ensures Newer(ev, order[i], t) {
          assert t in order;
          var k :| 0 <= k < |order| && order[k] == t;
          assert k > i;
        }
        NewestIsLatest(ev, order[i], Provers(ev, db, o));
        return Some(order[i]);
      }
    }
    assert forall s | s in Provers(ev, db, o) :: s in order;
    return None;
  }

  function SettledOcc(row: Occ, winner: Option<Id>): Occ {
    match winner
    case Some(a) => row.(confirmed := Some(a), state := if row.state == Evicting then Evicting else Recoverable)
    case None => if row.state == Evicting then row else row.(confirmed := None, state := Recorded)
  }

  /** An attempt row of the occurrence once the verdict is in. */
  function SettledAttempt(ev: Evidence, row: Occ, a: Id, att: Attempt, winner: Option<SnapId>, at: int): Attempt
    requires winner.Some? ==> Observable(ev, winner.value)
  {
    var finished := if att.outcome == Pending then at else att.finished;
    if winner.Some? then
      if a == IdOf(ev, winner.value).attempt then
        att.(outcome := Confirmed, snapshot := winner, digest := Some(IdOf(ev, winner.value).digest),
             finished := finished)
      else att
    else if row.state != Evicting && att.outcome != Failed then att.(outcome := Failed, finished := finished)
    else att
  }

  function WinnerAttempt(ev: Evidence, winner: Option<SnapId>): Option<Id>
    requires winner.Some? ==> Observable(ev, winner.value)
  {
    if winner.Some? then Some(IdOf(ev, winner.value).attempt) else None
  }

  function StatusOf(s: SnapId, winner: Option<SnapId>): Status {
    if winner == Some(s) then SnapConfirmed else SnapOrphaned
  }

  /** `_settle_occurrence` as one transaction. */
  function SettleDb(ev: Evidence, db: Db, o: Id, winner: Option<SnapId>, at: int): Db
    requires o in db.occs && (winner.Some? ==> Observable(ev, winner.value))
  {
    db.(occs := db.occs[o := SettledOcc(db.occs[o], WinnerAttempt(ev, winner))],
        attempts := SettledAttempts(ev, db, o, winner, at),
        ledger := map s | s in db.ledger ::
          if s in Candidates(ev, o) then db.ledger[s].(status := StatusOf(s, winner)) else db.ledger[s])
  }

  function SettledAttempts(ev: Evidence, db: Db, o: Id, winner: Option<SnapId>, at: int): map<Id, Attempt>
    requires o in db.occs && (winner.Some? ==> Observable(ev, winner.value))
  {
    map a | a in db.attempts ::
      if db.attempts[a].occ == o || WinnerAttempt(ev, winner) == Some(a)
      then SettledAttempt(ev, db.occs[o], a, db.attempts[a], winner, at) else db.attempts[a]
  }

  method Settle(ev: Evidence, db: Db, o: Id, winner: Option<SnapId>, at: int) returns (settled: Db)
    requires o in db.occs && (winner.Some? ==> Observable(ev, winner.value))
    ensures settled == SettleDb(ev, db, o, winner, at)
  {
    hide SettledAttempts, Candidates, StatusOf, Observable;
    var row := db.occs[o];
    if winner.Some? {
      row := row.(confirmed := Some(IdOf(ev, winner.value).attempt),
                  state := if row.state == Evicting then Evicting else Recoverable);
    } else if row.state != Evicting {
      row := row.(confirmed := None, state := Recorded);
    }
    var attempts := SettleAttempts(ev, db, o, winner, at);
    var ledger := SetStatuses(ev, db, o, winner);
    return db.(occs := db.occs[o := row], attempts := attempts, ledger := ledger);
  }

  /** The winner's attempt is confirmed; without one, all that are open fail. */
  method SettleAttempts(ev: Evidence, db: Db, o: Id, winner: Option<SnapId>, at: int)
    returns (attempts: map<Id, Attempt>)
    requires o in db.occs && (winner.Some? ==> Observable(ev, winner.value))
    ensures attempts == SettledAttempts(ev, db, o, winner, at)
  {
    hide Observable;
    attempts := db.attempts;
    if winner.Some? {
      var id := IdOf(ev, winner.value);
      if id.attempt in attempts {
        var att := attempts[id.attempt];
        var finished := if att.outcome == Pending then at else att.finished;
        attempts := attempts[id.attempt := att.(outcome := Confirmed, snapshot := winner, digest := Some(id.digest),
                                                finished := finished)];
      }
    } else if db.occs[o].state != Evicting {
      attempts := map a | a in db.attempts ::
        var att := db.attempts[a];
        if att.occ == o && att.outcome != Failed
        then att.(outcome := Failed, finished := if att.outcome == Pending then at else att.finished) else att;
    }
  }

  /** `set_snapshot_status` for each candidate. */
  method SetStatuses(ev: Evidence, db: Db, o: Id, winner: Option<SnapId>) returns (ledger: map<SnapId, Ledgered>)
    requires o in db.occs && (winner.Some? ==> Observable(ev, winner.value))
    ensures ledger == map s | s in db.ledger ::
              if s in Candidates(ev, o) then db.ledger[s].(status := StatusOf(s, winner)) else db.ledger[s]
  {
    ledger := db.ledger;
    var rest := Candidates(ev, o);
    while rest != {}
      invariant rest <= Candidates(ev, o) && ledger.Keys == db.ledger.Keys
      invariant forall s | s in ledger :: ledger[s] ==
                  if s in Candidates(ev, o) - rest then db.ledger[s].(status := StatusOf(s, winner)) else db.ledger[s]
      decreases rest
    {
      var s :| s in rest;
      rest := rest - {s};
      if s in ledger { ledger := ledger[s := ledger[s].(status := StatusOf(s, winner))]; }
    }
  }

  // ---- every occurrence ---------------------------------------------------------------------------

  /** Where a tag's attempt has a row, that row is of the tagged occurrence. */
  ghost predicate Genuine(ev: Evidence, db: Db) {
    forall s | s in Observed(ev) && IdOf(ev, s).attempt in db.attempts ::
      db.attempts[IdOf(ev, s).attempt].occ == IdOf(ev, s).occ
  }

  /** The rows about `o` are as they were. */
  ghost predicate Untried(ev: Evidence, m: Db, db: Db, o: Id) {
    && o in m.occs && o in db.occs && db.occs[o] == m.occs[o]
    && (forall a | a in m.attempts && m.attempts[a].occ == o :: a in db.attempts && db.attempts[a] == m.attempts[a])
    && (forall s | s in Candidates(ev, o) && s in m.ledger :: s in db.ledger && db.ledger[s] == m.ledger[s])
  }

  /** The rows about `o` say what the evidence says. */
  ghost predicate SettledWith(ev: Evidence, m: Db, db: Db, o: Id, winner: Option<SnapId>, at: int)
    requires winner.Some? ==> Observable(ev, winner.value)
  {
    && o in m.occs && o in db.occs && db.occs[o] == SettledOcc(m.occs[o], WinnerAttempt(ev, winner))
    && (forall a | a in m.attempts && m.attempts[a].occ == o ::
          a in db.attempts && db.attempts[a] == SettledAttempt(ev, m.occs[o], a, m.attempts[a], winner, at))
    && (forall s | s in Candidates(ev, o) && s in m.ledger ::
          s in db.ledger && db.ledger[s] == m.ledger[s].(status := StatusOf(s, winner)))
  }

  ghost predicate SettledFromEvidence(ev: Evidence, m: Db, db: Db, o: Id, at: int) {
    exists winner {:trigger Wins(ev, m, o, winner)} ::
      Wins(ev, m, o, winner) && (winner.Some? ==> Observable(ev, winner.value))
      && SettledWith(ev, m, db, o, winner, at)
  }

  lemma SettlingIsLocal(ev: Evidence, m: Db, db: Db, o: Id, winner: Option<SnapId>, at: int, x: Id)
    requires Genuine(ev, m) && o in db.occs && x != o && db.attempts.Keys == m.attempts.Keys
    requires forall a | a in m.attempts :: db.attempts[a].occ == m.attempts[a].occ
    requires winner.Some? ==> Observable(ev, winner.value) && IdOf(ev, winner.value).occ == o
    ensures var db' := SettleDb(ev, db, o, winner, at);
            && (x in db.occs ==> x in db'.occs && db'.occs[x] == db.occs[x])
            && (forall a | a in m.attempts && m.attempts[a].occ == x ::
                 a in db'.attempts && db'.attempts[a] == db.attempts[a])
            && (forall s | s in Candidates(ev, x) && s in db.ledger :: s in db'.ledger && db'.ledger[s] == db.ledger[s])
  {}

  lemma SameProvers(ev: Evidence, m: Db, db: Db, o: Id)
    requires Genuine(ev, m) && db.attempts.Keys == m.attempts.Keys && Untried(ev, m, db, o)
    ensures Provers(ev, db, o) == Provers(ev, m, o)
  {
    forall s | s in Candidates(ev, o) ensures Proves(ev, db, s) <==> Proves(ev, m, s) {
      assert s in Observed(ev);
    }
  }

  /** Abandoned occurrences keep their evidence; all others are settled from theirs. */
  ghost predicate TriedAs(ev: Evidence, m: Db, db: Db, o: Id, at: int)
    requires o in m.occs
  {
    if m.occs[o].state == Abandoned then Untried(ev, m, db, o) else SettledFromEvidence(ev, m, db, o, at)
  }

  /** The rows a verdict may not touch: what each occurrence and attempt is. */
  ghost predicate SameThings(m: Db, db: Db) {
    && db.occs.Keys == m.occs.Keys && db.attempts.Keys == m.attempts.Keys && db.ledger.Keys == m.ledger.Keys
    && (forall o | o in m.occs :: SameOccurrence(m.occs[o], db.occs[o]))
    && (forall a | a in m.attempts :: SamePublication(m.attempts[a], db.attempts[a]))
    && (forall s | s in m.ledger :: db.ledger[s].identity == m.ledger[s].identity)
    && db.lineage == m.lineage && db.store == m.store && db.intents == m.intents
  }

  /** `_verify_occurrences`: each occurrence against its own snapshots. */
  method VerifyAll(ev: Evidence, m: Db, at: int) returns (db: Db)
    ensures SameThings(m, db)
    ensures Genuine(ev, m) ==> forall o | o in m.occs :: TriedAs(ev, m, db, o, at)
  {
    hide Wins, Provers, SettledFromEvidence, SettledWith, SameOccurrence, SamePublication, Candidates;
    db := m;
    ThingsAreThemselves(m);
    var rest := m.occs.Keys;
    while rest != {}
      invariant rest <= m.occs.Keys && SameThings(m, db)
      invariant Genuine(ev, m) ==> forall o | o in rest :: Untried(ev, m, db, o)
      invariant Genuine(ev, m) ==> forall o | o in m.occs && o !in rest :: TriedAs(ev, m, db, o, at)
      decreases rest
    {
      var o :| o in rest;
      rest := rest - {o};
      if db.occs[o].state != Abandoned { db := TryOne(ev, m, db, o, at, rest); }
    }
  }

  lemma ThingsAreThemselves(m: Db)
    ensures SameThings(m, m)
  {}

  method TryOne(ev: Evidence, ghost m: Db, db: Db, o: Id, at: int, ghost rest: set<Id>) returns (db': Db)
    requires SameThings(m, db) && o in m.occs && db.occs[o].state != Abandoned && o !in rest && rest <= m.occs.Keys
    requires Genuine(ev, m) ==> Untried(ev, m, db, o) && forall x | x in rest :: Untried(ev, m, db, x)
    requires Genuine(ev, m) ==> forall x | x in m.occs && x !in rest && x != o :: TriedAs(ev, m, db, x, at)
    ensures SameThings(m, db')
    ensures Genuine(ev, m) ==> forall x | x in rest :: Untried(ev, m, db', x)
    ensures Genuine(ev, m) ==> forall x | x in m.occs && x !in rest :: TriedAs(ev, m, db', x, at)
  {
    var winner := ConfirmOne(ev, db, o);
    WinnerIsCandidate(ev, db, o, winner);
    db' := Settle(ev, db, o, winner, at);
    SettlingKeepsThings(ev, m, db, o, winner, at);
    if Genuine(ev, m) {
      SettledNow(ev, m, db, o, winner, at);
      forall x | x in m.occs && x != o ensures Untried(ev, m, db, x) ==> Untried(ev, m, db', x)
        ensures TriedAs(ev, m, db, x, at) ==> TriedAs(ev, m, db', x, at)
      {
        StaysAsTried(ev, m, db, o, winner, at, x);
      }
    }
    hide *;
  }

  lemma WinnerIsCandidate(ev: Evidence, db: Db, o: Id, winner: Option<SnapId>)
    requires Wins(ev, db, o, winner)
    ensures winner.Some? ==> Observable(ev, winner.value) && IdOf(ev, winner.value).occ == o
  {}

  lemma SettlingKeepsThings(ev: Evidence, m: Db, db: Db, o: Id, winner: Option<SnapId>, at: int)
    requires SameThings(m, db) && o in db.occs && (winner.Some? ==> Observable(ev, winner.value))
    ensures SameThings(m, SettleDb(ev, db, o, winner, at))
  {
    hide Candidates, Observable, SettledOcc, SettledAttempts, SameOccurrence, SamePublication, WinnerAttempt, StatusOf;
    OccStaysItself(m.occs[o], db.occs[o], WinnerAttempt(ev, winner));
    AttemptsStayThemselves(ev, m, db, o, winner, at);
  }

  lemma OccStaysItself(x: Occ, y: Occ, winner: Option<Id>)
    requires SameOccurrence(x, y)
    ensures SameOccurrence(x, SettledOcc(y, winner))
  {}

  lemma AttemptsStayThemselves(ev: Evidence, m: Db, db: Db, o: Id, winner: Option<SnapId>, at: int)
    requires o in db.occs && (winner.Some? ==> Observable(ev, winner.value)) && db.attempts.Keys == m.attempts.Keys
    requires forall a | a in m.attempts :: SamePublication(m.attempts[a], db.attempts[a])
    ensures var settled := SettledAttempts(ev, db, o, winner, at);
            settled.Keys == m.attempts.Keys && forall a | a in m.attempts :: SamePublication(m.attempts[a], settled[a])
  {
    hide Observable, Candidates;
  }

  lemma SettledNow(ev: Evidence, m: Db, db: Db, o: Id, winner: Option<SnapId>, at: int)
    requires Genuine(ev, m) && SameThings(m, db) && o in m.occs && Untried(ev, m, db, o) && Wins(ev, db, o, winner)
    requires m.occs[o].state != Abandoned && (winner.Some? ==> Observable(ev, winner.value))
    ensures TriedAs(ev, m, SettleDb(ev, db, o, winner, at), o, at)
  {
    hide Wins, Genuine, Provers, SettledOcc, SettledAttempt, Candidates, ReadsBack, SameOccurrence, SamePublication;
    WinsToo(ev, m, db, o, winner);
    assert SettledWith(ev, m, SettleDb(ev, db, o, winner, at), o, winner, at);
  }

  lemma WinsToo(ev: Evidence, m: Db, db: Db, o: Id, winner: Option<SnapId>)
    requires Genuine(ev, m) && db.attempts.Keys == m.attempts.Keys && Untried(ev, m, db, o) && Wins(ev, db, o, winner)
    ensures Wins(ev, m, o, winner)
  {
    hide Genuine, Untried, Provers;
    SameProvers(ev, m, db, o);
  }

  lemma StaysAsTried(ev: Evidence, m: Db, db: Db, o: Id, winner: Option<SnapId>, at: int, x: Id)
    requires Genuine(ev, m) && SameThings(m, db) && o in m.occs && x in m.occs && x != o
    requires winner.Some? ==> Observable(ev, winner.value) && IdOf(ev, winner.value).occ == o
    ensures var db' := SettleDb(ev, db, o, winner, at);
            && (Untried(ev, m, db, x) ==> Untried(ev, m, db', x))
            && (TriedAs(ev, m, db, x, at) ==> TriedAs(ev, m, db', x, at))
  {
    hide SettleDb, Genuine, Wins, SettledOcc, SettledAttempt;
    SettlingIsLocal(ev, m, db, o, winner, at, x);
    var db' := SettleDb(ev, db, o, winner, at);
    if SettledFromEvidence(ev, m, db, x, at) {
      var w :| Wins(ev, m, x, w) && (w.Some? ==> Observable(ev, w.value)) && SettledWith(ev, m, db, x, w, at);
      assert SettledWith(ev, m, db', x, w, at);
    }
  }

  // ---- watermarks and lineage -----------------------------------------------------------------------

  function OwnSeqs(ev: Evidence, store: StoreId): set<nat> {
    set s | s in Observed(ev) && IdOf(ev, s).store == store :: IdOf(ev, s).seqno
  }

  function AttemptSeqs(db: Db, store: StoreId, confirmed: bool): set<nat> {
    set a | a in db.attempts && db.attempts[a].origin == store && (confirmed ==> db.attempts[a].outcome == Confirmed) ::
      db.attempts[a].seqno
  }

  function OtherStores(ev: Evidence, store: StoreId): set<StoreId> {
    set s | s in ValidOnes(ev) && IdOf(ev, s).store != store :: IdOf(ev, s).store
  }

  function ValidSeqs(ev: Evidence, store: StoreId): set<nat> {
    set s | s in ValidOnes(ev) && IdOf(ev, s).store == store :: IdOf(ev, s).seqno
  }

  /** Merged through the highest valid export of each other store. */
  function Foreigners(ev: Evidence, store: StoreId): map<StoreId, nat> {
    map t | t in OtherStores(ev, store) :: HighestSeq(ValidSeqs(ev, t))
  }

  /** `_rebuild_meta`. */
  method RebuildMeta(ev: Evidence, db: Db, store: StoreId) returns (rebuilt: Db)
    ensures rebuilt == db.(store := store, seqno := rebuilt.seqno, frontier := rebuilt.frontier,
                           lineage := Highest(db.lineage, Foreigners(ev, store)))
    ensures forall s | s in Observed(ev) && IdOf(ev, s).store == store :: IdOf(ev, s).seqno <= rebuilt.seqno
    ensures forall a | a in db.attempts && db.attempts[a].origin == store :: db.attempts[a].seqno <= rebuilt.seqno
    ensures forall a | a in db.attempts && db.attempts[a].origin == store && db.attempts[a].outcome == Confirmed ::
              db.attempts[a].seqno <= rebuilt.frontier
    ensures rebuilt.frontier == 0 || rebuilt.frontier in AttemptSeqs(db, store, true)
    ensures rebuilt.seqno == 0 || rebuilt.seqno in AttemptSeqs(db, store, false) + OwnSeqs(ev, store)
  {
    var top := HighestSeq(AttemptSeqs(db, store, false) + OwnSeqs(ev, store));
    var frontier := HighestSeq(AttemptSeqs(db, store, true));
    rebuilt := db.(store := store, seqno := top, frontier := frontier,
                   lineage := Highest(db.lineage, Foreigners(ev, store)));
    assert forall s | s in Observed(ev) && IdOf(ev, s).store == store :: IdOf(ev, s).seqno in OwnSeqs(ev, store);
    assert forall a | a in db.attempts && db.attempts[a].origin == store ::
             db.attempts[a].seqno in AttemptSeqs(db, store, false);
    assert forall a | a in db.attempts && db.attempts[a].origin == store && db.attempts[a].outcome == Confirmed ::
             db.attempts[a].seqno in AttemptSeqs(db, store, true);
    assert forall x | x in AttemptSeqs(db, store, false) + OwnSeqs(ev, store) :: x <= top;
  }

  // ---- the whole recovery -------------------------------------------------------------------------------

  /** The exports in the order they are taken in, the base first. */
  ghost predicate TakenIn(ev: Evidence, all: seq<Export>) {
    && (forall e | e in all :: exists s :: Valid(ev, s) && ExportAt(ev, s) == e)
    && (forall s | Valid(ev, s) :: ExportAt(ev, s) in all)
  }

  /** The first export, then the others one after the other, every intent marked in the end. */
  ghost predicate MergedFrom(all: seq<Export>, merged: Db)
    requires all != []
  {
    && (forall e | e in all :: |e.rows| == 1)
    && var work := MergedAll(Work(all[0].db, set r | r in all[0].rows), all[1..]);
       work.Some? && merged == Marked(work.value).db
  }

  /** Whatever one of the exports settled or abandoned, the merge knows, if they tell one story. */
  lemma MergeLearns(all: seq<Export>, merged: Db, a: Id, o: Id)
    requires all != [] && MergedFrom(all, merged) && Single(all)
    ensures OneStory(all, a) ==> Learned(merged, all, a) && Outcomes(Work(merged, {}), all, a)
    ensures OneFate(all, o) ==> FateKnown(merged, all, o)
    ensures Ranked(Work(merged, {}), all, o)
  {
    var first, es := all[0], all[1..];
    var work := Work(first.db, set r | r in first.rows);
    assert [first] + es == all && first in all;
    FirstRepresents(work, first);
    FirstIsKnown(work, first, a, o);
    MergeIsExact(work, [first], es);
    var end := MergedAll(work, es).value;
    assert merged.attempts == end.db.attempts && merged.occs == end.db.occs;
    hide *;
    MergeTakesTheHighest(work, [first], es, o);
    MarkedRanks(end, all, o);
    if OneStory(all, a) {
      SettlementIsLearned(work, [first], es, a);
      OutcomesAreRecorded(work, [first], es, a);
      SameAttemptRows(end, merged, all, a);
    }
    if OneFate(all, o) {
      AbandonmentIsLearned(work, [first], es, o);
      SameOccRows(end.db, merged, all, o);
    }
  }

  lemma MarksOfAll(all: seq<Export>, merged: Db)
    requires all != [] && MergedFrom(all, merged)
    ensures HighestMarks(merged.lineage, all)
  {
    var first, es := all[0], all[1..];
    var work := Work(first.db, set r | r in first.rows);
    assert [first] + es == all && first in [first];
    MergeTakesTheMarks(work, [first], es);
  }

  lemma IntentsOfAll(all: seq<Export>, merged: Db)
    requires all != [] && MergedFrom(all, merged)
    ensures IntentsOf(merged.intents, all)
  {
    hide FirstSays;
    var first, es := all[0], all[1..];
    var work := Work(first.db, set r | r in first.rows);
    assert [first] + es == all && first in [first];
    forall o | o in first.db.intents ensures FirstSays([first], 0, o, first.db.intents[o].prints) {
      OnlyOneSays(first, o);
    }
    MergeKeepsTheIntents(work, [first], es);
    MarkingKeepsPrints(MergedAll(work, es).value, all);
  }

  lemma OnlyOneSays(first: Export, o: Id)
    requires o in first.db.intents
    ensures FirstSays([first], 0, o, first.db.intents[o].prints)
  {}

  lemma MarkingKeepsPrints(work: Work, all: seq<Export>)
    requires IntentsOf(work.db.intents, all)
    ensures IntentsOf(Marked(work).db.intents, all)
  {
    hide FirstSays;
  }

  /**
   * The recovered store's lineage marks: of every other store the highest that an
   * export of it or a mark in any export vouches for, and no higher.
   */
  ghost predicate MarkedAsSeen(ev: Evidence, all: seq<Export>, store: StoreId, lineage: map<StoreId, nat>) {
    && (forall t | t in lineage ::
          || (exists e | e in all :: t in e.db.lineage && e.db.lineage[t] == lineage[t])
          || (t != store && exists s :: Valid(ev, s) && IdOf(ev, s).store == t && IdOf(ev, s).seqno == lineage[t]))
    && (forall e, t | e in all && t in e.db.lineage :: t in lineage && e.db.lineage[t] <= lineage[t])
    && forall s | Valid(ev, s) && IdOf(ev, s).store != store ::
         IdOf(ev, s).store in lineage && IdOf(ev, s).seqno <= lineage[IdOf(ev, s).store]
  }

  lemma RebuiltMarks(ev: Evidence, all: seq<Export>, store: StoreId, lineage: map<StoreId, nat>)
    requires HighestMarks(lineage, all)
    ensures MarkedAsSeen(ev, all, store, Highest(lineage, Foreigners(ev, store)))
  {
    var z := Highest(lineage, Foreigners(ev, store));
    forall t | t in z && !(t in lineage && z[t] == lineage[t])
      ensures t != store && exists s :: Valid(ev, s) && IdOf(ev, s).store == t && IdOf(ev, s).seqno == z[t]
    {
      ForeignerSeen(ev, store, t);
    }
    forall s | Valid(ev, s) && IdOf(ev, s).store != store
      ensures IdOf(ev, s).store in z && IdOf(ev, s).seqno <= z[IdOf(ev, s).store]
    {
      ValidIsObserved(ev, s);
      ForeignerCovered(ev, store, s);
    }
  }

  lemma ValidIsObserved(ev: Evidence, s: SnapId)
    requires Valid(ev, s)
    ensures s in ValidOnes(ev)
  {}

  lemma ForeignerSeen(ev: Evidence, store: StoreId, t: StoreId)
    requires t in Foreigners(ev, store)
    ensures t != store
    ensures exists s :: Valid(ev, s) && IdOf(ev, s).store == t && IdOf(ev, s).seqno == Foreigners(ev, store)[t]
  {
    var s :| s in ValidOnes(ev) && IdOf(ev, s).store != store && IdOf(ev, s).store == t;
    assert IdOf(ev, s).seqno in ValidSeqs(ev, t);
    assert IsTop(HighestSeq(ValidSeqs(ev, t)), ValidSeqs(ev, t));
    var top :| top in ValidOnes(ev) && IdOf(ev, top).store == t && IdOf(ev, top).seqno == HighestSeq(ValidSeqs(ev, t));
    assert Valid(ev, top);
  }

  lemma FirstIsKnown(work: Work, first: Export, a: Id, o: Id)
    requires |first.rows| == 1 && work == Work(first.db, set r | r in first.rows)
    ensures Single([first]) && RowsOf(work.rows, [first])
    ensures Learned(work.db, [first], a) && FateKnown(work.db, [first], o)
  {
    assert first in [first] && first.rows == [first.rows[0]];
    forall r ensures r in work.rows <==> exists e | e in [first] :: e.rows[0] == r {
      if r in work.rows { assert first.rows[0] == r; }
    }
  }

  lemma SameAttemptRows(end: Work, merged: Db, all: seq<Export>, a: Id)
    requires merged.attempts == end.db.attempts && Learned(end.db, all, a) && Outcomes(end, all, a)
    ensures Learned(merged, all, a) && Outcomes(Work(merged, {}), all, a)
  {
    hide SettledAlike;
  }

  lemma SameOccRows(end: Db, merged: Db, all: seq<Export>, o: Id)
    requires merged.occs == end.occs && FateKnown(end, all, o)
    ensures FateKnown(merged, all, o)
  {}

  function EmptyDb(store: StoreId): Db {
    Db(store, 0, 0, map[], map[], map[], map[], map[])
  }

  /** Store id of the base, or, with no valid export at all, of the newest snapshot. */
  ghost predicate FoundStore(ev: Evidence, store: StoreId) {
    if ValidOnes(ev) == {} then exists s :: Newest(ev, s, Observed(ev)) && IdOf(ev, s).store == store
    else exists b :: IsBase(ev, b) && IdOf(ev, b).store == store
  }

  /** Steps 3 and 4: the base, and every other valid export merged into it. */
  method MergeAll(ev: Evidence) returns (m: Option<Db>, store: StoreId, ghost all: seq<Export>)
    requires Observed(ev) != {}
    ensures TakenIn(ev, all) && |all| == |ValidOnes(ev)| && FoundStore(ev, store)
    ensures forall e | e in all :: |e.rows| == 1
    ensures m.Some? <==> AllAgree(all)
    ensures m.Some? ==> if all == [] then m.value.lineage == map[] && m.value.intents == map[]
                       else MergedFrom(all, m.value)
    ensures m.Some? ==> m.value.ledger == if all == [] then map[] else all[0].db.ledger
    ensures m.Some? ==> (forall e | e in all :: Contains(Work(m.value, {}), e)) && Drawn(Work(m.value, {}), all)
    ensures m.Some? ==> forall o :: Ranked(Work(m.value, {}), all, o)
    ensures m.Some? ==> forall a :: Outcomes(Work(m.value, {}), all, a)
    ensures m.Some? ==> forall o | o in m.value.intents :: m.value.intents[o].recovered
  {
    var base := ChooseBase(ev);
    if base == None {
      var newest := NewestOf(ev, Observed(ev));
      store, all := IdOf(ev, newest).store, [];
      assert forall s :: !Valid(ev, s) by { forall s ensures !Valid(ev, s) { assert s !in ValidOnes(ev); } }
      m := Some(EmptyDb(store));
      return;
    }
    var b := base.value;
    store := IdOf(ev, b).store;
    var first := ExportAt(ev, b);
    var order, es;
    order, es := Others(ev, b);
    ArrangedRows(ev, b, order, es);
    all := [first] + es;
    ArrangedIsAll(ev, b, order, es);
    var work := Work(first.db, set r | r in first.rows);
    FirstRepresents(work, first);
    MergeIsExact(work, [first], es);
    var merged := MergeThem(work, es);
    if merged == None { m := None; return; }
    m := Some(merged.value.db);
    assert all[0] == first && all[1..] == es;
    MergedFacts(work, first, es, merged.value);
  }

  lemma ArrangedIsAll(ev: Evidence, b: SnapId, order: seq<SnapId>, es: seq<Export>)
    requires IsBase(ev, b) && Arranged(ev, b, order, es)
    ensures TakenIn(ev, [ExportAt(ev, b)] + es)
  {
    var all := [ExportAt(ev, b)] + es;
    forall e | e in all ensures exists s :: Valid(ev, s) && ExportAt(ev, s) == e {
      if e != ExportAt(ev, b) {
        var i :| 0 <= i < |es| && es[i] == e;
        assert Valid(ev, order[i]) && ExportAt(ev, order[i]) == e;
      }
    }
    forall s | Valid(ev, s) ensures ExportAt(ev, s) in all {
      if s == b { assert all[0] == ExportAt(ev, b); } else {
        var i :| 0 <= i < |order| && order[i] == s;
        assert all[i + 1] == es[i];
      }
    }
  }

  lemma FirstRepresents(work: Work, first: Export)
    requires work.db == first.db
    ensures Represents(work, [first]) && AllAgree([first])
    ensures forall o :: Ranked(work, [first], o)
    ensures forall a :: Outcomes(work, [first], a)
  {
    assert first in [first];
    forall o | o in work.db.occs ensures Ranked(work, [first], o) {
      assert SaysOf(first, o, work.db.occs[o].state);
    }
  }

  lemma MergedFacts(work: Work, first: Export, es: seq<Export>, marked: Work)
    requires work.db == first.db && Represents(work, [first]) && AllAgree([first])
    requires forall e | e in es :: |e.rows| == 1
    requires forall o :: Ranked(work, [first], o)
    requires forall a :: Outcomes(work, [first], a)
    requires MergedAll(work, es).Some? && marked == Marked(MergedAll(work, es).value)
    ensures var all, w := [first] + es, Work(marked.db, {});
            && (forall e | e in all :: Contains(w, e)) && Drawn(w, all)
            && (forall o :: Ranked(w, all, o)) && (forall a :: Outcomes(w, all, a))
    ensures marked.db.ledger == first.db.ledger
  {
    var all, w, end := [first] + es, Work(marked.db, {}), MergedAll(work, es).value;
    MergeIsExact(work, [first], es);
    LedgerIsTheBases(work, es);
    forall o ensures Ranked(w, all, o) {
      MergeTakesTheHighest(work, [first], es, o);
      MarkedRanks(end, all, o);
    }
    forall a ensures Outcomes(w, all, a) { OutcomesAreRecorded(work, [first], es, a); assert Outcomes(end, all, a); }
    forall e | e in all ensures Contains(w, e) { assert Contains(end, e); }
    assert Drawn(end, all);
  }

  lemma MarkedRanks(end: Work, all: seq<Export>, o: Id)
    requires Ranked(end, all, o)
    ensures Ranked(Work(Marked(end).db, {}), all, o)
  {}

  lemma {:induction false} LedgerIsTheBases(work: Work, es: seq<Export>)
    requires (forall e | e in es :: |e.rows| == 1) && MergedAll(work, es).Some?
    ensures MergedAll(work, es).value.db.ledger == work.db.ledger
    decreases |es|
  {
    if es != [] { LedgerIsTheBases(Merged(work, es[0], es[0].rows[0]), es[1..]); }
  }

  /**
   * `recover`. `None` is a refusal: nothing to recover from, two exports that use
   * one identifier for two things, or a ledger that contradicts the tags. Else
   * `m` are the merged rows before any verdict, and the store returned settles
   * them from evidence.
   */
  method Recover(ev: Evidence, at: int) returns (r: Option<Db>, ghost all: seq<Export>, ghost m: Db)
    ensures r.Some? <==> Observed(ev) != {} && AllAgree(all)
                         && LedgerClear(ev, if all == [] then map[] else all[0].db.ledger)
    ensures Observed(ev) != {} ==> TakenIn(ev, all) && |all| == |ValidOnes(ev)|
    ensures r.Some? ==> FoundStore(ev, r.value.store)
    ensures r.Some? ==> exists merged :: m == LedgeredDb(ev, merged) && (all != [] ==> MergedFrom(all, merged))
    ensures r.Some? ==> (forall e | e in all :: Contains(Work(m, {}), e)) && Drawn(Work(m, {}), all)
    ensures r.Some? ==> forall o :: Ranked(Work(m, {}), all, o)
    ensures r.Some? ==> forall a :: Outcomes(Work(m, {}), all, a)
    ensures r.Some? ==> MarkedAsSeen(ev, all, r.value.store, r.value.lineage) && IntentsOf(r.value.intents, all)
    ensures r.Some? ==> Rebuilt(ev, m, r.value, at)
  {
    hide Contains, Drawn, Ranked, Outcomes, TakenIn, AllAgree, FoundStore, LedgeredDb, SameThings, TriedAs, Genuine,
         MergedFrom, Rebuilt, Observed, Valid, LedgerClear, MarkedAsSeen, HighestMarks, Foreigners, Highest, IntentsOf;
    all, m := [], EmptyDb("");
    if Observed(ev) == {} { return None, all, m; }
    var merged, store;
    merged, store, all := MergeAll(ev);
    if merged == None { return None, all, m; }
    var ledgered := LedgerAll(ev, merged.value);
    if ledgered == None { return None, all, m; }
    m := ledgered.value;
    LedgeringKeepsRows(ev, merged.value, all);
    var db := VerifyAll(ev, ledgered.value, at);
    var rebuilt := RebuildMeta(ev, db, store);
    RebuiltFacts(ev, merged.value, m, db, rebuilt, store, at);
    KeptMarks(ev, merged.value, m, db, all);
    RebuiltMarks(ev, all, store, db.lineage);
    return Some(rebuilt), all, m;
  }

  lemma KeptMarks(ev: Evidence, merged: Db, m: Db, db: Db, all: seq<Export>)
    requires m == LedgeredDb(ev, merged) && SameThings(m, db)
    requires if all == [] then merged.lineage == map[] && merged.intents == map[] else MergedFrom(all, merged)
    ensures HighestMarks(db.lineage, all) && IntentsOf(db.intents, all)
  {
    assert db.lineage == merged.lineage && db.intents == merged.intents;
    if all != [] {
      MarksOfAll(all, merged);
      IntentsOfAll(all, merged);
    }
  }

  /** What the recovered store says, against the merged rows and the evidence. */
  ghost predicate Rebuilt(ev: Evidence, m: Db, db: Db, at: int) {
    && db.occs.Keys == m.occs.Keys && db.attempts.Keys == m.attempts.Keys && Observed(ev) <= m.ledger.Keys
    && (forall o | o in m.occs :: SameOccurrence(m.occs[o], db.occs[o]))
    && (forall a | a in m.attempts :: SamePublication(m.attempts[a], db.attempts[a]))
    && (Genuine(ev, m) ==> forall o | o in m.occs :: TriedAs(ev, m, db, o, at))
    && (forall s | s in Observed(ev) :: s in db.ledger && db.ledger[s].identity == IdOf(ev, s))
    && (forall s | s in Observed(ev) && IdOf(ev, s).store == db.store :: IdOf(ev, s).seqno <= db.seqno)
    && (forall s | s in ValidOnes(ev) && IdOf(ev, s).store != db.store ::
          IdOf(ev, s).store in db.lineage && IdOf(ev, s).seqno <= db.lineage[IdOf(ev, s).store])
    && (forall a | a in db.attempts && db.attempts[a].origin == db.store :: db.attempts[a].seqno <= db.seqno)
    && (forall a | a in db.attempts && db.attempts[a].origin == db.store && db.attempts[a].outcome == Confirmed ::
          db.attempts[a].seqno <= db.frontier)
    && (forall o | o in db.intents :: db.intents[o].recovered)
  }

  lemma LedgeringKeepsRows(ev: Evidence, db: Db, all: seq<Export>)
    ensures var m := LedgeredDb(ev, db);
            && ((forall e | e in all :: Contains(Work(db, {}), e)) ==> forall e | e in all :: Contains(Work(m, {}), e))
            && (Drawn(Work(db, {}), all) ==> Drawn(Work(m, {}), all))
            && ((forall o :: Ranked(Work(db, {}), all, o)) ==> forall o :: Ranked(Work(m, {}), all, o))
            && ((forall a :: Outcomes(Work(db, {}), all, a)) ==> forall a :: Outcomes(Work(m, {}), all, a))
  {
    var m := LedgeredDb(ev, db);
    if forall e | e in all :: Contains(Work(db, {}), e) {
      forall e | e in all ensures Contains(Work(m, {}), e) { assert Contains(Work(db, {}), e); }
    }
    if forall o :: Ranked(Work(db, {}), all, o) {
      forall o ensures Ranked(Work(m, {}), all, o) { assert Ranked(Work(db, {}), all, o); }
    }
    if forall a :: Outcomes(Work(db, {}), all, a) {
      forall a ensures Outcomes(Work(m, {}), all, a) { assert Outcomes(Work(db, {}), all, a); }
    }
  }

  lemma RebuiltFacts(ev: Evidence, merged: Db, m: Db, db: Db, rebuilt: Db, store: StoreId, at: int)
    requires m == LedgeredDb(ev, merged) && SameThings(m, db)
    requires forall o | o in merged.intents :: merged.intents[o].recovered
    requires Genuine(ev, m) ==> forall o | o in m.occs :: TriedAs(ev, m, db, o, at)
    requires rebuilt == db.(store := store, seqno := rebuilt.seqno, frontier := rebuilt.frontier,
                            lineage := Highest(db.lineage, Foreigners(ev, store)))
    requires forall s | s in Observed(ev) && IdOf(ev, s).store == store :: IdOf(ev, s).seqno <= rebuilt.seqno
    requires forall a | a in db.attempts && db.attempts[a].origin == store :: db.attempts[a].seqno <= rebuilt.seqno
    requires forall a | a in db.attempts && db.attempts[a].origin == store && db.attempts[a].outcome == Confirmed ::
               db.attempts[a].seqno <= rebuilt.frontier
    ensures Rebuilt(ev, m, rebuilt, at)
  {
    hide TriedAs, Genuine, SameOccurrence, SamePublication;
    forall s | s in ValidOnes(ev) && IdOf(ev, s).store != store
      ensures IdOf(ev, s).store in rebuilt.lineage && IdOf(ev, s).seqno <= rebuilt.lineage[IdOf(ev, s).store]
    {
      ForeignerCovered(ev, store, s);
    }
    forall s | s in Observed(ev) ensures s in rebuilt.ledger && rebuilt.ledger[s].identity == IdOf(ev, s) {
      assert m.ledger[s].identity == IdOf(ev, s);
    }
    TriedRegardless(ev, m, db, rebuilt, at);
    hide Foreigners, Valid, Highest;
  }

  lemma ForeignerCovered(ev: Evidence, store: StoreId, s: SnapId)
    requires s in ValidOnes(ev) && IdOf(ev, s).store != store
    ensures var t := IdOf(ev, s).store;
            t in Foreigners(ev, store) && IdOf(ev, s).seqno <= Foreigners(ev, store)[t]
  {
    var t := IdOf(ev, s).store;
    assert t in OtherStores(ev, store) && IdOf(ev, s).seqno in ValidSeqs(ev, t);
  }

  /** The watermarks have no part in how an occurrence was settled. */
  lemma TriedRegardless(ev: Evidence, m: Db, db: Db, rebuilt: Db, at: int)
    requires rebuilt.occs == db.occs && rebuilt.attempts == db.attempts && rebuilt.ledger == db.ledger
    ensures forall o | o in m.occs && TriedAs(ev, m, db, o, at) :: TriedAs(ev, m, rebuilt, o, at)
  {
    forall o | o in m.occs && TriedAs(ev, m, db, o, at) ensures TriedAs(ev, m, rebuilt, o, at) {
      if m.occs[o].state != Abandoned {
        var w :| Wins(ev, m, o, w) && (w.Some? ==> Observable(ev, w.value)) && SettledWith(ev, m, db, o, w, at);
        assert SettledWith(ev, m, rebuilt, o, w, at);
      }
    }
  }
}
