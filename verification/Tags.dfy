/**
 * The seven reserved snapshot tags: a strict parse, exactly what it accepts, and
 * that it undoes the printing of an identity.
 */
module Tags {
  import opened Wrappers
  import opened Digits

  const PREFIX := "dropin:"
  const MAX_SEQ := 0x7FFF_FFFF_FFFF_FFFE

  /** The reserved keys. */
  datatype Key = Version | Store | Occ | Attempt | Seq | Kind | Sha

  function NameOf(k: Key): string {
    match k
    case Version => "v"
    case Store => "store"
    case Occ => "occ"
    case Attempt => "attempt"
    case Seq => "seq"
    case Kind => "kind"
    case Sha => "catalog-sha256"
  }

  function KeyNamed(s: string): Option<Key> {
    if s == "v" then Some(Version)
    else if s == "store" then Some(Store)
    else if s == "occ" then Some(Occ)
    else if s == "attempt" then Some(Attempt)
    else if s == "seq" then Some(Seq)
    else if s == "kind" then Some(Kind)
    else if s == "catalog-sha256" then Some(Sha)
    else None
  }

  lemma NamesAreKeys(k: Key)
    ensures KeyNamed(NameOf(k)) == Some(k) && '=' !in NameOf(k)
  {}

  /** All seven keys are there. */
  predicate Complete(seen: map<Key, string>) {
    && Version in seen && Store in seen && Occ in seen && Attempt in seen && Seq in seen && Kind in seen && Sha in seen
  }

  datatype TagIdentity = TagIdentity(store: string, occ: string, attempt: string, seqno: nat, kind: string,
                                     digest: string)

  // ---- one tag ---------------------------------------------------------------------------

  /** What a tag is to the parser: no reserved one, one without "=", or a key and its value. */
  datatype Reading = NotReserved | NoValue(key: Key) | Valued(key: Key, value: string)

  /** Index of the first "=", or the length. */
  function EqualsAt(s: string): (k: nat)
    ensures k <= |s| && (k < |s| ==> s[k] == '=') && forall i | 0 <= i < k :: s[i] != '='
  {
    if s == "" || s[0] == '=' then 0 else 1 + EqualsAt(s[1..])
  }

  function ReadTag(tag: string): Reading {
    if |tag| < |PREFIX| || tag[..|PREFIX|] != PREFIX then NotReserved
    else
      var body := tag[|PREFIX|..];
      var k := EqualsAt(body);
      match KeyNamed(body[..k])
      case None => NotReserved
      case Some(key) => if k == |body| then NoValue(key) else Valued(key, body[k + 1..])
  }

  function Tag(key: Key, value: string): string {
    PREFIX + NameOf(key) + "=" + value
  }

  lemma TagReads(key: Key, value: string)
    ensures ReadTag(Tag(key, value)) == Valued(key, value)
  {
    var tag, name := Tag(key, value), NameOf(key);
    NamesAreKeys(key);
    hide NameOf, KeyNamed;
    assert tag[..|PREFIX|] == PREFIX;
    var body := tag[|PREFIX|..];
    assert body == name + "=" + value;
    assert EqualsAt(body) == |name| by {
      var k := EqualsAt(body);
      assert body[|name|] == '=';
      assert forall i | 0 <= i < |name| :: body[i] == name[i] && body[i] in name;
    }
    assert body[..|name|] == name && body[|name| + 1..] == value;
  }

  // ---- the grammar of the values -----------------------------------------------------------

  predicate IsLowerHex(c: char) { IsDigit(c) || 'a' <= c <= 'f' }

  predicate IsCrockford(c: char) { c in "0123456789ABCDEFGHJKMNPQRSTVWXYZ" }

  predicate StoreForm(s: string) { |s| == 32 && forall i | 0 <= i < |s| :: IsLowerHex(s[i]) }

  predicate ShaForm(s: string) { |s| == 64 && forall i | 0 <= i < |s| :: IsLowerHex(s[i]) }

  predicate SeqForm(s: string) { AllDigits(s) && s[0] != '0' }

  predicate IdentifierForm(s: string) {
    |s| == 59 && StoreForm(s[..32]) && s[32] == '.' && forall i | 33 <= i < 59 :: IsCrockford(s[i])
  }

  /** `$` also matches before one newline at the end. */
  function Line(s: string): string {
    if s != "" && s[|s| - 1] == '\n' then s[..|s| - 1] else s
  }

  /** The checks after all seven keys were seen once. */
  predicate GoodValues(seen: map<Key, string>)
    requires Complete(seen)
  {
    && seen[Version] == "1"
    && StoreForm(Line(seen[Store]))
    && seen[Kind] in ["file", "dir", "bundle"]
    && ShaForm(Line(seen[Sha]))
    && SeqForm(Line(seen[Seq])) && DecimalValue(Line(seen[Seq])) <= MAX_SEQ
    && IdentifierForm(Line(seen[Occ])) && seen[Store] + "." <= seen[Occ]
    && IdentifierForm(Line(seen[Attempt])) && seen[Store] + "." <= seen[Attempt]
  }

  function IdentityOf(seen: map<Key, string>): TagIdentity
    requires Complete(seen) && GoodValues(seen)
  {
    TagIdentity(seen[Store], seen[Occ], seen[Attempt], DecimalValue(Line(seen[Seq])), seen[Kind],
                seen[Sha])
  }

  // ---- the parse ---------------------------------------------------------------------------------

  predicate HasKey(tag: string, key: Key) {
    match ReadTag(tag) case NotReserved => false case NoValue(k) => k == key case Valued(k, _) => k == key
  }

  /** Among the tags before `n`, `seen` is what was read: each key once, with its value. */
  ghost predicate Collected(tags: seq<string>, n: nat, seen: map<Key, string>)
    requires n <= |tags|
  {
    && (forall i | 0 <= i < n :: !ReadTag(tags[i]).NoValue?)
    && (forall i | 0 <= i < n && ReadTag(tags[i]).Valued? ::
          ReadTag(tags[i]).key in seen && seen[ReadTag(tags[i]).key] == ReadTag(tags[i]).value)
    && (forall i, j | 0 <= i < j < n && ReadTag(tags[i]).Valued? && ReadTag(tags[j]).Valued? ::
          ReadTag(tags[i]).key != ReadTag(tags[j]).key)
    && (forall k | k in seen :: exists i | 0 <= i < n :: ReadTag(tags[i]) == Valued(k, seen[k]))
  }

  lemma CollectedOnce(tags: seq<string>, x: map<Key, string>, y: map<Key, string>)
    requires Collected(tags, |tags|, x) && Collected(tags, |tags|, y)
    ensures x == y
  {
    hide ReadTag;
    CollectedWithin(tags, x, y);
    CollectedWithin(tags, y, x);
  }

  lemma CollectedWithin(tags: seq<string>, x: map<Key, string>, y: map<Key, string>)
    requires Collected(tags, |tags|, x) && Collected(tags, |tags|, y)
    ensures forall k | k in x :: k in y && y[k] == x[k]
  {
    hide ReadTag;
    forall k | k in x ensures k in y && y[k] == x[k] {
      var i :| 0 <= i < |tags| && ReadTag(tags[i]) == Valued(k, x[k]);
    }
  }

  /** All seven keys, each once, all values in their grammar. */
  ghost predicate Accepted(tags: seq<string>, seen: map<Key, string>) {
    Collected(tags, |tags|, seen) && Complete(seen) && GoodValues(seen)
  }

  /** `parse_tags`; `None` is a `TagError`. */
  method ParseTags(tags: seq<string>) returns (r: Option<TagIdentity>)
    ensures r.Some? ==> exists seen :: Accepted(tags, seen) && r.value == IdentityOf(seen)
    ensures r.None? ==> !exists seen :: Accepted(tags, seen)
  {
    hide ReadTag, GoodValues;
    var seen: map<Key, string> := map[];
    for i := 0 to |tags|
      invariant Collected(tags, i, seen)
    {
      match ReadTag(tags[i]) {
        case NotReserved =>
        case NoValue(_) => return None;
        case Valued(key, value) =>
          if key in seen {
            Repeated(tags, i, seen);
            return None;
          }
          OneMoreTag(tags, i, seen);
          seen := seen[key := value];
      }
    }
    forall other | Collected(tags, |tags|, other) ensures other == seen { CollectedOnce(tags, other, seen); }
    if !Complete(seen) { return None; }
    if !GoodValues(seen) { return None; }
    assert Accepted(tags, seen);
    return Some(IdentityOf(seen));
  }

  lemma OneMoreTag(tags: seq<string>, i: nat, seen: map<Key, string>)
    requires i < |tags| && Collected(tags, i, seen) && ReadTag(tags[i]).Valued? && ReadTag(tags[i]).key !in seen
    ensures Collected(tags, i + 1, seen[ReadTag(tags[i]).key := ReadTag(tags[i]).value])
  {
    hide ReadTag;
    var key, value := ReadTag(tags[i]).key, ReadTag(tags[i]).value;
    var seen' := seen[key := value];
    forall k | k in seen' ensures exists j | 0 <= j < i + 1 :: ReadTag(tags[j]) == Valued(k, seen'[k]) {
      if k == key {
        assert ReadTag(tags[i]) == Valued(k, seen'[k]);
      } else {
        var j :| 0 <= j < i && ReadTag(tags[j]) == Valued(k, seen[k]);
      }
    }
  }

  /** A second tag with the same key: nothing can be collected. */
  lemma Repeated(tags: seq<string>, i: nat, seen: map<Key, string>)
    requires i < |tags| && Collected(tags, i, seen) && ReadTag(tags[i]).Valued? && ReadTag(tags[i]).key in seen
    ensures forall other :: !Collected(tags, |tags|, other)
  {
    var k := ReadTag(tags[i]).key;
    var j :| 0 <= j < i && ReadTag(tags[j]) == Valued(k, seen[k]);
    hide ReadTag;
  }

  // ---- printing and parsing ------------------------------------------------------------------------

  /** `tag_set`: the canonical values. */
  function TagSet(id: TagIdentity): map<Key, string> {
    map[Version := "1", Store := id.store, Occ := id.occ, Attempt := id.attempt, Seq := Decimal(id.seqno),
        Kind := id.kind, Sha := id.digest]
  }

  /** `to_tags`. */
  function ToTags(id: TagIdentity): seq<string> {
    [Tag(Version, "1"), Tag(Store, id.store), Tag(Occ, id.occ), Tag(Attempt, id.attempt),
     Tag(Seq, Decimal(id.seqno)), Tag(Kind, id.kind), Tag(Sha, id.digest)]
  }

  predicate WellFormed(id: TagIdentity) {
    && StoreForm(id.store) && ShaForm(id.digest) && id.kind in ["file", "dir", "bundle"]
    && 1 <= id.seqno <= MAX_SEQ
    && IdentifierForm(id.occ) && id.occ[..32] == id.store
    && IdentifierForm(id.attempt) && id.attempt[..32] == id.store
  }

  /** `tags` are the identity's seven, each once, in any order, among any non-reserved ones. */
  ghost predicate MixOf(tags: seq<string>, id: TagIdentity) {
    && (forall i | 0 <= i < |tags| && tags[i] !in ToTags(id) :: ReadTag(tags[i]).NotReserved?)
    && (forall t | t in ToTags(id) :: exists i | 0 <= i < |tags| :: tags[i] == t)
    && (forall i, j | 0 <= i < j < |tags| && tags[i] in ToTags(id) :: tags[i] != tags[j])
  }

  lemma PrintedReads(id: TagIdentity, t: string)
    requires t in ToTags(id)
    ensures ReadTag(t).Valued? && ReadTag(t).key in TagSet(id) && ReadTag(t).value == TagSet(id)[ReadTag(t).key]
    ensures t == Tag(ReadTag(t).key, ReadTag(t).value)
  {
    TagReads(Version, "1");
    TagReads(Store, id.store);
    TagReads(Occ, id.occ);
    TagReads(Attempt, id.attempt);
    TagReads(Seq, Decimal(id.seqno));
    TagReads(Kind, id.kind);
    TagReads(Sha, id.digest);
    hide ReadTag, Tag;
  }

  lemma KeyIsPrinted(id: TagIdentity, k: Key)
    requires k in TagSet(id)
    ensures Tag(k, TagSet(id)[k]) in ToTags(id)
  {}

  lemma MixIsCollected(tags: seq<string>, id: TagIdentity)
    requires MixOf(tags, id)
    ensures Collected(tags, |tags|, TagSet(id)) && Complete(TagSet(id))
  {
    hide ReadTag, Tag;
    var seen := TagSet(id);
    forall i | 0 <= i < |tags|
      ensures !ReadTag(tags[i]).NoValue?
      ensures ReadTag(tags[i]).Valued? ==>
                (tags[i] in ToTags(id) && ReadTag(tags[i]).key in seen
                 && seen[ReadTag(tags[i]).key] == ReadTag(tags[i]).value
                 && tags[i] == Tag(ReadTag(tags[i]).key, ReadTag(tags[i]).value))
    {
      if tags[i] in ToTags(id) { PrintedReads(id, tags[i]); }
    }
    forall k | k in seen ensures exists i | 0 <= i < |tags| :: ReadTag(tags[i]) == Valued(k, seen[k]) {
      KeyIsPrinted(id, k);
      TagReads(k, seen[k]);
      var i :| 0 <= i < |tags| && tags[i] == Tag(k, seen[k]);
    }
  }

  lemma PrintedIsGood(id: TagIdentity)
    requires WellFormed(id)
    ensures Complete(TagSet(id)) && GoodValues(TagSet(id)) && IdentityOf(TagSet(id)) == id
  {
    hide StoreForm, ShaForm, IdentifierForm, SeqForm, Line, Decimal, DecimalValue, AllDigits, NameOf, KeyNamed, ReadTag;
    HexLines(id.store, id.digest);
    SeqPrints(id.seqno);
    IdentifierPrints(id.store, id.occ);
    IdentifierPrints(id.store, id.attempt);
  }

  lemma HexLines(store: string, digest: string)
    requires StoreForm(store) && ShaForm(digest)
    ensures Line(store) == store && Line(digest) == digest
  {}

  lemma SeqPrints(n: nat)
    requires 1 <= n
    ensures Line(Decimal(n)) == Decimal(n) && SeqForm(Decimal(n)) && DecimalValue(Decimal(n)) == n
  {
    DecimalReads(n);
    assert IsDigit(Decimal(n)[|Decimal(n)| - 1]);
    LineOf(Decimal(n));
  }

  lemma IdentifierPrints(store: string, s: string)
    requires IdentifierForm(s) && s[..32] == store
    ensures Line(s) == s && store + "." <= s
  {
    assert IsCrockford(s[58]);
    assert s[..33] == s[..32] + [s[32]];
  }

  lemma LineOf(s: string)
    requires s != "" && s[|s| - 1] != '\n'
    ensures Line(s) == s
  {}

  /**
   * Parsing undoes printing: whatever order the seven tags come back in, and
   * whatever other tags stand among them, the identity is the one printed.
   */
  method PrintThenParse(id: TagIdentity, tags: seq<string>) returns (r: Option<TagIdentity>)
    requires WellFormed(id) && MixOf(tags, id)
    ensures r == Some(id)
  {
    MixIsCollected(tags, id);
    PrintedIsGood(id);
    assert Accepted(tags, TagSet(id));
    hide GoodValues, MixOf;
    r := ParseTags(tags);
    ghost var seen :| Accepted(tags, seen) && r.value == IdentityOf(seen);
    CollectedOnce(tags, seen, TagSet(id));
  }

  /**
   * What is accepted holds every reserved key in exactly one tag, with a value: a
   * missing, repeated or valueless key is always rejected.
   */
  lemma EachKeyOnce(tags: seq<string>, seen: map<Key, string>, key: Key) returns (i: nat)
    requires Accepted(tags, seen)
    ensures i < |tags| && ReadTag(tags[i]) == Valued(key, seen[key])
    ensures forall j | 0 <= j < |tags| && HasKey(tags[j], key) :: j == i
  {
    hide ReadTag, GoodValues;
    i :| 0 <= i < |tags| && ReadTag(tags[i]) == Valued(key, seen[key]);
  }

  // ---- exactly what is printed -------------------------------------------------------------------

  /** A reserved tag is its key and value, spelled one way. */
  lemma ReadAsPrinted(tag: string, key: Key, value: string)
    requires ReadTag(tag) == Valued(key, value)
    ensures tag == Tag(key, value)
  {
    hide KeyNamed, NameOf;
    var body := tag[|PREFIX|..];
    var k := EqualsAt(body);
    OneName(body[..k], key);
    assert body == body[..k] + "=" + body[k + 1..];
    assert tag == tag[..|PREFIX|] + body;
  }

  lemma OneName(name: string, key: Key)
    requires KeyNamed(name) == Some(key)
    ensures NameOf(key) == name
  {}

  predicate OneLine(s: string) {
    s == "" || s[|s| - 1] != '\n'
  }

  /**
   * What is accepted is exactly what a well-formed identity prints - in any order,
   * among any other tags - if and only if no value ends with a newline.
   */
  lemma AcceptedAsPrinted(tags: seq<string>, seen: map<Key, string>)
    requires Accepted(tags, seen)
    ensures (forall k | k in seen :: OneLine(seen[k])) <==>
            (WellFormed(IdentityOf(seen)) && MixOf(tags, IdentityOf(seen)))
  {
    hide ReadTag, GoodValues, WellFormed, MixOf, Collected, TagSet;
    var id := IdentityOf(seen);
    if forall k | k in seen :: OneLine(seen[k]) {
      OneLineIsWellFormed(seen);
      CollectedIsMix(tags, id);
    }
    if WellFormed(id) && MixOf(tags, id) {
      MixIsCollected(tags, id);
      CollectedOnce(tags, seen, TagSet(id));
      PrintedIsOneLine(id);
    }
  }

  lemma OneLineIsWellFormed(seen: map<Key, string>)
    requires Complete(seen) && GoodValues(seen) && forall k | k in seen :: OneLine(seen[k])
    ensures WellFormed(IdentityOf(seen)) && TagSet(IdentityOf(seen)) == seen
  {
    hide StoreForm, ShaForm, IdentifierForm, AllDigits, DecimalValue, Decimal;
    assert forall k | k in seen :: Line(seen[k]) == seen[k];
    DecimalPrints(seen[Seq]);
    PrefixIsStore(seen[Store], seen[Occ]);
    PrefixIsStore(seen[Store], seen[Attempt]);
    PrintedIsSeen(seen, DecimalValue(seen[Seq]));
  }

  lemma PrintedIsSeen(seen: map<Key, string>, n: nat)
    requires Complete(seen) && seen[Version] == "1" && Decimal(n) == seen[Seq]
    ensures TagSet(TagIdentity(seen[Store], seen[Occ], seen[Attempt], n, seen[Kind], seen[Sha])) == seen
  {
    var printed := TagSet(TagIdentity(seen[Store], seen[Occ], seen[Attempt], n, seen[Kind], seen[Sha]));
    forall k: Key ensures k in seen && k in printed && printed[k] == seen[k] {
      match k case Version => case Store => case Occ => case Attempt => case Seq => case Kind => case Sha =>
    }
  }

  lemma PrefixIsStore(store: string, s: string)
    requires StoreForm(store) && IdentifierForm(s) && store + "." <= s
    ensures s[..32] == store
  {
    assert s[..33] == store + ".";
    assert s[..32] == s[..33][..32];
  }

  lemma CollectedIsMix(tags: seq<string>, id: TagIdentity)
    requires Collected(tags, |tags|, TagSet(id))
    ensures MixOf(tags, id)
  {
    hide ReadTag, Tag;
    var seen := TagSet(id);
    forall i | 0 <= i < |tags| && ReadTag(tags[i]).Valued?
      ensures tags[i] == Tag(ReadTag(tags[i]).key, seen[ReadTag(tags[i]).key]) && tags[i] in ToTags(id)
    {
      ReadAsPrinted(tags[i], ReadTag(tags[i]).key, ReadTag(tags[i]).value);
      KeyIsPrinted(id, ReadTag(tags[i]).key);
    }
    forall t | t in ToTags(id) ensures exists i | 0 <= i < |tags| :: tags[i] == t {
      PrintedReads(id, t);
      var k := ReadTag(t).key;
      var i :| 0 <= i < |tags| && ReadTag(tags[i]) == Valued(k, seen[k]);
      ReadAsPrinted(tags[i], k, seen[k]);
    }
    forall i, j | 0 <= i < j < |tags| && tags[i] in ToTags(id) ensures tags[i] != tags[j] {
      PrintedReads(id, tags[i]);
    }
  }

  lemma PrintedIsOneLine(id: TagIdentity)
    requires WellFormed(id)
    ensures forall k | k in TagSet(id) :: OneLine(TagSet(id)[k])
  {
    hide StoreForm, ShaForm, IdentifierForm, SeqForm, Decimal, DecimalValue, AllDigits;
    HexLines(id.store, id.digest);
    SeqPrints(id.seqno);
    IdentifierPrints(id.store, id.occ);
    IdentifierPrints(id.store, id.attempt);
  }

  /**
   * The parse is not quite strict: one newline may end an identifier, the sequence
   * or the digest. For each of the four, the seven tags of any identity with that
   * newline are accepted although they are no identity's tags - with the sequence,
   * as the very identity.
   */
  lemma NewlineIsAccepted(id: TagIdentity, key: Key)
    requires WellFormed(id) && key in {Occ, Attempt, Seq, Sha}
    ensures var value := TagSet(id)[key] + "\n";
            var tags, seen := ToTags(id)[IndexOf(key) := Tag(key, value)], TagSet(id)[key := value];
            && Accepted(tags, seen) && (key == Seq ==> IdentityOf(seen) == id)
            && !(WellFormed(IdentityOf(seen)) && MixOf(tags, IdentityOf(seen)))
  {
    hide StoreForm, ShaForm, IdentifierForm, SeqForm, Line, Decimal, DecimalValue, AllDigits, ReadTag, NameOf, KeyNamed,
         MixOf, WellFormed, Tag, Collected;
    var value := TagSet(id)[key] + "\n";
    var tags, seen := ToTags(id)[IndexOf(key) := Tag(key, value)], TagSet(id)[key := value];
    NewlineIsGood(id, key);
    KeysInOrder();
    SevenAreCollected(tags, seen);
    AcceptedAsPrinted(tags, seen);
    assert !OneLine(value);
  }

  lemma NewlineIsGood(id: TagIdentity, key: Key)
    requires WellFormed(id) && key in {Occ, Attempt, Seq, Sha}
    ensures var seen := TagSet(id)[key := TagSet(id)[key] + "\n"];
            Complete(seen) && GoodValues(seen) && (key == Seq ==> IdentityOf(seen) == id)
  {
    hide StoreForm, ShaForm, IdentifierForm, SeqForm, Line, Decimal, DecimalValue, AllDigits, WellFormed;
    PrintedIsGood(id);
    LineEnd(TagSet(id)[key]);
    PrintedLines(id);
    SeqValue(id);
  }

  lemma PrintedLines(id: TagIdentity)
    requires WellFormed(id)
    ensures forall k | k in {Occ, Attempt, Seq, Sha} :: Line(TagSet(id)[k]) == TagSet(id)[k]
  {
    hide StoreForm, ShaForm, IdentifierForm, SeqForm, Decimal, DecimalValue, AllDigits, Line;
    HexLines(id.store, id.digest);
    SeqPrints(id.seqno);
    IdentifierPrints(id.store, id.occ);
    IdentifierPrints(id.store, id.attempt);
  }

  lemma SeqValue(id: TagIdentity)
    requires WellFormed(id)
    ensures SeqForm(Decimal(id.seqno)) && DecimalValue(Decimal(id.seqno)) == id.seqno
  {
    SeqPrints(id.seqno);
  }

  function IndexOf(key: Key): (i: nat)
    ensures i < 7
  {
    match key
    case Version => 0
    case Store => 1
    case Occ => 2
    case Attempt => 3
    case Seq => 4
    case Kind => 5
    case Sha => 6
  }

  lemma KeysInOrder()
    ensures forall i | 0 <= i < 7 :: IndexOf(KeyAt(i)) == i
    ensures forall k :: KeyAt(IndexOf(k)) == k
  {
    forall i | 0 <= i < 7 ensures IndexOf(KeyAt(i)) == i {
      if i == 0 {} else if i == 1 {} else if i == 2 {} else if i == 3 {} else if i == 4 {} else if i == 5 {} else {
        assert i == 6;
      }
    }
  }

  lemma LineEnd(s: string)
    ensures Line(s + "\n") == s
  {}

  function KeyAt(i: nat): Key
    requires i < 7
  {
    [Version, Store, Occ, Attempt, Seq, Kind, Sha][i]
  }

  lemma SevenAreCollected(tags: seq<string>, seen: map<Key, string>)
    requires |tags| == 7 && Complete(seen)
    requires forall i | 0 <= i < 7 :: tags[i] == Tag(KeyAt(i), seen[KeyAt(i)])
    ensures Collected(tags, 7, seen)
  {
    hide ReadTag, Tag;
    forall i | 0 <= i < 7 ensures ReadTag(tags[i]) == Valued(KeyAt(i), seen[KeyAt(i)]) {
      TagReads(KeyAt(i), seen[KeyAt(i)]);
    }
    forall k | k in seen ensures exists i | 0 <= i < 7 :: ReadTag(tags[i]) == Valued(k, seen[k]) {
      assert exists i | 0 <= i < 7 :: KeyAt(i) == k by {
        assert KeyAt(0) == Version && KeyAt(1) == Store && KeyAt(2) == Occ && KeyAt(3) == Attempt;
        assert KeyAt(4) == Seq && KeyAt(5) == Kind && KeyAt(6) == Sha;
      }
    }
  }

  /** A store id is never accepted with a newline: the identifiers would have to repeat it. */
  lemma StoreIsStrict(seen: map<Key, string>)
    requires Complete(seen) && GoodValues(seen)
    ensures StoreForm(seen[Store])
  {
    var s, o := seen[Store], seen[Occ];
    assert s + "." <= o && o[..33] == (s + ".")[..33];
    assert Line(o)[..33] == o[..33];
  }
}
