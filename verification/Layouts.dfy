/**
 * Exactly which layouts of the accepted grammar read back as what they mean. The
 * one ambiguity is a list of one bare null written without any space.
 */
module Layouts {
  import opened Wrappers
  import opened Spotlight

  // ---- the grammar, the ambiguous list included ---------------------------------------------

  predicate Grammatical(d: Doc)
    decreases d, 0
  {
    match d
    case NullDoc(_) => true
    case IntDoc(_) => true
    case TextDoc(ps) => GoodPieces(ps)
    case ListDoc(items) => GrammaticalItems(items)
    case DictDoc(fields) => GrammaticalFields(fields, [])
  }

  predicate GrammaticalItems(items: Items)
    decreases items, 0
  {
    match items
    case NoItems(gap) => Spaces(gap)
    case AnItem(lead, item, gap, more) =>
      Spaces(lead) && Grammatical(item) && Spaces(gap)
      && match more { case Close => true case Comma(rest) => GrammaticalItems(rest) }
  }

  predicate GrammaticalFields(fields: Fields, before: seq<Field>)
    decreases fields, 0
  {
    match fields
    case NoFields(gap) => Spaces(gap)
    case AField(lead, key, b, a, value, gap, rest) =>
      && Spaces(lead) && GoodKey(key) && Spaces(b) && Spaces(a) && Grammatical(value) && Spaces(gap)
      && !HasKey(before, KeyOf(key)) && GrammaticalFields(rest, before + [Field(KeyOf(key), Meaning(value))])
  }

  /** Somewhere in the layout stands `(null)`, written as a list. */
  predicate TightNull(d: Doc)
    decreases d, 0
  {
    match d
    case ListDoc(items) => items == LooksNull() || TightInItems(items)
    case DictDoc(fields) => TightInFields(fields)
    case _ => false
  }

  predicate TightInItems(items: Items)
    decreases items, 0
  {
    match items
    case NoItems(_) => false
    case AnItem(_, item, _, more) =>
      TightNull(item) || match more { case Close => false case Comma(rest) => TightInItems(rest) }
  }

  predicate TightInFields(fields: Fields)
    decreases fields, 0
  {
    match fields
    case NoFields(_) => false
    case AField(_, _, _, _, value, _, rest) => TightNull(value) || TightInFields(rest)
  }

  // ---- how the reader takes a layout -------------------------------------------------------------

  /** The same text, each tight list taken for the null it looks like. */
  function Resolved(d: Doc): Doc
    decreases d, 0
  {
    match d
    case ListDoc(items) => if items == LooksNull() then NullDoc(true) else ListDoc(ResolvedItems(items))
    case DictDoc(fields) => DictDoc(ResolvedFields(fields))
    case _ => d
  }

  function ResolvedItems(items: Items): Items
    decreases items, 0
  {
    match items
    case NoItems(_) => items
    case AnItem(lead, item, gap, more) =>
      AnItem(lead, Resolved(item), gap,
             match more { case Close => Close case Comma(rest) => Comma(ResolvedItems(rest)) })
  }

  function ResolvedFields(fields: Fields): Fields
    decreases fields, 0
  {
    match fields
    case NoFields(_) => fields
    case AField(lead, key, b, a, value, gap, rest) =>
      AField(lead, key, b, a, Resolved(value), gap, ResolvedFields(rest))
  }

  lemma {:induction false} ResolvedPrints(d: Doc)
    ensures Print(Resolved(d)) == Print(d)
    decreases d, 0
  {
    match d
    case ListDoc(items) => ResolvedItemsPrint(items);
    case DictDoc(fields) => ResolvedFieldsPrint(fields);
    case _ =>
  }

  lemma {:induction false} ResolvedItemsPrint(items: Items)
    ensures PrintItems(ResolvedItems(items)) == PrintItems(items)
    decreases items, 0
  {
    match items
    case NoItems(_) =>
    case AnItem(_, item, _, more) =>
      ResolvedPrints(item);
      if more.Comma? { ResolvedItemsPrint(more.items); }
  }

  lemma {:induction false} ResolvedFieldsPrint(fields: Fields)
    ensures PrintFields(ResolvedFields(fields)) == PrintFields(fields)
    decreases fields, 0
  {
    match fields
    case NoFields(_) =>
    case AField(_, _, _, _, value, _, rest) =>
      ResolvedPrints(value);
      ResolvedFieldsPrint(rest);
  }

  lemma {:induction false} ResolvedIsGood(d: Doc)
    requires Grammatical(d)
    ensures Good(Resolved(d))
    decreases d, 0
  {
    match d
    case ListDoc(items) => ResolvedItemsAreGood(items);
    case DictDoc(fields) => ResolvedFieldsAreGood(fields, [], []);
    case _ =>
  }

  lemma {:induction false} ResolvedItemsAreGood(items: Items)
    requires GrammaticalItems(items)
    ensures GoodItems(ResolvedItems(items)) && (items != LooksNull() ==> ResolvedItems(items) != LooksNull())
    decreases items, 0
  {
    match items
    case NoItems(_) =>
    case AnItem(_, item, _, more) =>
      ResolvedIsGood(item);
      if more.Comma? { ResolvedItemsAreGood(more.items); }
  }

  predicate SameKeys(x: seq<Field>, y: seq<Field>) {
    |x| == |y| && forall i | 0 <= i < |x| :: x[i].key == y[i].key
  }

  lemma KeysDecide(x: seq<Field>, y: seq<Field>, key: string)
    requires SameKeys(x, y)
    ensures HasKey(x, key) <==> HasKey(y, key)
  {
    KeyCarries(x, y, key);
    KeyCarries(y, x, key);
  }

  lemma KeyCarries(x: seq<Field>, y: seq<Field>, key: string)
    requires SameKeys(x, y)
    ensures HasKey(x, key) ==> HasKey(y, key)
  {
    if HasKey(x, key) {
      var i :| 0 <= i < |x| && x[i].key == key;
      assert y[i] in y && y[i].key == key;
    }
  }

  lemma {:induction false} ResolvedFieldsAreGood(fields: Fields, before: seq<Field>, resolved: seq<Field>)
    requires GrammaticalFields(fields, before) && SameKeys(before, resolved)
    ensures GoodFields(ResolvedFields(fields), resolved)
    decreases fields, 0
  {
    match fields
    case NoFields(_) =>
    case AField(_, key, _, _, value, _, rest) =>
      ResolvedIsGood(value);
      KeysDecide(before, resolved, KeyOf(key));
      ResolvedFieldsAreGood(rest, before + [Field(KeyOf(key), Meaning(value))],
                            resolved + [Field(KeyOf(key), Meaning(Resolved(value)))]);
  }

  lemma {:induction false} ResolvedMeans(d: Doc)
    ensures Meaning(Resolved(d)) == Meaning(d) <==> !TightNull(d)
    ensures !TightNull(d) ==> Resolved(d) == d
    decreases d, 0
  {
    match d
    case ListDoc(items) => ResolvedItemsMean(items);
    case DictDoc(fields) => ResolvedFieldsMean(fields);
    case _ =>
  }

  lemma {:induction false} ResolvedItemsMean(items: Items)
    ensures ItemsOf(ResolvedItems(items)) == ItemsOf(items) <==> !TightInItems(items)
    ensures !TightInItems(items) ==> ResolvedItems(items) == items
    decreases items, 0
  {
    match items
    case NoItems(_) =>
    case AnItem(_, item, _, more) =>
      ResolvedMeans(item);
      var xs, ys: seq<Value> := [], [];
      if more.Comma? {
        ResolvedItemsMean(more.items);
        xs, ys := ItemsOf(ResolvedItems(more.items)), ItemsOf(more.items);
      }
      HeadAndTail(Meaning(Resolved(item)), xs, Meaning(item), ys);
  }

  lemma {:induction false} ResolvedFieldsMean(fields: Fields)
    ensures FieldsOf(ResolvedFields(fields)) == FieldsOf(fields) <==> !TightInFields(fields)
    ensures !TightInFields(fields) ==> ResolvedFields(fields) == fields
    decreases fields, 0
  {
    match fields
    case NoFields(_) =>
    case AField(_, key, _, _, value, _, rest) =>
      ResolvedMeans(value);
      ResolvedFieldsMean(rest);
      HeadAndTail(Field(KeyOf(key), Meaning(Resolved(value))), FieldsOf(ResolvedFields(rest)),
                  Field(KeyOf(key), Meaning(value)), FieldsOf(rest));
  }

  lemma HeadAndTail<T>(x: T, xs: seq<T>, y: T, ys: seq<T>)
    ensures [x] + xs == [y] + ys <==> x == y && xs == ys
  {
    if [x] + xs == [y] + ys {
      assert ([x] + xs)[0] == x && ([y] + ys)[0] == y;
      assert ([x] + xs)[1..] == xs && ([y] + ys)[1..] == ys;
    }
  }

  // ---- exactly what reads back --------------------------------------------------------------------

  /**
   * A layout of the grammar reads back as what it means, the cursor at its end,
   * exactly when it nests no deeper than 64 levels and nowhere writes a list of one
   * null tight; with such a list in it, another value is read.
   */
  lemma ReadsBackExactly(d: Doc)
    requires Grammatical(d)
    ensures ReadValue(Print(d), 0, 0) == Got(Meaning(d), |Print(d)|) <==> Height(d) <= MAX_DEPTH && !TightNull(d)
    ensures ReadValue(Print(d), 0, 0) ==
            if Height(Resolved(d)) <= MAX_DEPTH then Got(Meaning(Resolved(d)), |Print(d)|) else Bad
  {
    hide Print, ReadValue, Meaning, Height, Good, TightNull, Grammatical, Resolved;
    ResolvedPrints(d);
    ResolvedIsGood(d);
    ResolvedMeans(d);
    RoundTrip(Resolved(d));
  }
}
