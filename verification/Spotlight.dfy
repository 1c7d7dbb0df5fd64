/**
 * The reader of Spotlight's text descriptions: what each read returns and where
 * it leaves the cursor, and that it undoes every accepted way to print a value.
 */
module Spotlight {
  import opened Wrappers
  import opened Digits

  /** Dates keep their text; fractions keep their digits. */
  datatype Value =
    | Null
    | Number(n: int)
    | Fraction(digits: string)
    | Date(stamp: string)
    | Text(s: string)
    | List(items: seq<Value>)
    | Dict(fields: seq<Field>)
  datatype Field = Field(key: string, value: Value)

  datatype Parsed<T> = Got(value: T, at: nat) | Bad

  const MAX_DEPTH := 64

  // ---- characters ---------------------------------------------------------------------

  /** `str.isspace` of one character. */
  predicate IsSpace(c: char) {
    var n := c as int;
    || 0x9 <= n <= 0xD || 0x1C <= n <= 0x20 || n == 0x85 || n == 0xA0 || n == 0x1680
    || 0x2000 <= n <= 0x200A || n == 0x2028 || n == 0x2029 || n == 0x202F || n == 0x205F || n == 0x3000
  }

  predicate IsHex(c: char) { IsDigit(c) || 'a' <= c <= 'f' || 'A' <= c <= 'F' }

  /** `[\w:./-]`, for ASCII. */
  predicate IsKeyChar(c: char) {
    IsDigit(c) || 'a' <= c <= 'z' || 'A' <= c <= 'Z' || c in "_:./-"
  }

  /** Where a bare scalar ends. */
  predicate IsDelimiter(c: char) {
    c in ",;(){}=\r\n\""
  }

  /** First index from `i` on whose character is not a space. */
  function Skip(t: string, i: nat): (k: nat)
    requires i <= |t|
    ensures i <= k <= |t|
    decreases |t| - i
  {
    if i < |t| && IsSpace(t[i]) then Skip(t, i + 1) else i
  }

  function BareEnd(t: string, i: nat): (k: nat)
    requires i <= |t|
    ensures i <= k <= |t|
    decreases |t| - i
  {
    if i < |t| && !IsDelimiter(t[i]) then BareEnd(t, i + 1) else i
  }

  function KeyEnd(t: string, i: nat): (k: nat)
    requires i <= |t|
    ensures i <= k <= |t|
    decreases |t| - i
  {
    if i < |t| && IsKeyChar(t[i]) then KeyEnd(t, i + 1) else i
  }

  lemma {:induction false} SkipStops(t: string, i: nat)
    requires i <= |t|
    ensures forall x | i <= x < Skip(t, i) :: IsSpace(t[x])
    ensures Skip(t, i) < |t| ==> !IsSpace(t[Skip(t, i)])
    decreases |t| - i
  {
    if i < |t| && IsSpace(t[i]) { SkipStops(t, i + 1); }
  }

  lemma {:induction false} BareEndStops(t: string, i: nat)
    requires i <= |t|
    ensures forall x | i <= x < BareEnd(t, i) :: !IsDelimiter(t[x])
    ensures BareEnd(t, i) < |t| ==> IsDelimiter(t[BareEnd(t, i)])
    decreases |t| - i
  {
    if i < |t| && !IsDelimiter(t[i]) { BareEndStops(t, i + 1); }
  }

  function StripLeft(s: string): string {
    if s != "" && IsSpace(s[0]) then StripLeft(s[1..]) else s
  }

  function StripRight(s: string): string {
    if s != "" && IsSpace(s[|s| - 1]) then StripRight(s[..|s| - 1]) else s
  }

  /** Does `token` stand at `i`? */
  predicate At(t: string, i: nat, token: string) {
    i + |token| <= |t| && t[i..i + |token|] == token
  }

  // ---- scalars ----------------------------------------------------------------------------

  function Unsigned(s: string): string {
    if s != "" && s[0] == '-' then s[1..] else s
  }

  predicate IsInteger(s: string) {
    AllDigits(Unsigned(s))
  }

  function IntegerValue(s: string): int
    requires IsInteger(s)
  {
    if s[0] == '-' then -(DecimalValue(Unsigned(s)) as int) else DecimalValue(s)
  }

  predicate IsFraction(s: string) {
    exists k | 0 <= k < |s| :: s[k] == '.' && IsInteger(s[..k]) && AllDigits(s[k + 1..])
  }

  /** `YYYY-MM-DD HH:MM:SS +ZZZZ`. */
  predicate IsDate(s: string) {
    && |s| == 25
    && (forall i | i in [0, 1, 2, 3, 5, 6, 8, 9, 11, 12, 14, 15, 17, 18, 21, 22, 23, 24] :: IsDigit(s[i]))
    && s[4] == s[7] == '-' && s[10] == s[19] == ' ' && s[13] == s[16] == ':' && s[20] in "+-"
  }

  /** `_scalar`. */
  function Scalar(raw: string): Value {
    if raw == "null" then Null
    else if IsDate(raw) then Date(raw)
    else if IsInteger(raw) then Number(IntegerValue(raw))
    else if IsFraction(raw) then Fraction(raw)
    else Text(raw)
  }

  // ---- the abbreviated data form -------------------------------------------------------------

  function HexEnd(t: string, i: nat): (k: nat)
    requires i <= |t|
    ensures i <= k <= |t|
    decreases |t| - i
  {
    if i < |t| && IsHex(t[i]) then HexEnd(t, i + 1) else i
  }

  function DigitEnd(t: string, i: nat): (k: nat)
    requires i <= |t|
    ensures i <= k <= |t|
    decreases |t| - i
  {
    if i < |t| && IsDigit(t[i]) then DigitEnd(t, i + 1) else i
  }

  /** The groups after the first `0x...`, then the closing brace. */
  function DataTail(t: string, i: nat): (e: Option<nat>)
    requires i <= |t|
    ensures e.Some? ==> i < e.value <= |t|
    decreases |t| - i
  {
    var k := Skip(t, i);
    if At(t, k, "}") then Some(k + 1)
    else if k == i then None
    else if At(t, k, "...") then DataTail(t, k + 3)
    else if HexEnd(t, k) > k then DataTail(t, HexEnd(t, k))
    else None
  }

  /** Where a match of `{length = N, bytes = 0x...}` that begins at `i` ends. */
  function DataEnd(t: string, i: nat): (e: Option<nat>)
    requires i <= |t|
    ensures e.Some? ==> i < e.value <= |t|
  {
    if !At(t, i, "{length") then None else
    var a := Skip(t, i + 7);
    if !At(t, a, "=") then None else
    var b := Skip(t, a + 1);
    var c := DigitEnd(t, b);
    if c == b || !At(t, c, ",") then None else
    var d := Skip(t, c + 1);
    if !At(t, d, "bytes") then None else
    var f := Skip(t, d + 5);
    if !At(t, f, "=") then None else
    var g := Skip(t, f + 1);
    if !At(t, g, "0x") then None else
    var h := HexEnd(t, g + 2);
    if h == g + 2 then None else DataTail(t, h)
  }

  // ---- quoted strings --------------------------------------------------------------------------

  function HexDigit(c: char): (n: nat)
    requires IsHex(c)
    ensures n < 16
  {
    if IsDigit(c) then c as int - '0' as int
    else if c >= 'a' then c as int - 'a' as int + 10
    else c as int - 'A' as int + 10
  }

  /** `unicode_unit`: four hexadecimal digits. */
  function UnitAt(t: string, i: nat): (u: Option<nat>)
    ensures u.Some? ==> u.value < 0x10000 && i + 4 <= |t|
  {
    if i + 4 <= |t| && IsHex(t[i]) && IsHex(t[i + 1]) && IsHex(t[i + 2]) && IsHex(t[i + 3])
    then Some(0x1000 * HexDigit(t[i]) + 0x100 * HexDigit(t[i + 1]) + 0x10 * HexDigit(t[i + 2]) + HexDigit(t[i + 3]))
    else None
  }

  predicate IsHigh(u: nat) { 0xD800 <= u <= 0xDBFF }
  predicate IsLow(u: nat) { 0xDC00 <= u <= 0xDFFF }

  /** One `\U` escape, its digits beginning at `i`: a unit, or a surrogate pair. */
  function EscapedChar(t: string, i: nat): (r: Parsed<char>)
    ensures r.Got? ==> i < r.at <= |t|
  {
    var u := UnitAt(t, i);
    if u == None || IsLow(u.value) then Bad
    else if !IsHigh(u.value) then Got(u.value as char, i + 4)
    else if !At(t, i + 4, "\\U") then Bad
    else
      var low := UnitAt(t, i + 6);
      if low == None || !IsLow(low.value) then Bad
      else Got((0x10000 + (u.value - 0xD800) * 0x400 + low.value - 0xDC00) as char, i + 10)
  }

  function ShortEscape(c: char): Option<char> {
    match c
    case '"' => Some('"')
    case '\\' => Some('\\')
    case 'n' => Some('\n')
    case 'r' => Some('\r')
    case 't' => Some('\t')
    case 'b' => Some(8 as char)
    case 'f' => Some(12 as char)
    case _ => None
  }

  /** The rest of a quoted string from `i`, after what was read already. */
  function Quoted(t: string, i: nat, out: string): (r: Parsed<string>)
    requires i <= |t|
    ensures r.Got? ==> i < r.at <= |t|
    decreases |t| - i
  {
    if i == |t| then Bad
    else if t[i] == '"' then Got(out, i + 1)
    else if t[i] != '\\' then Quoted(t, i + 1, out + [t[i]])
    else if i + 1 == |t| then Bad
    else if t[i + 1] == 'U' then
      match EscapedChar(t, i + 2)
      case Bad => Bad
      case Got(c, k) => Quoted(t, k, out + [c])
    else if ShortEscape(t[i + 1]).Some? then Quoted(t, i + 2, out + [ShortEscape(t[i + 1]).value])
    else Bad
  }

  // ---- structures ----------------------------------------------------------------------------------

  predicate HasKey(fields: seq<Field>, key: string) {
    exists f | f in fields :: f.key == key
  }

  /** `value(depth)` with the cursor at `i`. */
  function ReadValue(t: string, i: nat, depth: nat): (r: Parsed<Value>)
    requires i <= |t|
    ensures r.Got? ==> i < r.at <= |t|
    decreases |t| - i, 2
  {
    var j := Skip(t, i);
    if depth > MAX_DEPTH || j == |t| then Bad
    else if t[j] == '"' then
      match Quoted(t, j + 1, "")
      case Bad => Bad
      case Got(s, k) => Got(Text(s), k)
    else if At(t, j, "(null)") then Got(Null, j + 6)
    else if t[j] == '(' then
      var k := Skip(t, j + 1);
      if At(t, k, ")") then Got(List([]), k + 1) else ReadItems(t, k, depth, [])
    else if t[j] == '{' then
      match DataEnd(t, j)
      case Some(e) => Got(Text(t[j..e]), e)
      case None => ReadFields(t, j + 1, depth, [])
    else
      var e := BareEnd(t, j);
      var raw := StripRight(StripLeft(t[j..e]));
      if raw == "" then Bad else Got(Scalar(raw), e)
  }

  /** The items of a list from `i` on, its closing parenthesis included. */
  function ReadItems(t: string, i: nat, depth: nat, items: seq<Value>): (r: Parsed<Value>)
    requires i <= |t|
    ensures r.Got? ==> i < r.at <= |t|
    decreases |t| - i, 3
  {
    match ReadValue(t, i, depth + 1)
    case Bad => Bad
    case Got(v, k) => AfterItem(t, Skip(t, k), depth, items + [v])
  }

  /** Behind an item: the end, or a comma, and then the end after all or another item. */
  function AfterItem(t: string, m: nat, depth: nat, items: seq<Value>): (r: Parsed<Value>)
    requires m <= |t|
    ensures r.Got? ==> m < r.at <= |t|
    decreases |t| - m, 3
  {
    if At(t, m, ")") then Got(List(items), m + 1)
    else if !At(t, m, ",") then Bad
    else
      var n := Skip(t, m + 1);
      if At(t, n, ")") then Got(List(items), n + 1) else ReadItems(t, n, depth, items)
  }

  function ReadKey(t: string, i: nat): (r: Parsed<string>)
    requires i < |t|
    ensures r.Got? ==> i < r.at <= |t|
  {
    if t[i] == '"' then Quoted(t, i + 1, "")
    else if KeyEnd(t, i) == i then Bad
    else Got(t[i..KeyEnd(t, i)], KeyEnd(t, i))
  }

  /** The fields of a dictionary from `i` on, its closing brace included. */
  function ReadFields(t: string, i: nat, depth: nat, fields: seq<Field>): (r: Parsed<Value>)
    requires i <= |t|
    ensures r.Got? ==> i < r.at <= |t|
    decreases |t| - i, 1
  {
    var k := Skip(t, i);
    if k == |t| then Bad
    else if t[k] == '}' then Got(Dict(fields), k + 1)
    else match ReadKey(t, k)
      case Bad => Bad
      case Got(key, m) =>
        var p := Skip(t, m);
        if HasKey(fields, key) || !At(t, p, "=") then Bad
        else match ReadValue(t, p + 1, depth + 1)
          case Bad => Bad
          case Got(v, n) =>
            var q := Skip(t, n);
            if !At(t, q, ";") then Bad else ReadFields(t, q + 1, depth, fields + [Field(key, v)])
  }

  // ---- printing: the accepted grammar, written as the specification --------------------------------

  /** One character of a quoted string: itself, a short escape, or `\U` units. */
  datatype Piece = Raw(c: char) | Short(c: char) | Units(c: char, capitals: bool)

  /** A value laid out as text, with every choice a printer has. */
  datatype Doc =
    | NullDoc(parenthesised: bool)
    | IntDoc(n: int)
    | TextDoc(pieces: seq<Piece>)
    | ListDoc(items: Items)
    | DictDoc(fields: Fields)

  /** Up to the closing parenthesis; a comma may stand before it. */
  datatype Items = NoItems(gap: string) | AnItem(lead: string, item: Doc, gap: string, more: More)
  datatype More = Close | Comma(items: Items)

  /** Up to the closing brace. */
  datatype Fields = NoFields(gap: string)
                  | AField(lead: string, key: Key, before: string, after: string, value: Doc, gap: string, rest: Fields)
  datatype Key = BareKey(s: string) | QuotedKey(pieces: seq<Piece>)

  function HexChar(n: nat, capitals: bool): char
    requires n < 16
  {
    if n < 10 then ('0' as int + n) as char
    else if capitals then ('A' as int + n - 10) as char
    else ('a' as int + n - 10) as char
  }

  function PrintUnit(u: nat, capitals: bool): (s: string)
    requires u < 0x10000
  {
    "\\U" + [HexChar(u / 0x1000, capitals), HexChar(u / 0x100 % 0x10, capitals), HexChar(u / 0x10 % 0x10, capitals),
             HexChar(u % 0x10, capitals)]
  }

  function ShortFor(c: char): Option<char> {
    match c
    case '"' => Some('"')
    case '\\' => Some('\\')
    case '\n' => Some('n')
    case '\r' => Some('r')
    case '\t' => Some('t')
    case _ => if c as int == 8 then Some('b') else if c as int == 12 then Some('f') else None
  }

  /** Characters beyond the basic plane take two units, as section 2.1 of RFC 2781 has it. */
  function PrintPiece(p: Piece): string {
    match p
    case Raw(c) => [c]
    case Short(c) => ['\\', match ShortFor(c) { case Some(e) => e case None => c }]
    case Units(c, capitals) =>
      var n := c as int;
      if n < 0x10000 then PrintUnit(n, capitals)
      else PrintUnit(0xD800 + (n - 0x10000) / 0x400, capitals) + PrintUnit(0xDC00 + (n - 0x10000) % 0x400, capitals)
  }

  function PrintPieces(ps: seq<Piece>): string {
    if ps == [] then "" else PrintPiece(ps[0]) + PrintPieces(ps[1..])
  }

  function TextOf(ps: seq<Piece>): string {
    if ps == [] then "" else [ps[0].c] + TextOf(ps[1..])
  }

  function PrintInt(n: int): string {
    if n < 0 then "-" + Decimal(-n) else Decimal(n)
  }

  function Print(d: Doc): string
    decreases d, 0
  {
    match d
    case NullDoc(parenthesised) => if parenthesised then "(null)" else "null"
    case IntDoc(n) => PrintInt(n)
    case TextDoc(ps) => "\"" + PrintPieces(ps) + "\""
    case ListDoc(items) => "(" + PrintItems(items)
    case DictDoc(fields) => "{" + PrintFields(fields)
  }

  function PrintItems(items: Items): string
    decreases items, 0
  {
    match items
    case NoItems(gap) => gap + ")"
    case AnItem(lead, item, gap, more) => lead + (Print(item) + (gap + PrintMore(more)))
  }

  function PrintMore(more: More): string
    decreases more, 0
  {
    match more
    case Close => ")"
    case Comma(items) => "," + PrintItems(items)
  }

  function PrintKey(k: Key): string {
    match k
    case BareKey(s) => s
    case QuotedKey(ps) => "\"" + PrintPieces(ps) + "\""
  }

  function PrintFields(fields: Fields): string
    decreases fields, 0
  {
    match fields
    case NoFields(gap) => gap + "}"
    case AField(lead, key, before, after, value, gap, rest) =>
      lead + (PrintKey(key) + (before + ("=" + (after + (Print(value) + (gap + (";" + PrintFields(rest))))))))
  }

  // ---- what a layout means --------------------------------------------------------------------------

  function KeyOf(k: Key): string {
    match k
    case BareKey(s) => s
    case QuotedKey(ps) => TextOf(ps)
  }

  function Meaning(d: Doc): Value
    decreases d, 0
  {
    match d
    case NullDoc(_) => Null
    case IntDoc(n) => Number(n)
    case TextDoc(ps) => Text(TextOf(ps))
    case ListDoc(items) => List(ItemsOf(items))
    case DictDoc(fields) => Dict(FieldsOf(fields))
  }

  function ItemsOf(items: Items): seq<Value>
    decreases items, 0
  {
    match items
    case NoItems(_) => []
    case AnItem(_, item, _, more) => [Meaning(item)] + match more { case Close => [] case Comma(rest) => ItemsOf(rest) }
  }

  function FieldsOf(fields: Fields): seq<Field>
    decreases fields, 0
  {
    match fields
    case NoFields(_) => []
    case AField(_, key, _, _, value, _, rest) => [Field(KeyOf(key), Meaning(value))] + FieldsOf(rest)
  }

  predicate Spaces(s: string) {
    forall i | 0 <= i < |s| :: IsSpace(s[i])
  }

  predicate GoodPiece(p: Piece) {
    match p
    case Raw(c) => c != '"' && c != '\\'
    case Short(c) => ShortFor(c).Some?
    case Units(_, _) => true
  }

  predicate GoodPieces(ps: seq<Piece>) {
    forall p | p in ps :: GoodPiece(p)
  }

  predicate GoodKey(k: Key) {
    match k
    case BareKey(s) => s != "" && forall i | 0 <= i < |s| :: IsKeyChar(s[i])
    case QuotedKey(ps) => GoodPieces(ps)
  }

  /** Gaps are spaces, raw characters need no escape, keys of one dictionary differ. */
  predicate Good(d: Doc)
    decreases d, 0
  {
    match d
    case NullDoc(_) => true
    case IntDoc(_) => true
    case TextDoc(ps) => GoodPieces(ps)
    case ListDoc(items) => GoodItems(items) && items != LooksNull()
    case DictDoc(fields) => GoodFields(fields, [])
  }

  /** The one layout of a list that reads as something else: `(null)`. */
  function LooksNull(): Items {
    AnItem("", NullDoc(false), "", Close)
  }

  predicate GoodItems(items: Items)
    decreases items, 0
  {
    match items
    case NoItems(gap) => Spaces(gap)
    case AnItem(lead, item, gap, more) =>
      Spaces(lead) && Good(item) && Spaces(gap) && match more { case Close => true case Comma(rest) => GoodItems(rest) }
  }

  predicate GoodFields(fields: Fields, before: seq<Field>)
    decreases fields, 0
  {
    match fields
    case NoFields(gap) => Spaces(gap)
    case AField(lead, key, b, a, value, gap, rest) =>
      && Spaces(lead) && GoodKey(key) && Spaces(b) && Spaces(a) && Good(value) && Spaces(gap)
      && !HasKey(before, KeyOf(key)) && GoodFields(rest, before + [Field(KeyOf(key), Meaning(value))])
  }

  /** Levels of nesting below the value itself. */
  function Height(d: Doc): nat
    decreases d, 0
  {
    match d
    case ListDoc(items) => HeightOfItems(items)
    case DictDoc(fields) => HeightOfFields(fields)
    case _ => 0
  }

  function Max(a: nat, b: nat): nat { if a < b then b else a }

  function HeightOfItems(items: Items): nat
    decreases items, 0
  {
    match items
    case NoItems(_) => 0
    case AnItem(_, item, _, more) =>
      Max(1 + Height(item), match more { case Close => 0 case Comma(rest) => HeightOfItems(rest) })
  }

  function HeightOfFields(fields: Fields): nat
    decreases fields, 0
  {
    match fields
    case NoFields(_) => 0
    case AField(_, _, _, _, value, _, rest) => Max(1 + Height(value), HeightOfFields(rest))
  }

  // ---- reading undoes printing: characters -----------------------------------------------------------

  lemma AtSplit(t: string, i: nat, a: string, b: string)
    requires At(t, i, a + b)
    ensures At(t, i, a) && At(t, i + |a|, b)
  {
    assert t[i..i + |a|] == (a + b)[..|a|];
    assert t[i + |a|..i + |a| + |b|] == (a + b)[|a|..];
  }

  lemma AtChar(t: string, i: nat, a: string, k: nat)
    requires At(t, i, a) && k < |a|
    ensures t[i + k] == a[k]
  {
    assert t[i..i + |a|][k] == a[k];
  }

  lemma NotAt(t: string, i: nat, a: string)
    requires i < |t| && a != "" && t[i] != a[0]
    ensures !At(t, i, a)
  {
    if i + |a| <= |t| { assert t[i..i + |a|][0] == t[i]; }
  }

  lemma HexReads(n: nat, capitals: bool)
    requires n < 16
    ensures IsHex(HexChar(n, capitals)) && HexDigit(HexChar(n, capitals)) == n
  {}

  lemma UnitReads(t: string, i: nat, u: nat, capitals: bool)
    requires u < 0x10000 && At(t, i, PrintUnit(u, capitals))
    ensures t[i] == '\\' && t[i + 1] == 'U' && UnitAt(t, i + 2) == Some(u)
  {
    hide At, HexChar, UnitAt;
    UnitDigits(u);
    DigitsRead(t, i, u / 0x1000, u / 0x100 % 0x10, u / 0x10 % 0x10, u % 0x10, capitals);
  }

  lemma UnitDigits(u: nat)
    requires u < 0x10000
    ensures u / 0x1000 < 16
    ensures u == 0x1000 * (u / 0x1000) + 0x100 * (u / 0x100 % 0x10) + 0x10 * (u / 0x10 % 0x10) + u % 0x10
  {
    var a, b, c := u / 0x10, u / 0x100, u / 0x1000;
    assert u == 0x10 * a + u % 0x10 && a == 0x10 * b + a % 0x10 && b == 0x10 * c + b % 0x10;
  }

  lemma DigitsRead(t: string, i: nat, a: nat, b: nat, c: nat, d: nat, capitals: bool)
    requires a < 16 && b < 16 && c < 16 && d < 16
    requires At(t, i, "\\U" + [HexChar(a, capitals), HexChar(b, capitals), HexChar(c, capitals), HexChar(d, capitals)])
    ensures t[i] == '\\' && t[i + 1] == 'U' && UnitAt(t, i + 2) == Some(0x1000 * a + 0x100 * b + 0x10 * c + d)
  {
    var s := "\\U" + [HexChar(a, capitals), HexChar(b, capitals), HexChar(c, capitals), HexChar(d, capitals)];
    HexReads(a, capitals);
    HexReads(b, capitals);
    HexReads(c, capitals);
    HexReads(d, capitals);
    assert t[i..i + 6] == s;
    assert t[i] == s[0] && t[i + 1] == s[1] && t[i + 2] == s[2] && t[i + 3] == s[3] && t[i + 4] == s[4]
             && t[i + 5] == s[5];
    hide HexChar, HexDigit, IsHex;
  }

  /** A surrogate pair is read back as the one character it stands for. */
  lemma EscapeReads(t: string, i: nat, c: char, capitals: bool)
    requires At(t, i, PrintPiece(Units(c, capitals)))
    ensures t[i] == '\\' && i + 1 < |t| && t[i + 1] == 'U'
    ensures EscapedChar(t, i + 2) == Got(c, i + |PrintPiece(Units(c, capitals))|)
  {
    hide UnitAt, HexChar, At;
    var n := c as int;
    if n < 0x10000 {
      UnitReads(t, i, n, capitals);
      UnitFits(t, i, n, capitals);
    } else {
      var high, low := 0xD800 + (n - 0x10000) / 0x400, 0xDC00 + (n - 0x10000) % 0x400;
      Surrogates(n);
      AtSplit(t, i, PrintUnit(high, capitals), PrintUnit(low, capitals));
      UnitReads(t, i, high, capitals);
      UnitReads(t, i + 6, low, capitals);
      UnitFits(t, i, high, capitals);
      UnitFits(t, i + 6, low, capitals);
    }
  }

  lemma UnitFits(t: string, i: nat, u: nat, capitals: bool)
    requires u < 0x10000 && At(t, i, PrintUnit(u, capitals))
    ensures i + 6 <= |t| && At(t, i, "\\U")
  {
    hide HexChar;
    var s := PrintUnit(u, capitals);
    assert t[i..i + 6] == s;
    assert t[i..i + 2] == s[..2] == "\\U";
  }

  lemma Surrogates(n: nat)
    requires 0x10000 <= n < 0x110000
    ensures var high, low := 0xD800 + (n - 0x10000) / 0x400, 0xDC00 + (n - 0x10000) % 0x400;
            && IsHigh(high) && IsLow(low) && !IsLow(high)
            && 0x10000 + (high - 0xD800) * 0x400 + low - 0xDC00 == n
  {}

  lemma PieceReads(t: string, i: nat, p: Piece, out: string)
    requires GoodPiece(p) && At(t, i, PrintPiece(p)) && i + |PrintPiece(p)| <= |t|
    ensures Quoted(t, i, out) == Quoted(t, i + |PrintPiece(p)|, out + [p.c])
  {
    hide At, EscapedChar;
    AtChar(t, i, PrintPiece(p), 0);
    match p
    case Raw(c) =>
    case Short(c) => AtChar(t, i, PrintPiece(p), 1);
    case Units(c, capitals) => EscapeReads(t, i, c, capitals);
  }

  lemma {:induction false} QuotedReads(t: string, i: nat, ps: seq<Piece>, out: string)
    requires GoodPieces(ps) && At(t, i, PrintPieces(ps) + "\"")
    ensures Quoted(t, i, out) == Got(out + TextOf(ps), i + |PrintPieces(ps)| + 1)
    decreases |ps|
  {
    hide At, PrintPiece, Quoted, GoodPiece;
    if ps == [] {
      assert PrintPieces(ps) + "\"" == "\"" && out + TextOf(ps) == out;
      CloseReads(t, i, out);
    } else {
      var first, more := PrintPiece(ps[0]), PrintPieces(ps[1..]) + "\"";
      assert PrintPieces(ps) + "\"" == first + more;
      assert out + [ps[0].c] + TextOf(ps[1..]) == out + TextOf(ps);
      AtSplit(t, i, first, more);
      PieceFits(t, i, ps[0]);
      PieceReads(t, i, ps[0], out);
      QuotedReads(t, i + |first|, ps[1..], out + [ps[0].c]);
    }
  }

  lemma PieceFits(t: string, i: nat, p: Piece)
    requires At(t, i, PrintPiece(p))
    ensures i + |PrintPiece(p)| <= |t|
  {}

  lemma CloseReads(t: string, i: nat, out: string)
    requires At(t, i, "\"")
    ensures i < |t| && Quoted(t, i, out) == Got(out, i + 1)
  {
    AtChar(t, i, "\"", 0);
  }

  // ---- scalars -------------------------------------------------------------------------------------------

  lemma IntReads(n: int)
    ensures Scalar(PrintInt(n)) == Number(n)
  {
    var s := PrintInt(n);
    if n < 0 {
      DecimalReads(-n);
      assert Unsigned(s) == Decimal(-n);
      assert !IsDate(s) by { assert !IsDigit(s[0]); }
    } else {
      DecimalReads(n);
      assert Unsigned(s) == s;
      assert !IsDate(s) by { if |s| == 25 { assert IsDigit(s[4]); } }
    }
    assert IsDigit(s[0]) || s[0] == '-';
    assert s[0] != "null"[0];
  }

  lemma {:induction false} StripsLeft(s: string)
    requires s != "" && !IsSpace(s[0])
    ensures StripLeft(s) == s
  {}

  lemma {:induction false} StripsRight(s: string, gap: string)
    requires s != "" && !IsSpace(s[|s| - 1]) && Spaces(gap)
    ensures StripRight(s + gap) == s
    decreases |gap|
  {
    if gap == "" {
      assert s + gap == s;
    } else {
      assert (s + gap)[..|s + gap| - 1] == s + gap[..|gap| - 1];
      StripsRight(s, gap[..|gap| - 1]);
    }
  }

  /** What a bare scalar is made of, and what may follow it. */
  predicate BareText(p: string) {
    && p != "" && !IsSpace(p[0]) && !IsSpace(p[|p| - 1])
    && forall i | 0 <= i < |p| :: !IsDelimiter(p[i])
  }

  predicate Ended(t: string, k: nat)
    requires k <= |t|
  {
    Skip(t, k) == |t| || IsDelimiter(t[Skip(t, k)])
  }

  /** A bare scalar is read up to the next delimiter, the spaces before it included. */
  lemma BareReads(t: string, i: nat, p: string, depth: nat, from: nat)
    requires BareText(p) && At(t, i, p) && Ended(t, i + |p|) && from <= i && Skip(t, from) == i
    requires p[0] != '(' && p[0] != '{' && p[0] != '"'
    ensures i + |p| <= BareEnd(t, i) <= Skip(t, i + |p|)
    ensures ReadValue(t, from, depth) == if depth > MAX_DEPTH then Bad else Got(Scalar(p), BareEnd(t, i))
  {
    hide Skip, BareEnd, IsDelimiter, StripLeft, StripRight, ReadItems, ReadFields, Quoted, DataEnd, Scalar;
    SkipStops(t, from);
    AtChar(t, i, p, 0);
    NotAt(t, i, "(null)");
    BareEndPast(t, i, p);
    BareStrips(t, i, p);
  }

  /** The spaces behind the text are cut off. */
  lemma BareStrips(t: string, i: nat, p: string)
    requires BareText(p) && At(t, i, p) && i + |p| <= BareEnd(t, i) <= Skip(t, i + |p|)
    ensures StripRight(StripLeft(t[i..BareEnd(t, i)])) == p
  {
    hide BareEnd;
    var k, e := i + |p|, BareEnd(t, i);
    SkipStops(t, k);
    var gap := t[k..e];
    assert t[i..e] == t[i..k] + gap;
    forall x | 0 <= x < |gap| ensures IsSpace(gap[x]) { assert gap[x] == t[k + x]; }
    StripsLeft(p + gap);
    StripsRight(p, gap);
  }

  lemma BareEndPast(t: string, i: nat, p: string)
    requires BareText(p) && At(t, i, p) && Ended(t, i + |p|)
    ensures i + |p| <= BareEnd(t, i) <= Skip(t, i + |p|)
  {
    var k, e := i + |p|, BareEnd(t, i);
    assert t[i..k] == p;
    assert forall x | i <= x < k :: t[x] == p[x - i];
    BareEndStops(t, i);
    SkipStops(t, k);
  }

  // ---- structures -----------------------------------------------------------------------------------------

  lemma GapSkips(t: string, i: nat, gap: string)
    requires Spaces(gap) && At(t, i, gap) && i + |gap| < |t| && !IsSpace(t[i + |gap|])
    ensures Skip(t, i) == i + |gap|
    decreases |gap|
  {
    if gap != "" {
      AtSplit(t, i, gap[..1], gap[1..]) by { assert gap == gap[..1] + gap[1..]; }
      AtChar(t, i, gap, 0);
      GapSkips(t, i + 1, gap[1..]);
    }
  }

  lemma SkipsOn(t: string, i: nat, e: nat)
    requires i <= |t| && i <= e <= Skip(t, i)
    ensures Skip(t, e) == Skip(t, i)
    decreases e - i
  {
    if i < e { SkipsOn(t, i + 1, e); }
  }

  lemma FirstChar(d: Doc)
    ensures Print(d) != "" && !IsSpace(Print(d)[0]) && Print(d)[0] != ')' && Print(d)[0] != '}'
  {}

  function IsBare(d: Doc): bool {
    d.IntDoc? || d == NullDoc(false)
  }

  /** Where the cursor stands after reading `d` at `i`: behind it, and behind spaces if bare. */
  function EndOf(t: string, i: nat, d: Doc): nat
    requires i <= |t|
  {
    if IsBare(d) then BareEnd(t, i) else i + |Print(d)|
  }

  ghost predicate ReadsAs(t: string, from: nat, i: nat, d: Doc, depth: nat)
    requires from <= |t| && i + |Print(d)| <= |t|
  {
    && i + |Print(d)| <= EndOf(t, i, d) <= Skip(t, i + |Print(d)|)
    && ReadValue(t, from, depth) ==
       if depth + Height(d) > MAX_DEPTH then Bad else Got(Meaning(d), EndOf(t, i, d))
  }

  // How the reader goes on, from what it sees at the cursor.

  lemma SeesTooDeep(t: string, from: nat, depth: nat)
    requires from <= |t| && depth > MAX_DEPTH
    ensures ReadValue(t, from, depth) == Bad
  {}

  lemma SeesNull(t: string, from: nat, i: nat, depth: nat)
    requires from <= i && At(t, i, "(null)") && Skip(t, from) == i && depth <= MAX_DEPTH
    ensures ReadValue(t, from, depth) == Got(Null, i + 6)
  {
    AtChar(t, i, "(null)", 0);
    hide ReadItems, ReadFields, DataEnd, Quoted;
  }

  lemma SeesQuote(t: string, from: nat, i: nat, depth: nat, s: string, k: nat)
    requires from <= i < |t| && t[i] == '"' && Skip(t, from) == i && depth <= MAX_DEPTH
    requires Quoted(t, i + 1, "") == Got(s, k)
    ensures ReadValue(t, from, depth) == Got(Text(s), k)
  {
    hide ReadItems, ReadFields, DataEnd, Quoted;
  }

  lemma SeesList(t: string, from: nat, i: nat, depth: nat)
    requires from <= i < |t| && t[i] == '(' && !At(t, i, "(null)") && Skip(t, from) == i && depth <= MAX_DEPTH
    ensures var k := Skip(t, i + 1);
            ReadValue(t, from, depth) == if At(t, k, ")") then Got(List([]), k + 1) else ReadItems(t, k, depth, [])
  {
    hide ReadItems, ReadFields, DataEnd, Quoted;
  }

  lemma SeesDict(t: string, from: nat, i: nat, depth: nat)
    requires from <= i < |t| && t[i] == '{' && DataEnd(t, i) == None && Skip(t, from) == i && depth <= MAX_DEPTH
    ensures ReadValue(t, from, depth) == ReadFields(t, i + 1, depth, [])
  {
    hide ReadItems, ReadFields, DataEnd, Quoted;
  }

  lemma ScalarReads(t: string, from: nat, i: nat, d: Doc, depth: nat)
    requires from <= i && At(t, i, Print(d)) && Skip(t, from) == i && Ended(t, i + |Print(d)|)
    requires d.NullDoc? || d.IntDoc?
    ensures ReadsAs(t, from, i, d, depth)
  {
    hide ReadValue, BareEnd, PrintInt, Scalar, At, Ended;
    match d
    case NullDoc(true) =>
      if depth > MAX_DEPTH { SeesTooDeep(t, from, depth); } else { SeesNull(t, from, i, depth); }
    case NullDoc(false) =>
      NullIsScalar();
      BareReads(t, i, "null", depth, from);
    case IntDoc(n) =>
      IntReads(n);
      IntIsBare(n);
      BareReads(t, i, PrintInt(n), depth, from);
  }

  lemma NullIsScalar()
    ensures Scalar("null") == Null && BareText("null")
  {}

  lemma IntIsBare(n: int)
    ensures BareText(PrintInt(n)) && PrintInt(n)[0] != '(' && PrintInt(n)[0] != '{' && PrintInt(n)[0] != '"'
  {
    var s := PrintInt(n);
    assert forall i | 0 <= i < |s| :: s[i] == '-' || IsDigit(s[i]);
  }

  lemma TextReads(t: string, from: nat, i: nat, ps: seq<Piece>, depth: nat)
    requires from <= i && At(t, i, Print(TextDoc(ps))) && Skip(t, from) == i && GoodPieces(ps)
    ensures ReadsAs(t, from, i, TextDoc(ps), depth)
  {
    var body := PrintPieces(ps) + "\"";
    assert Print(TextDoc(ps)) == "\"" + body;
    AtSplit(t, i, "\"", body);
    AtChar(t, i, "\"", 0);
    QuotedReads(t, i + 1, ps, "");
    assert "" + TextOf(ps) == TextOf(ps);
    hide ReadValue, Quoted, At, GoodPieces, PrintPieces, TextOf;
    if depth > MAX_DEPTH { SeesTooDeep(t, from, depth); }
    else { SeesQuote(t, from, i, depth, TextOf(ps), i + 1 + |PrintPieces(ps)| + 1); }
  }

  /** Every layout of a value reads back as the value, if it nests no deeper than allowed. */
  lemma {:induction false} ValueReads(t: string, from: nat, i: nat, d: Doc, depth: nat)
    requires from <= i && At(t, i, Print(d)) && Skip(t, from) == i && Good(d) && Ended(t, i + |Print(d)|)
    ensures ReadsAs(t, from, i, d, depth)
    decreases d, 2
  {
    match d
    case NullDoc(_) => ScalarReads(t, from, i, d, depth);
    case IntDoc(_) => ScalarReads(t, from, i, d, depth);
    case TextDoc(ps) => TextReads(t, from, i, ps, depth);
    case ListDoc(items) => ListReads(t, from, i, items, depth);
    case DictDoc(fields) => DictReads(t, from, i, fields, depth);
  }

  lemma {:induction false} ListReads(t: string, from: nat, i: nat, items: Items, depth: nat)
    requires from <= i && At(t, i, Print(ListDoc(items))) && Skip(t, from) == i
    requires GoodItems(items) && items != LooksNull()
    ensures ReadsAs(t, from, i, ListDoc(items), depth)
    decreases ListDoc(items), 1
  {
    hide ReadValue, ReadItems, Skip;
    AtSplit(t, i, "(", PrintItems(items));
    AtChar(t, i, "(", 0);
    NotNull(t, i, items);
    if depth > MAX_DEPTH {
      SeesTooDeep(t, from, depth);
    } else {
      SeesList(t, from, i, depth);
      ListItems(t, i, items, depth);
    }
  }

  lemma {:induction false} ListItems(t: string, i: nat, items: Items, depth: nat)
    requires At(t, i + 1, PrintItems(items)) && GoodItems(items) && i < |t| && depth <= MAX_DEPTH
    ensures var k := Skip(t, i + 1);
            (if At(t, k, ")") then Got(List([]), k + 1) else ReadItems(t, k, depth, []))
            == if depth + HeightOfItems(items) > MAX_DEPTH then Bad
               else Got(List(ItemsOf(items)), i + 1 + |PrintItems(items)|)
    decreases items, 2
  {
    hide ReadItems, Skip, At;
    match items
    case NoItems(gap) => EmptyListReads(t, i, gap);
    case AnItem(lead, item, gap, more) =>
      ItemStarts(t, i + 1, items);
      AtFits(t, i + 1 + |lead|, Print(item));
      ItemsRead(t, i + 1 + |lead|, i + 1, items, depth, []);
      assert [] + ItemsOf(items) == ItemsOf(items);
  }

  lemma AtFits(t: string, i: nat, a: string)
    requires At(t, i, a)
    ensures i + |a| <= |t|
  {}

  lemma EmptyListReads(t: string, i: nat, gap: string)
    requires Spaces(gap) && At(t, i + 1, gap + ")")
    ensures Skip(t, i + 1) == i + 1 + |gap| && At(t, i + 1 + |gap|, ")")
  {
    AtSplit(t, i + 1, gap, ")");
    AtChar(t, i + 1 + |gap|, ")", 0);
    GapSkips(t, i + 1, gap);
  }

  /** An item begins behind its leading gap. */
  lemma ItemStarts(t: string, i: nat, items: Items)
    requires items.AnItem? && At(t, i, PrintItems(items)) && GoodItems(items)
    ensures var j := i + |items.lead|;
            && Skip(t, i) == j && At(t, j, Print(items.item)) && !At(t, j, ")")
            && At(t, j + |Print(items.item)|, items.gap + PrintMore(items.more))
  {
    hide At, Skip, Spaces, PrintMore;
    var j, rest := i + |items.lead|, items.gap + PrintMore(items.more);
    AtSplit(t, i, items.lead, Print(items.item) + rest);
    AtSplit(t, j, Print(items.item), rest);
    ItemBegins(t, j, items.item);
    GapSkips(t, i, items.lead);
  }

  lemma ItemBegins(t: string, j: nat, d: Doc)
    requires At(t, j, Print(d))
    ensures j < |t| && !IsSpace(t[j]) && !At(t, j, ")") && !At(t, j, "}")
  {
    FirstChar(d);
    AtChar(t, j, Print(d), 0);
    NotAt(t, j, ")");
    NotAt(t, j, "}");
  }

  /** After an item: its gap, then the comma or the parenthesis. */
  lemma ItemEnds(t: string, k: nat, gap: string, more: More)
    requires Spaces(gap) && At(t, k, gap + PrintMore(more))
    ensures k + |gap| < |t| && Skip(t, k) == k + |gap| && Ended(t, k) && At(t, k + |gap|, PrintMore(more))
    ensures t[k + |gap|] == if more.Close? then ')' else ','
    ensures more.Comma? ==> At(t, k + |gap| + 1, PrintItems(more.items))
  {
    hide At, Skip, Spaces;
    AtSplit(t, k, gap, PrintMore(more));
    MoreBegins(t, k + |gap|, more);
    GapSkips(t, k, gap);
  }

  lemma MoreBegins(t: string, k: nat, more: More)
    requires At(t, k, PrintMore(more))
    ensures k < |t| && t[k] == (if more.Close? then ')' else ',') && !IsSpace(t[k])
    ensures more.Comma? ==> At(t, k + 1, PrintItems(more.items))
  {
    AtChar(t, k, PrintMore(more), 0);
    if more.Comma? { AtSplit(t, k, ",", PrintItems(more.items)); }
  }

  lemma NotNull(t: string, i: nat, items: Items)
    requires GoodItems(items) && items != LooksNull() && At(t, i + 1, PrintItems(items))
    ensures !At(t, i, "(null)")
  {
    hide At, Print;
    var s := PrintItems(items);
    if At(t, i, "(null)") {
      NullSpelt(t, i);
      ItemsPrint(items);
      AtChar(t, i + 1, s, 0);
      if items.NoItems? {
      } else {
        ItemStarts(t, i + 1, items);
        FirstChar(items.item);
        AtChar(t, i + 1 + |items.lead|, Print(items.item), 0);
        OnlyNullBeginsSo(items.item);
        ItemEnds(t, i + 1 + |items.lead| + |Print(items.item)|, items.gap, items.more);
      }
    }
  }

  lemma NullSpelt(t: string, i: nat)
    requires At(t, i, "(null)")
    ensures |t| >= i + 6 && t[i + 1] == 'n' && t[i + 2] == 'u' && t[i + 3] == 'l' && t[i + 4] == 'l' && t[i + 5] == ')'
  {
    assert t[i..i + 6] == "(null)";
  }

  lemma ItemsPrint(items: Items)
    ensures PrintItems(items) != ""
  {
    if items.AnItem? { FirstChar(items.item); }
  }

  lemma OnlyNullBeginsSo(d: Doc)
    ensures Print(d) != "" && (Print(d)[0] == 'n' ==> d == NullDoc(false) && Print(d) == "null")
  {
    if d.IntDoc? { IntIsBare(d.n); }
  }

  /** Items read one after the other, up to the closing parenthesis. */
  lemma {:induction false} ItemsRead(t: string, j: nat, from: nat, items: Items, depth: nat, acc: seq<Value>)
    requires items.AnItem? && GoodItems(items) && At(t, from, PrintItems(items)) && j == from + |items.lead|
    requires j <= |t| && depth <= MAX_DEPTH
    ensures ReadItems(t, j, depth, acc) ==
            if depth + HeightOfItems(items) > MAX_DEPTH then Bad
            else Got(List(acc + ItemsOf(items)), from + |PrintItems(items)|)
    decreases items, 1
  {
    hide *;
    var item, k := items.item, j + |Print(items.item)|;
    ItemIsGood(items);
    ItemStarts(t, from, items);
    ItemEnds(t, k, items.gap, items.more);
    SkipsOn(t, from, j);
    ValueReads(t, j, j, item, depth + 1);
    AtFits(t, j, Print(item));
    ReadsMean(t, j, j, item, depth + 1);
    ItemsAreHigher(items);
    if depth + 1 + Height(item) > MAX_DEPTH {
      ItemFails(t, j, depth, acc);
    } else {
      var e := EndOf(t, j, item);
      SkipsOn(t, k, e);
      ItemPasses(t, j, depth, acc, Meaning(item), e);
      ItemsGoOn(t, k + |items.gap|, from, items, depth, acc);
    }
  }

  lemma ReadsMean(t: string, from: nat, i: nat, d: Doc, depth: nat)
    requires from <= |t| && i + |Print(d)| <= |t| && ReadsAs(t, from, i, d, depth)
    ensures i + |Print(d)| <= EndOf(t, i, d) <= Skip(t, i + |Print(d)|)
    ensures depth + Height(d) > MAX_DEPTH ==> ReadValue(t, from, depth) == Bad
    ensures depth + Height(d) <= MAX_DEPTH ==> ReadValue(t, from, depth) == Got(Meaning(d), EndOf(t, i, d))
  {
    hide ReadValue, EndOf, Skip, Height, Meaning, Print;
  }

  lemma ItemsAreHigher(items: Items)
    requires items.AnItem?
    ensures HeightOfItems(items) >= 1 + Height(items.item)
  {}

  lemma ItemIsGood(items: Items)
    requires items.AnItem? && GoodItems(items)
    ensures Good(items.item) && Spaces(items.lead) && Spaces(items.gap)
  {}

  lemma ItemFails(t: string, j: nat, depth: nat, acc: seq<Value>)
    requires j <= |t| && ReadValue(t, j, depth + 1) == Bad
    ensures ReadItems(t, j, depth, acc) == Bad
  {}

  /** The reader's step behind one item. */
  lemma ItemPasses(t: string, j: nat, depth: nat, acc: seq<Value>, v: Value, e: nat)
    requires j <= |t| && ReadValue(t, j, depth + 1) == Got(v, e)
    ensures e <= |t|
    ensures ReadItems(t, j, depth, acc) == AfterItem(t, Skip(t, e), depth, acc + [v])
  {}

  lemma {:induction false} ItemsGoOn(t: string, m: nat, from: nat, items: Items, depth: nat, acc: seq<Value>)
    requires items.AnItem? && GoodItems(items) && depth + 1 + Height(items.item) <= MAX_DEPTH
    requires m == from + |items.lead| + |Print(items.item)| + |items.gap|
    requires m < |t| && t[m] == if items.more.Close? then ')' else ','
    requires items.more.Comma? ==> At(t, m + 1, PrintItems(items.more.items))
    ensures AfterItem(t, m, depth, acc + [Meaning(items.item)]) ==
            if depth + HeightOfItems(items) > MAX_DEPTH then Bad
            else Got(List(acc + ItemsOf(items)), from + |PrintItems(items)|)
    decreases items, 0
  {
    hide *;
    var all := acc + [Meaning(items.item)];
    ItemsLength(items);
    if items.more.Close? {
      LastItem(items);
      SeesClose(t, m, depth, all);
    } else {
      var rest := items.more.items;
      MoreItems(items);
      assert all + ItemsOf(rest) == acc + ItemsOf(items);
      SeesComma(t, m, depth, all);
      if rest.NoItems? {
        NoMoreItems(rest);
        EmptyListReads(t, m, rest.gap);
        assert all + [] == all;
      } else {
        ItemStarts(t, m + 1, rest);
        AtFits(t, m + 1 + |rest.lead|, Print(rest.item));
        ItemsRead(t, m + 1 + |rest.lead|, m + 1, rest, depth, all);
      }
    }
  }

  lemma MoreItems(items: Items)
    requires items.AnItem? && items.more.Comma? && GoodItems(items)
    ensures GoodItems(items.more.items) && ItemsOf(items) == [Meaning(items.item)] + ItemsOf(items.more.items)
    ensures HeightOfItems(items) == if 1 + Height(items.item) < HeightOfItems(items.more.items)
                                    then HeightOfItems(items.more.items) else 1 + Height(items.item)
    ensures |PrintMore(items.more)| == 1 + |PrintItems(items.more.items)|
  {}

  lemma NoMoreItems(items: Items)
    requires items.NoItems? && GoodItems(items)
    ensures Spaces(items.gap) && PrintItems(items) == items.gap + ")" && ItemsOf(items) == []
    ensures HeightOfItems(items) == 0
  {}

  lemma LastItem(items: Items)
    requires items.AnItem? && items.more.Close?
    ensures ItemsOf(items) == [Meaning(items.item)] && HeightOfItems(items) == 1 + Height(items.item)
    ensures PrintMore(items.more) == ")"
  {}

  lemma ItemsLength(items: Items)
    requires items.AnItem?
    ensures |PrintItems(items)| == |items.lead| + |Print(items.item)| + |items.gap| + |PrintMore(items.more)|
  {}

  lemma SeesClose(t: string, m: nat, depth: nat, items: seq<Value>)
    requires m < |t| && t[m] == ')'
    ensures AfterItem(t, m, depth, items) == Got(List(items), m + 1)
  {
    assert t[m..m + 1] == ")";
  }

  lemma SeesComma(t: string, m: nat, depth: nat, items: seq<Value>)
    requires m < |t| && t[m] == ','
    ensures var n := Skip(t, m + 1);
            AfterItem(t, m, depth, items) ==
            if At(t, n, ")") then Got(List(items), n + 1) else ReadItems(t, n, depth, items)
  {
    assert t[m..m + 1] == ",";
    hide ReadItems;
  }

  lemma {:induction false} DictReads(t: string, from: nat, i: nat, fields: Fields, depth: nat)
    requires from <= i && At(t, i, Print(DictDoc(fields))) && Skip(t, from) == i && GoodFields(fields, [])
    ensures ReadsAs(t, from, i, DictDoc(fields), depth)
    decreases DictDoc(fields), 1
  {
    hide ReadValue, ReadFields, DataEnd, Skip, GoodFields;
    AtSplit(t, i, "{", PrintFields(fields));
    AtChar(t, i, "{", 0);
    NotData(t, i, fields);
    assert [] + FieldsOf(fields) == FieldsOf(fields);
    if depth > MAX_DEPTH {
      SeesTooDeep(t, from, depth);
    } else {
      SeesDict(t, from, i, depth);
      FieldsRead(t, i + 1, fields, depth, []);
    }
  }

  function AfterKey(f: Fields): string
    requires f.AField?
  {
    f.before + ("=" + (f.after + (Print(f.value) + (f.gap + (";" + PrintFields(f.rest))))))
  }

  lemma FirstOfKey(k: Key)
    requires GoodKey(k)
    ensures PrintKey(k) != "" && !IsSpace(PrintKey(k)[0]) && PrintKey(k)[0] != '}'
  {}

  lemma KeyPrints(k: Key)
    ensures match k case BareKey(s) => PrintKey(k) == s
                    case QuotedKey(ps) => PrintKey(k) == "\"" + (PrintPieces(ps) + "\"")
  {}

  lemma FieldParts(f: Fields, acc: seq<Field>)
    requires f.AField? && GoodFields(f, acc)
    ensures PrintFields(f) == f.lead + (PrintKey(f.key) + AfterKey(f))
    ensures Spaces(f.lead) && GoodKey(f.key) && Spaces(f.before) && Spaces(f.after) && Good(f.value) && Spaces(f.gap)
    ensures !HasKey(acc, KeyOf(f.key)) && GoodFields(f.rest, acc + [Field(KeyOf(f.key), Meaning(f.value))])
  {}

  lemma FieldStarts(t: string, i: nat, f: Fields, acc: seq<Field>)
    requires f.AField? && At(t, i, PrintFields(f)) && GoodFields(f, acc)
    ensures var k := i + |f.lead|;
            Skip(t, i) == k && At(t, k, PrintKey(f.key)) && At(t, k + |PrintKey(f.key)|, AfterKey(f)) && t[k] != '}'
  {
    hide *;
    FieldParts(f, acc);
    ThreeParts(t, i, f.lead, PrintKey(f.key), AfterKey(f));
    FirstOfKey(f.key);
    AtFits(t, i + |f.lead|, PrintKey(f.key));
    AtChar(t, i + |f.lead|, PrintKey(f.key), 0);
    GapSkips(t, i, f.lead);
  }

  /** Between key and value: gap, equals sign, gap. */
  lemma EqualsBetween(t: string, m: nat, f: Fields, acc: seq<Field>)
    requires f.AField? && At(t, m, AfterKey(f)) && GoodFields(f, acc)
    ensures var p := m + |f.before|; var j := p + 1 + |f.after|;
            && Skip(t, m) == p && At(t, p, "=") && m < |t| && !IsKeyChar(t[m])
            && Skip(t, p + 1) == j && At(t, j, Print(f.value))
            && At(t, j + |Print(f.value)|, f.gap + (";" + PrintFields(f.rest)))
  {
    hide *;
    FieldParts(f, acc);
    var tail := f.gap + (";" + PrintFields(f.rest));
    var p := m + |f.before|;
    AfterKeyIs(f);
    ThreeParts(t, m, f.before, "=", f.after + (Print(f.value) + tail));
    ThreeParts(t, p + 1, f.after, Print(f.value), tail);
    EqualsAt(t, m, f.before);
    ValueAfter(t, p + 1, f.after, f.value);
  }

  lemma AfterKeyIs(f: Fields)
    requires f.AField?
    ensures AfterKey(f) == f.before + ("=" + (f.after + (Print(f.value) + (f.gap + (";" + PrintFields(f.rest))))))
  {
    hide Print, PrintFields;
  }

  lemma ThreeParts(t: string, i: nat, a: string, b: string, c: string)
    requires At(t, i, a + (b + c))
    ensures At(t, i, a) && At(t, i + |a|, b) && At(t, i + |a| + |b|, c)
  {
    AtSplit(t, i, a, b + c);
    AtSplit(t, i + |a|, b, c);
  }

  lemma EqualsAt(t: string, m: nat, gap: string)
    requires Spaces(gap) && At(t, m, gap) && At(t, m + |gap|, "=")
    ensures m < |t| && Skip(t, m) == m + |gap| && !IsKeyChar(t[m])
  {
    AtChar(t, m + |gap|, "=", 0);
    if gap != "" { AtChar(t, m, gap, 0); }
    GapSkips(t, m, gap);
  }

  lemma ValueAfter(t: string, p: nat, gap: string, d: Doc)
    requires Spaces(gap) && At(t, p, gap) && At(t, p + |gap|, Print(d))
    ensures p <= |t| && Skip(t, p) == p + |gap|
  {
    FirstChar(d);
    AtChar(t, p + |gap|, Print(d), 0);
    hide Print;
    GapSkips(t, p, gap);
  }

  lemma SemicolonAfter(t: string, k: nat, gap: string, rest: Fields)
    requires Spaces(gap) && At(t, k, gap + (";" + PrintFields(rest)))
    ensures k + |gap| < |t| && Skip(t, k) == k + |gap| && Ended(t, k) && At(t, k + |gap|, ";")
    ensures At(t, k + |gap| + 1, PrintFields(rest))
  {
    hide At, Skip, Spaces, PrintFields;
    AtSplit(t, k, gap, ";" + PrintFields(rest));
    AtSplit(t, k + |gap|, ";", PrintFields(rest));
    AtChar(t, k + |gap|, ";", 0);
    GapSkips(t, k, gap);
  }

  lemma KeyReads(t: string, k: nat, key: Key)
    requires GoodKey(key) && At(t, k, PrintKey(key))
    requires var m := k + |PrintKey(key)|; m < |t| && !IsKeyChar(t[m])
    ensures k < |t| && ReadKey(t, k) == Got(KeyOf(key), k + |PrintKey(key)|)
  {
    hide PrintKey, GoodPieces, PrintPieces, Quoted, At;
    KeyPrints(key);
    FirstOfKey(key);
    AtChar(t, k, PrintKey(key), 0);
    match key
    case BareKey(s) =>
      AtFits(t, k, s);
      forall x | k <= x < k + |s| ensures t[x] == s[x - k] { AtChar(t, k, s, x - k); }
      assert t[k..k + |s|] == s;
      KeyRuns(t, k, k + |s|);
    case QuotedKey(ps) =>
      AtSplit(t, k, "\"", PrintPieces(ps) + "\"");
      QuotedReads(t, k + 1, ps, "");
      assert "" + TextOf(ps) == TextOf(ps);
  }

  lemma {:induction false} KeyRuns(t: string, k: nat, m: nat)
    requires k <= m < |t| && !IsKeyChar(t[m]) && forall x | k <= x < m :: IsKeyChar(t[x])
    ensures KeyEnd(t, k) == m
    decreases m - k
  {
    if k < m { KeyRuns(t, k + 1, m); }
  }

  /** Fields read one after the other, up to the closing brace. */
  lemma {:induction false} FieldsRead(t: string, i: nat, fields: Fields, depth: nat, acc: seq<Field>)
    requires GoodFields(fields, acc) && At(t, i, PrintFields(fields)) && i <= |t| && depth <= MAX_DEPTH
    ensures ReadFields(t, i, depth, acc) ==
            if depth + HeightOfFields(fields) > MAX_DEPTH then Bad
            else Got(Dict(acc + FieldsOf(fields)), i + |PrintFields(fields)|)
    decreases fields, 1
  {
    hide ReadFields;
    match fields
    case NoFields(gap) =>
      NoFieldsRead(t, i, gap, depth, acc);
      assert acc + FieldsOf(fields) == acc;
    case AField(lead, key, before, after, value, gap, rest) =>
      AFieldReads(t, i, fields, depth, acc);
  }

  lemma NoFieldsRead(t: string, i: nat, gap: string, depth: nat, acc: seq<Field>)
    requires Spaces(gap) && At(t, i, gap + "}") && i <= |t|
    ensures ReadFields(t, i, depth, acc) == Got(Dict(acc), i + |gap| + 1)
  {
    AtSplit(t, i, gap, "}");
    AtChar(t, i + |gap|, "}", 0);
    GapSkips(t, i, gap);
  }

  lemma {:induction false} AFieldReads(t: string, i: nat, f: Fields, depth: nat, acc: seq<Field>)
    requires f.AField? && GoodFields(f, acc) && At(t, i, PrintFields(f)) && i <= |t| && depth <= MAX_DEPTH
    ensures ReadFields(t, i, depth, acc) ==
            if depth + HeightOfFields(f) > MAX_DEPTH then Bad
            else Got(Dict(acc + FieldsOf(f)), i + |PrintFields(f)|)
    decreases f, 0
  {
    hide *;
    var k := i + |f.lead|;
    var m := k + |PrintKey(f.key)|;
    var p := m + |f.before|;
    var j := p + 1 + |f.after|;
    var n := j + |Print(f.value)|;
    var field := Field(KeyOf(f.key), Meaning(f.value));
    FieldsLength(f);
    FieldParts(f, acc);
    FieldStarts(t, i, f, acc);
    EqualsBetween(t, m, f, acc);
    KeyReads(t, k, f.key);
    SemicolonAfter(t, n, f.gap, f.rest);
    ValueReads(t, p + 1, j, f.value, depth + 1);
    AtFits(t, j, Print(f.value));
    ReadsMean(t, p + 1, j, f.value, depth + 1);
    if depth + 1 + Height(f.value) > MAX_DEPTH {
      FieldFails(t, i, k, m, p, depth, acc, KeyOf(f.key));
    } else {
      var e := EndOf(t, j, f.value);
      SkipsOn(t, n, e);
      FieldPasses(t, i, k, m, p, depth, acc, KeyOf(f.key), Meaning(f.value), e, n + |f.gap|);
      FieldsRead(t, n + |f.gap| + 1, f.rest, depth, acc + [field]);
      assert acc + [field] + FieldsOf(f.rest) == acc + FieldsOf(f);
    }
  }

  lemma FieldsLength(f: Fields)
    requires f.AField?
    ensures |PrintFields(f)| == |f.lead| + |PrintKey(f.key)| + |f.before| + 1 + |f.after| + |Print(f.value)| + |f.gap|
                                + 1 + |PrintFields(f.rest)|
    ensures FieldsOf(f) == [Field(KeyOf(f.key), Meaning(f.value))] + FieldsOf(f.rest)
    ensures HeightOfFields(f) ==
            if 1 + Height(f.value) < HeightOfFields(f.rest) then HeightOfFields(f.rest) else 1 + Height(f.value)
  {}

  lemma FieldFails(t: string, i: nat, k: nat, m: nat, p: nat, depth: nat, acc: seq<Field>, key: string)
    requires i <= |t| && Skip(t, i) == k && k < |t| && t[k] != '}' && ReadKey(t, k) == Got(key, m)
    requires m <= |t| && Skip(t, m) == p && p + 1 <= |t| && ReadValue(t, p + 1, depth + 1) == Bad
    ensures ReadFields(t, i, depth, acc) == Bad
  {
    hide ReadKey, ReadValue, Skip;
  }

  /** The reader's step over one field. */
  lemma FieldPasses(t: string, i: nat, k: nat, m: nat, p: nat, depth: nat, acc: seq<Field>, key: string, v: Value,
                    e: nat, q: nat)
    requires i <= |t| && Skip(t, i) == k && k < |t| && t[k] != '}' && ReadKey(t, k) == Got(key, m)
    requires m <= |t| && Skip(t, m) == p && At(t, p, "=") && p + 1 <= |t| && !HasKey(acc, key)
    requires ReadValue(t, p + 1, depth + 1) == Got(v, e) && e <= |t| && Skip(t, e) == q && At(t, q, ";") && q + 1 <= |t|
    ensures ReadFields(t, i, depth, acc) == ReadFields(t, q + 1, depth, acc + [Field(key, v)])
  {
    hide ReadKey, ReadValue, Skip, HasKey;
  }

  /** No printed dictionary is taken for the abbreviated data form: that one has a comma, not a semicolon. */
  lemma NotData(t: string, i: nat, fields: Fields)
    requires GoodFields(fields, []) && At(t, i, "{" + PrintFields(fields))
    ensures i <= |t| && DataEnd(t, i) == None
  {
    AtSplit(t, i, "{", PrintFields(fields));
    if At(t, i, "{length") && fields.AField? {
      LengthIsNoData(t, i, fields);
    } else if At(t, i, "{length") {
      AtChar(t, i + 1, PrintFields(fields), 0);
      AtChar(t, i, "{length", 1);
    }
  }

  lemma LengthIsNoData(t: string, i: nat, f: Fields)
    requires f.AField? && GoodFields(f, []) && At(t, i + 1, PrintFields(f)) && At(t, i, "{length")
    ensures DataEnd(t, i) == None
  {
    hide *;
    var k := i + 1 + |f.lead|;
    var m := k + |PrintKey(f.key)|;
    var p := m + |f.before|;
    var j := p + 1 + |f.after|;
    AtFits(t, i, "{length");
    FieldParts(f, []);
    FieldStarts(t, i + 1, f, []);
    EqualsBetween(t, m, f, []);
    SemicolonAfter(t, j + |Print(f.value)|, f.gap, f.rest);
    KeyBegins(t, i, k, m, f);
    ThenSpaceOrSemicolon(t, j + |Print(f.value)|, f.gap);
    ValueIsNoCount(t, j, f.value);
    SeesNoData(t, i, m, p, j);
  }

  lemma LengthAt(t: string, i: nat)
    requires At(t, i, "{length")
    ensures i + 7 <= |t| && forall x | i + 1 <= x < i + 7 :: t[x] == "{length"[x - i]
  {
    assert t[i..i + 7] == "{length";
  }

  lemma ThenSpaceOrSemicolon(t: string, n: nat, gap: string)
    requires Spaces(gap) && At(t, n + |gap|, ";") && n <= |t| && Skip(t, n) == n + |gap|
    ensures n < |t| && !IsDigit(t[n]) && t[n] != ','
  {
    AtChar(t, n + |gap|, ";", 0);
    SkipStops(t, n);
  }

  lemma SeesNoData(t: string, i: nat, m: nat, p: nat, j: nat)
    requires i + 7 <= m <= |t|
    requires m == i + 7 || (m > i + 7 && Skip(t, i + 7) == i + 7 && !At(t, i + 7, "="))
    requires Skip(t, m) == p && At(t, p, "=") && p + 1 <= |t| && Skip(t, p + 1) == j && j <= |t|
    requires DigitEnd(t, j) == j || !At(t, DigitEnd(t, j), ",")
    ensures DataEnd(t, i) == None
  {
    hide Skip, DigitEnd, DataTail;
  }

  /** Behind `length` the key goes on, or it is that word and the equals sign follows. */
  lemma KeyBegins(t: string, i: nat, k: nat, m: nat, f: Fields)
    requires f.AField? && GoodKey(f.key)
    requires i + 7 <= |t| && Skip(t, i + 1) == k && At(t, k, PrintKey(f.key)) && m == k + |PrintKey(f.key)|
    requires m < |t| && !IsKeyChar(t[m]) && At(t, i, "{length")
    ensures m == i + 7 || (m > i + 7 && Skip(t, i + 7) == i + 7 && !At(t, i + 7, "="))
  {
    LengthAt(t, i);
    SkipStops(t, i + 1);
    assert t[i + 1] == 'l' && k == i + 1;
    AtChar(t, k, PrintKey(f.key), 0);
    match f.key
    case QuotedKey(ps) => assert false;
    case BareKey(s) =>
      assert t[k..k + |s|] == s;
      assert forall x | k <= x < m :: t[x] == s[x - k];
      assert forall x | i + 1 <= x < i + 7 :: IsKeyChar(t[x]);
      assert i + 7 <= m;
      if i + 7 < m { KeyCharHere(t, i + 7); }
  }

  lemma KeyCharHere(t: string, x: nat)
    requires x < |t| && IsKeyChar(t[x])
    ensures Skip(t, x) == x && !At(t, x, "=")
  {
    NotAt(t, x, "=");
  }

  /** What stands between the equals sign and the semicolon is no count with a comma behind it. */
  lemma ValueIsNoCount(t: string, j: nat, d: Doc)
    requires At(t, j, Print(d))
    requires var n := j + |Print(d)|; n < |t| && !IsDigit(t[n]) && t[n] != ','
    ensures DigitEnd(t, j) == j || !At(t, DigitEnd(t, j), ",")
  {
    var n := j + |Print(d)|;
    assert t[j..n] == Print(d);
    assert forall x | j <= x < n :: t[x] == Print(d)[x - j];
    if d.IntDoc? && d.n >= 0 {
      DigitsRun(t, j, n);
    } else {
      FirstChar(d);
    }
  }

  lemma {:induction false} DigitsRun(t: string, j: nat, n: nat)
    requires j <= n < |t| && !IsDigit(t[n]) && forall x | j <= x < n :: IsDigit(t[x])
    ensures DigitEnd(t, j) == n
    decreases n - j
  {
    if j < n { DigitsRun(t, j + 1, n); }
  }

  // ---- the round trip -----------------------------------------------------------------------------------------

  /**
   * Printing a value - with any mix of raw characters, short escapes and `\U`
   * units, any spacing, either spelling of null - and reading it back returns
   * the value with the cursor exactly at the end; and a value that nests deeper
   * than 64 levels is refused, however it is printed.
   */
  lemma RoundTrip(d: Doc)
    requires Good(d)
    ensures ReadValue(Print(d), 0, 0) ==
            if Height(d) <= MAX_DEPTH then Got(Meaning(d), |Print(d)|) else Bad
  {
    var t := Print(d);
    FirstChar(d);
    assert t[0..0 + |t|] == t;
    ValueReads(t, 0, 0, d, 0);
  }

  /** A list of one bare null, printed tight, is read as null. */
  lemma TightNullIsNull()
    ensures GoodItems(LooksNull()) && Meaning(ListDoc(LooksNull())) == List([Null])
    ensures ReadValue(Print(ListDoc(LooksNull())), 0, 0) == Got(Null, 6)
  {
    assert Print(ListDoc(LooksNull())) == "(null)";
  }

  // ---- every value has a layout -----------------------------------------------------------------------------------

  /** Values the printer covers: no dates, fractions or repeated keys. */
  predicate Plain(v: Value)
    decreases v, 0
  {
    match v
    case Null => true
    case Number(_) => true
    case Text(_) => true
    case List(items) => PlainItems(items)
    case Dict(fields) => PlainFields(fields)
    case _ => false
  }

  predicate PlainItems(items: seq<Value>)
    decreases items, 1
  {
    forall v | v in items :: Plain(v)
  }

  predicate PlainFields(fields: seq<Field>)
    decreases fields, 1
  {
    && (forall f | f in fields :: Plain(f.value))
    && forall i, j | 0 <= i < j < |fields| :: fields[i].key != fields[j].key
  }

  function PiecesOf(s: string): (ps: seq<Piece>)
    ensures GoodPieces(ps) && TextOf(ps) == s
  {
    if s == "" then [] else
      var first := if s[0] == '"' || s[0] == '\\' then Short(s[0]) else Raw(s[0]);
      [first] + PiecesOf(s[1..])
  }

  function LayOut(v: Value): (d: Doc)
    requires Plain(v)
    ensures Good(d) && Meaning(d) == v
    decreases v, 0
  {
    match v
    case Null => NullDoc(true)
    case Number(n) => IntDoc(n)
    case Text(s) => TextDoc(PiecesOf(s))
    case List(items) => ListDoc(LayOutItems(items))
    case Dict(fields) => DictDoc(LayOutFields(fields, []))
  }

  function LayOutItems(items: seq<Value>): (d: Items)
    requires PlainItems(items)
    ensures GoodItems(d) && ItemsOf(d) == items && d != LooksNull()
    decreases items, 1
  {
    if items == [] then NoItems("") else
      assert items[0] in items;
      assert forall v | v in items[1..] :: v in items;
      assert items == [items[0]] + items[1..];
      AnItem("", LayOut(items[0]), "", Comma(LayOutItems(items[1..])))
  }

  function LayOutFields(fields: seq<Field>, before: seq<Field>): (d: Fields)
    requires PlainFields(fields) && forall f | f in fields :: !HasKey(before, f.key)
    ensures GoodFields(d, before) && FieldsOf(d) == fields
    decreases fields, 1
  {
    if fields == [] then NoFields("") else
      var f := fields[0];
      PlainApart(fields);
      KeysStayApart(fields, before);
      var value, rest := LayOut(f.value), LayOutFields(fields[1..], before + [f]);
      FieldLaidOut(f, value, rest, fields[1..], before);
      AField("", QuotedKey(PiecesOf(f.key)), "", "", value, "", rest)
  }

  lemma PlainApart(fields: seq<Field>)
    requires fields != [] && PlainFields(fields)
    ensures Plain(fields[0].value) && PlainFields(fields[1..]) && fields == [fields[0]] + fields[1..]
  {
    assert fields[0] in fields;
    assert forall g | g in fields[1..] :: g in fields;
  }

  lemma FieldLaidOut(f: Field, value: Doc, rest: Fields, fields: seq<Field>, before: seq<Field>)
    requires Good(value) && Meaning(value) == f.value && !HasKey(before, f.key)
    requires GoodFields(rest, before + [f]) && FieldsOf(rest) == fields
    ensures var d := AField("", QuotedKey(PiecesOf(f.key)), "", "", value, "", rest);
            GoodFields(d, before) && FieldsOf(d) == [f] + fields
  {
    hide Good, Meaning, HasKey, GoodPiece;
    assert Field(f.key, f.value) == f;
  }

  lemma KeysStayApart(fields: seq<Field>, before: seq<Field>)
    requires fields != [] && PlainFields(fields) && forall f | f in fields :: !HasKey(before, f.key)
    ensures !HasKey(before, fields[0].key)
    ensures forall g | g in fields[1..] :: !HasKey(before + [fields[0]], g.key)
  {
    forall g | g in fields[1..] ensures !HasKey(before + [fields[0]], g.key) {
      var k :| 0 <= k < |fields[1..]| && fields[1..][k] == g;
      assert fields[k + 1] == g && g in fields;
    }
  }

  // One step of each read, for the loops that take it.

  lemma AfterItemIs(t: string, m: nat, depth: nat, items: seq<Value>)
    requires m <= |t|
    ensures AfterItem(t, m, depth, items) ==
            if At(t, m, ")") then Got(List(items), m + 1)
            else if !At(t, m, ",") then Bad
            else if At(t, Skip(t, m + 1), ")") then Got(List(items), Skip(t, m + 1) + 1)
            else ReadItems(t, Skip(t, m + 1), depth, items)
  {
    hide ReadItems, Skip;
  }

  lemma FieldsStep(t: string, i: nat, depth: nat, fields: seq<Field>)
    requires i <= |t|
    ensures ReadFields(t, i, depth, fields) ==
            var k := Skip(t, i);
            if k == |t| then Bad else if t[k] == '}' then Got(Dict(fields), k + 1) else FieldAt(t, k, depth, fields)
  {
    hide ReadKey, ReadValue, Skip, HasKey;
  }

  function FieldAt(t: string, k: nat, depth: nat, fields: seq<Field>): Parsed<Value>
    requires k < |t|
  {
    match ReadKey(t, k)
    case Bad => Bad
    case Got(key, m) =>
      var p := Skip(t, m);
      if HasKey(fields, key) || !At(t, p, "=") then Bad
      else match ReadValue(t, p + 1, depth + 1)
        case Bad => Bad
        case Got(v, n) =>
          var q := Skip(t, n);
          if !At(t, q, ";") then Bad else ReadFields(t, q + 1, depth, fields + [Field(key, v)])
  }

  lemma SeesScalar(t: string, i: nat, depth: nat, e: nat)
    requires i <= |t| && depth <= MAX_DEPTH && Skip(t, i) < |t| && t[Skip(t, i)] !in "\"({"
    requires e == BareEnd(t, Skip(t, i))
    ensures ReadValue(t, i, depth) ==
            var raw := StripRight(StripLeft(t[Skip(t, i)..e])); if raw == "" then Bad else Got(Scalar(raw), e)
  {
    var j := Skip(t, i);
    NotAt(t, j, "(null)");
    hide Skip, BareEnd, StripRight, StripLeft, Scalar;
  }

  lemma SeesData(t: string, i: nat, depth: nat, e: nat)
    requires i <= |t| && depth <= MAX_DEPTH && Skip(t, i) < |t| && t[Skip(t, i)] == '{'
    requires DataEnd(t, Skip(t, i)) == Some(e)
    ensures ReadValue(t, i, depth) == Got(Text(t[Skip(t, i)..e]), e)
  {
    var j := Skip(t, i);
    NotAt(t, j, "(null)");
    hide Skip, DataEnd;
  }

  lemma SeesNothing(t: string, i: nat, depth: nat)
    requires i <= |t| && Skip(t, i) == |t|
    ensures ReadValue(t, i, depth) == Bad
  {
    hide Skip;
  }

  lemma SeesBadQuote(t: string, i: nat, depth: nat)
    requires i <= |t| && depth <= MAX_DEPTH && Skip(t, i) < |t| && t[Skip(t, i)] == '"'
    requires Quoted(t, Skip(t, i) + 1, "") == Bad
    ensures ReadValue(t, i, depth) == Bad
  {
    hide Skip, Quoted;
  }

  // ---- the reader itself --------------------------------------------------------------------------------------------

  /** A cursor over the text; `None` stands for the error that ends the parse. */
  class ValueReader {
    const text: string
    var index: nat

    ghost predicate Valid()
      reads this
    {
      index <= |text|
    }

    constructor (text: string)
      ensures Valid() && this.text == text && index == 0
    {
      this.text, index := text, 0;
    }

    method SkipSpace() returns (more: bool)
      requires Valid()
      modifies this`index
      ensures Valid() && index == Skip(text, old(index)) && (more <==> index < |text|)
    {
      while index < |text| && IsSpace(text[index])
        invariant Valid() && Skip(text, index) == Skip(text, old(index))
      {
        index := index + 1;
      }
      more := index < |text|;
    }

    method Take(token: string) returns (taken: bool)
      requires Valid()
      modifies this`index
      ensures Valid() && (taken <==> At(text, Skip(text, old(index)), token))
      ensures index == Skip(text, old(index)) + if taken then |token| else 0
    {
      var more := SkipSpace();
      taken := index + |token| <= |text| && text[index..index + |token|] == token;
      if taken { index := index + |token|; }
    }

    method UnicodeUnit() returns (unit: Option<nat>)
      requires Valid()
      modifies this`index
      ensures Valid() && unit == UnitAt(text, old(index)) && index == old(index) + if unit.Some? then 4 else 0
    {
      unit := UnitAt(text, index);
      if unit.Some? { index := index + 4; }
    }

    /** The `\U` branch: one unit, or a high surrogate and the low one that must follow. */
    method Escaped() returns (c: Option<char>)
      requires Valid()
      modifies this`index
      ensures Valid() && old(index) <= index
      ensures match EscapedChar(text, old(index)) { case Bad => c == None case Got(x, k) => c == Some(x) && index == k }
    {
      var unit := UnicodeUnit();
      if unit == None { return None; }
      var code := unit.value;
      if IsHigh(code) {
        if !(index + 2 <= |text| && text[index..index + 2] == "\\U") { return None; }
        index := index + 2;
        var low := UnicodeUnit();
        if low == None || !IsLow(low.value) { return None; }
        code := 0x10000 + (code - 0xD800) * 0x400 + low.value - 0xDC00;
      } else if IsLow(code) {
        return None;
      }
      return Some(code as char);
    }

    /** `quoted`, the cursor on the opening quote. */
    method NextQuoted() returns (s: Option<string>)
      requires Valid() && index < |text|
      modifies this`index
      ensures Valid()
      ensures match Quoted(text, old(index) + 1, "") {
                case Bad => s == None
                case Got(x, k) => s == Some(x) && index == k
              }
    {
      index := index + 1;
      var out := "";
      while index < |text|
        invariant Valid() && Quoted(text, index, out) == Quoted(text, old(index) + 1, "")
        decreases |text| - index
      {
        var c := text[index];
        index := index + 1;
        if c == '"' { return Some(out); }
        if c != '\\' {
          out := out + [c];
          continue;
        }
        if index == |text| { return None; }
        var escape := text[index];
        index := index + 1;
        if escape == 'U' {
          var e := Escaped();
          if e == None { return None; }
          out := out + [e.value];
        } else if ShortEscape(escape).Some? {
          out := out + [ShortEscape(escape).value];
        } else {
          return None;
        }
      }
      return None;
    }

    /** `value`: a failed read leaves the cursor where the error was noticed. */
    method NextValue(depth: nat) returns (v: Option<Value>)
      requires Valid()
      modifies this`index
      ensures Valid()
      ensures match ReadValue(text, old(index), depth) {
                case Bad => v == None
                case Got(x, k) => v == Some(x) && index == k
              }
      decreases MAX_DEPTH + 1 - depth, 2
    {
      hide ReadValue, ReadItems, ReadFields, Quoted, DataEnd, Skip, BareEnd, StripLeft, StripRight, Scalar;
      ghost var from := index;
      if depth > MAX_DEPTH {
        SeesTooDeep(text, from, depth);
        return None;
      }
      var more := SkipSpace();
      if !more {
        SeesNothing(text, from, depth);
        return None;
      }
      if text[index] == '"' {
        v := NextText(depth, from);
      } else if At(text, index, "(null)") {
        SeesNull(text, from, index, depth);
        index := index + 6;
        v := Some(Null);
      } else if text[index] == '(' {
        SeesList(text, from, index, depth);
        index := index + 1;
        var empty := Take(")");
        if empty { return Some(List([])); }
        v := NextItems(depth);
      } else if text[index] == '{' {
        var data := DataEnd(text, index);
        if data.Some? {
          SeesData(text, from, depth, data.value);
          var start := index;
          index := data.value;
          return Some(Text(text[start..index]));
        }
        SeesDict(text, from, index, depth);
        v := NextDictionary(depth);
      } else {
        v := NextScalar(depth, from);
      }
    }

    method NextText(depth: nat, ghost from: nat) returns (v: Option<Value>)
      requires Valid() && depth <= MAX_DEPTH && from <= index < |text| && Skip(text, from) == index
      requires text[index] == '"'
      modifies this`index
      ensures Valid()
      ensures match ReadValue(text, from, depth) { case Bad => v == None case Got(x, k) => v == Some(x) && index == k }
    {
      hide ReadValue, Quoted, Skip;
      ghost var i := index;
      var s := NextQuoted();
      if s == None {
        SeesBadQuote(text, from, depth);
        return None;
      }
      SeesQuote(text, from, i, depth, s.value, index);
      return Some(Text(s.value));
    }

    /** A bare scalar: up to the next delimiter, without the spaces around it. */
    method NextScalar(depth: nat, ghost from: nat) returns (v: Option<Value>)
      requires Valid() && depth <= MAX_DEPTH && from <= index < |text| && Skip(text, from) == index
      requires text[index] !in "\"({"
      modifies this`index
      ensures Valid()
      ensures match ReadValue(text, from, depth) { case Bad => v == None case Got(x, k) => v == Some(x) && index == k }
    {
      hide ReadValue, Skip, StripLeft, StripRight, Scalar;
      var start := index;
      while index < |text| && !IsDelimiter(text[index])
        invariant Valid() && start <= index && BareEnd(text, index) == BareEnd(text, start)
      {
        index := index + 1;
      }
      SeesScalar(text, from, depth, index);
      var raw := StripRight(StripLeft(text[start..index]));
      if raw == "" { return None; }
      return Some(Scalar(raw));
    }

    /** The list loop, the opening parenthesis behind. */
    method NextItems(depth: nat) returns (v: Option<Value>)
      requires Valid() && depth <= MAX_DEPTH
      modifies this`index
      ensures Valid()
      ensures match ReadItems(text, old(index), depth, []) {
                case Bad => v == None
                case Got(x, k) => v == Some(x) && index == k
              }
      decreases MAX_DEPTH + 1 - depth, 0
    {
      hide ReadValue, ReadItems, AfterItem, Skip;
      var items := [];
      while true
        invariant Valid() && ReadItems(text, index, depth, items) == ReadItems(text, old(index), depth, [])
        decreases |text| - index
      {
        ghost var j := index;
        var item := NextValue(depth + 1);
        if item == None {
          ItemFails(text, j, depth, items);
          return None;
        }
        ItemPasses(text, j, depth, items, item.value, index);
        SkipsOn(text, index, Skip(text, index));
        items := items + [item.value];
        AfterItemIs(text, Skip(text, index), depth, items);
        var closed := Take(")");
        if closed { return Some(List(items)); }
        var comma := Take(",");
        if !comma { return None; }
        closed := Take(")");
        if closed { return Some(List(items)); }
      }
    }

    /** `dictionary`, the cursor on the opening brace. */
    method NextDictionary(depth: nat) returns (v: Option<Value>)
      requires Valid() && index < |text| && text[index] == '{' && depth <= MAX_DEPTH
      modifies this`index
      ensures Valid()
      ensures match ReadFields(text, old(index) + 1, depth, []) {
                case Bad => v == None
                case Got(x, k) => v == Some(x) && index == k
              }
      decreases MAX_DEPTH + 1 - depth, 1
    {
      hide ReadValue, ReadFields, ReadKey, Skip, HasKey;
      index := index + 1;
      var fields: seq<Field> := [];
      while true
        invariant Valid() && ReadFields(text, index, depth, fields) == ReadFields(text, old(index) + 1, depth, [])
        decreases |text| - index
      {
        FieldsStep(text, index, depth, fields);
        var more := SkipSpace();
        if !more { return None; }
        if text[index] == '}' {
          index := index + 1;
          return Some(Dict(fields));
        }
        var key := NextKey();
        if key == None || HasKey(fields, key.value) { return None; }
        var equals := Take("=");
        if !equals { return None; }
        var value := NextValue(depth + 1);
        if value == None { return None; }
        var ended := Take(";");
        if !ended { return None; }
        fields := fields + [Field(key.value, value.value)];
      }
    }

    method NextKey() returns (key: Option<string>)
      requires Valid() && index < |text|
      modifies this`index
      ensures Valid()
      ensures match ReadKey(text, old(index)) { case Bad => key == None case Got(x, k) => key == Some(x) && index == k }
    {
      if text[index] == '"' {
        key := NextQuoted();
        return;
      }
      var end := KeyEnd(text, index);
      if end == index { return None; }
      key := Some(text[index..end]);
      index := end;
    }
  }
}
