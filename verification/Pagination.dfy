/**
 Keyset pagination of the viewer's lists (backend/catalog/viewer.go): following the
 cursors lists exactly the sorted, filtered titles, each once.
 */
module Pagination {
  import opened Common

  type byte = x: int | 0 <= x < 0x100
  type Bytes = seq<byte>

  datatype Kind = Film | Series

  datatype Item = Item(
    id: Bytes, kind: Kind, title: Bytes, year: int, addedAt: int, listAdded: int, lastProgress: int,
    completed: bool, dismissed: bool, genres: set<Bytes>)

  datatype Section = Whole | ContinueWatching | New | MyList | Genre(name: Bytes)

  datatype Mode = ByTitle | ByYear | ByAdded | ByList | ByWatched

  // sectionSort
  function SectionSort(section: Section): Mode {
    match section
    case ContinueWatching => ByWatched
    case New => ByAdded
    case MyList => ByList
    case _ => ByTitle
  }

  predicate InSection(section: Section, item: Item) {
    match section
    case Whole => true
    case ContinueWatching => item.lastProgress > 0 && !item.completed && !item.dismissed
    case New => true
    case MyList => item.listAdded > 0
    case Genre(name) => name in item.genres
  }

  // ------------------------------------------------------------------ folding titles

  function Fold(b: byte): byte {
    if 0x41 <= b <= 0x5A then b + 0x20 else b
  }

  // SQLite's LOWER: ASCII letters only, byte by byte.
  function SqlLower(s: Bytes): (r: Bytes)
    ensures |r| == |s|
  {
    if s == [] then [] else [Fold(s[0])] + SqlLower(s[1..])
  }

  predicate Continues(s: Bytes, n: nat) {
    n <= |s| && forall i :: 1 <= i < n ==> 0x80 <= s[i] < 0xC0
  }

  // How many bytes the first character takes; 0 if it is not well-formed UTF-8
  // (section 4 of RFC 3629).
  function Width(s: Bytes): (w: nat)
    requires s != []
    ensures w <= |s| && w <= 4 && (w > 1 ==> forall i :: 0 <= i < w ==> s[i] >= 0x80) && (w == 1 ==> s[0] < 0x80)
  {
    var b := s[0];
    if b < 0x80 then 1
    else if 0xC2 <= b <= 0xDF then (if Continues(s, 2) then 2 else 0)
    else if 0xE0 <= b <= 0xEF then
      (if Continues(s, 3) && (b == 0xE0 ==> s[1] >= 0xA0) && (b == 0xED ==> s[1] < 0xA0) then 3 else 0)
    else if 0xF0 <= b <= 0xF4 then
      (if Continues(s, 4) && (b == 0xF0 ==> s[1] >= 0x90) && (b == 0xF4 ==> s[1] < 0x90) then 4 else 0)
    else 0
  }

  // The UTF-8 form of U+FFFD, which Go writes for a byte it cannot decode.
  const REPLACEMENT: Bytes := [0xEF, 0xBF, 0xBD]

  // sqliteTitleKey: strings.Map, character by character.
  function TitleKey(s: Bytes): Bytes {
    if s == [] then []
    else
      var w := Width(s);
      if w == 0 then REPLACEMENT + TitleKey(s[1..])
      else if w == 1 then [Fold(s[0])] + TitleKey(s[1..])
      else s[..w] + TitleKey(s[w..])
  }

  predicate WellFormed(s: Bytes) {
    s == [] || (Width(s) > 0 && WellFormed(s[Width(s)..]))
  }

  /** Only the letters A to Z are changed, to a to z. */
  lemma {:induction false} LoweredAt(s: Bytes, i: nat)
    requires i < |s|
    ensures SqlLower(s)[i] == if 0x41 <= s[i] <= 0x5A then s[i] + (0x61 - 0x41) else s[i]
  {
    if i > 0 { LoweredAt(s[1..], i - 1); }
  }

  lemma {:induction false} SqlLowerSplits(a: Bytes, b: Bytes)
    ensures SqlLower(a + b) == SqlLower(a) + SqlLower(b)
  {
    if a == [] {
      assert a + b == b;
    } else {
      assert (a + b)[1..] == a[1..] + b;
      SqlLowerSplits(a[1..], b);
    }
  }

  lemma {:induction false} HighBytesStay(s: Bytes)
    requires forall i :: 0 <= i < |s| ==> s[i] >= 0x80
    ensures SqlLower(s) == s
  {
    if s != [] { HighBytesStay(s[1..]); }
  }

  lemma {:induction false} KeyIsLonger(s: Bytes)
    ensures |TitleKey(s)| >= |s| && (|TitleKey(s)| == |s| ==> WellFormed(s))
    decreases |s|
  {
    if s != [] { KeyIsLonger(s[(if Width(s) == 0 then 1 else Width(s))..]); }
  }

  lemma LowerOne(b: byte)
    ensures SqlLower([b]) == [Fold(b)]
  {
    assert [b][1..] == [];
  }

  lemma {:induction false} CharacterAgrees(s: Bytes, w: nat)
    requires s != [] && Width(s) == w && w > 0
    ensures TitleKey(s) == SqlLower(s[..w]) + TitleKey(s[w..])
  {
    if w == 1 {
      assert s[..1] == [s[0]];
      LowerOne(s[0]);
    } else {
      HighBytesStay(s[..w]);
    }
  }

  lemma {:induction false} WellFormedAgrees(s: Bytes)
    requires WellFormed(s)
    ensures TitleKey(s) == SqlLower(s)
    decreases |s|
  {
    if s != [] {
      var w := Width(s);
      WellFormedAgrees(s[w..]);
      CharacterAgrees(s, w);
      SqlLowerSplits(s[..w], s[w..]);
      assert s == s[..w] + s[w..];
    }
  }

  /** The cursor's key of a title is the key that SQLite sorts by exactly if the title
      is well-formed UTF-8. */
  lemma KeysAgreeIff(s: Bytes)
    ensures TitleKey(s) == SqlLower(s) <==> WellFormed(s)
  {
    KeyIsLonger(s);
    if WellFormed(s) { WellFormedAgrees(s); }
  }

  // ------------------------------------------------------------- well-formed titles

  // A Unicode scalar value.
  predicate IsScalar(u: int) {
    0 <= u <= 0x10FFFF && !(0xD800 <= u <= 0xDFFF)
  }

  // Its UTF-8 form (section 3 of RFC 3629).
  function Encode(u: int): (r: Bytes)
    requires IsScalar(u)
    ensures r != []
  {
    if u < 0x80 then [u]
    else if u < 0x800 then [0xC0 + u / 64, 0x80 + u % 64]
    else if u < 0x10000 then [0xE0 + u / 4096, 0x80 + u / 64 % 64, 0x80 + u % 64]
    else [0xF0 + u / 262144, 0x80 + u / 4096 % 64, 0x80 + u / 64 % 64, 0x80 + u % 64]
  }

  predicate AllScalars(us: seq<int>) {
    forall i :: 0 <= i < |us| ==> IsScalar(us[i])
  }

  function EncodeAll(us: seq<int>): Bytes
    requires AllScalars(us)
  {
    if us == [] then [] else Encode(us[0]) + EncodeAll(us[1..])
  }

  ghost predicate IsUtf8(s: Bytes) {
    exists us: seq<int> :: AllScalars(us) && EncodeAll(us) == s
  }

  lemma EncodedWidth(u: int, rest: Bytes)
    requires IsScalar(u)
    ensures Width(Encode(u) + rest) == |Encode(u)|
  {
    var s := Encode(u) + rest;
    var e := Encode(u);
    assert forall i :: 0 <= i < |e| ==> s[i] == e[i];
  }

  // The scalar value that the first `w` bytes stand for.
  function Decode(s: seq<int>, w: nat): int
    requires 1 <= w <= |s| && w <= 4
  {
    if w == 1 then s[0]
    else if w == 2 then (s[0] - 0xC0) * 64 + (s[1] - 0x80)
    else if w == 3 then (s[0] - 0xE0) * 4096 + (s[1] - 0x80) * 64 + (s[2] - 0x80)
    else (s[0] - 0xF0) * 262144 + (s[1] - 0x80) * 4096 + (s[2] - 0x80) * 64 + (s[3] - 0x80)
  }

  lemma Digits64(a: int, b: int)
    requires 0 <= b < 64
    ensures (a * 64 + b) / 64 == a && (a * 64 + b) % 64 == b
  {
  }

  lemma DecodedThree(a: int, b: int, c: int)
    requires 0xE0 <= a <= 0xEF && 0x80 <= b < 0xC0 && 0x80 <= c < 0xC0
    requires (a == 0xE0 ==> b >= 0xA0) && (a == 0xED ==> b < 0xA0)
    ensures var u := Decode([a, b, c], 3); IsScalar(u) && Encode(u) == [a, b, c]
  {
    Digits64((a - 0xE0) * 64 + (b - 0x80), c - 0x80);
    Digits64(a - 0xE0, b - 0x80);
  }

  lemma DecodedFour(a: int, b: int, c: int, d: int)
    requires 0xF0 <= a <= 0xF4 && 0x80 <= b < 0xC0 && 0x80 <= c < 0xC0 && 0x80 <= d < 0xC0
    requires (a == 0xF0 ==> b >= 0x90) && (a == 0xF4 ==> b < 0x90)
    ensures var u := Decode([a, b, c, d], 4); IsScalar(u) && Encode(u) == [a, b, c, d]
  {
    Digits64((a - 0xF0) * 4096 + (b - 0x80) * 64 + (c - 0x80), d - 0x80);
    Digits64((a - 0xF0) * 64 + (b - 0x80), c - 0x80);
    Digits64(a - 0xF0, b - 0x80);
  }

  lemma DecodedFirst(s: Bytes)
    requires s != [] && Width(s) > 0
    ensures IsScalar(Decode(s, Width(s))) && Encode(Decode(s, Width(s))) == s[..Width(s)]
  {
    var w := Width(s);
    var b: seq<int> := s;
    if w == 2 {
      Digits64(b[0] - 0xC0, b[1] - 0x80);
    } else if w == 3 {
      DecodedThree(b[0], b[1], b[2]);
    } else if w == 4 {
      DecodedFour(b[0], b[1], b[2], b[3]);
    }
  }

  lemma {:induction false} EncodedIsWellFormed(us: seq<int>)
    requires AllScalars(us)
    ensures WellFormed(EncodeAll(us))
    decreases |us|
  {
    if us != [] {
      var rest := EncodeAll(us[1..]);
      EncodedIsWellFormed(us[1..]);
      EncodedWidth(us[0], rest);
      assert (Encode(us[0]) + rest)[|Encode(us[0])|..] == rest;
    }
  }

  lemma EncodedCons(u: int, rest: Bytes)
    requires IsScalar(u) && IsUtf8(rest)
    ensures IsUtf8(Encode(u) + rest)
  {
    var us: seq<int> :| AllScalars(us) && EncodeAll(us) == rest;
    var all := [u] + us;
    assert all[1..] == us;
    assert AllScalars(all) && EncodeAll(all) == Encode(u) + rest;
  }

  lemma {:induction false} WellFormedIsEncoded(s: Bytes)
    requires WellFormed(s)
    ensures IsUtf8(s)
    decreases |s|
  {
    if s == [] {
      assert AllScalars([]) && EncodeAll([]) == s;
    } else {
      var w := Width(s);
      WellFormedIsEncoded(s[w..]);
      DecodedFirst(s);
      EncodedCons(Decode(s, w), s[w..]);
      assert s[..w] + s[w..] == s;
    }
  }

  /** A title is well-formed exactly if it is the UTF-8 form of some characters. */
  lemma WellFormedIff(s: Bytes)
    ensures WellFormed(s) <==> IsUtf8(s)
  {
    if WellFormed(s) { WellFormedIsEncoded(s); }
    if us: seq<int> :| AllScalars(us) && EncodeAll(us) == s {
      EncodedIsWellFormed(us);
    }
  }

  // ------------------------------------------------------------------------- ordering

  // BINARY collation.
  predicate Less(a: Bytes, b: Bytes) {
    b != [] && (a == [] || a[0] < b[0] || (a[0] == b[0] && Less(a[1..], b[1..])))
  }

  lemma {:induction false} LessIsTotal(a: Bytes, b: Bytes)
    ensures Less(a, b) || Less(b, a) || a == b
    ensures !(Less(a, b) && Less(b, a)) && (a == b ==> !Less(a, b))
  {
    if a != [] && b != [] {
      LessIsTotal(a[1..], b[1..]);
      assert a == [a[0]] + a[1..] && b == [b[0]] + b[1..];
    }
  }

  lemma {:induction false} LessIsTransitive(a: Bytes, b: Bytes, c: Bytes)
    requires Less(a, b) && Less(b, c)
    ensures Less(a, c)
  {
    if a != [] && a[0] == b[0] && b[0] == c[0] { LessIsTransitive(a[1..], b[1..], c[1..]); }
  }

  function KindOrder(kind: Kind): int {
    if kind.Film? then 0 else 1
  }

  // What ORDER BY sorts by, most significant first.
  function SortNumber(mode: Mode, item: Item): int {
    match mode
    case ByTitle => 0
    case ByYear => item.year
    case ByAdded => item.addedAt
    case ByList => item.listAdded
    case ByWatched => item.lastProgress
  }

  function SortText(mode: Mode, item: Item): Bytes {
    if mode.ByTitle? || mode.ByYear? then SqlLower(item.title) else []
  }

  predicate AfterId(id: Bytes, kind: Kind, item: Item) {
    Less(id, item.id) || (item.id == id && KindOrder(item.kind) > KindOrder(kind))
  }

  /** The ORDER BY of a page: numbers descending, then the folded title, id and kind
      ascending. */
  predicate Before(mode: Mode, a: Item, b: Item) {
    || SortNumber(mode, a) > SortNumber(mode, b)
    || (SortNumber(mode, a) == SortNumber(mode, b)
        && (Less(SortText(mode, a), SortText(mode, b))
            || (SortText(mode, a) == SortText(mode, b) && AfterId(a.id, a.kind, b))))
  }

  lemma BeforeIsTotal(mode: Mode, a: Item, b: Item)
    ensures !(Before(mode, a, b) && Before(mode, b, a))
    ensures (a.id, a.kind) != (b.id, b.kind) ==> Before(mode, a, b) || Before(mode, b, a)
    ensures (a.id, a.kind) == (b.id, b.kind) && a == b ==> !Before(mode, a, b)
  {
    LessIsTotal(SortText(mode, a), SortText(mode, b));
    LessIsTotal(a.id, b.id);
  }

  lemma BeforeIsTransitive(mode: Mode, a: Item, b: Item, c: Item)
    requires Before(mode, a, b) && Before(mode, b, c)
    ensures Before(mode, a, c)
  {
    if Less(SortText(mode, a), SortText(mode, b)) && Less(SortText(mode, b), SortText(mode, c)) {
      LessIsTransitive(SortText(mode, a), SortText(mode, b), SortText(mode, c));
    }
    if Less(a.id, b.id) && Less(b.id, c.id) { LessIsTransitive(a.id, b.id, c.id); }
  }

  // -------------------------------------------------------------------------- cursors

  datatype Binding = Binding(profile: int, policy: int, media: int, section: Section, view: int, sort: Mode)

  datatype Cursor = Cursor(binding: Binding, text: Bytes, number: int, id: Bytes, kind: Kind, start: bool)

  // decodeViewerCursor, of a cursor that decodes at all.
  predicate Accepts(binding: Binding, cursor: Cursor) {
    cursor.binding == binding && (cursor.start || cursor.id != [])
  }

  // The cursor that a page leaves after its last item.
  function CursorAt(binding: Binding, mode: Mode, last: Item): Cursor {
    Cursor(binding,
           if mode.ByTitle? || mode.ByYear? then TitleKey(last.title) else [],
           SortNumber(mode, last), last.id, last.kind, false)
  }

  // The cursor with which a genre section starts.
  function StartCursor(binding: Binding): Cursor {
    Cursor(binding, [], 0, [], Film, true)
  }

  // The three cursor conditions of the query, as it writes them.
  predicate AfterCursor(mode: Mode, c: Cursor, item: Item) {
    var text := SqlLower(item.title);
    var number := SortNumber(mode, item);
    c.id == [] ||
    match mode
    case ByTitle => Less(c.text, text) || (text == c.text && AfterId(c.id, c.kind, item))
    case ByYear =>
      number < c.number
      || (number == c.number && (Less(c.text, text) || (text == c.text && AfterId(c.id, c.kind, item))))
    case _ => number < c.number || (number == c.number && AfterId(c.id, c.kind, item))
  }

  predicate UsesTitle(mode: Mode) {
    mode.ByTitle? || mode.ByYear?
  }

  /** The cursor condition is the ORDER BY order, for every item after a cursor whose
      title, if the order uses it, is well-formed. */
  lemma CursorMatchesOrder(binding: Binding, mode: Mode, last: Item, item: Item)
    requires last.id != [] && (UsesTitle(mode) ==> WellFormed(last.title))
    ensures AfterCursor(mode, CursorAt(binding, mode, last), item) <==> Before(mode, last, item)
  {
    if UsesTitle(mode) { KeysAgreeIff(last.title); }
  }

  lemma {:induction false} KeyIsLowered(s: Bytes)
    ensures SqlLower(TitleKey(s)) == TitleKey(s)
    decreases |s|
  {
    if s != [] {
      var w := Width(s);
      if w == 0 {
        KeyIsLowered(s[1..]);
        HighBytesStay(REPLACEMENT);
        SqlLowerSplits(REPLACEMENT, TitleKey(s[1..]));
      } else if w == 1 {
        KeyIsLowered(s[1..]);
        LowerOne(Fold(s[0]));
        SqlLowerSplits([Fold(s[0])], TitleKey(s[1..]));
      } else {
        KeyIsLowered(s[w..]);
        HighBytesStay(s[..w]);
        SqlLowerSplits(s[..w], TitleKey(s[w..]));
      }
    }
  }

  // The page after a title starts before it, or past a title that follows it.
  predicate Repeats(binding: Binding, mode: Mode, last: Item, item: Item) {
    AfterCursor(mode, CursorAt(binding, mode, last), item) && !Before(mode, last, item)
  }

  predicate Skips(binding: Binding, mode: Mode, last: Item, item: Item) {
    Before(mode, last, item) && !AfterCursor(mode, CursorAt(binding, mode, last), item)
  }

  /** In an order that uses the title some title comes again exactly if the cursor's key
      is before the key that SQLite sorts by, and some title is left out exactly if it
      is after that key. */
  lemma WrongKeyRepeatsOrSkips(binding: Binding, mode: Mode, last: Item)
    requires last.id != [] && UsesTitle(mode)
    ensures var c, s := TitleKey(last.title), SqlLower(last.title);
            && ((exists item :: Repeats(binding, mode, last, item)) <==> Less(c, s))
            && ((exists item :: Skips(binding, mode, last, item)) <==> Less(s, c))
  {
    var c, s := TitleKey(last.title), SqlLower(last.title);
    LessIsTotal(c, s);
    LessIsTotal(c, c);
    LessIsTotal(s, s);
    LessIsTotal(last.id, last.id);
    if Less(c, s) {
      assert Repeats(binding, mode, last, last);
    } else if Less(s, c) {
      KeyIsLowered(last.title);
      assert Skips(binding, mode, last, last.(title := c));
    }
    forall item
      ensures Repeats(binding, mode, last, item) ==> Less(c, s)
      ensures Skips(binding, mode, last, item) ==> Less(s, c)
    {
      var text := SqlLower(item.title);
      LessIsTotal(c, text);
      LessIsTotal(s, text);
      if Less(c, text) && Less(text, s) { LessIsTransitive(c, text, s); }
      if Less(s, text) && Less(text, c) { LessIsTransitive(s, text, c); }
    }
  }

  /** The cursor condition is the ORDER BY order for every item exactly if the title of
      the last one, where the order uses it, is well-formed. */
  lemma CursorMatchesOrderIff(binding: Binding, mode: Mode, last: Item)
    requires last.id != []
    ensures (forall item :: AfterCursor(mode, CursorAt(binding, mode, last), item) <==> Before(mode, last, item))
       <==> (UsesTitle(mode) ==> WellFormed(last.title))
  {
    if UsesTitle(mode) ==> WellFormed(last.title) {
      forall item
        ensures AfterCursor(mode, CursorAt(binding, mode, last), item) <==> Before(mode, last, item)
      {
        CursorMatchesOrder(binding, mode, last, item);
      }
    } else {
      KeysAgreeIff(last.title);
      LessIsTotal(TitleKey(last.title), SqlLower(last.title));
      WrongKeyRepeatsOrSkips(binding, mode, last);
    }
  }

  /** A title that is not well-formed may come again: here, with pages of one, the page
      after it starts with it. */
  lemma BadTitleRepeats(binding: Binding, id: Bytes)
    requires id != []
    ensures var bad := Item(id, Film, [0xFF], 0, 0, 0, 0, false, false, {});
            AfterCursor(ByTitle, CursorAt(binding, ByTitle, bad), bad) && !Before(ByTitle, bad, bad)
  {
    var bad := Item(id, Film, [0xFF], 0, 0, 0, 0, false, false, {});
    assert bad.title[1..] == [];
    assert TitleKey(bad.title) == REPLACEMENT + TitleKey([]);
    assert SqlLower(bad.title) == [Fold(0xFF)] + SqlLower([]);
    BeforeIsTotal(ByTitle, bad, bad);
  }

  /** And it may cost another title its place: after the single byte 0x80 the cursor
      skips the title U+00E9, which is well-formed and sorted after it. */
  lemma BadTitleSkips(binding: Binding, bad: Item, good: Item)
    requires bad.id != [] && bad.title == [0x80] && good.title == [0xC3, 0xA9]
    ensures WellFormed(good.title) && Skips(binding, ByTitle, bad, good)
  {
    assert bad.title[1..] == [] && good.title[1..] == [0xA9] && good.title[2..] == [] && [0xA9][1..] == [];
    assert TitleKey(bad.title) == REPLACEMENT + TitleKey([]);
    assert SqlLower(bad.title) == [Fold(0x80)] + SqlLower([]);
    assert SqlLower(good.title) == [Fold(0xC3)] + SqlLower([0xA9]);
    assert SqlLower([0xA9]) == [Fold(0xA9)] + SqlLower([]);
    assert Width(good.title) == 2;
  }

  // ------------------------------------------------------------------------- listings

  /** The catalog: ids are not empty, and no two rows share id and kind. */
  ghost predicate Keyed(rows: set<Item>) {
    && (forall a :: a in rows ==> a.id != [])
    && (forall a, b :: a in rows && b in rows && a.id == b.id && a.kind == b.kind ==> a == b)
  }

  ghost predicate Sorted(mode: Mode, q: seq<Item>) {
    forall i, j {:trigger Before(mode, q[i], q[j])} :: 0 <= i < j < |q| ==> Before(mode, q[i], q[j])
  }

  ghost predicate Lists(mode: Mode, q: seq<Item>, rows: set<Item>) {
    Sorted(mode, q) && (forall a :: a in q <==> a in rows)
  }

  lemma ListedAt(mode: Mode, q: seq<Item>, rows: set<Item>, i: nat)
    requires Lists(mode, q, rows) && i < |q|
    ensures q[i] in rows
  {
    assert q[i] in q;
  }

  lemma NothingListed(mode: Mode, q: seq<Item>)
    requires Lists(mode, q, {})
    ensures q == []
  {
    if |q| > 0 { ListedAt(mode, q, {}, 0); }
  }

  lemma FirstIsFirst(mode: Mode, p: seq<Item>, q: seq<Item>, rows: set<Item>)
    requires Lists(mode, p, rows) && Lists(mode, q, rows) && p != [] && q != []
    ensures p[0] == q[0]
  {
    assert p[0] in q && q[0] in p;
    var i :| 0 <= i < |q| && q[i] == p[0];
    var j :| 0 <= j < |p| && p[j] == q[0];
    BeforeIsTotal(mode, p[0], q[0]);
  }

  lemma RestLists(mode: Mode, p: seq<Item>, rows: set<Item>)
    requires Lists(mode, p, rows) && p != []
    ensures Lists(mode, p[1..], rows - {p[0]})
  {
    forall a
      ensures a in p[1..] <==> a in rows - {p[0]}
    {
      assert p == [p[0]] + p[1..];
      BeforeIsTotal(mode, p[0], p[0]);
      if a in p[1..] {
        var i :| 0 <= i < |p[1..]| && p[1..][i] == a;
        assert Before(mode, p[0], p[i + 1]);
      }
    }
  }

  lemma {:induction false} ListingIsUnique(mode: Mode, p: seq<Item>, q: seq<Item>, rows: set<Item>)
    requires Lists(mode, p, rows) && Lists(mode, q, rows)
    ensures p == q
    decreases |p|
  {
    if rows == {} {
      NothingListed(mode, p);
      NothingListed(mode, q);
    } else {
      var a :| a in rows;
      assert a in p && a in q;
      FirstIsFirst(mode, p, q, rows);
      RestLists(mode, p, rows);
      RestLists(mode, q, rows);
      ListingIsUnique(mode, p[1..], q[1..], rows - {p[0]});
      assert p == [p[0]] + p[1..] && q == [q[0]] + q[1..];
    }
  }

  // Where an item belongs in a sorted list.
  ghost function Place(mode: Mode, q: seq<Item>, x: Item): (i: nat)
    requires Sorted(mode, q)
    ensures i <= |q| && (forall k :: 0 <= k < i ==> Before(mode, q[k], x)) && (i < |q| ==> !Before(mode, q[i], x))
  {
    if q == [] || !Before(mode, q[0], x) then 0 else 1 + Place(mode, q[1..], x)
  }

  // The items from its place on come after the new one.
  lemma BelongsBefore(mode: Mode, q: seq<Item>, rows: set<Item>, x: Item, k: nat)
    requires Lists(mode, q, rows) && x !in rows && Keyed(rows + {x}) && Place(mode, q, x) <= k < |q|
    ensures Before(mode, x, q[k])
  {
    var i := Place(mode, q, x);
    assert q[i] in q;
    BeforeIsTotal(mode, q[i], x);
    if k > i { BeforeIsTransitive(mode, x, q[i], q[k]); }
  }

  lemma InsertedAt(q: seq<Item>, i: nat, x: Item, k: nat)
    requires i <= |q| && k <= |q|
    ensures (q[..i] + [x] + q[i..])[k] == if k < i then q[k] else if k == i then x else q[k - 1]
  {
  }

  lemma InsertedIsSorted(mode: Mode, q: seq<Item>, i: nat, x: Item)
    requires Sorted(mode, q) && i <= |q| && (forall k :: 0 <= k < i ==> Before(mode, q[k], x))
    requires forall k :: i <= k < |q| ==> Before(mode, x, q[k])
    ensures Sorted(mode, q[..i] + [x] + q[i..])
  {
    var r := q[..i] + [x] + q[i..];
    forall j, k | 0 <= j < k < |r|
      ensures Before(mode, r[j], r[k])
    {
      InsertedAt(q, i, x, j);
      InsertedAt(q, i, x, k);
    }
  }

  lemma InsertedElements(q: seq<Item>, i: nat, x: Item, a: Item)
    requires i <= |q|
    ensures a in q[..i] + [x] + q[i..] <==> a in q || a == x
  {
    assert q == q[..i] + q[i..];
  }

  lemma Inserted(mode: Mode, q: seq<Item>, rows: set<Item>, x: Item)
    requires Lists(mode, q, rows) && x !in rows && Keyed(rows + {x})
    ensures exists r :: Lists(mode, r, rows + {x})
  {
    var i := Place(mode, q, x);
    forall k | i <= k < |q|
      ensures Before(mode, x, q[k])
    {
      BelongsBefore(mode, q, rows, x, k);
    }
    InsertedIsSorted(mode, q, i, x);
    var r := q[..i] + [x] + q[i..];
    forall a
      ensures a in r <==> a in rows + {x}
    {
      InsertedElements(q, i, x, a);
    }
    assert Lists(mode, r, rows + {x});
  }

  lemma {:induction false} ListingExists(mode: Mode, rows: set<Item>)
    requires Keyed(rows)
    ensures exists q :: Lists(mode, q, rows)
    decreases |rows|
  {
    if rows == {} {
      assert Lists(mode, [], rows);
    } else {
      var x :| x in rows;
      var others := rows - {x};
      assert others + {x} == rows && |others| < |rows|;
      ListingExists(mode, others);
      var q :| Lists(mode, q, others);
      Inserted(mode, q, others, x);
    }
  }

  // The rows of a set in the order of the mode: what a query returns.
  ghost function Listing(mode: Mode, rows: set<Item>): (q: seq<Item>)
    requires Keyed(rows)
    ensures Lists(mode, q, rows)
  {
    ListingExists(mode, rows);
    var q :| Lists(mode, q, rows);
    q
  }

  function Rows(section: Section, rows: set<Item>): set<Item> {
    set a | a in rows && InSection(section, a)
  }

  function RowsAfter(mode: Mode, section: Section, rows: set<Item>, cursor: Option<Cursor>): set<Item> {
    set a | a in Rows(section, rows) && (cursor.Some? ==> AfterCursor(mode, cursor.value, a))
  }

  // --------------------------------------------------------------------------- pages

  // viewerPageItems: at most `limit` items, and a cursor if there are more.
  ghost function Page(binding: Binding, mode: Mode, section: Section, rows: set<Item>, cursor: Option<Cursor>,
        limit: nat):
    (seq<Item>, Option<Cursor>)
    requires Keyed(rows) && limit >= 1
  {
    var q := Listing(mode, RowsAfter(mode, section, rows, cursor));
    if |q| <= limit then (q, None) else (q[..limit], Some(CursorAt(binding, mode, q[limit - 1])))
  }

  // The first `n` pages, one after the other, and the cursor that follows them.
  ghost function Pages(binding: Binding, mode: Mode, section: Section, rows: set<Item>, limit: nat,
        n: nat): (seq<Item>, Option<Cursor>)
    requires Keyed(rows) && limit >= 1
  {
    if n == 0 then ([], Some(StartCursor(binding)))
    else
      var (items, cursor) := Pages(binding, mode, section, rows, limit, n - 1);
      if cursor.None? then (items, None)
      else
        var (page, next) := Page(binding, mode, section, rows, cursor, limit);
        (items + page, next)
  }

  ghost predicate TitlesWellFormed(rows: set<Item>) {
    forall a :: a in rows ==> WellFormed(a.title)
  }

  lemma RestOfListing(mode: Mode, q: seq<Item>, rows: set<Item>, i: nat)
    requires Lists(mode, q, rows) && 1 <= i <= |q|
    ensures Lists(mode, q[i..], set a | a in rows && Before(mode, q[i - 1], a))
  {
    var rest := set a | a in rows && Before(mode, q[i - 1], a);
    forall a
      ensures a in q[i..] <==> a in rest
    {
      if a in q[i..] {
        var k :| 0 <= k < |q[i..]| && q[i..][k] == a;
        assert a == q[i + k] && a in q;
      }
      if a in rest {
        var k :| 0 <= k < |q| && q[k] == a;
        BeforeIsTotal(mode, q[i - 1], a);
        assert a == q[i..][k - i];
      }
    }
  }

  // The rows after the cursor of the `i`th item are the rest of the list.
  lemma AfterCursorIsRest(binding: Binding, mode: Mode, section: Section, rows: set<Item>, i: nat)
    requires Keyed(rows) && (UsesTitle(mode) ==> TitlesWellFormed(rows))
    requires 1 <= i <= |Listing(mode, Rows(section, rows))|
    ensures var q := Listing(mode, Rows(section, rows));
            Listing(mode, RowsAfter(mode, section, rows, Some(CursorAt(binding, mode, q[i - 1])))) == q[i..]
  {
    var q := Listing(mode, Rows(section, rows));
    var last := q[i - 1];
    assert last in q && last in rows;
    var after := RowsAfter(mode, section, rows, Some(CursorAt(binding, mode, last)));
    forall a
      ensures a in after <==> a in Rows(section, rows) && Before(mode, last, a)
    {
      CursorMatchesOrder(binding, mode, last, a);
    }
    RestOfListing(mode, q, Rows(section, rows), i);
    assert after == set a | a in Rows(section, rows) && Before(mode, last, a);
    ListingIsUnique(mode, Listing(mode, after), q[i..], after);
  }

  // The cursor after the first `i` items of a listing.
  ghost function CursorAfter(binding: Binding, mode: Mode, q: seq<Item>, i: nat): Cursor
    requires i <= |q|
  {
    if i == 0 then StartCursor(binding) else CursorAt(binding, mode, q[i - 1])
  }

  // The page after the first `i` items.
  lemma PageAfter(binding: Binding, mode: Mode, section: Section, rows: set<Item>, limit: nat, i: nat)
    requires Keyed(rows) && limit >= 1 && (UsesTitle(mode) ==> TitlesWellFormed(rows))
    requires i <= |Listing(mode, Rows(section, rows))|
    ensures var q := Listing(mode, Rows(section, rows));
            Page(binding, mode, section, rows, Some(CursorAfter(binding, mode, q, i)), limit)
            == if |q| - i <= limit then (q[i..], None)
               else (q[i..i + limit], Some(CursorAfter(binding, mode, q, i + limit)))
  {
    var q := Listing(mode, Rows(section, rows));
    var cursor := Some(CursorAfter(binding, mode, q, i));
    if i == 0 {
      assert RowsAfter(mode, section, rows, cursor) == Rows(section, rows);
    } else {
      AfterCursorIsRest(binding, mode, section, rows, i);
    }
    assert Listing(mode, RowsAfter(mode, section, rows, cursor)) == q[i..];
    if |q| - i > limit { assert q[i..][..limit] == q[i..i + limit]; }
  }

  // The first `i` items of a listing, and the cursor that goes on after them if there
  // are more.
  ghost function UpTo(binding: Binding, mode: Mode, q: seq<Item>, i: nat): (seq<Item>, Option<Cursor>) {
    if i == 0 || i < |q| then (q[..i], Some(CursorAfter(binding, mode, q, i))) else (q, None)
  }

  // One page more.
  lemma PagesStep(binding: Binding, mode: Mode, section: Section, rows: set<Item>, limit: nat, n: nat, i: nat)
    requires Keyed(rows) && limit >= 1 && (UsesTitle(mode) ==> TitlesWellFormed(rows))
    requires Pages(binding, mode, section, rows, limit, n) == UpTo(binding, mode, Listing(mode, Rows(section, rows)), i)
    ensures Pages(binding, mode, section, rows, limit, n + 1)
            == UpTo(binding, mode, Listing(mode, Rows(section, rows)), i + limit)
  {
    var q := Listing(mode, Rows(section, rows));
    if i == 0 || i < |q| {
      PageAfter(binding, mode, section, rows, limit, i);
      assert q[..i] + q[i..] == q;
      if |q| - i > limit { assert q[..i] + q[i..i + limit] == q[..i + limit]; }
    }
  }

  lemma OneMore(n: nat, limit: nat)
    requires n > 0
    ensures n * limit == (n - 1) * limit + limit
  {
  }

  /** Following the cursors for `n` pages of any size gives exactly the first
      `n * limit` titles of the sorted, filtered list; the cursors end exactly when
      the list is exhausted. */
  lemma {:induction false} PagesRefineTheList(binding: Binding, mode: Mode, section: Section, rows: set<Item>,
        limit: nat, n: nat)
    requires Keyed(rows) && limit >= 1 && (UsesTitle(mode) ==> TitlesWellFormed(rows))
    ensures Pages(binding, mode, section, rows, limit, n)
            == UpTo(binding, mode, Listing(mode, Rows(section, rows)), n * limit)
    decreases n
  {
    if n == 0 {
      assert n * limit == 0;
    } else {
      PagesRefineTheList(binding, mode, section, rows, limit, n - 1);
      PagesStep(binding, mode, section, rows, limit, n - 1, (n - 1) * limit);
      OneMore(n, limit);
    }
  }

  lemma FewerThan(a: nat, n: nat, limit: nat)
    requires a < n && limit >= 1
    ensures n * limit > a
  {
    assert n * limit == n + n * (limit - 1);
  }

  lemma {:induction false} ListingLength(mode: Mode, q: seq<Item>, rows: set<Item>)
    requires Lists(mode, q, rows)
    ensures |q| == |rows|
    decreases |q|
  {
    if q == [] {
      assert rows == {};
    } else {
      RestLists(mode, q, rows);
      ListingLength(mode, q[1..], rows - {q[0]});
      assert q[0] in rows;
    }
  }

  /** All pages together: the whole list, every title once. */
  lemma AllPages(binding: Binding, mode: Mode, section: Section, rows: set<Item>, limit: nat, n: nat)
    requires Keyed(rows) && limit >= 1 && (UsesTitle(mode) ==> TitlesWellFormed(rows))
    requires n > |Rows(section, rows)|
    ensures var (items, cursor) := Pages(binding, mode, section, rows, limit, n);
            && cursor.None? && Lists(mode, items, Rows(section, rows))
            && (forall i, j :: 0 <= i < j < |items| ==> (items[i].id, items[i].kind) != (items[j].id, items[j].kind))
  {
    var q := Listing(mode, Rows(section, rows));
    PagesRefineTheList(binding, mode, section, rows, limit, n);
    ListingLength(mode, q, Rows(section, rows));
    FewerThan(|q|, n, limit);
    forall i, j | 0 <= i < j < |q|
      ensures (q[i].id, q[i].kind) != (q[j].id, q[j].kind)
    {
      assert q[i] in q && q[j] in q;
      BeforeIsTotal(mode, q[i], q[j]);
    }
  }

  /** The pages of one section, in its own order: only a genre, which is ordered by
      title, needs its titles well-formed for that. */
  lemma SectionIsListed(binding: Binding, section: Section, rows: set<Item>, limit: nat, n: nat)
    requires Keyed(rows) && limit >= 1 && !section.Whole? && n > |Rows(section, rows)|
    requires section.Genre? ==> TitlesWellFormed(rows)
    ensures var mode := SectionSort(section); var (items, cursor) := Pages(binding, mode, section, rows, limit, n);
            cursor.None? && Lists(mode, items, Rows(section, rows))
  {
    AllPages(binding, SectionSort(section), section, rows, limit, n);
  }

  // ------------------------------------------------------------- in the titles' fields

  lemma ListedBefore(mode: Mode, q: seq<Item>, rows: set<Item>, i: nat, j: nat)
    requires Lists(mode, q, rows) && i < j < |q|
    ensures q[i] in rows && q[j] in rows && Before(mode, q[i], q[j])
  {
    assert q[i] in q && q[j] in q;
  }

  /** New holds every title, the newest first. */
  lemma NewIsNewestFirst(binding: Binding, rows: set<Item>, limit: nat, n: nat)
    requires Keyed(rows) && limit >= 1 && n > |rows|
    ensures var items := Pages(binding, ByAdded, New, rows, limit, n).0;
            && (forall a :: a in items <==> a in rows)
            && forall i, j :: 0 <= i < j < |items| ==> items[i].addedAt >= items[j].addedAt
  {
    assert Rows(New, rows) == rows;
    SectionIsListed(binding, New, rows, limit, n);
    var items := Pages(binding, ByAdded, New, rows, limit, n).0;
    forall i, j | 0 <= i < j < |items|
      ensures items[i].addedAt >= items[j].addedAt
    {
      ListedBefore(ByAdded, items, rows, i, j);
    }
  }

  /** Continue Watching holds exactly the titles with progress that are neither
      completed nor dismissed, the last watched first. */
  lemma ContinueWatchingIsOpen(binding: Binding, rows: set<Item>, limit: nat, n: nat)
    requires Keyed(rows) && limit >= 1 && n > |rows|
    ensures var items := Pages(binding, ByWatched, ContinueWatching, rows, limit, n).0;
            && (forall a :: a in items <==> a in rows && a.lastProgress > 0 && !a.completed && !a.dismissed)
            && forall i, j :: 0 <= i < j < |items| ==> items[i].lastProgress >= items[j].lastProgress
  {
    SubsetSize(Rows(ContinueWatching, rows), rows);
    SectionIsListed(binding, ContinueWatching, rows, limit, n);
    var items := Pages(binding, ByWatched, ContinueWatching, rows, limit, n).0;
    forall i, j | 0 <= i < j < |items|
      ensures items[i].lastProgress >= items[j].lastProgress
    {
      ListedBefore(ByWatched, items, Rows(ContinueWatching, rows), i, j);
    }
  }

  /** My List holds exactly the titles that were put on it, the last one first. */
  lemma MyListIsListed(binding: Binding, rows: set<Item>, limit: nat, n: nat)
    requires Keyed(rows) && limit >= 1 && n > |rows|
    ensures var items := Pages(binding, ByList, MyList, rows, limit, n).0;
            && (forall a :: a in items <==> a in rows && a.listAdded > 0)
            && forall i, j :: 0 <= i < j < |items| ==> items[i].listAdded >= items[j].listAdded
  {
    SubsetSize(Rows(MyList, rows), rows);
    SectionIsListed(binding, MyList, rows, limit, n);
    var items := Pages(binding, ByList, MyList, rows, limit, n).0;
    forall i, j | 0 <= i < j < |items|
      ensures items[i].listAdded >= items[j].listAdded
    {
      ListedBefore(ByList, items, Rows(MyList, rows), i, j);
    }
  }

  // They agree up to k, and there the first one ends or has the lesser byte.
  predicate FirstDifference(a: Bytes, b: Bytes, k: nat) {
    k <= |a| && k < |b| && a[..k] == b[..k] && (k < |a| ==> a[k] < b[k])
  }

  /** A title sorts before another exactly if it ends first or has the lesser byte where
      they first differ. */
  lemma {:induction false} LessIff(a: Bytes, b: Bytes)
    ensures Less(a, b) <==> exists k: nat :: FirstDifference(a, b, k)
    decreases |a|
  {
    if a == [] || b == [] || a[0] != b[0] {
      assert b != [] ==> a[..0] == b[..0];
      assert Less(a, b) ==> FirstDifference(a, b, 0);
      forall k: nat | FirstDifference(a, b, k)
        ensures Less(a, b)
      {
        assert k > 0 ==> a[..k][0] == b[..k][0];
      }
    } else {
      LessIff(a[1..], b[1..]);
      if k: nat :| FirstDifference(a[1..], b[1..], k) {
        assert a[..k + 1] == [a[0]] + a[1..][..k] && b[..k + 1] == [b[0]] + b[1..][..k];
        assert FirstDifference(a, b, k + 1);
      }
      if k: nat :| FirstDifference(a, b, k) {
        assert k > 0;
        assert a[1..][..k - 1] == a[..k][1..] && b[1..][..k - 1] == b[..k][1..];
        assert FirstDifference(a[1..], b[1..], k - 1);
      }
    }
  }

  /** The whole list, by year or by title: the latest year first, then the title,
      with capital letters A to Z as small ones. */
  lemma WholeIsOrdered(binding: Binding, mode: Mode, rows: set<Item>, limit: nat, n: nat)
    requires Keyed(rows) && limit >= 1 && n > |rows| && UsesTitle(mode) && TitlesWellFormed(rows)
    ensures var items := Pages(binding, mode, Whole, rows, limit, n).0;
            && (forall a :: a in items <==> a in rows)
            && forall i, j :: 0 <= i < j < |items| ==>
                 && (mode.ByYear? ==> items[i].year >= items[j].year)
                 && ((mode.ByYear? ==> items[i].year == items[j].year) ==>
                       !Less(SqlLower(items[j].title), SqlLower(items[i].title)))
  {
    assert Rows(Whole, rows) == rows;
    AllPages(binding, mode, Whole, rows, limit, n);
    var items := Pages(binding, mode, Whole, rows, limit, n).0;
    forall i, j | 0 <= i < j < |items|
      ensures mode.ByYear? ==> items[i].year >= items[j].year
      ensures (mode.ByYear? ==> items[i].year == items[j].year) ==>
                !Less(SqlLower(items[j].title), SqlLower(items[i].title))
    {
      ListedBefore(mode, items, rows, i, j);
      LessIsTotal(SqlLower(items[i].title), SqlLower(items[j].title));
    }
  }

  /** A genre holds exactly the titles that have it, by title. */
  lemma GenreIsByTitle(binding: Binding, name: Bytes, rows: set<Item>, limit: nat, n: nat)
    requires Keyed(rows) && limit >= 1 && n > |rows| && TitlesWellFormed(rows)
    ensures var items := Pages(binding, ByTitle, Genre(name), rows, limit, n).0;
            && (forall a :: a in items <==> a in rows && name in a.genres)
            && forall i, j :: 0 <= i < j < |items| ==> !Less(SqlLower(items[j].title), SqlLower(items[i].title))
  {
    SubsetSize(Rows(Genre(name), rows), rows);
    SectionIsListed(binding, Genre(name), rows, limit, n);
    var items := Pages(binding, ByTitle, Genre(name), rows, limit, n).0;
    forall i, j | 0 <= i < j < |items|
      ensures !Less(SqlLower(items[j].title), SqlLower(items[i].title))
    {
      ListedBefore(ByTitle, items, Rows(Genre(name), rows), i, j);
      LessIsTotal(SqlLower(items[i].title), SqlLower(items[j].title));
    }
  }

  /** A page's cursor is accepted for the listing it came from and for no other, and so
      is the cursor that a section starts with. */
  lemma CursorsAreBound(binding: Binding, other: Binding, mode: Mode, section: Section, rows: set<Item>,
        cursor: Option<Cursor>, limit: nat)
    requires Keyed(rows) && limit >= 1
    ensures var (items, next) := Page(binding, mode, section, rows, cursor, limit);
            next.Some? ==> (Accepts(other, next.value) <==> other == binding) && !next.value.start
    ensures Accepts(other, StartCursor(binding)) <==> other == binding
  {
    var q := Listing(mode, RowsAfter(mode, section, rows, cursor));
    if |q| > limit {
      assert q[limit - 1] in q;
      assert q[limit - 1] in rows;
    }
  }

  // --------------------------------------------------------------------- the reading loop

  // One row more than the limit tells whether there is a next page.
  lemma ReadAll(mode: Mode, section: Section, rows: set<Item>, cursor: Option<Cursor>, limit: nat, query: seq<Item>)
    requires Keyed(rows) && limit >= 1
    requires var q := Listing(mode, RowsAfter(mode, section, rows, cursor)); query == q[..Min(limit + 1, |q|)]
    ensures var q := Listing(mode, RowsAfter(mode, section, rows, cursor));
            if |query| <= limit then q == query else |q| > limit && q[..limit] == query[..limit]
  {
  }

  /** viewerPageItems, reading the query's rows: at most one more than the limit. */
  method ReadPage(binding: Binding, mode: Mode, section: Section, ghost rows: set<Item>, cursor: Option<Cursor>,
        limit: nat, query: seq<Item>)
    returns (items: seq<Item>, next: Option<Cursor>)
    requires Keyed(rows) && limit >= 1
    requires var q := Listing(mode, RowsAfter(mode, section, rows, cursor)); query == q[..Min(limit + 1, |q|)]
    ensures (items, next) == Page(binding, mode, section, rows, cursor, limit)
  {
    items := [];
    var i := 0;
    while i < |query| && |items| <= limit
      invariant 0 <= i <= |query| && items == query[..i]
    {
      items := items + [query[i]];
      i := i + 1;
    }
    assert items == query;
    ReadAll(mode, section, rows, cursor, limit, query);
    if |items| <= limit { return items, None; }
    items := items[..limit];
    var last := items[|items| - 1];
    var text: Bytes := [];
    if mode.ByTitle? || mode.ByYear? { text := TitleKey(last.title); }
    next := Some(Cursor(binding, text, SortNumber(mode, last), last.id, last.kind, false));
  }
}
