/**
 Subtitle files, SubRip and WebVTT: how one is printed, and what the subtitle converter
 (backend/captions/captions.go) makes of it.
 */
module SubtitleFiles {
  import opened Common
  import opened CaptionText
  import opened Captions

  // ------------------------------------------------------------------------- the files

  datatype Moment = Moment(hours: nat, minutes: nat, seconds: nat, milliseconds: nat)

  // A cue, numbered or not, with a comma or a dot before the milliseconds; or a block
  // that is not shown.
  datatype Item =
    | Note(first: string, more: seq<string>)
    | Subtitle(number: Option<nat>, mark: string, start: Moment, end: Moment, lines: seq<string>)

  // Every line has the same end; a byte order mark may come first.
  datatype File = File(marked: bool, newline: string, items: seq<Item>)

  function Millis(t: Moment): nat {
    t.hours * 3_600_000 + t.minutes * 60_000 + t.seconds * 1000 + t.milliseconds
  }

  predicate ValidMoment(t: Moment) {
    t.minutes < 60 && t.seconds < 60 && t.milliseconds < 1000 && Millis(t) <= MAX_TIME
  }

  predicate NoEnds(line: string) {
    '\n' !in line && '\r' !in line
  }

  /** Lines that can be told apart from other blocks: none is empty or holds a line end,
      and no space follows the last one. */
  predicate ValidLines(lines: seq<string>) {
    && (forall i :: 0 <= i < |lines| ==> lines[i] != "" && NoEnds(lines[i]))
    && (lines != [] ==> EndsSolid(lines[|lines| - 1]))
  }

  // In capital or small letters.
  predicate SpellsWebvtt(s: string) {
    |s| == 6 && forall i :: 0 <= i < 6 ==> s[i] == "WEBVTT"[i] || s[i] == "webvtt"[i]
  }

  predicate ValidItem(item: Item) {
    match item
    case Note(first, more) =>
      && (SpellsWebvtt(first) || first == "STYLE" || first == "REGION" || "NOTE" <= first)
      && ValidLines([first]) && ValidLines(more)
    case Subtitle(_, mark, start, end, lines) =>
      mark in [",", "."] && ValidMoment(start) && ValidMoment(end) && Millis(start) < Millis(end) && ValidLines(lines)
  }

  ghost predicate AllValid(items: seq<Item>) {
    forall i :: 0 <= i < |items| ==> ValidItem(items[i])
  }

  ghost predicate ValidFile(file: File) {
    file.newline in ["\n", "\r\n", "\r"] && AllValid(file.items)
  }

  // ----------------------------------------------------------------------- the printer

  function Terminated(lines: seq<string>, newline: string): string {
    if lines == [] then "" else lines[0] + newline + Terminated(lines[1..], newline)
  }

  function Stamped(t: Moment, mark: string): string {
    Padded(t.hours, 2) + ":" + Padded(t.minutes, 2) + ":" + (Padded(t.seconds, 2) + mark + Padded(t.milliseconds, 3))
  }

  function Arrowed(s: Item): string
    requires s.Subtitle?
  {
    Stamped(s.start, s.mark) + " --> " + Stamped(s.end, s.mark)
  }

  // The first line of a block, and the others.
  function HeadOf(item: Item): string {
    match item
    case Note(first, _) => first
    case Subtitle(number, _, _, _, _) => if number.Some? then Decimal(number.value) else Arrowed(item)
  }

  function TailOf(item: Item): seq<string> {
    match item
    case Note(_, more) => more
    case Subtitle(number, _, _, _, lines) => (if number.Some? then [Arrowed(item)] else []) + lines
  }

  // Blocks, with an empty line after each.
  function AllLines(items: seq<Item>): seq<string> {
    if items == [] then [] else [HeadOf(items[0])] + TailOf(items[0]) + [""] + AllLines(items[1..])
  }

  function Printed(file: File): string {
    (if file.marked then "\U{FEFF}" else "") + Terminated(AllLines(file.items), file.newline)
  }

  // ------------------------------------------------------------------- what is expected

  // A subtitle as it is shown, with the offset taken off.
  datatype Shown = Shown(start: nat, end: nat, lines: seq<string>)

  predicate Showing(item: Item, offset: nat) {
    item.Subtitle? && Millis(item.end) > offset
  }

  function ShownAt(s: Item, offset: nat): Shown
    requires Showing(s, offset)
  {
    Shown(if Millis(s.start) <= offset then 0 else Millis(s.start) - offset, Millis(s.end) - offset, s.lines)
  }

  // The subtitles that have not ended by the offset, in order.
  function Kept(items: seq<Item>, offset: nat): seq<Shown> {
    if items == [] then []
    else if Showing(items[0], offset) then [ShownAt(items[0], offset)] + Kept(items[1..], offset)
    else Kept(items[1..], offset)
  }

  // A subtitle on the page: an empty line, its times, its lines.
  function Paragraph(s: Shown): string {
    "\n" + (FormatTimestamp(s.start) + " --> " + FormatTimestamp(s.end)) + "\n" + Terminated(Escaped(s.lines), "\n")
  }

  function Page(shown: seq<Shown>): string {
    if shown == [] then "" else Paragraph(shown[0]) + Page(shown[1..])
  }

  // --------------------------------------------------------------------------- escaping

  // The text that entities stand for.
  function Unescape(s: string): string {
    if s == "" then ""
    else if "&amp;" <= s then "&" + Unescape(s[5..])
    else if "&lt;" <= s then "<" + Unescape(s[4..])
    else if "&gt;" <= s then ">" + Unescape(s[4..])
    else if "&#34;" <= s then "\"" + Unescape(s[5..])
    else if "&#39;" <= s then "'" + Unescape(s[5..])
    else [s[0]] + Unescape(s[1..])
  }

  predicate IsEntity(s: string) {
    "&amp;" <= s || "&lt;" <= s || "&gt;" <= s || "&#34;" <= s || "&#39;" <= s
  }

  /** No markup: no angle bracket, no quote, and no ampersand but that of an entity. */
  predicate Inert(s: string) {
    forall i :: 0 <= i < |s| ==> s[i] !in "<>\"'" && (s[i] == '&' ==> IsEntity(s[i..]))
  }

  lemma EscapeSnoc(s: string, c: char)
    ensures Escape(s + [c]) == Escape(s) + EscapeChar(c)
  {
    assert (s + [c])[..|s|] == s;
  }

  lemma {:induction false} EscapeCons(c: char, s: string)
    ensures Escape([c] + s) == EscapeChar(c) + Escape(s)
    decreases |s|
  {
    if s == "" {
      EscapeSnoc("", c);
      assert "" + [c] == [c] + s;
    } else {
      var (prior, last) := (s[..|s| - 1], s[|s| - 1]);
      EscapeCons(c, prior);
      EscapeSnoc([c] + prior, last);
      EscapeSnoc(prior, last);
      LastApart(s);
      Associates([c], prior, [last]);
      Associates(EscapeChar(c), Escape(prior), EscapeChar(last));
    }
  }

  lemma UnescapeChar(c: char, rest: string)
    ensures Unescape(EscapeChar(c) + rest) == [c] + Unescape(rest)
  {
    var e := EscapeChar(c);
    var t := e + rest;
    assert t[|e|..] == rest;
    assert c == '&' ==> t[..5] == "&amp;";
    assert c == '<' ==> t[..4] == "&lt;";
    assert c == '>' ==> t[..4] == "&gt;";
    assert c == '"' ==> t[..5] == "&#34;";
    assert c == '\'' ==> t[..5] == "&#39;";
    assert t[0] == e[0] && (|e| > 1 ==> t[1] == e[1] && t[2] == e[2] && t[3] == e[3]);
    assert e == [c] || e[0] == '&';
  }

  /** Escaping loses nothing. */
  lemma {:induction false} UnescapeUndoesEscape(s: string)
    ensures Unescape(Escape(s)) == s
  {
    if s != "" {
      assert [s[0]] + s[1..] == s;
      EscapeCons(s[0], s[1..]);
      UnescapeUndoesEscape(s[1..]);
      UnescapeChar(s[0], Escape(s[1..]));
    }
  }

  lemma InertCons(c: char, rest: string)
    requires Inert(rest)
    ensures Inert(EscapeChar(c) + rest)
  {
    var e := EscapeChar(c);
    var t := e + rest;
    forall i | 0 <= i < |t|
      ensures t[i] !in "<>\"'" && (t[i] == '&' ==> IsEntity(t[i..]))
    {
      if i >= |e| {
        assert t[i] == rest[i - |e|] && t[i..] == rest[i - |e|..];
      } else {
        assert t[i] == e[i];
        assert t[i] == '&' ==> i == 0 && t[i..] == t && t[..|e|] == e;
      }
    }
  }

  /** What is escaped holds no markup. */
  lemma {:induction false} EscapedIsInert(s: string)
    ensures Inert(Escape(s))
  {
    if s != "" {
      assert [s[0]] + s[1..] == s;
      EscapeCons(s[0], s[1..]);
      EscapedIsInert(s[1..]);
      InertCons(s[0], Escape(s[1..]));
    }
  }

  // -------------------------------------------------------------------------- line ends

  lemma {:induction false} TerminatedAppends(a: seq<string>, b: seq<string>, newline: string)
    ensures Terminated(a + b, newline) == Terminated(a, newline) + Terminated(b, newline)
    decreases |a|
  {
    if a == [] {
      assert a + b == b;
    } else {
      assert (a + b)[1..] == a[1..] + b;
      TerminatedAppends(a[1..], b, newline);
      Associates(a[0] + newline, Terminated(a[1..], newline), Terminated(b, newline));
    }
  }

  // The line ends that Normalized gives.
  function Unified(s: string): string {
    DropReturns(JoinReturns(s))
  }

  predicate HaveNoEnds(lines: seq<string>) {
    forall i :: 0 <= i < |lines| ==> NoEnds(lines[i])
  }

  lemma UnifiedCons(c: char, rest: string)
    requires c != '\r'
    ensures Unified([c] + rest) == [c] + Unified(rest)
  {
    assert ([c] + rest)[1..] == rest;
    assert ([c] + JoinReturns(rest))[1..] == JoinReturns(rest);
  }

  // The end of one line.
  lemma UnifiedEnd(newline: string, rest: string)
    requires newline in ["\n", "\r\n", "\r"] && (newline == "\r" && rest != "" ==> rest[0] != '\n')
    ensures Unified(newline + rest) == "\n" + Unified(rest)
  {
    var t := newline + rest;
    assert t[|newline|..] == rest;
    if newline == "\n" {
      UnifiedCons('\n', rest);
    } else if newline == "\r\n" {
      assert t[0] == '\r' && t[1] == '\n';
      assert ("\n" + JoinReturns(rest))[1..] == JoinReturns(rest);
    } else {
      assert t[0] == '\r';
      assert ("\r" + JoinReturns(rest))[1..] == JoinReturns(rest);
    }
  }

  lemma ConsAssociates(c: char, a: string, b: string, rest: string)
    ensures [c] + (a + b + rest) == [c] + a + b + rest
  {
  }

  lemma {:induction false} UnifiedLine(line: string, newline: string, rest: string)
    requires NoEnds(line) && newline in ["\n", "\r\n", "\r"] && (newline == "\r" && rest != "" ==> rest[0] != '\n')
    ensures Unified(line + newline + rest) == line + "\n" + Unified(rest)
    decreases |line|
  {
    if line == "" {
      UnifiedEnd(newline, rest);
      assert line + newline == newline && line + "\n" == "\n";
    } else {
      var (c, more) := (line[0], line[1..]);
      UnifiedLine(more, newline, rest);
      UnifiedCons(c, more + newline + rest);
      assert [c] + more == line;
      ConsAssociates(c, more, newline, rest);
      ConsAssociates(c, more, "\n", Unified(rest));
    }
  }

  lemma NoNewline(lines: seq<string>)
    requires HaveNoEnds(lines)
    ensures Terminated(lines, "\r") != "" ==> Terminated(lines, "\r")[0] != '\n'
  {
    if lines != [] && lines[0] != "" { assert lines[0][0] in lines[0]; }
  }

  /** The three line ends read alike. */
  lemma {:induction false} EndsAreUnified(lines: seq<string>, newline: string)
    requires newline in ["\n", "\r\n", "\r"] && HaveNoEnds(lines)
    ensures Unified(Terminated(lines, newline)) == Terminated(lines, "\n")
    decreases |lines|
  {
    if lines != [] {
      NoNewline(lines[1..]);
      EndsAreUnified(lines[1..], newline);
      UnifiedLine(lines[0], newline, Terminated(lines[1..], newline));
    }
  }

  // ------------------------------------------------------------------------ timestamps

  lemma {:induction false} CommaAt(a: string, b: string)
    requires ',' !in a
    ensures ReplaceComma(a + "," + b) == a + "." + b
  {
    var s := a + "," + b;
    if a == "" {
      assert s[1..] == b;
    } else {
      CommaAt(a[1..], b);
      assert s[1..] == a[1..] + "," + b;
      assert [a[0]] + (a[1..] + "." + b) == a + "." + b;
    }
  }

  lemma StampIsTimeText(h: string, m: string, s: string, mark: string, ms: string)
    requires AllDigits(h) && AllDigits(m) && AllDigits(s) && AllDigits(ms) && h != "" && ms != "" && mark in [",", "."]
    ensures var t := h + ":" + m + ":" + (s + mark + ms); IsTimeText(t) && NoEnds(t)
  {
    var t := h + ":" + m + ":" + (s + mark + ms);
    assert t[0] == h[0] && t[|t| - 1] == ms[|ms| - 1];
  }

  lemma InsideOut(a: string, b: string, c: string, d: string)
    ensures a + (b + c + d) == a + b + c + d
  {
  }

  lemma StampIsDotted(h: string, m: string, s: string, mark: string, ms: string)
    requires AllDigits(h) && AllDigits(m) && AllDigits(s) && AllDigits(ms) && mark in [",", "."]
    ensures var dotted := h + ":" + m + ":" + (s + "." + ms);
            ReplaceComma(h + ":" + m + ":" + (s + mark + ms)) == dotted == ReplaceComma(dotted)
  {
    var before := h + ":" + m + ":" + s;
    assert ',' !in before;
    InsideOut(h + ":" + m + ":", s, ".", ms);
    InsideOut(h + ":" + m + ":", s, ",", ms);
    CommaAt(before, ms);
    NoComma(before + "." + ms);
  }

  lemma StampedShape(t: Moment, mark: string)
    requires mark in [",", "."]
    ensures IsTimeText(Stamped(t, mark)) && NoEnds(Stamped(t, mark))
    ensures var dotted := Clock(t.hours, t.minutes, t.seconds, t.milliseconds);
            ReplaceComma(Stamped(t, mark)) == dotted == ReplaceComma(dotted)
  {
    PaddedValue(t.hours, 2);
    PaddedValue(t.minutes, 2);
    PaddedValue(t.seconds, 2);
    PaddedValue(t.milliseconds, 3);
    var (h, m, s, ms) := (Padded(t.hours, 2), Padded(t.minutes, 2), Padded(t.seconds, 2), Padded(t.milliseconds, 3));
    StampIsTimeText(h, m, s, mark, ms);
    StampIsDotted(h, m, s, mark, ms);
  }

  lemma SameFields(a: string, b: string)
    requires ReplaceComma(a) == ReplaceComma(b)
    ensures ReadStamp(a) == ReadStamp(b)
  {
  }

  lemma TotalIsMillis(t: Moment, fraction: string)
    requires ValidMoment(t)
    ensures var total := Total(Stamp(t.hours, t.minutes, t.seconds, fraction, t.milliseconds));
            total == Millis(t) && Wrap64(total) == total
  {
  }

  /** A printed timestamp is read as its time. */
  lemma StampedReads(t: Moment, mark: string)
    requires ValidMoment(t) && mark in [",", "."]
    ensures ParseTimestamp(Stamped(t, mark)) == Some(Millis(t))
  {
    StampedShape(t, mark);
    SameFields(Stamped(t, mark), Clock(t.hours, t.minutes, t.seconds, t.milliseconds));
    TotalIsMillis(t, Padded(t.milliseconds, 3));
    ClockReads(t.hours, t.minutes, t.seconds, t.milliseconds);
  }

  lemma ArrowedReads(s: Item)
    requires ValidItem(s) && s.Subtitle?
    ensures ParseRange(Arrowed(s)) == Some((Millis(s.start) as int, Millis(s.end) as int))
    ensures NoEnds(Arrowed(s)) && IsTiming(Arrowed(s))
  {
    StampedReads(s.start, s.mark);
    StampedReads(s.end, s.mark);
    StampedShape(s.start, s.mark);
    StampedShape(s.end, s.mark);
    TimingShape(Stamped(s.start, s.mark), Stamped(s.end, s.mark));
    RangeParses(Stamped(s.start, s.mark), Stamped(s.end, s.mark), Millis(s.start), Millis(s.end));
  }

  // ---------------------------------------------------------------------------- blocks

  lemma {:induction false} NoArrow(s: string)
    requires '-' !in s
    ensures Arrow(s).None?
  {
    if |s| >= 3 { NoArrow(s[1..]); }
  }

  lemma TwoAndMore(a: string, b: string, rest: seq<string>)
    ensures var all := [a] + ([b] + rest); |all| > 1 && all[0] == a && all[1] == b && all[2..] == rest
  {
  }

  // A block whose second line is the timing line.
  lemma NumberedBlock(raw: string, number: string, timing: string, lines: seq<string>, range: (int, int))
    requires Split(Trim(raw), '\n') == [number] + ([timing] + lines) && Trim(number) == number && number != ""
    requires !IsHeader(number) && Arrow(number).None? && ParseRange(timing) == Some(range)
    ensures ReadBlock(raw) == Timed(range.0, range.1, lines)
  {
    TwoAndMore(number, timing, lines);
    assert Arrow(timing).Some?;
  }

  // The text of a block, without the line ends after it.
  function BlockText(item: Item): string {
    HeadOf(item) + Joined(TailOf(item))
  }

  lemma UnderTiming(timing: string, lines: seq<string>)
    requires IsTiming(timing) && GoodLines(lines)
    ensures GoodLines([timing] + lines)
  {
    if lines != [] { assert ([timing] + lines)[|lines|] == lines[|lines| - 1]; }
  }

  // The first line of a block.
  predicate IsHead(head: string) {
    head != "" && NoEnds(head) && EndsSolid(head) && !IsSpace(head[0]) && head[0] != '\U{FEFF}'
  }

  predicate IsBlock(b: string) {
    b != "" && Single(b) && Trimmed(b) && b[|b| - 1] != '\n' && b[0] != '\U{FEFF}'
  }

  lemma HeadShape(head: string, tail: seq<string>)
    requires IsHead(head) && GoodLines(tail)
    ensures var b := head + Joined(tail); IsBlock(b) && Split(b, '\n') == [head] + tail
  {
    JoinedIsSingle(head, tail);
    SplitJoined(head, tail);
  }

  lemma TimingIsHead(timing: string)
    requires IsTiming(timing)
    ensures IsHead(timing) && Trim(timing) == timing && !IsHeader(timing)
  {
    TrimOfTrimmed(timing);
    TimingIsNoHeader(timing);
  }

  lemma NumberIsHead(n: nat)
    ensures IsHead(Decimal(n)) && Trim(Decimal(n)) == Decimal(n) && !IsHeader(Decimal(n)) && Arrow(Decimal(n)).None?
  {
    var s := Decimal(n);
    assert IsDigit(s[0]) && IsDigit(s[|s| - 1]);
    assert '-' !in s;
    TrimOfTrimmed(s);
    TimingIsNoHeader(s);
    NoArrow(s);
  }

  lemma WebvttIsHeader(s: string)
    requires SpellsWebvtt(s)
    ensures IsHeader(s) && s[0] in "Ww"
  {
    forall i | 0 <= i < 6
      ensures Upper(s[i]) == Upper("WEBVTT"[i])
    {
      assert Upper("WEBVTT"[i]) == "WEBVTT"[i] && Upper("webvtt"[i]) == "WEBVTT"[i];
    }
  }

  lemma NoteHead(item: Item)
    requires ValidItem(item) && item.Note?
    ensures IsHead(item.first) && IsHeader(item.first) && Trim(item.first) == item.first
  {
    var first := item.first;
    assert [first][0] == first && EndsSolid(first);
    assert "NOTE" <= first ==> first[0] == "NOTE"[0];
    if SpellsWebvtt(first) { WebvttIsHeader(first); }
    TrimOfTrimmed(first);
  }

  lemma ValidIsGood(lines: seq<string>)
    requires ValidLines(lines)
    ensures GoodLines(lines)
  {
  }

  lemma TailIs(s: Item)
    requires s.Subtitle?
    ensures TailOf(s) == if s.number.Some? then [Arrowed(s)] + s.lines else s.lines
  {
    assert [] + s.lines == s.lines;
  }

  lemma SubtitleShape(s: Item)
    requires ValidItem(s) && s.Subtitle?
    ensures IsHead(HeadOf(s)) && GoodLines(TailOf(s))
  {
    ArrowedReads(s);
    ValidIsGood(s.lines);
    TailIs(s);
    if s.number.Some? {
      NumberIsHead(s.number.value);
      UnderTiming(Arrowed(s), s.lines);
    } else {
      TimingIsHead(Arrowed(s));
    }
  }

  lemma ItemShape(item: Item)
    requires ValidItem(item)
    ensures IsHead(HeadOf(item)) && GoodLines(TailOf(item))
  {
    if item.Note? { NoteHead(item); } else { SubtitleShape(item); }
  }

  lemma BlockShape(item: Item)
    requires ValidItem(item)
    ensures IsBlock(BlockText(item)) && Split(BlockText(item), '\n') == [HeadOf(item)] + TailOf(item)
  {
    ItemShape(item);
    HeadShape(HeadOf(item), TailOf(item));
  }

  // A block as the converter reads it.
  function BlockFor(item: Item): Block {
    match item
    case Note(_, _) => Skip
    case Subtitle(_, _, start, end, lines) => Timed(Millis(start), Millis(end), lines)
  }

  lemma NoteReads(item: Item)
    requires ValidItem(item) && item.Note?
    ensures ReadBlock(BlockText(item)) == Skip
  {
    BlockShape(item);
    TrimOfTrimmed(BlockText(item));
    NoteHead(item);
  }

  lemma BlockLinesAre(head: string, tail: seq<string>)
    requires IsHead(head) && GoodLines(tail)
    ensures Split(Trim(head + Joined(tail)), '\n') == [head] + tail
  {
    HeadShape(head, tail);
    TrimOfTrimmed(head + Joined(tail));
  }

  lemma UnderNumberReads(number: string, timing: string, lines: seq<string>, range: (int, int))
    requires IsHead(number) && Trim(number) == number && !IsHeader(number) && Arrow(number).None?
    requires IsTiming(timing) && GoodLines(lines) && ParseRange(timing) == Some(range)
    ensures ReadBlock(number + Joined([timing] + lines)) == Timed(range.0, range.1, lines)
  {
    UnderTiming(timing, lines);
    BlockLinesAre(number, [timing] + lines);
    NumberedBlock(number + Joined([timing] + lines), number, timing, lines, range);
  }

  lemma TimingReads(timing: string, lines: seq<string>, range: (int, int))
    requires IsTiming(timing) && GoodLines(lines) && ParseRange(timing) == Some(range)
    ensures ReadBlock(timing + Joined(lines)) == Timed(range.0, range.1, lines)
  {
    TimingIsHead(timing);
    BlockLinesAre(timing, lines);
    TimedBlock(timing + Joined(lines), timing, lines, range);
  }

  lemma SubtitleText(s: Item)
    requires s.Subtitle?
    ensures BlockText(s)
            == if s.number.Some? then Decimal(s.number.value) + Joined([Arrowed(s)] + s.lines)
               else Arrowed(s) + Joined(s.lines)
  {
    TailIs(s);
  }

  lemma SubtitleReads(s: Item)
    requires ValidItem(s) && s.Subtitle?
    ensures ReadBlock(BlockText(s)) == BlockFor(s)
  {
    var range := (Millis(s.start) as int, Millis(s.end) as int);
    SubtitleText(s);
    ArrowedReads(s);
    ValidIsGood(s.lines);
    if s.number.Some? {
      NumberIsHead(s.number.value);
      UnderNumberReads(Decimal(s.number.value), Arrowed(s), s.lines, range);
    } else {
      TimingReads(Arrowed(s), s.lines, range);
    }
  }

  /** A subtitle's block is read as its times and its lines, any other is skipped. */
  lemma BlockTextReads(item: Item)
    requires ValidItem(item)
    ensures ReadBlock(BlockText(item)) == BlockFor(item)
  {
    if item.Note? { NoteReads(item); } else { SubtitleReads(item); }
  }

  lemma {:induction false} TerminatedIsJoined(head: string, lines: seq<string>)
    ensures Terminated([head] + lines, "\n") == head + Joined(lines) + "\n"
    decreases |lines|
  {
    if lines == [] {
      assert [head] + lines == [head] && [head][1..] == [];
      assert head + "" == head;
    } else {
      var n := |lines| - 1;
      TerminatedIsJoined(head, lines[..n]);
      TerminatedAppends([head] + lines[..n], [lines[n]], "\n");
      assert [head] + lines == [head] + lines[..n] + [lines[n]];
      assert [lines[n]][1..] == [] && Terminated([lines[n]], "\n") == lines[n] + "\n";
    }
  }

  // The text of one block, then the rest of the file.
  lemma FirstBlock(items: seq<Item>)
    requires items != []
    ensures Terminated(AllLines(items), "\n")
            == BlockText(items[0]) + "\n\n" + Terminated(AllLines(items[1..]), "\n")
  {
    var (lines, rest) := ([HeadOf(items[0])] + TailOf(items[0]), AllLines(items[1..]));
    TerminatedIsJoined(HeadOf(items[0]), TailOf(items[0]));
    TerminatedAppends(lines, [""], "\n");
    TerminatedAppends(lines + [""], rest, "\n");
    assert [""][1..] == [] && Terminated([""], "\n") == "\n";
    assert BlockText(items[0]) + "\n" + "\n" == BlockText(items[0]) + "\n\n";
  }

  function BlocksFor(items: seq<Item>): seq<Block> {
    if items == [] then [Skip] else [BlockFor(items[0])] + BlocksFor(items[1..])
  }

  lemma {:induction false} FileReads(items: seq<Item>)
    requires AllValid(items)
    ensures ReadAll(Blocks(Terminated(AllLines(items), "\n"))) == BlocksFor(items)
    decreases |items|
  {
    if items == [] {
      BlankIsSkipped("");
    } else {
      var rest := Terminated(AllLines(items[1..]), "\n");
      assert ValidItem(items[0]);
      FirstBlock(items);
      BlockShape(items[0]);
      BlocksCons(BlockText(items[0]), rest);
      FileReads(items[1..]);
      BlockTextReads(items[0]);
      ReadJoins(BlockText(items[0]), Blocks(rest));
    }
  }

  // ------------------------------------------------------------------- the whole file

  lemma AppendsNoEnds(head: string, tail: seq<string>, rest: seq<string>)
    requires IsHead(head) && GoodLines(tail) && HaveNoEnds(rest)
    ensures HaveNoEnds([head] + tail + [""] + rest)
  {
  }

  lemma {:induction false} LinesHaveNoEnds(items: seq<Item>)
    requires AllValid(items)
    ensures HaveNoEnds(AllLines(items))
    decreases |items|
  {
    if items != [] {
      LinesHaveNoEnds(items[1..]);
      assert ValidItem(items[0]);
      ItemShape(items[0]);
      AppendsNoEnds(HeadOf(items[0]), TailOf(items[0]), AllLines(items[1..]));
    }
  }

  // The text itself does not begin with a byte order mark.
  lemma StartsUnmarked(items: seq<Item>)
    requires AllValid(items)
    ensures var t := Terminated(AllLines(items), "\n"); t != "" ==> t[0] != '\U{FEFF}'
  {
    if items != [] {
      assert ValidItem(items[0]);
      ItemShape(items[0]);
      assert AllLines(items)[0] == HeadOf(items[0]);
    }
  }

  lemma PrintedIsNormal(file: File)
    requires ValidFile(file)
    ensures Normalized(Printed(file)) == Terminated(AllLines(file.items), "\n")
  {
    var body := Terminated(AllLines(file.items), file.newline);
    LinesHaveNoEnds(file.items);
    EndsAreUnified(AllLines(file.items), file.newline);
    StartsUnmarked(file.items);
    if file.marked {
      UnifiedCons('\U{FEFF}', body);
      assert (['\U{FEFF}'] + Unified(body))[1..] == Unified(body);
    } else {
      assert "" + body == body;
    }
  }

  /** A printed file is read as its blocks, whatever its line ends. */
  lemma PrintedReads(file: File)
    requires ValidFile(file)
    ensures ReadInput(Printed(file)) == BlocksFor(file.items)
  {
    PrintedIsNormal(file);
    FileReads(file.items);
  }

  // ------------------------------------------------------------------------- the codec

  // In capital or small letters; U+0130, a capital I with a dot, counts as an i.
  predicate Spells(s: string, name: string) {
    |s| == |name| && forall i :: 0 <= i < |s| ==>
      s[i] == name[i] || s[i] as int + 32 == name[i] as int || (s[i] == '\U{130}' && name[i] == 'i')
  }

  lemma {:induction false} LowerAt(s: string, i: nat)
    requires i < |s|
    ensures |Lower(s)| == |s| && Lower(s)[i] == LowerChar(s[i])
  {
    if |s| > 1 { LowerAt(s[1..], if i > 0 then i - 1 else 0); }
  }

  lemma LowerSpells(s: string, name: string)
    requires forall i :: 0 <= i < |name| ==> 'a' <= name[i] <= 'z' && name[i] != 'k'
    ensures Lower(s) == name <==> Spells(s, name)
  {
    forall i | 0 <= i < |s|
      ensures |Lower(s)| == |s| && Lower(s)[i] == LowerChar(s[i])
    {
      LowerAt(s, i);
    }
    assert s == "" ==> Lower(s) == "";
    if Spells(s, name) {
      forall i | 0 <= i < |s|
        ensures Lower(s)[i] == name[i]
      {
        assert LowerChar(s[i]) == name[i];
      }
    }
    if Lower(s) == name {
      forall i | 0 <= i < |s|
        ensures s[i] == name[i] || s[i] as int + 32 == name[i] as int || (s[i] == '\U{130}' && name[i] == 'i')
      {
        assert LowerChar(s[i]) == name[i];
      }
    }
  }

  /** The converter takes what calls itself subrip, srt or webvtt, in capital or small
      letters and with any space around it. */
  lemma SupportedIff(codec: string)
    ensures Supported(codec) <==>
              Spells(Trim(codec), "subrip") || Spells(Trim(codec), "srt") || Spells(Trim(codec), "webvtt")
  {
    LowerSpells(Trim(codec), "subrip");
    LowerSpells(Trim(codec), "srt");
    LowerSpells(Trim(codec), "webvtt");
  }

  // ------------------------------------------------------------------- what is written

  lemma {:induction false} BytesAppend(a: string, b: string)
    ensures ByteLen(a + b) == ByteLen(a) + ByteLen(b)
    decreases |b|
  {
    if b == "" {
      assert a + b == a;
    } else {
      BytesAppend(a, b[..|b| - 1]);
      assert (a + b)[..|a + b| - 1] == a + b[..|b| - 1];
    }
  }

  predicate Short(lines: seq<string>) {
    forall i :: 0 <= i < |lines| ==> ByteLen(lines[i]) <= MAX_CUE_LINE
  }

  // Some text with escaped lines below it.
  function Below(text: string, lines: seq<string>): string {
    text + Terminated(Escaped(lines), "\n")
  }

  lemma BelowSnoc(text: string, lines: seq<string>)
    requires lines != []
    ensures var n := |lines| - 1;
            && Below(text, lines) == Below(text, lines[..n]) + Escape(lines[n]) + "\n"
            && ByteLen(Below(text, lines[..n])) <= ByteLen(Below(text, lines))
  {
    var n := |lines| - 1;
    var (prior, last) := (Escaped(lines[..n]), Escape(lines[n]));
    assert Escaped(lines) == prior + [last];
    TerminatedAppends(prior, [last], "\n");
    assert [last][1..] == [] && Terminated([last], "\n") == last + "\n";
    Associates(text, Terminated(prior, "\n"), last + "\n");
    Associates(Below(text, lines[..n]), last, "\n");
    BytesAppend(Below(text, lines[..n]), last + "\n");
  }

  // The lines of one subtitle fit, or not.
  lemma {:induction false} LinesWrite(text: string, lines: seq<string>)
    ensures var result := WriteLines(text, lines);
            && (result.Ok? <==> Short(lines) && (lines != [] ==> ByteLen(Below(text, lines)) <= MAX_INPUT_BYTES))
            && (result.Ok? ==> result.value == Below(text, lines)) && (result.Ok? || result.TooLarge?)
    decreases |lines|
  {
    if lines == [] {
      assert text + "" == text;
    } else {
      var n := |lines| - 1;
      LinesWrite(text, lines[..n]);
      BelowSnoc(text, lines);
      LastApart(lines);
      assert Short(lines) <==> Short(lines[..n]) && ByteLen(lines[n]) <= MAX_CUE_LINE;
    }
  }

  predicate Matches(cue: Cue, s: Shown) {
    && cue.start == s.start && cue.end == s.end && |cue.lines| == |s.lines|
    && forall i :: 0 <= i < |s.lines| ==> Unescape(cue.lines[i]) == s.lines[i] && Inert(cue.lines[i])
  }

  ghost predicate AllMatch(cues: seq<Cue>, shown: seq<Shown>) {
    |cues| == |shown| && forall i :: 0 <= i < |shown| ==> Matches(cues[i], shown[i])
  }

  // The cue that is written for a subtitle.
  function CueFor(s: Shown): Cue {
    Cue(s.start, s.end, TimingLine(s.start, s.end), Escaped(s.lines))
  }

  lemma CueMatches(s: Shown)
    ensures Matches(CueFor(s), s)
  {
    forall i | 0 <= i < |s.lines|
      ensures Unescape(Escaped(s.lines)[i]) == s.lines[i] && Inert(Escaped(s.lines)[i])
    {
      UnescapeUndoesEscape(s.lines[i]);
      EscapedIsInert(s.lines[i]);
    }
  }

  lemma ShiftedTimes(start: nat, end: nat, offset: nat)
    requires start < end <= MAX_TIME
    ensures Shifted(start, end, offset)
            == if end <= offset then None else Some((if start <= offset then 0 else start - offset, end - offset))
  {
  }

  lemma ValidTimes(s: Item)
    requires ValidItem(s) && s.Subtitle?
    ensures Millis(s.start) < Millis(s.end) <= MAX_TIME
  {
  }

  lemma ShownTimes(s: Item, offset: nat)
    requires s.Subtitle? && Millis(s.start) < Millis(s.end) <= MAX_TIME
    ensures Shifted(Millis(s.start), Millis(s.end), offset)
            == if Showing(s, offset) then Some((ShownAt(s, offset).start, ShownAt(s, offset).end)) else None
  {
    ShiftedTimes(Millis(s.start), Millis(s.end), offset);
  }

  // There is room for one subtitle more.
  predicate RoomFor(out: Output, s: Shown) {
    && |out.cues| < MAX_CUES && Short(s.lines)
    && (s.lines != [] ==> ByteLen(out.text + Paragraph(s)) <= MAX_INPUT_BYTES)
  }

  lemma Regrouped(text: string, timing: string, rest: string)
    ensures text + "\n" + timing + "\n" + rest == text + ("\n" + timing + "\n" + rest)
  {
  }

  lemma AppendWrites(out: Output, s: Shown)
    requires |out.cues| < MAX_CUES
    ensures var next := Append(out, s.start, s.end, TimingLine(s.start, s.end), s.lines);
            if RoomFor(out, s) then next == Ok(Output(out.text + Paragraph(s), out.cues + [CueFor(s)]))
            else next == TooLarge
  {
    var timing := TimingLine(s.start, s.end);
    LinesWrite(out.text + "\n" + timing + "\n", s.lines);
    Regrouped(out.text, timing, Terminated(Escaped(s.lines), "\n"));
  }

  // What one block adds.
  lemma StepWrites(out: Output, item: Item, offset: nat)
    requires ValidItem(item)
    ensures var next := Step(out, BlockFor(item), offset, TimingLine);
            if !Showing(item, offset) then next == Ok(out)
            else
              var shown := ShownAt(item, offset);
              if RoomFor(out, shown) then next == Ok(Output(out.text + Paragraph(shown), out.cues + [CueFor(shown)]))
              else next == TooLarge
  {
    if item.Subtitle? {
      ValidTimes(item);
      ShownTimes(item, offset);
      if Showing(item, offset) && |out.cues| < MAX_CUES { AppendWrites(out, ShownAt(item, offset)); }
    }
  }

  // The subtitles up to the last one with a text: the output is only measured after a
  // line of text.
  function Spoken(shown: seq<Shown>): seq<Shown> {
    if shown == [] then []
    else
      var rest := Spoken(shown[1..]);
      if rest == [] && shown[0].lines == [] then [] else [shown[0]] + rest
  }

  ghost predicate AllShort(shown: seq<Shown>) {
    forall i :: 0 <= i < |shown| ==> Short(shown[i].lines)
  }

  // All of these fit.
  ghost predicate Room(out: Output, shown: seq<Shown>) {
    && |out.cues| + |shown| <= MAX_CUES && AllShort(shown)
    && (Spoken(shown) != [] ==> ByteLen(out.text + Page(Spoken(shown))) <= MAX_INPUT_BYTES)
  }

  lemma PageCons(text: string, s: Shown, rest: seq<Shown>)
    ensures text + Page([s] + rest) == text + Paragraph(s) + Page(rest)
  {
    assert ([s] + rest)[1..] == rest;
    Associates(text, Paragraph(s), Page(rest));
  }

  lemma PageBytes(text: string, s: Shown, rest: seq<Shown>)
    ensures ByteLen(text + Page([s] + rest)) == ByteLen(text + Paragraph(s)) + ByteLen(Page(rest))
    ensures ByteLen(text + Paragraph(s) + Page(rest)) == ByteLen(text + Paragraph(s)) + ByteLen(Page(rest))
  {
    PageCons(text, s, rest);
    BytesAppend(text + Paragraph(s), Page(rest));
  }

  lemma SpokenFirst(s: Shown, rest: seq<Shown>)
    ensures Spoken([s] + rest) == if Spoken(rest) == [] && s.lines == [] then [] else [s] + Spoken(rest)
  {
    assert ([s] + rest)[1..] == rest;
  }

  // Measuring the whole page measures its first paragraph, if anything is measured.
  lemma SpokenCons(text: string, s: Shown, rest: seq<Shown>)
    ensures var (all, next) := ([s] + rest, text + Paragraph(s));
            (Spoken(all) != [] ==> ByteLen(text + Page(Spoken(all))) <= MAX_INPUT_BYTES) <==>
              && (s.lines != [] ==> ByteLen(next) <= MAX_INPUT_BYTES)
              && (Spoken(rest) != [] ==> ByteLen(next + Page(Spoken(rest))) <= MAX_INPUT_BYTES)
  {
    SpokenFirst(s, rest);
    PageBytes(text, s, Spoken(rest));
    assert Spoken(rest) == [] ==> ByteLen(Page(Spoken(rest))) == 0;
  }

  lemma ShortCons(s: Shown, rest: seq<Shown>)
    ensures AllShort([s] + rest) <==> Short(s.lines) && AllShort(rest)
  {
    var all := [s] + rest;
    assert all[0] == s && forall i :: 0 <= i < |rest| ==> all[i + 1] == rest[i];
  }

  lemma RoomCons(out: Output, next: Output, s: Shown, rest: seq<Shown>)
    requires next.text == out.text + Paragraph(s) && |next.cues| == |out.cues| + 1
    ensures Room(out, [s] + rest) <==> RoomFor(out, s) && Room(next, rest)
  {
    SpokenCons(out.text, s, rest);
    ShortCons(s, rest);
    assert |[s] + rest| == |rest| + 1;
  }

  // The cues of subtitles, written one after the other.
  function CuesFor(shown: seq<Shown>): seq<Cue> {
    if shown == [] then [] else [CueFor(shown[0])] + CuesFor(shown[1..])
  }

  lemma {:induction false} CuesMatch(shown: seq<Shown>)
    ensures AllMatch(CuesFor(shown), shown)
    decreases |shown|
  {
    if shown != [] {
      CueMatches(shown[0]);
      CuesMatch(shown[1..]);
    }
  }

  function With(out: Output, shown: seq<Shown>): Output {
    Output(out.text + Page(shown), out.cues + CuesFor(shown))
  }

  lemma WithNone(out: Output)
    ensures With(out, []) == out
  {
    assert out.text + "" == out.text && out.cues + [] == out.cues;
  }

  lemma CuesForCons(s: Shown, rest: seq<Shown>)
    ensures CuesFor([s] + rest) == [CueFor(s)] + CuesFor(rest)
  {
    assert ([s] + rest)[0] == s && ([s] + rest)[1..] == rest;
  }

  lemma WithCons(out: Output, s: Shown, rest: seq<Shown>)
    ensures With(Output(out.text + Paragraph(s), out.cues + [CueFor(s)]), rest) == With(out, [s] + rest)
  {
    PageCons(out.text, s, rest);
    CuesForCons(s, rest);
    Associates(out.cues, [CueFor(s)], CuesFor(rest));
  }

  lemma {:induction false} ItemsWrite(out: Output, items: seq<Item>, offset: nat)
    requires AllValid(items) && |out.cues| <= MAX_CUES
    ensures var (result, kept) := (Steps(out, BlocksFor(items), offset, TimingLine), Kept(items, offset));
            if Room(out, kept) then result == Ok(With(out, kept)) else result == TooLarge
    decreases |items|
  {
    if items == [] {
      WithNone(out);
      assert BlocksFor(items)[1..] == [];
    } else {
      assert ValidItem(items[0]);
      assert BlocksFor(items)[1..] == BlocksFor(items[1..]);
      StepWrites(out, items[0], offset);
      if !Showing(items[0], offset) {
        ItemsWrite(out, items[1..], offset);
      } else {
        var shown := ShownAt(items[0], offset);
        var next := Output(out.text + Paragraph(shown), out.cues + [CueFor(shown)]);
        RoomCons(out, next, shown, Kept(items[1..], offset));
        if RoomFor(out, shown) {
          ItemsWrite(next, items[1..], offset);
          WithCons(out, shown, Kept(items[1..], offset));
        }
      }
    }
  }

  lemma HeaderBytes()
    ensures ByteLen("WEBVTT\n") == 7
  {
    assert "WEBVTT\n"[..6] == "WEBVTT" && "WEBVTT"[..5] == "WEBVT" && "WEBVT"[..4] == "WEBV" && "WEBV"[..3] == "WEB";
    assert "WEB"[..2] == "WE" && "WE"[..1] == "W" && "W"[..0] == "";
    assert ByteLen("WEB") == 3 && ByteLen("WEBVT") == 5;
  }

  lemma PrintedWrites(file: File, offset: nat)
    requires ValidFile(file)
    ensures var (result, kept) := (Written(ReadInput(Printed(file)), offset, TimingLine), Kept(file.items, offset));
            if Room(Header(), kept) then result == Ok(With(Header(), kept)) else result == TooLarge
  {
    PrintedReads(file);
    ItemsWrite(Header(), file.items, offset);
  }

  lemma HeaderWith(kept: seq<Shown>)
    ensures With(Header(), kept).text == "WEBVTT\n" + Page(kept) && With(Header(), kept).cues == CuesFor(kept)
  {
    assert [] + CuesFor(kept) == CuesFor(kept);
  }

  /** A subtitle file, whatever its line ends, converts to one cue for each subtitle that
      has not ended by the offset, in order and at its times less the offset.  Each line
      of a cue is that of the subtitle once its entities are undone, and holds no
      markup. */
  lemma SubtitlesConvert(file: File, offsetMS: int)
    requires ValidFile(file)
    ensures var (result, kept) := (Converted(Printed(file), offsetMS), Kept(file.items, Max(0, offsetMS)));
            && (result.Ok? || result.TooLarge?)
            && (result.Ok? ==> result.value.text == "WEBVTT\n" + Page(kept) && AllMatch(result.value.cues, kept))
  {
    var kept := Kept(file.items, Max(0, offsetMS));
    PrintedWrites(file, Max(0, offsetMS));
    HeaderWith(kept);
    CuesMatch(kept);
  }

  /** It converts exactly if file, cues, lines and output are within their caps. */
  lemma SubtitlesConvertIff(file: File, offsetMS: int)
    requires ValidFile(file)
    ensures var kept := Kept(file.items, Max(0, offsetMS));
            Converted(Printed(file), offsetMS).Ok? <==>
              && ByteLen(Printed(file)) <= MAX_INPUT_BYTES && |kept| <= MAX_CUES && AllShort(kept)
              && ByteLen("WEBVTT\n" + Page(Spoken(kept))) <= MAX_INPUT_BYTES
  {
    var kept := Kept(file.items, Max(0, offsetMS));
    PrintedWrites(file, Max(0, offsetMS));
    HeaderBytes();
    assert "WEBVTT\n" + "" == "WEBVTT\n";
  }
}
