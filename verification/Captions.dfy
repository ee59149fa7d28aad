/**
 Converting subtitles to WebVTT (backend/captions/captions.go).

 Timestamps print and parse back, converted output parses to the same cue times, and
 shifts add up.  Cue timestamps are those of section 4.1 of the W3C WebVTT
 specification.
 */
module Captions {
  import opened Common
  import opened CaptionText

  const MAX_INPUT_BYTES := 0x80_0000
  const MAX_CUES := 10_000
  const MAX_CUE_LINE := 0x4000
  const MAX_TIME: int := TWO63 - 1

  // ----------------------------------------------------------------------- timestamps

  // strings.Replace(value, ",", ".", 1)
  function ReplaceComma(s: string): string {
    if s == "" then "" else if s[0] == ',' then "." + s[1..] else [s[0]] + ReplaceComma(s[1..])
  }

  // strings.SplitN(s, ".", 2), if it gives two parts.
  function AtDot(s: string): Option<(string, string)> {
    if s == "" then None
    else if s[0] == '.' then Some(("", s[1..]))
    else
      var rest := AtDot(s[1..]);
      if rest.None? then None else Some(([s[0]] + rest.value.0, rest.value.1))
  }

  predicate InRange(n: Option<int>, limit: int) {
    n.Some? && 0 <= n.value <= limit
  }

  // The fields of a timestamp; the milliseconds are kept as they are written.
  datatype Stamp = Stamp(hours: int, minutes: int, seconds: int, fraction: string, milliseconds: int)

  function ReadStamp(value: string): Option<Stamp> {
    var parts := Split(ReplaceComma(value), ':');
    if |parts| != 2 && |parts| != 3 then None
    else
      var hours := if |parts| == 3 then ParseInt(parts[0]) else Some(0);
      var minutes := ParseInt(parts[|parts| - 2]);
      var dotted := AtDot(parts[|parts| - 1]);
      if !InRange(hours, MAX_TIME) || !InRange(minutes, 59) || dotted.None? || ByteLen(dotted.value.1) != 3 then None
      else
        var seconds := ParseInt(dotted.value.0);
        var milliseconds := ParseInt(dotted.value.1);
        if !InRange(seconds, 59) || milliseconds.None? then None
        else Some(Stamp(hours.value, minutes.value, seconds.value, dotted.value.1, milliseconds.value))
  }

  function Total(s: Stamp): int {
    ((s.hours * 60 + s.minutes) * 60 + s.seconds) * 1000 + s.milliseconds
  }

  // parseTimestamp
  function ParseTimestamp(value: string): Option<int> {
    var s := ReadStamp(value);
    if s.None? then None else Some(Wrap64(Total(s.value)))
  }

  // fmt.Sprintf("%02d:%02d:%02d.%03d", ...)
  function Clock(hours: nat, minutes: nat, seconds: nat, milliseconds: nat): string {
    Padded(hours, 2) + ":" + Padded(minutes, 2) + ":" + (Padded(seconds, 2) + "." + Padded(milliseconds, 3))
  }

  // formatTimestamp, of the non-negative times it is given.
  function FormatTimestamp(x: nat): string {
    Clock(x / 3_600_000, x % 3_600_000 / 60_000, x % 60_000 / 1000, x % 1000)
  }

  predicate IsTimeText(s: string) {
    s != "" && IsDigit(s[0]) && IsDigit(s[|s| - 1]) && forall c :: c in s ==> IsDigit(c) || c in ":.,"
  }

  lemma FieldsAreTimeText(h: string, m: string, s: string, ms: string)
    requires AllDigits(h) && AllDigits(m) && AllDigits(s) && AllDigits(ms) && h != "" && ms != ""
    ensures IsTimeText(h + ":" + m + ":" + (s + "." + ms))
  {
    var t := h + ":" + m + ":" + (s + "." + ms);
    assert t[0] == h[0] && t[|t| - 1] == ms[|ms| - 1];
  }

  lemma ClockIsTimeText(h: nat, m: nat, s: nat, ms: nat)
    ensures IsTimeText(Clock(h, m, s, ms))
  {
    PaddedValue(h, 2);
    PaddedValue(m, 2);
    PaddedValue(s, 2);
    PaddedValue(ms, 3);
    FieldsAreTimeText(Padded(h, 2), Padded(m, 2), Padded(s, 2), Padded(ms, 3));
  }

  lemma FormatIsTimeText(x: nat)
    ensures IsTimeText(FormatTimestamp(x))
  {
    ClockIsTimeText(x / 3_600_000, x % 3_600_000 / 60_000, x % 60_000 / 1000, x % 1000);
  }

  lemma {:induction false} NoComma(s: string)
    requires ',' !in s
    ensures ReplaceComma(s) == s
  {
    if s != "" { NoComma(s[1..]); }
  }

  lemma {:induction false} DotAt(a: string, b: string)
    requires '.' !in a
    ensures AtDot(a + "." + b) == Some((a, b))
  {
    var s := a + "." + b;
    if a != "" {
      DotAt(a[1..], b);
      assert s[1..] == a[1..] + "." + b;
      assert [a[0]] + a[1..] == a;
    } else {
      assert s[1..] == b;
    }
  }

  lemma SplitFormat(h: string, m: string, rest: string)
    requires AllDigits(h) && AllDigits(m) && ':' !in rest
    ensures Split(h + ":" + m + ":" + rest, ':') == [h, m, rest]
  {
    assert ':' !in h && ':' !in m;
    SplitCons(h, ':', m + ":" + rest);
    SplitCons(m, ':', rest);
    SplitNone(rest, ':');
    assert h + [':'] + (m + ":" + rest) == h + ":" + m + ":" + rest;
    assert m + [':'] + rest == m + ":" + rest;
  }

  lemma MinutesLeft(n: nat, t: nat)
    requires t < 60_000
    ensures (60_000 * n + t) % 60_000 == t
  {
  }

  lemma SecondsLeft(n: nat, t: nat)
    requires t < 1000
    ensures (1000 * n + t) % 1000 == t
  {
  }

  lemma TimeParts(x: nat)
    ensures ((x / 3_600_000 * 60 + x % 3_600_000 / 60_000) * 60 + x % 60_000 / 1000) * 1000 + x % 1000 == x
    ensures x % 3_600_000 / 60_000 <= 59 && x % 60_000 / 1000 <= 59
  {
    var h, r := x / 3_600_000, x % 3_600_000;
    var m, t := r / 60_000, r % 60_000;
    MinutesLeft(60 * h + m, t);
    assert x == 60_000 * (60 * h + m) + t;
    var s, ms := t / 1000, t % 1000;
    SecondsLeft(3600 * h + 60 * m + s, ms);
    assert x == 1000 * (3600 * h + 60 * m + s) + ms;
  }

  // A timestamp whose seconds and milliseconds are already printed.
  lemma SecondsParse(s: nat, ms: nat)
    requires s <= 59 && ms < 1000
    ensures var rest := Padded(s, 2) + "." + Padded(ms, 3);
            && AtDot(rest) == Some((Padded(s, 2), Padded(ms, 3))) && ByteLen(Padded(ms, 3)) == 3
            && ParseInt(Padded(s, 2)) == Some(s) && ParseInt(Padded(ms, 3)) == Some(ms)
  {
    PaddedValue(s, 2);
    PaddedValue(ms, 3);
    DotAt(Padded(s, 2), Padded(ms, 3));
    ThreeDigits(ms);
    DigitBytes(Padded(ms, 3));
    ParsePadded(s, 2);
    ParsePadded(ms, 3);
  }

  // The fields of a timestamp, read one by one.
  ghost predicate ReadsAs(fields: seq<string>, dotted: (string, string), stamp: Stamp) {
    && |fields| == 3 && AtDot(fields[2]) == Some(dotted) && ByteLen(dotted.1) == 3 && dotted.1 == stamp.fraction
    && ParseInt(fields[0]) == Some(stamp.hours) && ParseInt(fields[1]) == Some(stamp.minutes)
    && ParseInt(dotted.0) == Some(stamp.seconds) && ParseInt(dotted.1) == Some(stamp.milliseconds)
    && 0 <= stamp.hours <= MAX_TIME && 0 <= stamp.minutes <= 59 && 0 <= stamp.seconds <= 59
  }

  lemma FieldsRead(value: string, fields: seq<string>, dotted: (string, string), stamp: Stamp)
    requires Split(ReplaceComma(value), ':') == fields && ReadsAs(fields, dotted, stamp)
    ensures ReadStamp(value) == Some(stamp)
  {
    assert InRange(ParseInt(fields[0]), MAX_TIME);
    assert InRange(ParseInt(fields[1]), 59);
    assert InRange(ParseInt(dotted.0), 59);
    assert |fields| - 2 == 1 && |fields| - 1 == 2;
  }

  lemma FieldsOf(h: string, m: string, s: string, ms: string)
    requires AllDigits(h) && AllDigits(m) && AllDigits(s) && ':' !in ms && ',' !in ms
    ensures Split(ReplaceComma(h + ":" + m + ":" + (s + "." + ms)), ':') == [h, m, s + "." + ms]
    ensures AtDot(s + "." + ms) == Some((s, ms))
  {
    NoComma(h + ":" + m + ":" + (s + "." + ms));
    SplitFormat(h, m, s + "." + ms);
    DotAt(s, ms);
  }

  // The fields of a printed timestamp.
  lemma PrintedFields(h: nat, m: nat, s: nat, ms: nat)
    ensures Split(ReplaceComma(Clock(h, m, s, ms)), ':')
            == [Padded(h, 2), Padded(m, 2), Padded(s, 2) + "." + Padded(ms, 3)]
  {
    PaddedValue(h, 2);
    PaddedValue(m, 2);
    PaddedValue(s, 2);
    PaddedValue(ms, 3);
    FieldsOf(Padded(h, 2), Padded(m, 2), Padded(s, 2), Padded(ms, 3));
  }

  lemma ClockReads(h: nat, m: nat, s: nat, ms: nat)
    requires h <= MAX_TIME && m <= 59 && s <= 59 && ms < 1000
    ensures ReadStamp(Clock(h, m, s, ms)) == Some(Stamp(h, m, s, Padded(ms, 3), ms))
  {
    SecondsParse(s, ms);
    ParsePadded(h, 2);
    ParsePadded(m, 2);
    PrintedFields(h, m, s, ms);
    FieldsRead(Clock(h, m, s, ms), [Padded(h, 2), Padded(m, 2), Padded(s, 2) + "." + Padded(ms, 3)],
               (Padded(s, 2), Padded(ms, 3)), Stamp(h, m, s, Padded(ms, 3), ms));
  }

  // The fields that a time is printed with.
  function StampOf(x: nat): Stamp {
    Stamp(x / 3_600_000, x % 3_600_000 / 60_000, x % 60_000 / 1000, Padded(x % 1000, 3), x % 1000)
  }

  lemma FormatReads(x: nat)
    requires x <= MAX_TIME
    ensures ReadStamp(FormatTimestamp(x)) == Some(StampOf(x))
  {
    TimeParts(x);
    assert x / 3_600_000 <= MAX_TIME;
    ClockReads(x / 3_600_000, x % 3_600_000 / 60_000, x % 60_000 / 1000, x % 1000);
  }

  lemma StampIsWhole(x: nat)
    ensures Total(StampOf(x)) == x
  {
    TimeParts(x);
  }

  /** Printing and parsing a timestamp undo each other, for every time there is. */
  lemma ParseUndoesFormat(x: nat)
    requires x <= MAX_TIME
    ensures ParseTimestamp(FormatTimestamp(x)) == Some(x)
  {
    FormatReads(x);
    StampIsWhole(x);
  }

  // ----------------------------------------------------------------------------- cues

  // parseRange
  function ParseRange(line: string): Option<(int, int)> {
    var arrow := Arrow(line);
    if arrow.None? || |line| < arrow.value + 3 then None
    else
      var start := ParseTimestamp(Trim(line[..arrow.value]));
      var word := Word(TrimLeft(Trim(line[arrow.value + 3..])));
      var end := ParseTimestamp(word);
      if start.None? || word == "" || end.None? || end.value <= start.value then None
      else Some((start.value, end.value))
  }

  datatype Block = Skip | Bad | Timed(start: int, end: int, payload: seq<string>)

  function Upper(c: char): char {
    if 'a' <= c <= 'z' then (c as int - 32) as char else c
  }

  predicate EqualFold(a: string, b: string) {
    |a| == |b| && forall i :: 0 <= i < |a| ==> Upper(a[i]) == Upper(b[i])
  }

  predicate IsHeader(first: string) {
    EqualFold(first, "WEBVTT") || "NOTE" <= first || first == "STYLE" || first == "REGION"
  }

  // One block of the input.
  function ReadBlock(raw: string): Block {
    var lines := Split(Trim(raw), '\n');
    var first := Trim(lines[0]);
    if first == "" || IsHeader(first) then Skip
    else
      var timing := if Arrow(first).None? && |lines| > 1 then 1 else 0;
      if Arrow(lines[timing]).None? then Bad
      else
        var range := ParseRange(lines[timing]);
        if range.None? then Bad else Timed(range.value.0, range.value.1, lines[timing + 1..])
  }

  // A cue of the output: its times, the line that shows them, and its escaped payload.
  datatype Cue = Cue(start: nat, end: int, timing: string, lines: seq<string>)

  // The cue's times after the offset is taken off; None if it ends before.
  function Shifted(start: int, end: int, offset: nat): Option<(nat, nat)> {
    if end <= offset then None
    else
      var s := Max(0, Sub64(start, offset));
      if end - offset <= s then None else Some((s, end - offset))
  }

  // ------------------------------------------------------------------------ converting

  datatype Outcome<+T> = Ok(value: T) | Unsupported | TooLarge | Malformed

  // The output so far: its text, and the cues in it.
  datatype Output = Output(text: string, cues: seq<Cue>)

  function TimingLine(start: nat, end: nat): string {
    FormatTimestamp(start) + " --> " + FormatTimestamp(end)
  }

  // The payload of one cue, escaped line by line.
  function WriteLines(text: string, lines: seq<string>): Outcome<string>
    decreases |lines|
  {
    if lines == [] then Ok(text)
    else
      var n := |lines| - 1;
      var prior := WriteLines(text, lines[..n]);
      if !prior.Ok? then prior
      else if ByteLen(lines[n]) > MAX_CUE_LINE then TooLarge
      else
        var more := prior.value + Escape(lines[n]) + "\n";
        if ByteLen(more) > MAX_INPUT_BYTES then TooLarge else Ok(more)
  }

  function Escaped(lines: seq<string>): seq<string> {
    seq(|lines|, i requires 0 <= i < |lines| => Escape(lines[i]))
  }

  // What prints the timing line of a cue: TimingLine, in the converter.
  type Printer = (nat, nat) -> string

  function Append(out: Output, start: nat, end: int, timing: string, payload: seq<string>): Outcome<Output> {
    var text := WriteLines(out.text + "\n" + timing + "\n", payload);
    if text.Ok? then Ok(Output(text.value, out.cues + [Cue(start, end, timing, Escaped(payload))])) else TooLarge
  }

  // What one block adds to the output.
  function Step(out: Output, block: Block, offset: nat, printer: Printer): Outcome<Output> {
    match block
    case Skip => Ok(out)
    case Bad => Malformed
    case Timed(start, end, payload) =>
      var times := Shifted(start, end, offset);
      if times.None? then Ok(out)
      else if |out.cues| >= MAX_CUES then TooLarge
      else Append(out, times.value.0, times.value.1, printer(times.value.0, times.value.1), payload)
  }

  function Steps(out: Output, blocks: seq<Block>, offset: nat, printer: Printer): Outcome<Output>
    decreases |blocks|
  {
    if blocks == [] then Ok(out)
    else
      var next := Step(out, blocks[0], offset, printer);
      if next.Ok? then Steps(next.value, blocks[1..], offset, printer) else next
  }

  function Header(): Output {
    Output("WEBVTT\n", [])
  }

  function ReadAll(raws: seq<string>): seq<Block> {
    seq(|raws|, i requires 0 <= i < |raws| => ReadBlock(raws[i]))
  }

  // The blocks of an input.
  function ReadInput(input: string): seq<Block> {
    ReadAll(Blocks(Normalized(input)))
  }

  // What is written for the blocks of an input.
  function Written(blocks: seq<Block>, offset: nat, printer: Printer): Outcome<Output> {
    Steps(Header(), blocks, offset, printer)
  }

  // Convert, of a supported codec.
  function Converted(input: string, offsetMS: int): Outcome<Output> {
    if ByteLen(input) > MAX_INPUT_BYTES then TooLarge else Written(ReadInput(input), Max(0, offsetMS), TimingLine)
  }

  // ------------------------------------------------------------------------- cue times

  function Times(cues: seq<Cue>): seq<(int, int)> {
    seq(|cues|, i requires 0 <= i < |cues| => (cues[i].start as int, cues[i].end))
  }

  function TimeOf(block: Block): seq<(int, int)> {
    if block.Timed? then [(block.start, block.end)] else []
  }

  // The times in the input, before any offset.
  function TimesIn(blocks: seq<Block>): seq<(int, int)>
    decreases |blocks|
  {
    if blocks == [] then [] else TimeOf(blocks[0]) + TimesIn(blocks[1..])
  }

  function ShiftOne(time: (int, int), offset: nat): seq<(int, int)> {
    var shifted := Shifted(time.0, time.1, offset);
    if shifted.Some? then [(shifted.value.0 as int, shifted.value.1)] else []
  }

  function ShiftAll(times: seq<(int, int)>, offset: nat): seq<(int, int)>
    decreases |times|
  {
    if times == [] then []
    else ShiftOne(times[0], offset) + ShiftAll(times[1..], offset)
  }

  lemma TimesAppend(cues: seq<Cue>, cue: Cue)
    ensures Times(cues + [cue]) == Times(cues) + [(cue.start as int, cue.end)]
  {
  }

  // One block's share of the cue times.
  lemma StepShifts(out: Output, block: Block, offset: nat, printer: Printer)
    ensures var next := Step(out, block, offset, printer);
            next.Ok? ==> Times(next.value.cues) == Times(out.cues) + ShiftAll(TimeOf(block), offset)
  {
    var next := Step(out, block, offset, printer);
    if next.Ok? && block.Timed? {
      assert TimeOf(block)[1..] == [];
      if Shifted(block.start, block.end, offset).Some? { TimesAppend(out.cues, next.value.cues[|out.cues|]); }
    }
  }

  lemma Associates<T>(a: seq<T>, b: seq<T>, c: seq<T>)
    ensures (a + b) + c == a + (b + c)
  {
  }

  lemma ShiftCons(time: (int, int), rest: seq<(int, int)>, offset: nat)
    ensures ShiftAll([time] + rest, offset) == ShiftOne(time, offset) + ShiftAll(rest, offset)
  {
    assert ([time] + rest)[1..] == rest;
  }

  lemma {:induction false} ShiftAppends(a: seq<(int, int)>, b: seq<(int, int)>, offset: nat)
    ensures ShiftAll(a + b, offset) == ShiftAll(a, offset) + ShiftAll(b, offset)
    decreases |a|
  {
    if a == [] {
      assert a + b == b;
    } else {
      ShiftAppends(a[1..], b, offset);
      ShiftCons(a[0], a[1..] + b, offset);
      assert [a[0]] + (a[1..] + b) == a + b;
      Associates(ShiftOne(a[0], offset), ShiftAll(a[1..], offset), ShiftAll(b, offset));
    }
  }

  lemma SharesAddUp(before: seq<(int, int)>, block: Block, rest: seq<(int, int)>, offset: nat)
    ensures before + ShiftAll(TimeOf(block), offset) + ShiftAll(rest, offset)
            == before + ShiftAll(TimeOf(block) + rest, offset)
  {
    ShiftAppends(TimeOf(block), rest, offset);
    Associates(before, ShiftAll(TimeOf(block), offset), ShiftAll(rest, offset));
  }

  lemma {:induction false} StepsShift(out: Output, blocks: seq<Block>, offset: nat, printer: Printer)
    ensures var result := Steps(out, blocks, offset, printer);
            result.Ok? ==> Times(result.value.cues) == Times(out.cues) + ShiftAll(TimesIn(blocks), offset)
    decreases |blocks|
  {
    if blocks != [] {
      var next := Step(out, blocks[0], offset, printer);
      if next.Ok? {
        StepShifts(out, blocks[0], offset, printer);
        StepsShift(next.value, blocks[1..], offset, printer);
        SharesAddUp(Times(out.cues), blocks[0], TimesIn(blocks[1..]), offset);
      }
    }
  }

  /** The cue times that are written are those of the input, shifted. */
  lemma WrittenTimes(blocks: seq<Block>, offset: nat, printer: Printer, out: Output)
    requires Written(blocks, offset, printer) == Ok(out)
    ensures Times(out.cues) == ShiftAll(TimesIn(blocks), offset)
  {
    StepsShift(Header(), blocks, offset, printer);
  }

  // ---------------------------------------------------------------- output parses again

  // One line that begins and ends with a digit.
  predicate IsTiming(s: string) {
    s != "" && IsDigit(s[0]) && IsDigit(s[|s| - 1]) && '\n' !in s && '\r' !in s
  }

  predicate EndsSolid(line: string) {
    line != "" && !IsSpace(line[|line| - 1])
  }

  // Lines of a trimmed block: none is empty, and the last one does not end with space.
  predicate GoodLines(lines: seq<string>) {
    && (forall i :: 0 <= i < |lines| ==> IsLine(lines[i]) && '\r' !in lines[i])
    && (lines != [] ==> EndsSolid(lines[|lines| - 1]))
  }

  predicate Shaped(cue: Cue) {
    IsTiming(cue.timing) && GoodLines(cue.lines)
  }

  // What the converter writes for a cue.
  predicate GoodCue(cue: Cue) {
    cue.start < cue.end <= MAX_TIME && ParseRange(cue.timing) == Some((cue.start as int, cue.end)) && Shaped(cue)
  }

  ghost predicate AllShaped(cues: seq<Cue>) {
    forall i :: 0 <= i < |cues| ==> Shaped(cues[i])
  }

  predicate IsTime(time: (int, int)) {
    -TWO63 <= time.0 < time.1 <= MAX_TIME
  }

  // A block as a normalized input has it.
  predicate GoodBlock(block: Block) {
    block.Timed? ==> IsTime((block.start, block.end)) && GoodLines(block.payload)
  }

  function Joined(lines: seq<string>): string {
    if lines == [] then "" else Joined(lines[..|lines| - 1]) + "\n" + lines[|lines| - 1]
  }

  // A cue without the newlines around it.
  function Body(cue: Cue): string {
    cue.timing + Joined(cue.lines)
  }

  ghost predicate GoodCues(cues: seq<Cue>) {
    forall i :: 0 <= i < |cues| ==> GoodCue(cues[i])
  }

  /** A printer whose lines parse to the times they were printed from. */
  ghost predicate Prints(printer: Printer) {
    forall s: nat, e: nat {:trigger printer(s, e)} :: s < e <= MAX_TIME ==>
      ParseRange(printer(s, e)) == Some((s as int, e as int)) && IsTiming(printer(s, e))
  }

  // The text of an output, from its cues.
  function Text(cues: seq<Cue>): string {
    if cues == [] then "WEBVTT" else Text(cues[..|cues| - 1]) + "\n\n" + Body(cues[|cues| - 1])
  }

  ghost predicate GoodOutput(out: Output) {
    GoodCues(out.cues) && out.text == Text(out.cues) + "\n"
  }

  lemma Regroup(a: string, b: string, c: string)
    ensures a + b + "\n" + c + "\n" == a + (b + "\n" + c) + "\n"
  {
  }

  lemma JoinedLast(lines: seq<string>)
    requires lines != []
    ensures var n := |lines| - 1; Joined(Escaped(lines)) == Joined(Escaped(lines[..n])) + "\n" + Escape(lines[n])
  {
    assert Escaped(lines)[..|lines| - 1] == Escaped(lines[..|lines| - 1]);
  }

  // Lines written one after the other, each with its newline.
  lemma {:induction false} WrittenLines(text: string, before: string, lines: seq<string>)
    requires WriteLines(text, lines).Ok? && text == before + "\n"
    ensures WriteLines(text, lines).value == before + Joined(Escaped(lines)) + "\n"
    decreases |lines|
  {
    if lines == [] {
      assert before + "" == before;
    } else {
      var n := |lines| - 1;
      WrittenLines(text, before, lines[..n]);
      JoinedLast(lines);
      Regroup(before, Joined(Escaped(lines[..n])), Escape(lines[n]));
    }
  }

  lemma ShiftedIsGood(start: int, end: int, offset: nat)
    requires end <= MAX_TIME && Shifted(start, end, offset).Some?
    ensures var times := Shifted(start, end, offset).value; times.0 < times.1 <= MAX_TIME
  {
  }

  lemma ParsedIsInt64(value: string)
    ensures ParseTimestamp(value).Some? ==> IsInt64(ParseTimestamp(value).value)
  {
  }

  lemma RangeIsTime(line: string)
    ensures ParseRange(line).Some? ==> IsTime(ParseRange(line).value)
  {
    var arrow := Arrow(line);
    if arrow.Some? && |line| >= arrow.value + 3 {
      ParsedIsInt64(Trim(line[..arrow.value]));
      ParsedIsInt64(Word(TrimLeft(Trim(line[arrow.value + 3..]))));
    }
  }

  // The lines of a block that comes from a normalized input.
  lemma BlockLines(raw: string)
    requires Single(raw) && '\r' !in raw && Trim(raw) != ""
    ensures GoodLines(Split(Trim(raw), '\n'))
  {
    TrimKeeps(raw);
    var s := Trim(raw);
    SplitLines(s);
    SplitChars(s, '\n', '\r');
  }

  lemma GoodSuffix(lines: seq<string>, i: nat)
    requires GoodLines(lines) && i <= |lines|
    ensures GoodLines(lines[i..])
  {
  }

  lemma BlankIsSkipped(raw: string)
    requires Trim(raw) == ""
    ensures ReadBlock(raw) == Skip
  {
    assert Split("", '\n') == [""];
  }

  lemma PayloadIsGood(raw: string)
    requires Single(raw) && '\r' !in raw
    ensures GoodBlock(ReadBlock(raw))
  {
    var s := Trim(raw);
    if s == "" {
      BlankIsSkipped(raw);
    } else {
      BlockLines(raw);
      var lines := Split(s, '\n');
      var timing := if Arrow(Trim(lines[0])).None? && |lines| > 1 then 1 else 0;
      RangeIsTime(lines[timing]);
      GoodSuffix(lines, timing + 1);
    }
  }

  lemma EscapedAt(payload: seq<string>, i: nat)
    requires GoodLines(payload) && i < |payload|
    ensures var line := Escaped(payload)[i];
            IsLine(line) && '\r' !in line && (i == |payload| - 1 ==> EndsSolid(line))
  {
    assert IsLine(payload[i]);
    EscapeKeepsLines(payload[i]);
  }

  lemma EscapedIsGood(payload: seq<string>)
    requires GoodLines(payload)
    ensures GoodLines(Escaped(payload))
  {
    var lines := Escaped(payload);
    forall i | 0 <= i < |lines|
      ensures IsLine(lines[i]) && '\r' !in lines[i]
    {
      EscapedAt(payload, i);
    }
    if lines != [] { EscapedAt(payload, |payload| - 1); }
  }

  lemma CueText(base: string, timing: string, joined: string)
    ensures base + "\n" + "\n" + timing + joined == base + "\n\n" + (timing + joined)
  {
  }

  lemma TextAppends(cues: seq<Cue>, cue: Cue)
    requires GoodCues(cues) && GoodCue(cue)
    ensures GoodCues(cues + [cue]) && Text(cues + [cue]) == Text(cues) + "\n\n" + Body(cue)
  {
    assert (cues + [cue])[..|cues|] == cues;
  }

  lemma AppendedText(out: Output, cue: Cue, payload: seq<string>)
    requires GoodOutput(out) && GoodCue(cue) && cue.lines == Escaped(payload)
    requires WriteLines(out.text + "\n" + cue.timing + "\n", payload).Ok?
    ensures GoodOutput(Output(WriteLines(out.text + "\n" + cue.timing + "\n", payload).value, out.cues + [cue]))
  {
    var before := out.text + "\n" + cue.timing;
    WrittenLines(before + "\n", before, payload);
    TextAppends(out.cues, cue);
    CueText(Text(out.cues), cue.timing, Joined(cue.lines));
  }

  lemma AppendIsGood(out: Output, start: nat, end: int, timing: string, payload: seq<string>)
    requires GoodOutput(out) && GoodLines(payload) && Append(out, start, end, timing, payload).Ok?
    requires start < end <= MAX_TIME && ParseRange(timing) == Some((start as int, end)) && IsTiming(timing)
    ensures GoodOutput(Append(out, start, end, timing, payload).value)
  {
    EscapedIsGood(payload);
    AppendedText(out, Cue(start, end, timing, Escaped(payload)), payload);
  }

  lemma StepIsGood(out: Output, block: Block, offset: nat, printer: Printer)
    requires Prints(printer) && GoodOutput(out) && GoodBlock(block) && Step(out, block, offset, printer).Ok?
    ensures GoodOutput(Step(out, block, offset, printer).value)
  {
    if block.Timed? && Shifted(block.start, block.end, offset).Some? {
      ShiftedIsGood(block.start, block.end, offset);
      var (s, e) := Shifted(block.start, block.end, offset).value;
      AppendIsGood(out, s, e, printer(s, e), block.payload);
    }
  }

  lemma {:induction false} StepsAreGood(out: Output, blocks: seq<Block>, offset: nat, printer: Printer)
    requires Prints(printer) && GoodOutput(out) && forall i :: 0 <= i < |blocks| ==> GoodBlock(blocks[i])
    requires Steps(out, blocks, offset, printer).Ok?
    ensures GoodOutput(Steps(out, blocks, offset, printer).value)
    decreases |blocks|
  {
    if blocks != [] {
      StepIsGood(out, blocks[0], offset, printer);
      StepsAreGood(Step(out, blocks[0], offset, printer).value, blocks[1..], offset, printer);
    }
  }

  // The blocks of a normalized input.
  ghost predicate GoodBlocks(blocks: seq<Block>) {
    forall i :: 0 <= i < |blocks| ==> GoodBlock(blocks[i])
  }

  // Whatever is written has the shape of an output.
  lemma WrittenIsGood(blocks: seq<Block>, offset: nat, printer: Printer, out: Output)
    requires Prints(printer) && GoodBlocks(blocks) && Written(blocks, offset, printer) == Ok(out)
    ensures GoodOutput(out)
  {
    assert GoodOutput(Header());
    StepsAreGood(Header(), blocks, offset, printer);
  }

  lemma ReadIsGood(input: string)
    ensures GoodBlocks(ReadInput(input))
  {
    var raws := Blocks(Normalized(input));
    BlocksAreSingle(Normalized(input));
    BlocksChars(Normalized(input), '\r');
    forall i | 0 <= i < |raws|
      ensures GoodBlock(ReadAll(raws)[i])
    {
      PayloadIsGood(raws[i]);
    }
  }

  lemma TrimSpaces(s: string)
    requires IsTimeText(s)
    ensures Trim(s + " ") == s && Trim(" " + s) == s && TrimLeft(s) == s && Word(s) == s
  {
    assert (s + " ")[..|s|] == s;
    assert TrimLeft(s + " ") == s + " ";
    assert TrimRight(s + " ") == TrimRight(s);
    assert (" " + s)[1..] == s;
    assert TrimLeft(" " + s) == TrimLeft(s);
    WordOfAll(s);
  }

  lemma TimingShape(s: string, e: string)
    requires IsTimeText(s) && IsTimeText(e)
    ensures IsTiming(s + " --> " + e)
  {
  }

  lemma TimingArrow(s: string, e: string)
    requires IsTimeText(s)
    ensures Arrow(s + " --> " + e) == Some(|s| + 1)
  {
    assert '-' !in s + " ";
    ArrowAt(s + " ", " " + e);
    assert s + " --> " + e == s + " " + "-->" + (" " + e);
  }

  // The two sides of the arrow.
  lemma RangeSides(s: string, e: string)
    requires IsTimeText(s) && IsTimeText(e)
    ensures var line := s + " --> " + e;
            |line| >= |s| + 4 && Trim(line[..|s| + 1]) == s && Word(TrimLeft(Trim(line[|s| + 4..]))) == e
  {
    TrimSpaces(s);
    TrimSpaces(e);
    var line := s + " --> " + e;
    assert line[..|s| + 1] == s + " ";
    assert line[|s| + 4..] == " " + e;
  }

  lemma RangeFrom(line: string, arrow: nat, s: string, e: string, start: int, end: int)
    requires Arrow(line) == Some(arrow) && |line| >= arrow + 3 && e != "" && start < end
    requires Trim(line[..arrow]) == s && Word(TrimLeft(Trim(line[arrow + 3..]))) == e
    requires ParseTimestamp(s) == Some(start) && ParseTimestamp(e) == Some(end)
    ensures ParseRange(line) == Some((start, end))
  {
  }

  lemma RangeParses(s: string, e: string, start: int, end: int)
    requires IsTimeText(s) && IsTimeText(e) && start < end && ParseTimestamp(s) == Some(start)
             && ParseTimestamp(e) == Some(end)
    ensures ParseRange(s + " --> " + e) == Some((start, end))
  {
    TimingArrow(s, e);
    RangeSides(s, e);
    RangeFrom(s + " --> " + e, |s| + 1, s, e, start, end);
  }

  lemma TimingIsGood(start: nat, end: nat)
    requires start < end <= MAX_TIME
    ensures ParseRange(TimingLine(start, end)) == Some((start as int, end as int)) && IsTiming(TimingLine(start, end))
  {
    FormatIsTimeText(start);
    FormatIsTimeText(end);
    ParseUndoesFormat(start);
    ParseUndoesFormat(end);
    TimingShape(FormatTimestamp(start), FormatTimestamp(end));
    RangeParses(FormatTimestamp(start), FormatTimestamp(end), start, end);
  }

  /** The converter's own timing lines do. */
  lemma TimingLinePrints()
    ensures Prints(TimingLine)
  {
    forall s: nat, e: nat {:trigger TimingLine(s, e)} | s < e <= MAX_TIME
      ensures ParseRange(TimingLine(s, e)) == Some((s as int, e as int)) && IsTiming(TimingLine(s, e))
    {
      TimingIsGood(s, e);
    }
  }

  lemma {:induction false} SplitJoined(head: string, lines: seq<string>)
    requires '\n' !in head && forall i :: 0 <= i < |lines| ==> '\n' !in lines[i]
    ensures Split(head + Joined(lines), '\n') == [head] + lines
    decreases |lines|
  {
    if lines == [] {
      assert head + "" == head;
      SplitNone(head, '\n');
    } else {
      var n := |lines| - 1;
      SplitJoined(head, lines[..n]);
      SplitSnoc(head + Joined(lines[..n]), '\n', lines[n]);
      assert head + Joined(lines) == head + Joined(lines[..n]) + ['\n'] + lines[n];
      assert lines == lines[..n] + [lines[n]];
    }
  }

  lemma SingleJoin(a: string, b: string)
    requires a != "" && Single(a) && a[|a| - 1] != '\n' && IsLine(b)
    ensures Single(a + "\n" + b)
  {
    var s := a + "\n" + b;
    forall i | 0 <= i < |s| - 1
      ensures !(s[i] == '\n' && s[i + 1] == '\n')
    {
      if i > |a| { assert s[i] == b[i - |a| - 1]; }
    }
  }

  lemma {:induction false} JoinedIsSingle(head: string, lines: seq<string>)
    requires head != "" && '\n' !in head && '\r' !in head
    requires forall i :: 0 <= i < |lines| ==> IsLine(lines[i]) && '\r' !in lines[i]
    ensures var s := head + Joined(lines);
            && s[0] == head[0] && Single(s) && s[|s| - 1] != '\n' && '\r' !in s
            && s[|s| - 1] == (if lines == [] then head[|head| - 1] else lines[|lines| - 1][|lines[|lines| - 1]| - 1])
    decreases |lines|
  {
    if lines == [] {
      assert head + "" == head;
    } else {
      var n := |lines| - 1;
      JoinedIsSingle(head, lines[..n]);
      var before := head + Joined(lines[..n]);
      assert head + Joined(lines) == before + "\n" + lines[n];
      SingleJoin(before, lines[n]);
    }
  }

  // A cue's body is a trimmed block.
  lemma BodyIsBlock(cue: Cue)
    requires Shaped(cue)
    ensures var b := Body(cue); b != "" && Single(b) && Trimmed(b) && b[|b| - 1] != '\n' && '\r' !in b && IsDigit(b[0])
  {
    JoinedIsSingle(cue.timing, cue.lines);
  }

  lemma TimingIsNoHeader(timing: string)
    requires timing != "" && IsDigit(timing[0])
    ensures !IsHeader(timing)
  {
    assert Upper(timing[0]) == timing[0];
    assert "WEBVTT"[0] == 'W';
    assert "NOTE"[0] == 'N' && "STYLE"[0] == 'S' && "REGION"[0] == 'R';
  }

  // A block whose first line is the timing line.
  lemma TimedBlock(raw: string, timing: string, lines: seq<string>, range: (int, int))
    requires Split(Trim(raw), '\n') == [timing] + lines && Trim(timing) == timing && timing != "" && !IsHeader(timing)
    requires ParseRange(timing) == Some(range)
    ensures ReadBlock(raw) == Timed(range.0, range.1, lines)
  {
    assert Arrow(timing).Some?;
    assert ([timing] + lines)[0] == timing && ([timing] + lines)[1..] == lines;
  }

  lemma CueLines(cue: Cue)
    requires Shaped(cue)
    ensures Split(Body(cue), '\n') == [cue.timing] + cue.lines
    ensures Trim(cue.timing) == cue.timing && cue.timing != "" && !IsHeader(cue.timing)
  {
    SplitJoined(cue.timing, cue.lines);
    TrimOfTrimmed(cue.timing);
    TimingIsNoHeader(cue.timing);
  }

  lemma BlockReads(cue: Cue, raw: string)
    requires GoodCue(cue) && Trim(raw) == Body(cue)
    ensures ReadBlock(raw) == Timed(cue.start, cue.end, cue.lines)
  {
    CueLines(cue);
    TimedBlock(raw, cue.timing, cue.lines, (cue.start as int, cue.end));
  }

  /** Every block that is written is read back as the same cue. */
  lemma BodyReads(cue: Cue)
    requires GoodCue(cue)
    ensures ReadBlock(Body(cue)) == Timed(cue.start, cue.end, cue.lines)
    ensures ReadBlock(Body(cue) + "\n") == Timed(cue.start, cue.end, cue.lines)
  {
    BodyIsBlock(cue);
    TrimOfTrimmed(Body(cue));
    TrimOfLine(Body(cue));
    BlockReads(cue, Body(cue));
    BlockReads(cue, Body(cue) + "\n");
  }

  // The blocks of an output, the last one with its newline.
  function Bodies(cues: seq<Cue>): seq<string> {
    if cues == [] then [] else Bodies(cues[..|cues| - 1]) + [Body(cues[|cues| - 1])]
  }

  // A text of blocks, and one block more.
  predicate IsText(t: string) {
    t != "" && t[0] == 'W' && t[|t| - 1] != '\n' && '\r' !in t
  }

  predicate IsBlockText(b: string) {
    b != "" && Single(b) && b[|b| - 1] != '\n' && '\r' !in b
  }

  lemma TextStep(t: string, b: string)
    requires IsText(t) && IsBlockText(b)
    ensures IsText(t + "\n\n" + b) && Blocks(t + "\n\n" + b) == Blocks(t) + [b]
  {
    BlocksSnoc(t, b);
  }

  lemma {:induction false} TextBlocks(cues: seq<Cue>)
    requires AllShaped(cues)
    ensures IsText(Text(cues)) && Blocks(Text(cues)) == ["WEBVTT"] + Bodies(cues)
    decreases |cues|
  {
    if cues == [] {
      BlocksOfSingle("WEBVTT");
    } else {
      var n := |cues| - 1;
      TextBlocks(cues[..n]);
      BodyIsBlock(cues[n]);
      TextStep(Text(cues[..n]), Body(cues[n]));
    }
  }

  // A cue as a block.
  function BlockOf(cue: Cue): Block {
    Timed(cue.start, cue.end, cue.lines)
  }

  function BlocksOf(cues: seq<Cue>): seq<Block> {
    seq(|cues|, i requires 0 <= i < |cues| => BlockOf(cues[i]))
  }

  lemma HeaderIsSkipped()
    ensures ReadBlock("WEBVTT") == Skip && ReadBlock("WEBVTT\n") == Skip
  {
    TrimOfTrimmed("WEBVTT");
    TrimOfLine("WEBVTT");
    assert "WEBVTT" + "\n" == "WEBVTT\n";
    SplitNone("WEBVTT", '\n');
  }

  lemma ReadAppends(a: seq<string>, b: string)
    ensures ReadAll(a + [b]) == ReadAll(a) + [ReadBlock(b)]
  {
  }

  lemma ReadJoins(a: string, rest: seq<string>)
    ensures ReadAll([a] + rest) == [ReadBlock(a)] + ReadAll(rest)
  {
  }

  lemma BlocksOfAppends(cues: seq<Cue>, cue: Cue)
    ensures BlocksOf(cues + [cue]) == BlocksOf(cues) + [BlockOf(cue)]
  {
  }

  lemma {:induction false} BodiesAt(cues: seq<Cue>, i: nat)
    requires i < |cues|
    ensures |Bodies(cues)| == |cues| && Bodies(cues)[i] == Body(cues[i])
    decreases |cues|
  {
    var n := |cues| - 1;
    if n > 0 { BodiesAt(cues[..n], if i < n then i else 0); }
  }

  lemma BodiesRead(cues: seq<Cue>)
    requires GoodCues(cues)
    ensures ReadAll(Bodies(cues)) == BlocksOf(cues)
  {
    forall i | 0 <= i < |cues|
      ensures |Bodies(cues)| == |cues| && ReadBlock(Bodies(cues)[i]) == BlockOf(cues[i])
    {
      BodiesAt(cues, i);
      BodyReads(cues[i]);
    }
  }

  lemma LastBlock(before: string, b: string)
    requires IsText(before) && IsBlockText(b)
    ensures Blocks(before + "\n\n" + b + "\n") == Blocks(before) + [b + "\n"]
  {
    SingleLine(b);
    BlocksSnoc(before, b + "\n");
    assert before + "\n\n" + b + "\n" == before + "\n\n" + (b + "\n");
  }

  // The blocks of the text as it is written, with the newline at its end.
  lemma OutputBlocks(cues: seq<Cue>, cue: Cue)
    requires AllShaped(cues) && Shaped(cue)
    ensures Blocks(Text(cues) + "\n\n" + Body(cue) + "\n") == ["WEBVTT"] + Bodies(cues) + [Body(cue) + "\n"]
  {
    TextBlocks(cues);
    BodyIsBlock(cue);
    LastBlock(Text(cues), Body(cue));
  }

  lemma BodyBlocks(bodies: seq<string>, last: string, cues: seq<Cue>, cue: Cue)
    requires ReadAll(bodies) == BlocksOf(cues) && ReadBlock(last) == BlockOf(cue)
    ensures ReadAll(["WEBVTT"] + bodies + [last]) == [Skip] + BlocksOf(cues + [cue])
  {
    HeaderIsSkipped();
    ReadAppends(["WEBVTT"] + bodies, last);
    ReadJoins("WEBVTT", bodies);
    BlocksOfAppends(cues, cue);
  }

  lemma SomeReadBack(cues: seq<Cue>, cue: Cue)
    requires GoodCues(cues) && GoodCue(cue)
    ensures ReadAll(["WEBVTT"] + Bodies(cues) + [Body(cue) + "\n"]) == [Skip] + BlocksOf(cues + [cue])
  {
    BodiesRead(cues);
    BodyReads(cue);
    BodyBlocks(Bodies(cues), Body(cue) + "\n", cues, cue);
  }

  lemma NoneReadBack()
    ensures ReadAll(Blocks(Text([]) + "\n")) == [Skip] + BlocksOf([])
  {
    HeaderIsSkipped();
    BlocksOfSingle("WEBVTT\n");
    assert Text([]) + "\n" == "WEBVTT\n";
    ReadJoins("WEBVTT\n", []);
  }

  lemma MoreReadBack(cues: seq<Cue>, cue: Cue)
    requires GoodCues(cues) && GoodCue(cue)
    ensures ReadAll(Blocks(Text(cues + [cue]) + "\n")) == [Skip] + BlocksOf(cues + [cue])
  {
    TextAppends(cues, cue);
    OutputBlocks(cues, cue);
    SomeReadBack(cues, cue);
  }

  lemma GoodParts(cues: seq<Cue>)
    requires GoodCues(cues) && cues != []
    ensures GoodCues(cues[..|cues| - 1]) && GoodCue(cues[|cues| - 1])
  {
    var prior := cues[..|cues| - 1];
    forall i | 0 <= i < |prior|
      ensures GoodCue(prior[i])
    {
      assert GoodCue(cues[i]);
    }
  }

  lemma OutputReadsBack(cues: seq<Cue>)
    requires GoodCues(cues)
    ensures ReadAll(Blocks(Text(cues) + "\n")) == [Skip] + BlocksOf(cues)
  {
    if cues == [] {
      NoneReadBack();
    } else {
      GoodParts(cues);
      LastApart(cues);
      MoreReadBack(cues[..|cues| - 1], cues[|cues| - 1]);
    }
  }

  lemma {:induction false} TimesOfBlocks(cues: seq<Cue>)
    ensures TimesIn(BlocksOf(cues)) == Times(cues)
    decreases |cues|
  {
    if cues != [] {
      TimesOfBlocks(cues[1..]);
      assert BlocksOf(cues)[1..] == BlocksOf(cues[1..]);
      assert Times(cues) == [(cues[0].start as int, cues[0].end)] + Times(cues[1..]);
    }
  }

  lemma NormalText(t: string)
    requires IsText(t)
    ensures Normalized(t + "\n") == t + "\n"
  {
    NoReturns(t + "\n");
  }

  lemma NormalOutput(out: Output)
    requires GoodOutput(out)
    ensures Normalized(out.text) == out.text
  {
    TextBlocks(out.cues);
    NormalText(Text(out.cues));
  }

  lemma TimesAfterSkip(cues: seq<Cue>)
    ensures TimesIn([Skip] + BlocksOf(cues)) == Times(cues)
  {
    TimesOfBlocks(cues);
    assert ([Skip] + BlocksOf(cues))[1..] == BlocksOf(cues);
  }

  // What reading an output finds: its own cues.
  lemma OutputReads(out: Output)
    requires GoodOutput(out)
    ensures ReadInput(out.text) == [Skip] + BlocksOf(out.cues) && TimesIn(ReadInput(out.text)) == Times(out.cues)
  {
    NormalOutput(out);
    OutputReadsBack(out.cues);
    TimesAfterSkip(out.cues);
  }

  lemma {:induction false} StepsNeverMalformed(out: Output, blocks: seq<Block>, offset: nat, printer: Printer)
    requires Bad !in blocks
    ensures Steps(out, blocks, offset, printer).Ok? || Steps(out, blocks, offset, printer).TooLarge?
    decreases |blocks|
  {
    if blocks != [] {
      assert blocks[0] in blocks;
      var next := Step(out, blocks[0], offset, printer);
      if next.Ok? { StepsNeverMalformed(next.value, blocks[1..], offset, printer); }
    }
  }

  // What converting an output again reads.
  function Reread(out: Output): seq<Block> {
    [Skip] + BlocksOf(out.cues)
  }

  lemma NeverMalformed(out: Output, offset: nat, printer: Printer)
    ensures Written(Reread(out), offset, printer).Ok? || Written(Reread(out), offset, printer).TooLarge?
  {
    StepsNeverMalformed(Header(), Reread(out), offset, printer);
  }

  lemma AgainTimes(out: Output, offset: nat, printer: Printer)
    ensures var again := Written(Reread(out), offset, printer);
            again.Ok? ==> Times(again.value.cues) == ShiftAll(Times(out.cues), offset)
  {
    TimesAfterSkip(out.cues);
    var again := Written(Reread(out), offset, printer);
    if again.Ok? { WrittenTimes(Reread(out), offset, printer, again.value); }
  }

  /** Converted output converts again: it is never malformed, and unless it runs into a
      size cap it gives exactly the cue times of the first conversion, shifted. */
  lemma OutputConvertsAgain(out: Output, offset: nat, printer: Printer)
    requires GoodOutput(out)
    ensures ReadInput(out.text) == Reread(out)
    ensures var again := Written(Reread(out), offset, printer);
            (again.Ok? || again.TooLarge?)
              && (again.Ok? ==> Times(again.value.cues) == ShiftAll(Times(out.cues), offset))
  {
    OutputReads(out);
    NeverMalformed(out, offset, printer);
    AgainTimes(out, offset, printer);
  }

  lemma {:induction false} ShiftByNothing(times: seq<(int, int)>)
    requires forall i :: 0 <= i < |times| ==> 0 <= times[i].0 < times[i].1 <= MAX_TIME
    ensures ShiftAll(times, 0) == times
    decreases |times|
  {
    if times != [] {
      assert times[0].0 < times[0].1;
      ShiftByNothing(times[1..]);
      assert ShiftOne(times[0], 0) == [times[0]];
      assert [times[0]] + times[1..] == times;
    }
  }

  /** Converting the output once more without an offset keeps every cue time. */
  lemma OutputReparses(out: Output, printer: Printer)
    requires GoodOutput(out)
    ensures ReadInput(out.text) == Reread(out)
    ensures var again := Written(Reread(out), 0, printer);
            (again.Ok? || again.TooLarge?) && (again.Ok? ==> Times(again.value.cues) == Times(out.cues))
  {
    OutputConvertsAgain(out, 0, printer);
    forall i | 0 <= i < |Times(out.cues)|
      ensures 0 <= Times(out.cues)[i].0 < Times(out.cues)[i].1 <= MAX_TIME
    {
      assert GoodCue(out.cues[i]);
    }
    ShiftByNothing(Times(out.cues));
  }

  // ------------------------------------------------------------------- shifts add up

  // Taking off the offset in two steps does what taking it off at once does: the cue
  // ends by then anyway, or its start does not leave the range of int64 at once, or
  // does so already in the first step.
  predicate AddsUp(time: (int, int), a: nat, b: nat) {
    time.1 <= a + b || time.0 - (a + b) >= -TWO63 || time.0 - a < -TWO63
  }

  lemma ShiftOf(time: (int, int), offset: nat)
    requires IsTime(time) && offset <= MAX_TIME
    ensures ShiftOne(time, offset)
            == if time.1 <= offset || time.0 - offset < -TWO63 then [] else [(Max(0, time.0 - offset), time.1 - offset)]
  {
  }

  /** For one cue: shifting by a and then by b is shifting by a + b exactly if the start
      does not run below the smallest int64 only in the sum. */
  lemma CueAddsUpIff(time: (int, int), a: nat, b: nat)
    requires IsTime(time) && a + b <= MAX_TIME
    ensures ShiftAll(ShiftOne(time, a), b) == ShiftOne(time, a + b) <==> AddsUp(time, a, b)
    ensures |ShiftAll(ShiftOne(time, a), b)| >= |ShiftOne(time, a + b)|
    ensures !AddsUp(time, a, b) ==> |ShiftAll(ShiftOne(time, a), b)| > |ShiftOne(time, a + b)|
  {
    ShiftOf(time, a);
    ShiftOf(time, a + b);
    var once := ShiftOne(time, a);
    if once != [] {
      ShiftOf(once[0], b);
      assert once[1..] == [];
      assert ShiftAll(once, b) == ShiftOne(once[0], b) + [];
    }
  }

  ghost predicate AllTimes(times: seq<(int, int)>) {
    forall i :: 0 <= i < |times| ==> IsTime(times[i])
  }

  ghost predicate AllAddUp(times: seq<(int, int)>, a: nat, b: nat) {
    forall i :: 0 <= i < |times| ==> AddsUp(times[i], a, b)
  }

  lemma {:induction false} ShiftsAddUp(times: seq<(int, int)>, a: nat, b: nat)
    requires AllTimes(times) && a + b <= MAX_TIME
    ensures |ShiftAll(ShiftAll(times, a), b)| >= |ShiftAll(times, a + b)|
    ensures AllAddUp(times, a, b) ==> ShiftAll(ShiftAll(times, a), b) == ShiftAll(times, a + b)
    ensures !AllAddUp(times, a, b) ==> |ShiftAll(ShiftAll(times, a), b)| > |ShiftAll(times, a + b)|
    decreases |times|
  {
    if times != [] {
      ShiftsAddUp(times[1..], a, b);
      CueAddsUpIff(times[0], a, b);
      ShiftAppends(ShiftOne(times[0], a), ShiftAll(times[1..], a), b);
      assert AllAddUp(times, a, b) <==> AddsUp(times[0], a, b) && AllAddUp(times[1..], a, b) by {
        assert times == [times[0]] + times[1..];
      }
    }
  }

  lemma {:induction false} TimesAreTimes(blocks: seq<Block>)
    requires GoodBlocks(blocks)
    ensures AllTimes(TimesIn(blocks))
    decreases |blocks|
  {
    if blocks != [] {
      assert GoodBlock(blocks[0]);
      TimesAreTimes(blocks[1..]);
    }
  }

  /** Shifting by a and then by b gives the cue times of shifting by a + b exactly if
      every cue adds up; only offsets near the end of int64 fail. */
  lemma ShiftsAddUpIff(times: seq<(int, int)>, a: nat, b: nat)
    requires AllTimes(times) && a + b <= MAX_TIME
    ensures ShiftAll(ShiftAll(times, a), b) == ShiftAll(times, a + b) <==> AllAddUp(times, a, b)
  {
    ShiftsAddUp(times, a, b);
  }

  // -------------------------------------------------------- the same, of the converter

  /** A conversion gives cues that read back, at the times of the file, shifted. */
  lemma ConvertedIsGood(input: string, offsetMS: int, out: Output)
    requires Converted(input, offsetMS) == Ok(out)
    ensures GoodOutput(out) && GoodBlocks(ReadInput(input))
    ensures Times(out.cues) == ShiftAll(TimesIn(ReadInput(input)), Max(0, offsetMS))
  {
    ReadIsGood(input);
    TimingLinePrints();
    WrittenIsGood(ReadInput(input), Max(0, offsetMS), TimingLine, out);
    WrittenTimes(ReadInput(input), Max(0, offsetMS), TimingLine, out);
  }

  lemma ConvertedFrom(text: string, offsetMS: int, blocks: seq<Block>)
    requires ReadInput(text) == blocks
    ensures Converted(text, offsetMS) in {TooLarge, Written(blocks, Max(0, offsetMS), TimingLine)}
  {
  }

  /** Whatever a conversion gives converts again: it is never malformed, and unless it
      runs into a size cap it gives the cue times of the first conversion, shifted. */
  lemma ConvertedConvertsAgain(input: string, a: int, out: Output, b: int)
    requires Converted(input, a) == Ok(out)
    ensures var again := Converted(out.text, b);
            && (again.Ok? || again.TooLarge?)
            && (again.Ok? ==> Times(again.value.cues) == ShiftAll(Times(out.cues), Max(0, b)))
  {
    assert GoodOutput(out) by { ConvertedIsGood(input, a, out); }
    OutputConvertsAgain(out, Max(0, b), TimingLine);
    ConvertedFrom(out.text, b, Reread(out));
  }

  /** Without an offset it gives back the very same cue times. */
  lemma ConvertedReparses(input: string, a: int, out: Output, b: int)
    requires Converted(input, a) == Ok(out) && b <= 0
    ensures var again := Converted(out.text, b);
            (again.Ok? || again.TooLarge?) && (again.Ok? ==> Times(again.value.cues) == Times(out.cues))
  {
    assert GoodOutput(out) by { ConvertedIsGood(input, a, out); }
    OutputReparses(out, TimingLine);
    ConvertedFrom(out.text, b, Reread(out));
  }

  lemma TimesInAreTimes(input: string)
    ensures AllTimes(TimesIn(ReadInput(input)))
  {
    ReadIsGood(input);
    TimesAreTimes(ReadInput(input));
  }

  // The cue times of a conversion and of the conversion of its output.
  lemma ConvertedTwice(input: string, a: nat, b: nat, first: Output)
    requires Converted(input, a) == Ok(first)
    ensures var twice := Converted(first.text, b);
            twice.Ok? ==> Times(twice.value.cues) == ShiftAll(ShiftAll(TimesIn(ReadInput(input)), a), b)
  {
    var times, firstTimes := TimesIn(ReadInput(input)), Times(first.cues);
    assert firstTimes == ShiftAll(times, a) by { ConvertedIsGood(input, a, first); }
    ConvertedConvertsAgain(input, a, first, b);
  }

  /** Converting a file by a and its output by b gives the cue times of converting it by
      a + b at once, which ConvertedIsGood names, exactly if every cue of the file adds
      up. */
  lemma ConvertedTwiceIff(input: string, a: nat, b: nat, first: Output, twice: Output)
    requires Converted(input, a) == Ok(first) && Converted(first.text, b) == Ok(twice) && a + b <= MAX_TIME
    ensures var times := TimesIn(ReadInput(input));
            Times(twice.cues) == ShiftAll(times, a + b) <==> AllAddUp(times, a, b)
  {
    ConvertedTwice(input, a, b, first);
    TimesInAreTimes(input);
    ShiftsAddUpIff(TimesIn(ReadInput(input)), a, b);
  }

  // ------------------------------------------------------------- times below zero

  lemma TwoDigits(s: string)
    requires |s| == 2 && AllDigits(s)
    ensures Value(s) == DigitValue(s[0]) * 10 + DigitValue(s[1])
    ensures Value(s) == 0 <==> s == "00"
  {
    assert s[..1] == [s[0]] && [s[0]][..0] == "";
    assert Value([s[0]]) == DigitValue(s[0]);
  }

  lemma {:induction false} AsciiBytes(s: string)
    requires s != "" && AllDigits(s[1..]) && (IsDigit(s[0]) || s[0] == '-' || s[0] == '+')
    ensures ByteLen(s) == |s|
    decreases |s|
  {
    if |s| > 1 {
      assert s[..|s| - 1][1..] == s[1..|s| - 1];
      AsciiBytes(s[..|s| - 1]);
    } else {
      assert s[..0] == "";
    }
  }

  /** The millisecond field takes a sign: it is negative exactly if it is a minus sign
      and two digits that are not both zero. */
  lemma NegativeMillisecondsIff(fraction: string)
    requires ByteLen(fraction) == 3 && ParseInt(fraction).Some?
    ensures |fraction| == 3 && -99 <= ParseInt(fraction).value <= 999
    ensures ParseInt(fraction).value < 0 <==> fraction[0] == '-' && fraction[1..] != "00"
  {
    var signed := fraction[0] == '-' || fraction[0] == '+';
    if signed {
      AsciiBytes(fraction);
      TwoDigits(fraction[1..]);
    } else {
      DigitBytes(fraction);
      TwoDigits(fraction[..2]);
      assert Value(fraction) == Value(fraction[..2]) * 10 + DigitValue(fraction[2]);
    }
  }

  // The first hour at whose end the milliseconds no longer fit an int64.
  const FULL_HOURS := 2_562_047_788_015

  lemma WrapsBelowZeroIff(x: int)
    requires -TWO63 <= x
    ensures Wrap64(x) < 0 <==> x < 0 || x % TWO64 >= TWO63
  {
  }

  lemma TotalFits(s: Stamp)
    requires 0 <= s.hours && 0 <= s.minutes <= 59 && 0 <= s.seconds <= 59 && -99 <= s.milliseconds <= 999
    ensures -99 <= Total(s) && (s.hours < FULL_HOURS ==> Total(s) < TWO63)
    ensures Total(s) < 0 <==> s.hours == 0 && s.minutes == 0 && s.seconds == 0 && s.milliseconds < 0
  {
  }

  // Nothing but the milliseconds, and those with a minus sign.
  predicate BelowZero(s: Stamp)
    requires s.fraction != ""
  {
    s.hours == 0 && s.minutes == 0 && s.seconds == 0 && s.fraction[0] == '-' && s.fraction[1..] != "00"
  }

  /** An accepted timestamp is a negative time exactly if it has no hours, minutes and
      seconds and a negative millisecond field, or if its hours are so many that the
      milliseconds wrap around into the negative half of int64. */
  lemma NegativeTimeIff(value: string)
    requires ReadStamp(value).Some?
    ensures var s := ReadStamp(value).value;
            && s.fraction != ""
            && (ParseTimestamp(value).value < 0 <==>
                  BelowZero(s) || (s.hours >= FULL_HOURS && Total(s) % TWO64 >= TWO63))
  {
    var s := ReadStamp(value).value;
    NegativeMillisecondsIff(s.fraction);
    TotalFits(s);
    WrapsBelowZeroIff(Total(s));
  }

  lemma ParseNinetyNine()
    ensures ParseInt("00") == Some(0) && ParseInt("-99") == Some(-99) && ByteLen("-99") == 3
  {
    assert "00"[..1] == "0" && "0"[..0] == "" && Value("0") == 0 && Value("00") == 0;
    assert "-99"[1..] == "99" && "99"[..1] == "9" && "9"[..0] == "" && Value("9") == 9 && Value("99") == 99;
    assert "-99"[..2] == "-9" && "-9"[..1] == "-" && "-"[..0] == "";
    assert ByteLen("-99") == ByteLen("-9") + 1 && ByteLen("-9") == ByteLen("-") + 1 && ByteLen("-") == 1;
  }

  /** Milliseconds may be negative: the field takes a sign. */
  lemma NegativeMilliseconds()
    ensures ParseTimestamp("00" + ":" + "00" + ":" + ("00" + "." + "-99")) == Some(-99)
  {
    ParseNinetyNine();
    FieldsOf("00", "00", "00", "-99");
    var stamp := Stamp(0, 0, 0, "-99", -99);
    FieldsRead("00" + ":" + "00" + ":" + ("00" + "." + "-99"), ["00", "00", "00" + "." + "-99"], ("00", "-99"), stamp);
    assert Total(stamp) == -99;
  }

  /** A start of -99 ms, a cue that lasts to the end of time, and two offsets: at once
      the start wraps around and the cue is lost, in two steps it stays. */
  lemma LargeOffsetsDiffer()
    ensures var a, b := MAX_TIME - 100, 99; var time := (-99, MAX_TIME);
            IsTime(time) && ShiftOne(time, a + b) == [] && ShiftAll(ShiftOne(time, a), b) != []
  {
    var time := (-99, MAX_TIME);
    ShiftOf(time, MAX_TIME - 1);
    CueAddsUpIff(time, MAX_TIME - 100, 99);
  }

  // ---------------------------------------------------------------------- the converter

  // unicode.ToLower, as far as it gives ASCII: of the other characters only U+0130 and
  // U+212A have an ASCII letter.
  function LowerChar(c: char): char {
    if 'A' <= c <= 'Z' then (c as int + 32) as char
    else if c == '\U{130}' then 'i'
    else if c == '\U{212A}' then 'k'
    else c
  }

  function Lower(s: string): string {
    if s == "" then "" else [LowerChar(s[0])] + Lower(s[1..])
  }

  predicate Supported(codec: string) {
    var name := Lower(Trim(codec));
    name == "subrip" || name == "srt" || name == "webvtt"
  }

  lemma {:induction false} WriteStops(text: string, payload: seq<string>, i: nat)
    requires i <= |payload| && !WriteLines(text, payload[..i]).Ok?
    ensures WriteLines(text, payload) == WriteLines(text, payload[..i])
    decreases |payload|
  {
    if i == |payload| {
      assert payload[..i] == payload;
    } else {
      var n := |payload| - 1;
      assert payload[..n][..i] == payload[..i];
      WriteStops(text, payload[..n], i);
    }
  }

  method WritePayload(text: string, payload: seq<string>) returns (result: Outcome<string>)
    ensures result == WriteLines(text, payload)
  {
    var output := text;
    var i := 0;
    while i < |payload|
      invariant 0 <= i <= |payload| && WriteLines(text, payload[..i]) == Ok(output)
    {
      assert payload[..i + 1][..i] == payload[..i];
      if ByteLen(payload[i]) > MAX_CUE_LINE {
        WriteStops(text, payload, i + 1);
        return TooLarge;
      }
      output := output + Escape(payload[i]) + "\n";
      if ByteLen(output) > MAX_INPUT_BYTES {
        WriteStops(text, payload, i + 1);
        return TooLarge;
      }
      i := i + 1;
    }
    assert payload[..i] == payload;
    result := Ok(output);
  }

  // One cue more, if there may be one.
  method AppendCue(text: string, ghost written: seq<Cue>, cues: nat, start: nat, end: int, timing: string,
        payload: seq<string>)
    returns (result: Outcome<string>, ghost now: seq<Cue>)
    requires cues == |written|
    ensures var appended := Append(Output(text, written), start, end, timing, payload);
            if cues < MAX_CUES && appended.Ok? then result == Ok(appended.value.text) && now == appended.value.cues
            else result == TooLarge
    ensures result.Ok? ==> |now| == cues + 1
  {
    now := written;
    if cues >= MAX_CUES { return TooLarge, now; }
    result := WritePayload(text + "\n" + timing + "\n", payload);
    if !result.Ok? { return TooLarge, now; }
    now := written + [Cue(start, end, timing, Escaped(payload))];
  }

  // What one block adds; the cues written so far are counted.
  method ConvertBlock(text: string, ghost written: seq<Cue>, cues: nat, block: Block, offset: nat, printer: Printer)
    returns (result: Outcome<string>, ghost now: seq<Cue>, count: nat)
    requires cues == |written|
    ensures result.Ok? ==> count == |now|
    ensures var step := Step(Output(text, written), block, offset, printer);
            if step.Ok? then result == Ok(step.value.text) && now == step.value.cues
            else if step.Malformed? then result == Malformed else result == TooLarge
  {
    now, count := written, cues;
    if block.Bad? { return Malformed, now, count; }
    if block.Skip? || block.end <= offset { return Ok(text), now, count; }
    var start, end := Sub64(block.start, offset), block.end - offset;
    if start < 0 { start := 0; }
    if end <= start { return Ok(text), now, count; }
    result, now := AppendCue(text, written, cues, start, end, printer(start, end), block.payload);
    count := cues + 1;
  }

  method ConvertAll(blocks: seq<Block>, offset: nat, printer: Printer) returns (result: Outcome<string>)
    ensures var converted := Written(blocks, offset, printer);
            if converted.Ok? then result == Ok(converted.value.text)
            else if converted.Malformed? then result == Malformed else result == TooLarge
  {
    var text := "WEBVTT\n";
    ghost var written: seq<Cue> := [];
    var cues := 0;
    var i := 0;
    assert blocks[0..] == blocks;
    while i < |blocks|
      invariant 0 <= i <= |blocks| && cues == |written|
      invariant Steps(Output(text, written), blocks[i..], offset, printer) == Written(blocks, offset, printer)
    {
      assert blocks[i..][0] == blocks[i] && blocks[i..][1..] == blocks[i + 1..];
      ghost var now;
      result, now, cues := ConvertBlock(text, written, cues, blocks[i], offset, printer);
      if !result.Ok? { return; }
      text, written := result.value, now;
      i := i + 1;
    }
    assert blocks[i..] == [];
    result := Ok(text);
  }

  /** Convert: block by block, with the offset taken off every cue. */
  method Convert(input: string, codec: string, offsetMS: int) returns (result: Outcome<string>)
    ensures ByteLen(input) > MAX_INPUT_BYTES ==> result == TooLarge
    ensures ByteLen(input) <= MAX_INPUT_BYTES && !Supported(codec) ==> result == Unsupported
    ensures ByteLen(input) <= MAX_INPUT_BYTES && Supported(codec) ==>
              var converted := Converted(input, offsetMS);
              if converted.Ok? then result == Ok(converted.value.text)
              else if converted.Malformed? then result == Malformed else result == TooLarge
  {
    if ByteLen(input) > MAX_INPUT_BYTES { return TooLarge; }
    if !Supported(codec) { return Unsupported; }
    result := ConvertAll(ReadInput(input), if offsetMS < 0 then 0 else offsetMS, TimingLine);
  }
}
