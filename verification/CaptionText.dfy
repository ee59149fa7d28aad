/**
 The string functions that the subtitle converter (backend/captions/captions.go) is
 made of.

 They trim, split and escape, and they read and print numbers in decimal.

 Each comes with what it keeps and what it undoes, for texts of any length.
 */
module CaptionText {
  import opened Common

  // The length in UTF-8.
  function CharBytes(c: char): nat {
    if c as int < 0x80 then 1 else if c as int < 0x800 then 2 else if c as int < 0x10000 then 3 else 4
  }

  function ByteLen(s: string): nat {
    if s == "" then 0 else ByteLen(s[..|s| - 1]) + CharBytes(s[|s| - 1])
  }

  // unicode.IsSpace
  predicate IsSpace(c: char) {
    var u := c as int;
    || 0x09 <= u <= 0x0D || u == 0x20 || u == 0x85 || u == 0xA0 || u == 0x1680 || 0x2000 <= u <= 0x200A
    || u == 0x2028 || u == 0x2029 || u == 0x202F || u == 0x205F || u == 0x3000
  }

  // ------------------------------------------------------------------------- trimming

  function TrimLeft(s: string): string {
    if s != "" && IsSpace(s[0]) then TrimLeft(s[1..]) else s
  }

  function TrimRight(s: string): string {
    if s != "" && IsSpace(s[|s| - 1]) then TrimRight(s[..|s| - 1]) else s
  }

  // strings.TrimSpace
  function Trim(s: string): string {
    TrimRight(TrimLeft(s))
  }

  predicate Trimmed(s: string) {
    s != "" ==> !IsSpace(s[0]) && !IsSpace(s[|s| - 1])
  }

  // No two newlines in a row.
  predicate Single(s: string) {
    forall i :: 0 <= i < |s| - 1 ==> !(s[i] == '\n' && s[i + 1] == '\n')
  }

  lemma SingleTail(b: string)
    requires Single(b) && |b| >= 1
    ensures Single(b[1..])
  {
    forall i | 0 <= i < |b| - 2
      ensures !(b[1..][i] == '\n' && b[1..][i + 1] == '\n')
    {
      assert b[1..][i] == b[i + 1] && b[1..][i + 1] == b[i + 2];
    }
  }

  lemma {:induction false} TrimLeftKeeps(s: string)
    requires Single(s)
    ensures Single(TrimLeft(s)) && (TrimLeft(s) != "" ==> !IsSpace(TrimLeft(s)[0]))
    ensures forall c :: c in TrimLeft(s) ==> c in s
  {
    if s != "" && IsSpace(s[0]) {
      SingleTail(s);
      TrimLeftKeeps(s[1..]);
    }
  }

  lemma {:induction false} TrimRightKeeps(s: string)
    ensures TrimRight(s) <= s && (TrimRight(s) != "" ==> !IsSpace(TrimRight(s)[|TrimRight(s)| - 1]))
  {
    if s != "" && IsSpace(s[|s| - 1]) { TrimRightKeeps(s[..|s| - 1]); }
  }

  lemma TrimKeeps(s: string)
    requires Single(s)
    ensures Single(Trim(s)) && Trimmed(Trim(s)) && forall c :: c in Trim(s) ==> c in s
  {
    TrimLeftKeeps(s);
    TrimRightKeeps(TrimLeft(s));
  }

  lemma TrimOfTrimmed(s: string)
    requires Trimmed(s)
    ensures Trim(s) == s
  {
  }

  // One newline at the end is trimmed away.
  lemma TrimOfLine(s: string)
    requires s != "" && Trimmed(s)
    ensures Trim(s + "\n") == s
  {
    assert (s + "\n")[..|s|] == s;
    assert TrimLeft(s + "\n") == s + "\n";
    assert TrimRight(s + "\n") == TrimRight(s);
  }

  // ------------------------------------------------------------------------- splitting

  // strings.Split by one character.
  function Split(s: string, c: char): (r: seq<string>)
    ensures |r| >= 1
  {
    if s == "" then [""]
    else
      var rest := Split(s[1..], c);
      if s[0] == c then [""] + rest else [[s[0]] + rest[0]] + rest[1..]
  }

  lemma {:induction false} SplitNone(a: string, c: char)
    requires c !in a
    ensures Split(a, c) == [a]
  {
    if a != "" {
      SplitNone(a[1..], c);
      assert [a[0]] + a[1..] == a;
    }
  }

  lemma {:induction false} SplitCons(a: string, c: char, rest: string)
    requires c !in a
    ensures Split(a + [c] + rest, c) == [a] + Split(rest, c)
  {
    var s := a + [c] + rest;
    if a == "" {
      assert s[1..] == rest;
    } else {
      SplitCons(a[1..], c, rest);
      assert s[1..] == a[1..] + [c] + rest;
      assert [a[0]] + a[1..] == a;
    }
  }

  lemma {:induction false} SplitSnoc(a: string, c: char, b: string)
    requires c !in b
    ensures Split(a + [c] + b, c) == Split(a, c) + [b]
  {
    var s := a + [c] + b;
    if a == "" {
      assert s[1..] == b;
      SplitNone(b, c);
    } else {
      SplitSnoc(a[1..], c, b);
      assert s[1..] == a[1..] + [c] + b;
    }
  }

  // What a line of a trimmed block is like.
  predicate IsLine(s: string) {
    s != "" && '\n' !in s
  }

  lemma {:induction false} SplitLines(s: string)
    requires s != "" && Single(s) && s[|s| - 1] != '\n'
    ensures var lines := Split(s, '\n');
            && (forall i :: 0 <= i < |lines| ==> '\n' !in lines[i] && (i > 0 || s[0] != '\n' ==> lines[i] != ""))
            && (s[0] == '\n' <==> lines[0] == "")
            && lines[|lines| - 1] != "" && lines[|lines| - 1][|lines[|lines| - 1]| - 1] == s[|s| - 1]
    decreases |s|
  {
    if |s| > 1 {
      assert s[1..][|s| - 2] == s[|s| - 1];
      SingleTail(s);
      SplitLines(s[1..]);
      assert s[0] == '\n' ==> s[1] != '\n';
    } else {
      assert s[1..] == "";
    }
  }

  // Every character of a line comes from the string that was split.
  lemma {:induction false} SplitChars(s: string, c: char, x: char)
    requires x !in s
    ensures forall i :: 0 <= i < |Split(s, c)| ==> x !in Split(s, c)[i]
    decreases |s|
  {
    if s != "" { SplitChars(s[1..], c, x); }
  }

  // strings.Split by an empty line.
  function Blocks(s: string): (r: seq<string>)
    ensures |r| >= 1
  {
    if |s| < 2 then [s]
    else if s[0] == '\n' && s[1] == '\n' then [""] + Blocks(s[2..])
    else
      var rest := Blocks(s[1..]);
      [[s[0]] + rest[0]] + rest[1..]
  }

  lemma SingleCons(c: char, s: string)
    requires Single(s) && !(c == '\n' && s != "" && s[0] == '\n')
    ensures Single([c] + s)
  {
    var more := [c] + s;
    forall i | 0 <= i < |more| - 1
      ensures !(more[i] == '\n' && more[i + 1] == '\n')
    {
      assert more[i + 1] == s[i] && (i > 0 ==> more[i] == s[i - 1]);
    }
  }

  lemma {:induction false} BlocksAreSingle(s: string)
    ensures var r := Blocks(s);
            && (forall i :: 0 <= i < |r| ==> Single(r[i]))
            && (r[0] != "" ==> s != "" && r[0][0] == s[0])
    decreases |s|
  {
    if |s| >= 2 {
      if s[0] == '\n' && s[1] == '\n' {
        BlocksAreSingle(s[2..]);
      } else {
        BlocksAreSingle(s[1..]);
        var rest := Blocks(s[1..]);
        SingleCons(s[0], rest[0]);
      }
    }
  }

  lemma {:induction false} BlocksChars(s: string, x: char)
    requires x !in s
    ensures forall i :: 0 <= i < |Blocks(s)| ==> x !in Blocks(s)[i]
    decreases |s|
  {
    if |s| >= 2 {
      if s[0] == '\n' && s[1] == '\n' { BlocksChars(s[2..], x); } else { BlocksChars(s[1..], x); }
    }
  }

  // A block followed by an empty line.
  lemma {:induction false} BlocksCons(b: string, rest: string)
    requires b != "" && Single(b) && b[|b| - 1] != '\n'
    ensures Blocks(b + "\n\n" + rest) == [b] + Blocks(rest)
    decreases |b|
  {
    var s := b + "\n\n" + rest;
    if |b| == 1 {
      assert s[1..] == "\n\n" + rest && s[1..][2..] == rest;
      assert Blocks(s[1..]) == [""] + Blocks(rest);
      assert [s[0]] + "" == b;
    } else {
      SingleTail(b);
      BlocksCons(b[1..], rest);
      assert s[1..] == b[1..] + "\n\n" + rest;
      assert [b[0]] + b[1..] == b;
    }
  }

  lemma {:induction false} BlocksOfSingle(s: string)
    requires Single(s)
    ensures Blocks(s) == [s]
    decreases |s|
  {
    if |s| >= 2 {
      SingleTail(s);
      BlocksOfSingle(s[1..]);
      assert [s[0]] + s[1..] == s;
    }
  }

  // A block preceded by an empty line.
  lemma {:induction false} BlocksSnoc(a: string, b: string)
    requires a != "" && a[|a| - 1] != '\n' && Single(b)
    ensures Blocks(a + "\n\n" + b) == Blocks(a) + [b]
    decreases |a|
  {
    var s := a + "\n\n" + b;
    if |a| == 1 {
      BlocksCons(a, b);
      BlocksOfSingle(b);
    } else if a[0] == '\n' && a[1] == '\n' {
      assert s[2..] == a[2..] + "\n\n" + b;
      BlocksSnoc(a[2..], b);
    } else {
      assert s[1..] == a[1..] + "\n\n" + b;
      BlocksSnoc(a[1..], b);
    }
  }

  lemma SingleLine(b: string)
    requires b != "" && Single(b) && b[|b| - 1] != '\n'
    ensures Single(b + "\n")
  {
  }

  // The first "-->" of a line.
  function Arrow(s: string): Option<nat> {
    if |s| < 3 then None
    else if s[0] == '-' && s[1] == '-' && s[2] == '>' then Some(0)
    else
      var rest := Arrow(s[1..]);
      if rest.None? then None else Some(rest.value + 1)
  }

  lemma {:induction false} ArrowAt(a: string, b: string)
    requires '-' !in a
    ensures Arrow(a + "-->" + b) == Some(|a|)
    decreases |a|
  {
    var s := a + "-->" + b;
    if a != "" {
      ArrowAt(a[1..], b);
      assert s[1..] == a[1..] + "-->" + b;
      assert s[0] == a[0];
    }
  }

  // The first of strings.Fields, or nothing.
  function Word(s: string): string {
    if s == "" || IsSpace(s[0]) then "" else [s[0]] + Word(s[1..])
  }

  lemma {:induction false} WordOfAll(s: string)
    requires forall c :: c in s ==> !IsSpace(c)
    ensures Word(s) == s
  {
    if s != "" { WordOfAll(s[1..]); }
  }

  // ------------------------------------------------------------------------- newlines

  // strings.ReplaceAll(s, "\r\n", "\n")
  function JoinReturns(s: string): string {
    if s == "" then ""
    else if |s| >= 2 && s[0] == '\r' && s[1] == '\n' then "\n" + JoinReturns(s[2..])
    else [s[0]] + JoinReturns(s[1..])
  }

  // strings.ReplaceAll(s, "\r", "\n")
  function DropReturns(s: string): (r: string)
    ensures '\r' !in r
  {
    if s == "" then "" else [if s[0] == '\r' then '\n' else s[0]] + DropReturns(s[1..])
  }

  function Normalized(s: string): (r: string)
    ensures '\r' !in r
  {
    var t := DropReturns(JoinReturns(s));
    if t != "" && t[0] as int == 0xFEFF then t[1..] else t
  }

  lemma {:induction false} NoReturns(s: string)
    requires '\r' !in s
    ensures JoinReturns(s) == s && DropReturns(s) == s
  {
    if s != "" { NoReturns(s[1..]); }
  }

  // -------------------------------------------------------------------------- escaping

  function EscapeChar(c: char): string {
    match c
    case '&' => "&amp;"
    case '\'' => "&#39;"
    case '<' => "&lt;"
    case '>' => "&gt;"
    case '"' => "&#34;"
    case _ => [c]
  }

  // html.EscapeString
  function Escape(s: string): string {
    if s == "" then "" else Escape(s[..|s| - 1]) + EscapeChar(s[|s| - 1])
  }

  lemma {:induction false} EscapeKeepsLines(s: string)
    requires IsLine(s) && '\r' !in s
    ensures IsLine(Escape(s)) && '\r' !in Escape(s)
    ensures !IsSpace(s[|s| - 1]) ==> !IsSpace(Escape(s)[|Escape(s)| - 1])
    decreases |s|
  {
    var n := |s| - 1;
    var last := EscapeChar(s[n]);
    assert last != "" && '\n' !in last && '\r' !in last;
    assert !IsSpace(s[n]) ==> !IsSpace(last[|last| - 1]);
    if n > 0 { EscapeKeepsLines(s[..n]); }
    assert Escape(s)[|Escape(s)| - 1] == last[|last| - 1];
  }

  // --------------------------------------------------------------------------- numbers

  predicate IsDigit(c: char) {
    '0' <= c <= '9'
  }

  function Digit(n: nat): (c: char)
    requires n < 10
    ensures IsDigit(c)
  {
    '0' + n as char
  }

  function DigitValue(c: char): nat
    requires IsDigit(c)
  {
    c as int - '0' as int
  }

  predicate AllDigits(s: string) {
    forall i :: 0 <= i < |s| ==> IsDigit(s[i])
  }

  function Value(s: string): nat
    requires AllDigits(s)
  {
    if s == "" then 0 else Value(s[..|s| - 1]) * 10 + DigitValue(s[|s| - 1])
  }

  // Decimal, without padding.
  function Decimal(n: nat): (s: string)
    ensures AllDigits(s) && s != ""
    decreases n
  {
    if n < 10 then [Digit(n)] else Decimal(n / 10) + [Digit(n % 10)]
  }

  function Zeros(n: nat): (s: string)
    ensures |s| == n && AllDigits(s)
  {
    if n == 0 then "" else Zeros(n - 1) + "0"
  }

  // %0<width>d
  function Padded(n: nat, width: nat): string {
    var s := Decimal(n);
    if |s| >= width then s else Zeros(width - |s|) + s
  }

  lemma {:induction false} DecimalValue(n: nat)
    ensures Value(Decimal(n)) == n
    decreases n
  {
    if n >= 10 { DecimalValue(n / 10); }
  }

  lemma {:induction false} ZerosValue(n: nat)
    ensures Value(Zeros(n)) == 0
  {
    if n > 0 { ZerosValue(n - 1); }
  }

  lemma {:induction false} ValueAppends(a: string, b: string)
    requires AllDigits(a) && AllDigits(b)
    ensures AllDigits(a + b) && (Value(a) == 0 ==> Value(a + b) == Value(b))
    decreases |b|
  {
    if b == "" {
      assert a + b == a;
    } else {
      var n := |b| - 1;
      ValueAppends(a, b[..n]);
      assert (a + b)[..|a + b| - 1] == a + b[..n];
    }
  }

  lemma PaddedValue(n: nat, width: nat)
    ensures AllDigits(Padded(n, width)) && Padded(n, width) != "" && Value(Padded(n, width)) == n
  {
    DecimalValue(n);
    var s := Decimal(n);
    if |s| < width {
      ZerosValue(width - |s|);
      ValueAppends(Zeros(width - |s|), s);
    }
  }

  lemma ThreeDigits(n: nat)
    requires n < 1000
    ensures |Padded(n, 3)| == 3
  {
    if n >= 10 {
      assert Decimal(n) == Decimal(n / 10) + [Digit(n % 10)];
      if n >= 100 { assert Decimal(n / 10) == Decimal(n / 100) + [Digit(n / 10 % 10)]; }
    }
  }

  lemma {:induction false} DigitBytes(s: string)
    requires AllDigits(s)
    ensures ByteLen(s) == |s|
  {
    if s != "" { DigitBytes(s[..|s| - 1]); }
  }

  // strconv.ParseInt(s, 10, 64)
  function ParseInt(s: string): Option<int> {
    if s == "" then None
    else
      var signed := s[0] == '-' || s[0] == '+';
      var digits := if signed then s[1..] else s;
      if digits == "" || !AllDigits(digits) then None
      else
        var v: int := Value(digits);
        var n := if s[0] == '-' then -v else v;
        if IsInt64(n) then Some(n) else None
  }

  lemma ParsePadded(n: nat, width: nat)
    requires IsInt64(n)
    ensures ParseInt(Padded(n, width)) == Some(n)
  {
    PaddedValue(n, width);
    var s := Padded(n, width);
    assert IsDigit(s[0]);
  }
}
