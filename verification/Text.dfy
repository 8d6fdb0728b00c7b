/**
 Strings as the flow parser sees them: splitting at a separator, substring
 search, the lines a scanner yields and decimal numbers.
 */
module Text {
  datatype Option<+T> = None | Some(value: T)

  function SetOf(xs: seq<string>): set<string> { set x | x in xs }

  /** True if sub occurs somewhere in s. */
  predicate Contains(s: string, sub: string) {
    exists i | 0 <= i <= |s| :: sub <= s[i..]
  }

  lemma ContainsHead(s: string, sub: string)
    requires sub != "" && sub[0] !in s
    ensures !Contains(s, sub)
  {
    forall i | 0 <= i <= |s|
      ensures !(sub <= s[i..])
    {
      assert i < |s| ==> s[i..][0] == s[i];
    }
  }

  /** The fields of s between occurrences of sep; a string without sep is one field. */
  function Split(s: string, sep: char): (fields: seq<string>)
    ensures |fields| >= 1
  {
    if s == "" then [""]
    else
      var rest := Split(s[1..], sep);
      if s[0] == sep then [""] + rest else [[s[0]] + rest[0]] + rest[1..]
  }

  /** The inverse of Split. */
  function Join(fields: seq<string>, sep: char): string
    requires |fields| >= 1
  {
    if |fields| == 1 then fields[0] else fields[0] + [sep] + Join(fields[1..], sep)
  }

  lemma {:induction false} SplitFirst(field: string, rest: string, sep: char)
    requires sep !in field
    ensures Split(field + [sep] + rest, sep) == [field] + Split(rest, sep)
  {
    var s := field + [sep] + rest;
    if field == "" {
      assert s[1..] == rest;
    } else {
      SplitFirst(field[1..], rest, sep);
      assert s[1..] == field[1..] + [sep] + rest;
      assert [field[0]] + field[1..] == field;
    }
  }

  lemma {:induction false} SplitSingle(field: string, sep: char)
    requires sep !in field
    ensures Split(field, sep) == [field]
  {
    if field == "" {
    } else {
      SplitSingle(field[1..], sep);
      assert [field[0]] + field[1..] == field;
    }
  }

  /** Splitting what was joined gives the fields back, and joining what was split gives the string back. */
  lemma {:induction false} SplitJoin(fields: seq<string>, sep: char)
    requires |fields| >= 1
    requires forall f | f in fields :: sep !in f
    ensures Split(Join(fields, sep), sep) == fields
  {
    if |fields| == 1 {
      SplitSingle(fields[0], sep);
    } else {
      SplitJoin(fields[1..], sep);
      SplitFirst(fields[0], Join(fields[1..], sep), sep);
    }
  }

  lemma {:induction false} JoinSplit(s: string, sep: char)
    ensures Join(Split(s, sep), sep) == s
  {
    if s == "" {
    } else {
      var rest := Split(s[1..], sep);
      JoinSplit(s[1..], sep);
      assert s == [s[0]] + s[1..];
      if s[0] == sep {
        assert ([""] + rest)[1..] == rest;
      } else {
        var fields := [[s[0]] + rest[0]] + rest[1..];
        assert fields[1..] == rest[1..];
      }
    }
  }

  lemma {:induction false} FieldsApart(s: string, sep: char)
    ensures forall f | f in Split(s, sep) :: sep !in f
  {
    if s == "" {
    } else {
      FieldsApart(s[1..], sep);
    }
  }

  // ---- the lines of a file

  /** The longest token the line scanner can hold; a line must leave room for its end mark. */
  const MAX_TOKEN := 65536

  /** The text between line feeds; nothing follows a final line feed. */
  function RawLines(content: string): seq<string> {
    var parts := Split(content, '\n');
    if parts[|parts| - 1] == "" then parts[..|parts| - 1] else parts
  }

  function DropCR(line: string): string {
    if line != "" && line[|line| - 1] == '\r' then line[..|line| - 1] else line
  }

  function DropCRs(raw: seq<string>): (lines: seq<string>)
    ensures |lines| == |raw| && forall i | 0 <= i < |raw| :: lines[i] == DropCR(raw[i])
  {
    seq(|raw|, i requires 0 <= i < |raw| => DropCR(raw[i]))
  }

  /** The lines the scanner yields when it reaches the end of the file. */
  function Lines(content: string): seq<string> {
    DropCRs(RawLines(content))
  }

  /** False if some line overflows the scanner, which then stops with an error. */
  predicate Scannable(content: string) {
    Fit(RawLines(content))
  }

  predicate Fit(raw: seq<string>) {
    forall i | 0 <= i < |raw| :: |raw[i]| < MAX_TOKEN
  }

  /** A line of text and its line feed put in front of a file adds exactly that line. */
  lemma LinesCons(line: string, content: string)
    requires '\n' !in line
    ensures Lines(line + ['\n'] + content) == [DropCR(line)] + Lines(content)
    ensures Scannable(line + ['\n'] + content) <==> |line| < MAX_TOKEN && Scannable(content)
  {
    RawLinesCons(line, content);
    DropCRsCons(line, RawLines(content));
  }

  lemma DropCRsCons(line: string, raw: seq<string>)
    ensures DropCRs([line] + raw) == [DropCR(line)] + DropCRs(raw)
    ensures Fit([line] + raw) <==> |line| < MAX_TOKEN && Fit(raw)
  {
    var all := [line] + raw;
    assert all[0] == line && all[1..] == raw;
  }

  lemma RawLinesCons(line: string, content: string)
    requires '\n' !in line
    ensures RawLines(line + ['\n'] + content) == [line] + RawLines(content)
  {
    hide Split;
    SplitFirst(line, content, '\n');
    var rest := Split(content, '\n');
    var parts := [line] + rest;
    assert parts[|parts| - 1] == rest[|rest| - 1];
  }

  /** What Lines is, line by line: a line ends at a line feed or at the end of the file, one carriage return
      before that is not part of it, and 65536 characters are too many. */
  lemma LineByLine(line: string, content: string)
    requires '\n' !in line
    ensures Lines(line + "\n" + content) ==
            [if line != "" && line[|line| - 1] == '\r' then line[..|line| - 1] else line] + Lines(content)
    ensures Lines(line + "\r\n" + content) == [line] + Lines(content)
    ensures Scannable(line + "\n" + content) <==> |line| < 65536 && Scannable(content)
  {
    hide Lines, Scannable;
    LinesCons(line, content);
    LinesCons(line + "\r", content);
    assert line + "\r" + "\n" + content == line + "\r\n" + content;
    assert (line + "\r")[..|line|] == line;
  }

  /** The last line needs no line feed; after a last line feed there is no line. */
  lemma LastLine(line: string)
    requires '\n' !in line
    ensures Lines(line) ==
            if line == "" then []
            else [if line[|line| - 1] == '\r' then line[..|line| - 1] else line]
    ensures Scannable(line) <==> |line| < 65536
  {
    SplitSingle(line, '\n');
    assert RawLines(line) == if line == "" then [] else [line];
  }

  // ---- decimal numbers

  predicate IsDigit(c: char) { '0' <= c <= '9' }

  predicate AllDigits(s: string) { forall c | c in s :: IsDigit(c) }

  function DigitValue(c: char): nat
    requires IsDigit(c)
  {
    c as int - '0' as int
  }

  function DigitChar(d: nat): (c: char)
    requires d < 10
    ensures IsDigit(c) && DigitValue(c) == d
  {
    (d + '0' as int) as char
  }

  /** The number a string of digits stands for. */
  function ValueOf(s: string): nat
    requires AllDigits(s)
  {
    if s == "" then 0 else 10 * ValueOf(s[..|s| - 1]) + DigitValue(s[|s| - 1])
  }

  /** Decimal printing without leading zeros. */
  function PrintNat(n: nat): (s: string)
    ensures s != "" && AllDigits(s)
  {
    if n < 10 then [DigitChar(n)] else PrintNat(n / 10) + [DigitChar(n % 10)]
  }

  lemma {:induction false} ValueOfPrintNat(n: nat)
    ensures ValueOf(PrintNat(n)) == n
    ensures PrintNat(n)[0] == '0' <==> n == 0
  {
    if n >= 10 {
      ValueOfPrintNat(n / 10);
      var s := PrintNat(n);
      assert s[..|s| - 1] == PrintNat(n / 10);
    } else {
      assert PrintNat(n)[..0] == "";
    }
  }

  const MIN_INT := -0x8000_0000_0000_0000
  const MAX_INT := 0x7fff_ffff_ffff_ffff

  /** A 64-bit integer in decimal: an optional sign, then one or more digits, in range. */
  function Atoi(s: string): Option<int> {
    var signed := s != "" && (s[0] == '-' || s[0] == '+');
    var digits := if signed then s[1..] else s;
    if digits == "" || !AllDigits(digits) then None
    else
      var n: int := ValueOf(digits);
      var n := if s[0] == '-' then -n else n;
      if MIN_INT <= n <= MAX_INT then Some(n) else None
  }

  function Pow10(k: nat): nat {
    if k == 0 then 1 else 10 * Pow10(k - 1)
  }

  /** Each digit counts by its place: the first of k + 1 digits stands for that many times 10 to the k. */
  lemma {:induction false} ValueOfFront(c: char, rest: string)
    requires '0' <= c <= '9' && AllDigits(rest)
    ensures ValueOf("") == 0
    ensures ValueOf([c] + rest) == (c as int - 48) * Pow10(|rest|) + ValueOf(rest)
  {
    var s := [c] + rest;
    if rest == "" {
      assert s[..0] == "";
    } else {
      var k := |rest| - 1;
      ValueOfFront(c, rest[..k]);
      assert s[..|s| - 1] == [c] + rest[..k];
      Factor10(c as int - 48, Pow10(k));
    }
  }

  lemma Factor10(d: int, p: int)
    ensures d * (10 * p) == 10 * (d * p)
  {
  }

  /** s is n in decimal: an optional sign, then digits. */
  ghost predicate Numeral(s: string, n: int) {
    exists sign: string, digits: string :: IsSign(sign) && AllDigits(digits) && digits != "" && s == sign + digits &&
      ValueOf(digits) == if sign == "-" then -n else n
  }

  predicate IsSign(s: string) { s == "" || s == "+" || s == "-" }

  /** Exactly the 64-bit numbers are read. */
  lemma AtoiExactly(s: string, n: int)
    ensures Atoi(s) == Some(n) <==>
            Numeral(s, n) && -9223372036854775808 <= n <= 9223372036854775807
  {
    if Atoi(s) == Some(n) {
      var k := if s[0] == '-' || s[0] == '+' then 1 else 0;
      assert IsSign(s[..k]) && s == s[..k] + s[k..];
    }
    if Numeral(s, n) {
      var sign: string, digits: string :| IsSign(sign) && AllDigits(digits) && digits != "" && s == sign + digits &&
        ValueOf(digits) == if sign == "-" then -n else n;
      assert IsDigit(digits[0]);
      assert s[|sign|..] == digits;
    }
  }

  /** Exactly the printed numbers are digits without a leading zero. */
  lemma {:induction false} PrintNatExactly(s: string, n: nat)
    ensures s == PrintNat(n) <==> s != "" && AllDigits(s) && (|s| > 1 ==> s[0] != '0') && ValueOf(s) == n
  {
    ValueOfPrintNat(n);
    if n >= 10 {
      ValueOfPrintNat(n / 10);
    }
    if s != "" && AllDigits(s) && (|s| > 1 ==> s[0] != '0') && ValueOf(s) == n {
      PrintValueOf(s);
    }
  }

  lemma {:induction false} PrintValueOf(s: string)
    requires s != "" && AllDigits(s) && (|s| > 1 ==> s[0] != '0')
    ensures PrintNat(ValueOf(s)) == s
    ensures |s| > 1 ==> ValueOf(s) >= 10
  {
    var k := |s| - 1;
    var d := DigitValue(s[k]);
    assert s == s[..k] + [s[k]];
    if k == 0 {
      assert s[..0] == "";
    } else {
      PrintValueOf(s[..k]);
      if k == 1 {
        assert s[..1][..0] == "";
      }
      assert ValueOf(s) / 10 == ValueOf(s[..k]) && ValueOf(s) % 10 == d;
    }
  }

  lemma AtoiPrintNat(n: nat)
    requires n <= MAX_INT
    ensures Atoi(PrintNat(n)) == Some(n)
  {
    ValueOfPrintNat(n);
    assert IsDigit(PrintNat(n)[0]);
  }
}
