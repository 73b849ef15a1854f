/** The pure helpers of the spreadsheet import: reading cells of a parsed row,
    case-insensitive status and origin parsing, splitting GSI codes, the
    `parseInt`-based DD/MM/YYYY date reading and the file-format dispatch. */
module ImportParsing {
  import opened Common

  // ---------------------------------------------------------------------------
  // Text helpers
  // ---------------------------------------------------------------------------

  /** `toUpperCase` on one character, for every character whose upper case is
      a letter, digit, space, `_` or `Ê`: the only characters the import ever
      compares against. Other characters are left as they are. */
  function UpperChar(c: char): char
  {
    if 'a' <= c <= 'z' then (c as int - 32) as char
    else if '\U{00E0}' <= c <= '\U{00FE}' && c != '\U{00F7}' then (c as int - 32) as char
    else if c == '\U{0131}' then 'I'      // dotless i
    else if c == '\U{017F}' then 'S'      // long s
    else c
  }

  /** `toUpperCase` on a string, character by character. */
  function Upper(s: string): (u: string)
    ensures |u| == |s|
    ensures forall i :: 0 <= i < |s| ==> u[i] == UpperChar(s[i])
  {
    seq(|s|, i requires 0 <= i < |s| => UpperChar(s[i]))
  }

  /** ASCII lower case, used to state case-insensitivity. */
  function LowerChar(c: char): char
  {
    if 'A' <= c <= 'Z' then (c as int + 32) as char else c
  }

  function Lower(s: string): (l: string)
    ensures |l| == |s|
    ensures forall i :: 0 <= i < |s| ==> l[i] == LowerChar(s[i])
  {
    seq(|s|, i requires 0 <= i < |s| => LowerChar(s[i]))
  }

  /** Upper case is idempotent. */
  lemma UpperIdempotent(s: string)
    ensures Upper(Upper(s)) == Upper(s)
  {
    assert forall i :: 0 <= i < |s| ==> UpperChar(UpperChar(s[i])) == UpperChar(s[i]);
  }

  /** Lower-casing an upper-case ASCII name and upper-casing it again gives
      the name back. */
  lemma UpperOfLower(s: string)
    requires forall i :: 0 <= i < |s| ==> !('a' <= s[i] <= 'z') && s[i] < '\U{0080}'
    ensures Upper(Lower(s)) == s
  {
    forall i | 0 <= i < |s|
      ensures Upper(Lower(s))[i] == s[i]
    {
    }
  }

  /** `s.endsWith(suffix)`. */
  predicate EndsWith(s: string, suffix: string)
  {
    |suffix| <= |s| && s[|s| - |suffix|..] == suffix
  }

  // ---------------------------------------------------------------------------
  // Cells of a parsed row
  // ---------------------------------------------------------------------------

  /** A parsed row: column header to cell text. */
  type Row = map<string, string>

  /** A missing column reads as the empty string (both are falsy). */
  function Cell(row: Row, key: string): string
  {
    if key in row then row[key] else ""
  }

  /** `row.a || row.b || … || fallback`: the first non-empty cell among the
      given columns, else the fallback. */
  function FirstFilled(row: Row, keys: seq<string>, fallback: string): string
    decreases |keys|
  {
    if keys == [] then fallback
    else if Cell(row, keys[0]) != "" then Cell(row, keys[0])
    else FirstFilled(row, keys[1..], fallback)
  }

  /** The answer is the fallback or a non-empty cell of one of the columns;
      it is the fallback only when every cell is empty, and it is the first
      non-empty cell when there is one. */
  lemma {:induction false} FirstFilledSpec(row: Row, keys: seq<string>, fallback: string)
    ensures var r := FirstFilled(row, keys, fallback);
      && (r == fallback || exists i :: 0 <= i < |keys| && r == Cell(row, keys[i]) && r != "")
      && ((exists i :: 0 <= i < |keys| && Cell(row, keys[i]) != "") ==> r != "")
      && (forall i :: 0 <= i < |keys| && Cell(row, keys[i]) != "" && (forall j :: 0 <= j < i ==> Cell(row, keys[j]) == "")
            ==> r == Cell(row, keys[i]))
      && (fallback != "" ==> r != "")
    decreases |keys|
  {
    if keys != [] && Cell(row, keys[0]) == "" {
      FirstFilledSpec(row, keys[1..], fallback);
      assert forall i :: 0 <= i < |keys[1..]| ==> keys[1..][i] == keys[i + 1];
      var r := FirstFilled(row, keys, fallback);
      forall i | 0 <= i < |keys| && Cell(row, keys[i]) != "" && (forall j :: 0 <= j < i ==> Cell(row, keys[j]) == "")
        ensures r == Cell(row, keys[i])
      {
        assert i > 0;
        assert forall j :: 0 <= j < i - 1 ==> Cell(row, keys[1..][j]) == "" by {
          forall j | 0 <= j < i - 1
            ensures Cell(row, keys[1..][j]) == ""
          {
            assert keys[1..][j] == keys[j + 1];
          }
        }
      }
    }
  }

  /** `row.a || row.b || …` with no fallback: absent when every cell is empty. */
  function OptionalCell(row: Row, keys: seq<string>): (r: Option<string>)
    ensures r.Some? ==> r.value != "" && r.value == FirstFilled(row, keys, "")
  {
    var v := FirstFilled(row, keys, "");
    if v == "" then None else Some(v)
  }

  /** `row.a || row.b` with no fallback, as written for the optional text
      columns: the first non-empty cell, else whatever the last column holds,
      which may be an empty string, or nothing when that column is absent. */
  function CellChain(row: Row, keys: seq<string>): Option<string>
    requires keys != []
    decreases |keys|
  {
    if |keys| == 1 then (if keys[0] in row then Some(row[keys[0]]) else None)
    else if Cell(row, keys[0]) != "" then Some(Cell(row, keys[0]))
    else CellChain(row, keys[1..])
  }

  /** The chain without a fallback agrees with `FirstFilled` whenever some
      cell is filled; otherwise it is the last column's empty text, or
      nothing when that column is absent. */
  lemma {:induction false} CellChainSpec(row: Row, keys: seq<string>)
    requires keys != []
    ensures var r := CellChain(row, keys);
      && (FirstFilled(row, keys, "") != "" ==> r == Some(FirstFilled(row, keys, "")))
      && (FirstFilled(row, keys, "") == "" ==> r == (if keys[|keys| - 1] in row then Some("") else None))
    decreases |keys|
  {
    if |keys| > 1 && Cell(row, keys[0]) == "" {
      CellChainSpec(row, keys[1..]);
      assert keys[1..][|keys[1..]| - 1] == keys[|keys| - 1];
    }
  }

  // ---------------------------------------------------------------------------
  // Status and origin parsing
  // ---------------------------------------------------------------------------

  function PayableStatusName(s: PayableStatus): string
  {
    match s
    case Aberto => "ABERTO"
    case Pago => "PAGO"
    case Cancelado => "CANCELADO"
  }

  function ReceivableStatusName(s: ReceivableStatus): string
  {
    match s
    case Aberto => "ABERTO"
    case Recebido => "RECEBIDO"
    case Parcial => "PARCIAL"
    case Glosado => "GLOSADO"
  }

  function OriginName(o: ReceivableOrigin): string
  {
    match o
    case Paciente => "PACIENTE"
    case Convenio => "CONVENIO"
    case EncontroContas => "ENCONTRO_CONTAS"
  }

  /** `parseStatus`: no status for an empty cell; otherwise PAGO or CANCELADO in
      any letter case, and ABERTO for anything else. */
  function ParsePayableStatus(text: string): Option<PayableStatus>
  {
    if text == "" then None
    else
      var upper := Upper(text);
      if upper == "PAGO" then Some(Pago)
      else if upper == "CANCELADO" then Some(Cancelado)
      else Some(PayableStatus.Aberto)
  }

  /** `parseReceivableStatus`: the same shape for RECEBIDO, PARCIAL and GLOSADO. */
  function ParseReceivableStatus(text: string): Option<ReceivableStatus>
  {
    if text == "" then None
    else
      var upper := Upper(text);
      if upper == "RECEBIDO" then Some(Recebido)
      else if upper == "PARCIAL" then Some(Parcial)
      else if upper == "GLOSADO" then Some(Glosado)
      else Some(ReceivableStatus.Aberto)
  }

  /** `parseOrigem`: total; CONVENIO (with or without the circumflex),
      ENCONTRO_CONTAS (with `_` or a space), and PACIENTE for anything else. */
  function ParseOrigin(text: string): ReceivableOrigin
  {
    if text == "" then ReceivableOrigin.Paciente
    else
      var upper := Upper(text);
      if upper == "CONVENIO" || upper == "CONV\U{00CA}NIO" then ReceivableOrigin.Convenio
      else if upper == "ENCONTRO_CONTAS" || upper == "ENCONTRO CONTAS" then EncontroContas
      else ReceivableOrigin.Paciente
  }

  /** What each parser answers, in terms of the text's upper case: the
      empty cell gives no status, the listed names in any letter case give
      their value, and every other text gives the default. */
  lemma ParsersSpec(text: string)
    ensures ParsePayableStatus(text).None? <==> text == ""
    ensures ParsePayableStatus(text) == Some(Pago) <==> Upper(text) == "PAGO"
    ensures ParsePayableStatus(text) == Some(Cancelado) <==> Upper(text) == "CANCELADO"
    ensures ParseReceivableStatus(text).None? <==> text == ""
    ensures ParseReceivableStatus(text) == Some(Recebido) <==> Upper(text) == "RECEBIDO"
    ensures ParseReceivableStatus(text) == Some(Parcial) <==> Upper(text) == "PARCIAL"
    ensures ParseReceivableStatus(text) == Some(Glosado) <==> Upper(text) == "GLOSADO"
    ensures ParseOrigin(text) == ReceivableOrigin.Convenio <==> Upper(text) == "CONVENIO" || Upper(text) == "CONV\U{00CA}NIO"
    ensures ParseOrigin(text) == EncontroContas <==> Upper(text) == "ENCONTRO_CONTAS" || Upper(text) == "ENCONTRO CONTAS"
  {
  }

  /** The person type an imported receivable's person gets: health-plan payer
      for a CONVENIO origin, patient otherwise. */
  function PersonTypeFor(o: ReceivableOrigin): (t: PersonType)
    ensures t == PersonType.Convenio <==> o == ReceivableOrigin.Convenio
    ensures t != PersonType.Convenio ==> t == PersonType.Paciente
  {
    if o == ReceivableOrigin.Convenio then PersonType.Convenio else PersonType.Paciente
  }

  /** Every status name parses back to its status, in upper and in lower case;
      ABERTO is also what every unrecognised text becomes. */
  lemma StatusNamesRoundTrip(p: PayableStatus, r: ReceivableStatus)
    ensures ParsePayableStatus(PayableStatusName(p)) == Some(p)
    ensures ParsePayableStatus(Lower(PayableStatusName(p))) == Some(p)
    ensures ParseReceivableStatus(ReceivableStatusName(r)) == Some(r)
    ensures ParseReceivableStatus(Lower(ReceivableStatusName(r))) == Some(r)
  {
    UpperOfLower(PayableStatusName(p));
    UpperOfLower(ReceivableStatusName(r));
    assert Upper(PayableStatusName(p)) == PayableStatusName(p) by { UpperOfLower(PayableStatusName(p)); UpperIdempotentOnCaps(PayableStatusName(p)); }
    assert Upper(ReceivableStatusName(r)) == ReceivableStatusName(r) by { UpperIdempotentOnCaps(ReceivableStatusName(r)); }
  }

  /** Every origin name parses back to its origin, in upper and in lower case. */
  lemma OriginNamesRoundTrip(o: ReceivableOrigin)
    ensures ParseOrigin(OriginName(o)) == o
    ensures ParseOrigin(Lower(OriginName(o))) == o
  {
    UpperOfLower(OriginName(o));
    UpperIdempotentOnCaps(OriginName(o));
  }

  /** A text made of upper-case ASCII letters, digits and punctuation is its
      own upper case. */
  lemma UpperIdempotentOnCaps(s: string)
    requires forall i :: 0 <= i < |s| ==> !('a' <= s[i] <= 'z') && s[i] < '\U{0080}'
    ensures Upper(s) == s
  {
  }

  /** Parsing depends on the text only through its upper case. */
  lemma ParsingIgnoresCase(a: string, b: string)
    requires Upper(a) == Upper(b) && (a == "" <==> b == "")
    ensures ParsePayableStatus(a) == ParsePayableStatus(b)
    ensures ParseReceivableStatus(a) == ParseReceivableStatus(b)
    ensures ParseOrigin(a) == ParseOrigin(b)
  {
  }

  // ---------------------------------------------------------------------------
  // Splitting, and the GSI codes derived from an item code
  // ---------------------------------------------------------------------------

  /** `s.split(sep)` for a one-character separator: the pieces between
      separators, one more piece than there are separators. */
  function Split(s: string, sep: char): (parts: seq<string>)
    ensures |parts| >= 1
    ensures forall i :: 0 <= i < |parts| ==> sep !in parts[i]
    decreases |s|
  {
    if s == [] then [""]
    else
      var rest := Split(s[1..], sep);
      if s[0] == sep then [""] + rest
      else [[s[0]] + rest[0]] + rest[1..]
  }

  /** `parts.join(sep)`. */
  function Join(parts: seq<string>, sep: char): string
    requires |parts| >= 1
    decreases |parts|
  {
    if |parts| == 1 then parts[0] else parts[0] + [sep] + Join(parts[1..], sep)
  }

  /** Joining the pieces with the separator gives the text back. */
  lemma {:induction false} JoinSplit(s: string, sep: char)
    ensures Join(Split(s, sep), sep) == s
    decreases |s|
  {
    if s != [] {
      JoinSplit(s[1..], sep);
      var rest := Split(s[1..], sep);
      if s[0] == sep {
        assert ([""] + rest)[1..] == rest;
      } else {
        var parts := [[s[0]] + rest[0]] + rest[1..];
        if |rest| == 1 {
          assert s == [s[0]] + s[1..];
        } else {
          assert parts[1..] == rest[1..];
          assert Join(rest, sep) == rest[0] + [sep] + Join(rest[1..], sep);
          assert s == [s[0]] + s[1..];
        }
      }
    }
  }

  /** A text without the separator is one piece. */
  lemma {:induction false} SplitNoSeparator(s: string, sep: char)
    requires sep !in s
    ensures Split(s, sep) == [s]
    decreases |s|
  {
    if s != [] {
      SplitNoSeparator(s[1..], sep);
      assert [s[0]] + s[1..] == s;
    }
  }

  /** A separator-free head is the first piece and the rest splits on. */
  lemma {:induction false} SplitAfterHead(a: string, sep: char, b: string)
    requires sep !in a
    ensures Split(a + [sep] + b, sep) == [a] + Split(b, sep)
    decreases |a|
  {
    if a == [] {
      assert a + [sep] + b == [sep] + b;
      assert ([sep] + b)[1..] == b;
    } else {
      var s := a + [sep] + b;
      assert s[1..] == a[1..] + [sep] + b;
      SplitAfterHead(a[1..], sep, b);
      assert [a[0]] + a[1..] == a;
    }
  }

  /** Splitting the joined pieces gives the pieces back, when none of them
      holds the separator. */
  lemma {:induction false} SplitJoin(parts: seq<string>, sep: char)
    requires |parts| >= 1
    requires forall i :: 0 <= i < |parts| ==> sep !in parts[i]
    ensures Split(Join(parts, sep), sep) == parts
    decreases |parts|
  {
    if |parts| == 1 {
      SplitNoSeparator(parts[0], sep);
    } else {
      SplitJoin(parts[1..], sep);
      SplitAfterHead(parts[0], sep, Join(parts[1..], sep));
      assert [parts[0]] + parts[1..] == parts;
    }
  }

  /** The first piece is a prefix of the text. */
  lemma {:induction false} FirstPieceIsPrefix(s: string, sep: char)
    ensures |Split(s, sep)[0]| <= |s| && s[..|Split(s, sep)[0]|] == Split(s, sep)[0]
    decreases |s|
  {
    if s != [] {
      FirstPieceIsPrefix(s[1..], sep);
    }
  }

  /** The group code of an item code: the text before its first `.`. */
  function GroupCode(code: string): (g: string)
    ensures '.' !in g
  {
    Split(code, '.')[0]
  }

  /** The subgroup code of an item code: its first two `.`-pieces joined by
      `.`, where a missing second piece prints as "undefined". */
  function SubgroupCode(code: string): string
  {
    var parts := Split(code, '.');
    parts[0] + "." + (if |parts| > 1 then parts[1] else "undefined")
  }

  /** For a three-level code group.subgroup.item the group code is the first
      level and the subgroup code the first two. */
  lemma GsiCodesOfThreeLevels(g: string, s: string, i: string)
    requires '.' !in g && '.' !in s
    ensures GroupCode(g + "." + s + "." + i) == g
    ensures SubgroupCode(g + "." + s + "." + i) == g + "." + s
  {
    var code := g + "." + s + "." + i;
    assert code == g + ['.'] + (s + ['.'] + i);
    SplitAfterHead(g, '.', s + ['.'] + i);
    SplitAfterHead(s, '.', i);
  }

  /** A code without a `.` is its own group code, and its subgroup code is the
      literal "<code>.undefined". */
  lemma GsiCodesWithoutDot(code: string)
    requires '.' !in code
    ensures GroupCode(code) == code
    ensures SubgroupCode(code) == code + ".undefined"
  {
    SplitNoSeparator(code, '.');
  }

  /** The group code is a prefix of the code, and of the subgroup code. */
  lemma GroupCodeIsPrefix(code: string)
    ensures |GroupCode(code)| <= |code| && code[..|GroupCode(code)|] == GroupCode(code)
    ensures SubgroupCode(code)[..|GroupCode(code)|] == GroupCode(code)
  {
    FirstPieceIsPrefix(code, '.');
  }

  // ---------------------------------------------------------------------------
  // parseInt and parseDate
  // ---------------------------------------------------------------------------

  /** The white space and line terminators `parseInt` skips before a number. */
  predicate IsJsSpace(c: char)
  {
    c == '\t' || c == '\n' || c == '\U{000B}' || c == '\U{000C}' || c == '\r' || c == ' '
    || c == '\U{00A0}' || c == '\U{1680}' || ('\U{2000}' <= c <= '\U{200A}')
    || c == '\U{2028}' || c == '\U{2029}' || c == '\U{202F}' || c == '\U{205F}'
    || c == '\U{3000}' || c == '\U{FEFF}'
  }

  function TrimStart(s: string): (t: string)
    ensures |t| <= |s| && t == s[|s| - |t|..]
    ensures t != [] ==> !IsJsSpace(t[0])
    decreases |s|
  {
    if s != [] && IsJsSpace(s[0]) then TrimStart(s[1..]) else s
  }

  /** The value of a character as a digit in the given radix, if it is one. */
  function DigitValue(c: char, radix: nat): (d: Option<nat>)
    requires radix == 10 || radix == 16
    ensures d.Some? ==> d.value < radix
  {
    if '0' <= c <= '9' then Some(c as int - '0' as int)
    else if radix == 16 && 'a' <= c <= 'f' then Some(c as int - 'a' as int + 10)
    else if radix == 16 && 'A' <= c <= 'F' then Some(c as int - 'A' as int + 10)
    else None
  }

  /** The length of the longest prefix made of digits of the radix. */
  function DigitRun(s: string, radix: nat): (n: nat)
    requires radix == 10 || radix == 16
    ensures n <= |s|
    decreases |s|
  {
    if s != [] && DigitValue(s[0], radix).Some? then 1 + DigitRun(s[1..], radix) else 0
  }

  /** The number a run of digits spells, most significant first (only ever
      applied to digits of the radix). */
  function DigitsValue(s: string, radix: nat): nat
    requires radix == 10 || radix == 16
    decreases |s|
  {
    if s == [] then 0
    else DigitsValue(s[..|s| - 1], radix) * radix + OrElse(DigitValue(s[|s| - 1], radix), 0)
  }

  /** JavaScript `parseInt(text)` without a radix: skip leading white space,
      read an optional sign, read hexadecimal after a `0x`/`0X` prefix and
      decimal otherwise, and stop at the first non-digit. `None` is NaN. */
  function ParseInt(text: string): Option<int>
  {
    var s := TrimStart(text);
    var negative := s != [] && s[0] == '-';
    var unsigned := if s != [] && (s[0] == '-' || s[0] == '+') then s[1..] else s;
    var hex := |unsigned| >= 2 && unsigned[0] == '0' && (unsigned[1] == 'x' || unsigned[1] == 'X');
    var radix := if hex then 16 else 10;
    var digits := if hex then unsigned[2..] else unsigned;
    var n := DigitRun(digits, radix);
    if n == 0 then None
    else
      var v: int := DigitsValue(digits[..n], radix);
      Some(if negative then -v else v)
  }

  /** The shortest decimal text of a natural number. */
  function DecimalText(n: nat): (s: string)
    ensures |s| >= 1
    ensures forall i :: 0 <= i < |s| ==> '0' <= s[i] <= '9'
  {
    if n < 10 then [('0' as int + n) as char]
    else DecimalText(n / 10) + [('0' as int + n % 10) as char]
  }

  /** The value of decimal digits is the number they were printed from. */
  lemma {:induction false} DecimalTextValue(n: nat)
    ensures DigitsValue(DecimalText(n), 10) == n
  {
    var s := DecimalText(n);
    if n >= 10 {
      DecimalTextValue(n / 10);
      assert s[..|s| - 1] == DecimalText(n / 10);
    }
  }

  /** `parseInt` reads any run of decimal digits, leading zeros included. */
  lemma ParseIntOfDigits(s: string)
    requires IsDigits(s)
    ensures ParseInt(s) == Some(DigitsValue(s, 10) as int)
  {
    assert !IsJsSpace(s[0]);
    assert TrimStart(s) == s;
    assert s[0] != '-' && s[0] != '+';
    assert |s| >= 2 ==> s[1] != 'x' && s[1] != 'X';
    assert forall i :: 0 <= i < |s| ==> DigitValue(s[i], 10).Some?;
    DigitRunAll(s, 10);
    assert s[..|s|] == s;
  }

  lemma {:induction false} DigitRunAll(s: string, radix: nat)
    requires radix == 10 || radix == 16
    requires forall i :: 0 <= i < |s| ==> DigitValue(s[i], radix).Some?
    ensures DigitRun(s, radix) == |s|
    decreases |s|
  {
    if s != [] {
      DigitRunAll(s[1..], radix);
    }
  }

  /** `parseInt` inverts printing a natural number in decimal. */
  lemma ParseIntRoundTrip(n: nat)
    ensures ParseInt(DecimalText(n)) == Some(n)
  {
    ParseIntOfDigits(DecimalText(n));
    DecimalTextValue(n);
  }

  /** What `parseDate` hands to the database: an instant, a local calendar
      date built as `new Date(year, monthIndex, day)`, or an Invalid Date
      (which the database then refuses). */
  datatype CalendarDate = Instant(t: Timestamp) | LocalDate(year: int, monthIndex: int, day: int) | InvalidDate

  /** `parseDate`: "now" for an empty cell; the native parse when it succeeds;
      otherwise a DD/MM/YYYY reading when the cell has exactly three
      `/`-pieces (an Invalid Date when a piece is not a number); "now" for
      anything else. The native JavaScript date parser is the `native`
      parameter. */
  function ParseDate(text: string, native: string -> Option<Timestamp>, now: Timestamp): CalendarDate
  {
    if text == "" then Instant(now)
    else match native(text)
      case Some(t) => Instant(t)
      case None =>
        var parts := Split(text, '/');
        if |parts| == 3 then DayMonthYear(parts[0], parts[1], parts[2]) else Instant(now)
  }

  /** `new Date(parseInt(year), parseInt(month) - 1, parseInt(day))`. */
  function DayMonthYear(day: string, month: string, year: string): CalendarDate
  {
    match (ParseInt(year), ParseInt(month), ParseInt(day))
    case (Some(y), Some(m), Some(d)) => LocalDate(y, m - 1, d)
    case _ => InvalidDate
  }

  /** A DD/MM/YYYY cell the native parser rejects becomes the local date with
      month index MM - 1. */
  lemma ParseDateBrazilian(day: string, month: string, year: string, native: string -> Option<Timestamp>, now: Timestamp)
    requires IsDigits(day) && IsDigits(month) && IsDigits(year)
    requires native(day + "/" + month + "/" + year).None?
    ensures ParseDate(day + "/" + month + "/" + year, native, now)
            == LocalDate(DigitsValue(year, 10), DigitsValue(month, 10) - 1, DigitsValue(day, 10))
  {
    var text := day + "/" + month + "/" + year;
    assert text != "";
    SplitDayMonthYear(day, month, year);
    DayMonthYearOfDigits(day, month, year);
  }

  lemma DayMonthYearOfDigits(day: string, month: string, year: string)
    requires IsDigits(day) && IsDigits(month) && IsDigits(year)
    ensures DayMonthYear(day, month, year) == LocalDate(DigitsValue(year, 10), DigitsValue(month, 10) - 1, DigitsValue(day, 10))
  {
    ParseIntOfDigits(year);
    ParseIntOfDigits(month);
    ParseIntOfDigits(day);
    DayMonthYearOfNumbers(day, month, year, DigitsValue(year, 10), DigitsValue(month, 10), DigitsValue(day, 10));
  }

  lemma DayMonthYearOfNumbers(day: string, month: string, year: string, y: int, m: int, d: int)
    requires ParseInt(year) == Some(y) && ParseInt(month) == Some(m) && ParseInt(day) == Some(d)
    ensures DayMonthYear(day, month, year) == LocalDate(y, m - 1, d)
  {
  }

  /** A non-empty run of decimal digits. */
  predicate IsDigits(s: string)
  {
    |s| >= 1 && forall i :: 0 <= i < |s| ==> '0' <= s[i] <= '9'
  }

  lemma SplitDayMonthYear(day: string, month: string, year: string)
    requires IsDigits(day) && IsDigits(month) && IsDigits(year)
    ensures Split(day + "/" + month + "/" + year, '/') == [day, month, year]
  {
    NoSlashInDigits(day);
    NoSlashInDigits(month);
    NoSlashInDigits(year);
    var parts := [day, month, year];
    assert parts[1..] == [month, year];
    assert parts[1..][1..] == [year];
    assert Join(parts[1..], '/') == month + "/" + year;
    assert Join(parts, '/') == day + "/" + (month + "/" + year);
    assert day + "/" + (month + "/" + year) == day + "/" + month + "/" + year;
    SplitJoin(parts, '/');
  }

  lemma NoSlashInDigits(s: string)
    requires IsDigits(s)
    ensures '/' !in s
  {
    forall i | 0 <= i < |s|
      ensures s[i] != '/'
    {
    }
  }

  /** Only the three-piece branch can produce an Invalid Date, and only when
      one of the pieces is not a number. */
  lemma InvalidDateOnlyFromBadPieces(text: string, native: string -> Option<Timestamp>, now: Timestamp)
    requires ParseDate(text, native, now).InvalidDate?
    ensures text != "" && native(text).None? && |Split(text, '/')| == 3
    ensures var p := Split(text, '/'); ParseInt(p[0]).None? || ParseInt(p[1]).None? || ParseInt(p[2]).None?
  {
  }

  // ---------------------------------------------------------------------------
  // File-format dispatch
  // ---------------------------------------------------------------------------

  datatype FileFormat = Csv | Xlsx

  const XlsxMimeType: string := "application/vnd.openxmlformats-officedocument.spreadsheetml.sheet"

  /** `parseFile`'s dispatch: CSV by mime type or `.csv` name (checked first),
      then XLSX by mime type or `.xlsx` name, else a bad request. */
  function DetectFormat(mimetype: string, filename: string): (r: Result<FileFormat, ServiceError>)
    ensures r == Ok(Csv) <==> mimetype == "text/csv" || EndsWith(filename, ".csv")
    ensures r == Ok(Xlsx) <==> !(mimetype == "text/csv" || EndsWith(filename, ".csv"))
                               && (mimetype == XlsxMimeType || EndsWith(filename, ".xlsx"))
    ensures r.Err? ==> r.error == UnsupportedFormat
  {
    if mimetype == "text/csv" || EndsWith(filename, ".csv") then Ok(Csv)
    else if mimetype == XlsxMimeType || EndsWith(filename, ".xlsx") then Ok(Xlsx)
    else Err(UnsupportedFormat)
  }

  /** A `.csv` name wins over a spreadsheet mime type, and a name cannot end in
      both suffixes, so the name alone decides when the mime type is generic. */
  lemma CsvCheckComesFirst(mimetype: string, name: string)
    ensures EndsWith(name, ".csv") ==> DetectFormat(mimetype, name) == Ok(Csv)
    ensures EndsWith(name, ".xlsx") ==> !EndsWith(name, ".csv")
  {
    LastCharOfSuffix(name, ".xlsx");
    LastCharOfSuffix(name, ".csv");
  }

  lemma LastCharOfSuffix(s: string, suffix: string)
    requires |suffix| >= 1
    ensures EndsWith(s, suffix) ==> s[|s| - 1] == suffix[|suffix| - 1]
  {
    if EndsWith(s, suffix) {
      assert s[|s| - |suffix|..][|suffix| - 1] == s[|s| - 1];
    }
  }
}
