/**
 * `convertToCSV`: a header line of the first row's keys, then one line per
 * row holding, for each header key, the cell written by `JSON.stringify`
 * (with `null` and `undefined` replaced by the empty string).
 */
module CsvHelper {
  import opened Common
  import opened Text
  import opened Rows

  /** A lower-case hexadecimal digit, as `JSON.stringify` writes `\uXXXX` escapes. */
  function HexDigitChar(d: nat): (c: char)
    requires d < 16
    ensures IsHexDigit(c) && HexValue(c) == d
  {
    if d < 10 then DigitChar(d) else ('a' as int + d - 10) as char
  }

  /** One character inside a JSON string literal (QuoteJSONString, section 25.5.2.3 of ECMA-262). */
  function EscapeChar(c: char): (r: string)
    ensures |r| >= 1
  {
    if c == '"' then ['\\', '"']
    else if c == '\\' then ['\\', '\\']
    else if c == '\U{0008}' then ['\\', 'b']
    else if c == '\t' then ['\\', 't']
    else if c == '\n' then ['\\', 'n']
    else if c == '\U{000C}' then ['\\', 'f']
    else if c == '\r' then ['\\', 'r']
    else if (c as int) < 0x20 then ['\\', 'u', '0', '0', HexDigitChar(c as int / 16), HexDigitChar(c as int % 16)]
    else [c]
  }

  /** The body of a JSON string literal. */
  function Escape(s: string): string
    decreases |s|
  {
    if s == [] then [] else EscapeChar(s[0]) + Escape(s[1..])
  }

  /** `JSON.stringify(s)` for a string. */
  function Quote(s: string): string {
    ['"'] + Escape(s) + ['"']
  }

  /** `JSON.stringify(row[header], (_, value) => value ?? '')` for a cell. */
  function Encode(v: Value): string {
    match v
    case Nil => Quote("")
    case Str(s) => Quote(s)
    case Num(n) => IntToString(n)
    case Bool(b) => if b then "true" else "false"
  }

  /** One data line: the cells under the header keys, in header order, separated by commas. */
  function Line(row: Row, headers: seq<string>): (r: string) {
    Join(Cells(row, headers), ",")
  }

  function Cells(row: Row, headers: seq<string>): (r: seq<string>)
    ensures |r| == |headers| && forall i :: 0 <= i < |headers| ==> r[i] == Encode(Get(row, headers[i]))
  {
    seq(|headers|, i requires 0 <= i < |headers| => Encode(Get(row, headers[i])))
  }

  function Lines(data: seq<Row>, headers: seq<string>): (r: seq<string>)
    ensures |r| == |data| && forall i :: 0 <= i < |data| ==> r[i] == Line(data[i], headers)
  {
    seq(|data|, i requires 0 <= i < |data| => Line(data[i], headers))
  }

  /** `convertToCSV(data)`; `None` stands for a missing array. */
  function ConvertToCsv(data: Option<seq<Row>>): string {
    if data.None? || |data.value| == 0 then ""
    else
      var headers := Keys(data.value[0]);
      Join([Join(headers, ",")] + Lines(data.value, headers), "\n")
  }

  // ---------------------------------------------------------------------------
  // Reading a JSON string literal back

  /** The character a one-letter escape stands for. */
  function ShortEscape(e: char): Option<char> {
    if e == '"' then Some('"')
    else if e == '\\' then Some('\\')
    else if e == 'b' then Some('\U{0008}')
    else if e == 't' then Some('\t')
    else if e == 'n' then Some('\n')
    else if e == 'f' then Some('\U{000C}')
    else if e == 'r' then Some('\r')
    else None
  }

  /** Decodes the body of a JSON string literal; `None` for a malformed escape. */
  function Unescape(t: string): Option<string>
    decreases |t|
  {
    if t == [] then Some([])
    else if t[0] != '\\' then
      match Unescape(t[1..])
      case Some(r) => Some([t[0]] + r)
      case None => None
    else if |t| < 2 then None
    else if t[1] == 'u' then
      if |t| < 6 || !(IsHexDigit(t[2]) && IsHexDigit(t[3]) && IsHexDigit(t[4]) && IsHexDigit(t[5])) then None
      else
        var code := HexValue(t[2]) * 4096 + HexValue(t[3]) * 256 + HexValue(t[4]) * 16 + HexValue(t[5]);
        if 0xD800 <= code < 0xE000 then None
        else
          match Unescape(t[6..])
          case Some(r) => Some([code as char] + r)
          case None => None
    else
      match ShortEscape(t[1])
      case None => None
      case Some(c) =>
        match Unescape(t[2..])
        case Some(r) => Some([c] + r)
        case None => None
  }

  /** Decoding an escaped character reads exactly that character. */
  lemma UnescapeChar(c: char, rest: string)
    ensures Unescape(EscapeChar(c) + rest) ==
      match Unescape(rest)
      case Some(r) => Some([c] + r)
      case None => None
  {
    var t := EscapeChar(c) + rest;
    if c != '"' && c != '\\' && c != '\U{0008}' && c != '\t' && c != '\n' && c != '\U{000C}' && c != '\r'
      && (c as int) < 0x20
    {
      assert t[2] == '0' && t[3] == '0';
      assert t[4] == HexDigitChar(c as int / 16) && t[5] == HexDigitChar(c as int % 16);
      assert t[6..] == rest;
    } else if |EscapeChar(c)| == 2 {
      assert t[2..] == rest;
    } else {
      assert t[1..] == rest;
    }
  }

  /** Every string literal `JSON.stringify` writes decodes to the original string. */
  lemma {:induction false} UnescapeEscape(s: string)
    ensures Unescape(Escape(s)) == Some(s)
    decreases |s|
  {
    if s != [] {
      UnescapeEscape(s[1..]);
      UnescapeChar(s[0], Escape(s[1..]));
      assert [s[0]] + s[1..] == s;
    }
  }

  // ---------------------------------------------------------------------------
  // Line structure

  /** A JSON string body never holds a raw line break. */
  lemma {:induction false} EscapeHasNoNewline(s: string)
    ensures '\n' !in Escape(s)
    decreases |s|
  {
    if s != [] {
      EscapeHasNoNewline(s[1..]);
      assert '\n' !in EscapeChar(s[0]);
    }
  }

  lemma EncodeHasNoNewline(v: Value)
    ensures '\n' !in Encode(v)
  {
    match v
    case Nil => EscapeHasNoNewline("");
    case Str(s) => EscapeHasNoNewline(s);
    case Num(n) =>
    case Bool(b) =>
  }

  /** Joining parts that avoid a character with a separator that avoids it yields a string that avoids it. */
  lemma {:induction false} JoinAvoids(parts: seq<string>, sep: string, c: char)
    requires c !in sep && forall k :: 0 <= k < |parts| ==> c !in parts[k]
    ensures c !in Join(parts, sep)
    decreases |parts|
  {
    if |parts| > 1 {
      JoinAvoids(parts[1..], sep, c);
    }
  }

  lemma LineHasNoNewline(row: Row, headers: seq<string>)
    ensures '\n' !in Line(row, headers)
  {
    var cells := Cells(row, headers);
    forall k | 0 <= k < |cells| ensures '\n' !in cells[k] {
      EncodeHasNoNewline(Get(row, headers[k]));
    }
    JoinAvoids(cells, ",", '\n');
  }

  /**
   * Splitting the text at line breaks gives back the header line and one line per row, each the
   * row's cells under the header keys in header order, as long as no key itself holds a line break.
   */
  lemma CsvLines(data: seq<Row>)
    requires |data| > 0
    requires forall k :: k in Keys(data[0]) ==> '\n' !in k
    ensures var headers := Keys(data[0]);
      var lines := Split(ConvertToCsv(Some(data)), '\n');
      && |lines| == |data| + 1
      && lines[0] == Join(headers, ",")
      && forall i :: 0 <= i < |data| ==> (lines[i + 1] == Join(Cells(data[i], headers), ",")
                                          && |Cells(data[i], headers)| == |headers|)
  {
    var headers := Keys(data[0]);
    var parts := [Join(headers, ",")] + Lines(data, headers);
    forall k | 0 <= k < |headers| ensures '\n' !in headers[k] {
      assert headers[k] in headers;
    }
    JoinAvoids(headers, ",", '\n');
    forall k | 0 <= k < |parts| ensures '\n' !in parts[k] {
      if k > 0 {
        LineHasNoNewline(data[k - 1], headers);
      }
    }
    SplitJoin(parts, '\n');
  }

  /** A missing or empty array gives the empty text; a non-empty one never does. */
  lemma ConvertToCsvEmpty(data: Option<seq<Row>>)
    ensures ConvertToCsv(data) == "" <==> data.None? || |data.value| == 0
  {
    if data.Some? && |data.value| > 0 {
      var headers := Keys(data.value[0]);
      var parts := [Join(headers, ",")] + Lines(data.value, headers);
      assert |parts| >= 2;
      assert ConvertToCsv(data) == parts[0] + "\n" + Join(parts[1..], "\n");
    }
  }

  /** A text cell reads back as its text; a `null`, `undefined` or absent cell is written exactly like the empty string. */
  lemma CellDecodes(v: Value)
    ensures v.Str? ==> var e := Encode(v);
      |e| >= 2 && e[0] == '"' && e[|e| - 1] == '"' && Unescape(e[1..|e| - 1]) == Some(v.s)
    ensures v.Nil? ==> Encode(v) == Encode(Str("")) == ['"', '"']
  {
    if v.Str? {
      var e := Encode(v);
      assert e[1..|e| - 1] == Escape(v.s);
      UnescapeEscape(v.s);
    }
  }

  /** A header key the row lacks is written as `""`. */
  lemma MissingCellIsEmptyString(row: Row, key: string)
    requires forall i :: 0 <= i < |row| ==> row[i].0 != key
    ensures Encode(Get(row, key)) == ['"', '"']
  {
    CellDecodes(Get(row, key));
  }
}
