/** The quoting of one value for a systemd unit record: bare where nothing needs quoting, otherwise
    `$'...'` or `"..."` with backslash escapes. */
module SystemdQuotes {
  import opened Basics

  /** White space, quotes, and what shells give a meaning to. */
  predicate Special(c: char) {
    c == ' ' || (9 <= c as int <= 13) || c == '\\' || c == '\'' || c == '"' || c == '$' || c == '`'
    || c == '*' || c == '?' || c == '[' || c == ']' || c == '(' || c == ')' || c == '<' || c == '>'
    || c == '|' || c == '&' || c == ';' || c == '!'
  }

  /** A character that no quoting mode has to touch. */
  predicate Plain(c: char) {
    c as int >= 32 && c as int != 127 && !Special(c)
  }

  predicate AllPlain(value: string) {
    forall i :: 0 <= i < |value| ==> Plain(value[i])
  }

  function ControlLetter(code: int): Option<char> {
    match code
    case 7 => Some('a')
    case 8 => Some('b')
    case 9 => Some('t')
    case 10 => Some('n')
    case 11 => Some('v')
    case 12 => Some('f')
    case 13 => Some('r')
    case _ => None
  }

  function OctalDigit(d: nat): char
    requires d < 8
  {
    (d + 48) as char
  }

  predicate NeedsBackslash(c: char, posix: bool) {
    c == '\\' || (if posix then c == '\'' else c == '"' || c == '$' || c == '`')
  }

  function Escaped(c: char, posix: bool): string {
    var code := c as int;
    if ControlLetter(code).Some? then ['\\', ControlLetter(code).value]
    else if code < 32 || code == 127 then ['\\', OctalDigit(code / 64), OctalDigit(code / 8 % 8), OctalDigit(code % 8)]
    else if NeedsBackslash(c, posix) then ['\\', c]
    else [c]
  }

  function Opening(posix: bool): string {
    if posix then "$'" else "\""
  }

  function Closing(posix: bool): char {
    if posix then '\'' else '"'
  }

  function Join(pieces: seq<string>): string {
    if pieces == [] then "" else Join(pieces[..|pieces| - 1]) + pieces[|pieces| - 1]
  }

  // ---------------------------------------------------------------------------------------------
  // Reading

  function LetterCode(c: char, posix: bool): Option<char> {
    match c
    case 'a' => Some(7 as char)
    case 'b' => Some(8 as char)
    case 't' => Some(9 as char)
    case 'n' => Some(10 as char)
    case 'v' => Some(11 as char)
    case 'f' => Some(12 as char)
    case 'r' => Some(13 as char)
    case 'e' => if posix then Some(27 as char) else None
    case _ => None
  }

  /** Characters that stand for themselves after a backslash. */
  predicate SelfEscape(c: char, posix: bool) {
    c == '\\' || c == '"' || (if posix then c == '\'' else c == '$' || c == '`')
  }

  /** Characters that a shell does not read as themselves inside double quotes. */
  predicate Expands(c: char, posix: bool) {
    !posix && (c == '$' || c == '`')
  }

  predicate IsOctal(c: char) {
    '0' <= c <= '7'
  }

  function OctalValue(digits: string): nat
    requires forall i :: 0 <= i < |digits| ==> IsOctal(digits[i])
  {
    if digits == "" then 0
    else
      assert IsOctal(digits[|digits| - 1]);
      OctalValue(digits[..|digits| - 1]) * 8 + (digits[|digits| - 1] as int - 48)
  }

  /** How many octal digits, up to `most`, the text starts with: an octal escape takes them all. */
  function OctalRun(text: string, most: nat): (n: nat)
    ensures n <= most && n <= |text|
    ensures forall i :: 0 <= i < n ==> IsOctal(text[i])
  {
    if most == 0 || text == "" || !IsOctal(text[0]) then 0 else 1 + OctalRun(text[1..], most - 1)
  }

  datatype Reading = Reading(value: string, rest: string)

  /** Reads quoted text up to the first closing quote that no backslash escapes: the value, and what
      follows the quote.  A bare character that a shell would expand is refused.  Octal escapes are
      greedy: one to three digits in `$'...'`, by section 2.2.4 of POSIX.1-2024 Shell Command Language;
      just three in the other mode.  No reader has to keep a null byte that an escape stands for; `nul`
      says whether this one does. */
  function Scan(text: string, posix: bool, nul: bool): Option<Reading>
    decreases |text|
  {
    if text == "" then None
    else if text[0] == Closing(posix) then Some(Reading("", text[1..]))
    else if Expands(text[0], posix) then None
    else if text[0] != '\\' then Before(text[0], Scan(text[1..], posix, nul))
    else if |text| == 1 then None
    else if LetterCode(text[1], posix).Some? then Before(LetterCode(text[1], posix).value, Scan(text[2..], posix, nul))
    else if SelfEscape(text[1], posix) then Before(text[1], Scan(text[2..], posix, nul))
    else
      var n := OctalRun(text[1..], 3);
      if n == 0 || (!posix && n < 3) then None
      else
        var code := OctalValue(text[1..1 + n]);
        if code > 255 || (code == 0 && !nul) then None else Before(code as char, Scan(text[1 + n..], posix, nul))
  }

  function Before(c: char, rest: Option<Reading>): Option<Reading> {
    if rest.None? then None else Some(rest.value.(value := [c] + rest.value.value))
  }

  /** Reads a whole value: bare, or quoted with nothing after the closing quote. */
  function Decode(text: string, posix: bool, nul: bool): Option<string> {
    if Opening(posix) <= text then
      var reading := Scan(text[|Opening(posix)|..], posix, nul);
      if reading.Some? && reading.value.rest == "" then Some(reading.value.value) else None
    else if AllPlain(text) then Some(text)
    else None
  }

  predicate HasNul(value: string) {
    exists i :: 0 <= i < |value| && value[i] as int == 0
  }

  // ---------------------------------------------------------------------------------------------
  // One escaped character

  function Body(value: string, posix: bool): string {
    if value == "" then "" else Escaped(value[0], posix) + Body(value[1..], posix)
  }

  /** Three octal digits are read back whole, whatever digit comes next. */
  lemma OctalReads(code: nat, tail: string)
    requires code < 512
    ensures var digits := [OctalDigit(code / 64), OctalDigit(code / 8 % 8), OctalDigit(code % 8)];
      OctalRun(digits + tail, 3) == 3 && OctalValue((digits + tail)[..3]) == code
  {
    var digits := [OctalDigit(code / 64), OctalDigit(code / 8 % 8), OctalDigit(code % 8)];
    var text := digits + tail;
    assert text[1..][0] == digits[1] && text[1..][1..][0] == digits[2];
    assert OctalRun(text[1..][1..], 1) == 1;
    assert OctalRun(text[1..], 2) == 2;
    assert text[..3] == digits;
    assert digits[..2][..1] == digits[..1];
    assert OctalValue(digits[..1]) == code / 64;
    assert OctalValue(digits[..2]) == code / 64 * 8 + code / 8 % 8;
  }

  lemma ScanOctal(code: nat, tail: string, posix: bool, nul: bool)
    requires code < 256
    ensures Scan(['\\', OctalDigit(code / 64), OctalDigit(code / 8 % 8), OctalDigit(code % 8)] + tail, posix, nul)
         == if code == 0 && !nul then None else Before(code as char, Scan(tail, posix, nul))
  {
    hide OctalRun, OctalValue;
    var digits := [OctalDigit(code / 64), OctalDigit(code / 8 % 8), OctalDigit(code % 8)];
    var text := ['\\'] + digits + tail;
    assert text == ['\\', OctalDigit(code / 64), OctalDigit(code / 8 % 8), OctalDigit(code % 8)] + tail;
    OctalReads(code, tail);
    assert text[1..] == digits + tail;
    assert text[1..4] == (digits + tail)[..3];
    assert text[4..] == tail;
  }

  lemma ScanEscaped(c: char, tail: string, posix: bool, nul: bool)
    ensures Scan(Escaped(c, posix) + tail, posix, nul)
         == if c as int == 0 && !nul then None else Before(c, Scan(tail, posix, nul))
  {
    hide OctalRun, OctalValue;
    var text := Escaped(c, posix) + tail;
    var code := c as int;
    if ControlLetter(code).None? && (code < 32 || code == 127) {
      ScanOctal(code, tail, posix, nul);
    } else if |Escaped(c, posix)| == 2 {
      assert text[2..] == tail;
    } else {
      assert text[1..] == tail;
    }
  }

  /** The escaped value, its closing quote and any text after it: reading stops at that quote, and it
      fails only for a null byte that is not kept. */
  lemma {:induction false} ScanBody(value: string, tail: string, posix: bool, nul: bool)
    ensures Scan(Body(value, posix) + [Closing(posix)] + tail, posix, nul)
         == if HasNul(value) && !nul then None else Some(Reading(value, tail))
  {
    hide Escaped, OctalRun, OctalValue;
    var text := Body(value, posix) + [Closing(posix)] + tail;
    if value == "" {
      assert text[1..] == tail;
    } else {
      var rest := Body(value[1..], posix) + [Closing(posix)] + tail;
      assert text == Escaped(value[0], posix) + rest;
      ScanEscaped(value[0], rest, posix, nul);
      ScanBody(value[1..], tail, posix, nul);
      assert value == [value[0]] + value[1..];
      NulAtHeadOrLater(value);
    }
  }

  lemma NulAtHeadOrLater(value: string)
    requires value != ""
    ensures HasNul(value) <==> value[0] as int == 0 || HasNul(value[1..])
  {
    if HasNul(value) && value[0] as int != 0 {
      var i :| 0 <= i < |value| && value[i] as int == 0;
      assert value[1..][i - 1] as int == 0;
    }
  }

  lemma {:induction false} BodyGrows(value: string, c: char, posix: bool)
    ensures Body(value + [c], posix) == Body(value, posix) + Escaped(c, posix)
  {
    var all := value + [c];
    if value == "" {
      assert all[1..] == "";
    } else {
      assert all[1..] == value[1..] + [c];
      BodyGrows(value[1..], c, posix);
    }
  }

  /** No control character reaches the record. */
  ghost predicate Printable(text: string) {
    forall i :: 0 <= i < |text| ==> text[i] as int >= 32 && text[i] as int != 127
  }

  lemma {:induction false} BodyPrintable(value: string, posix: bool)
    ensures Printable(Body(value, posix)) && |Body(value, posix)| >= |value|
  {
    if value != "" { BodyPrintable(value[1..], posix); }
  }

  // ---------------------------------------------------------------------------------------------
  // Quoting

  ghost function Quoted(value: string, posix: bool): string {
    if AllPlain(value) then value else Opening(posix) + Body(value, posix) + [Closing(posix)]
  }

  /** The loop over the characters, and the joined list. */
  method Escape(value: string, posix: bool) returns (r: string)
    ensures r == Body(value, posix)
  {
    hide Escaped;
    var escaped: seq<string> := [];
    for i := 0 to |value|
      invariant Join(escaped) == Body(value[..i], posix)
    {
      escaped := escaped + [Escaped(value[i], posix)];
      assert value[..i + 1] == value[..i] + [value[i]];
      BodyGrows(value[..i], value[i], posix);
    }
    assert value[..|value|] == value;
    r := Join(escaped);
  }

  /** What a bare value must not hold, besides control characters. */
  const SHELL := " \\'\"$`*?[]()<>|&;!"

  lemma PlainMeans(c: char)
    ensures Plain(c) <==> c as int >= 32 && c as int != 127 && c !in SHELL
  {
    assert SHELL == [' ', '\\', '\'', '"', '$', '`', '*', '?', '[', ']', '(', ')', '<', '>', '|', '&', ';', '!'];
  }

  /** The value is bare exactly when it is plain, a reader gets it back in its mode exactly when it has no
      null byte to drop, and no control character is written. */
  method Quote(value: string, posix: bool) returns (r: string)
    ensures r == Quoted(value, posix)
    ensures Decode(r, posix, false) == Some(value) <==> !HasNul(value)
    ensures Decode(r, posix, true) == Some(value)
    ensures r == value <==> forall i :: 0 <= i < |value| ==> value[i] as int >= 32 && value[i] as int != 127 && value[i] !in SHELL
    ensures Printable(r)
    ensures r == value || (if posix then "$'" <= r && r[|r| - 1] == '\'' else "\"" <= r && r[|r| - 1] == '"')
  {
    hide Decode, Body, Scan, HasNul;
    forall i | 0 <= i < |value| ensures Plain(value[i]) <==> value[i] as int >= 32 && value[i] as int != 127 && value[i] !in SHELL {
      PlainMeans(value[i]);
    }
    hide SHELL, Plain;
    QuotedDecodes(value, posix, false);
    QuotedDecodes(value, posix, true);
    if AllPlain(value) {
      return value;
    }
    BodyPrintable(value, posix);
    r := Escape(value, posix);
    r := Opening(posix) + r + [Closing(posix)];
  }

  /** Decoding undoes quoting; a reader that keeps no null bytes refuses exactly the values that have one. */
  lemma QuotedDecodes(value: string, posix: bool, nul: bool)
    ensures Decode(Quoted(value, posix), posix, nul) == if HasNul(value) && !nul then None else Some(value)
    ensures Quoted(value, posix) == value <==> AllPlain(value)
  {
    hide Scan, Body;
    var text := Quoted(value, posix);
    if AllPlain(value) {
      assert |value| > 0 ==> Plain(value[0]);
    } else {
      assert text[|Opening(posix)|..] == Body(value, posix) + [Closing(posix)] + "";
      ScanBody(value, "", posix, nul);
      BodyPrintable(value, posix);
      assert |text| > |value|;
    }
  }

  /** A value that the standard's reader need not give back: one null byte, written as three zeros. */
  lemma NullByteIsNotKept()
    ensures var value := [0 as char];
      && Quoted(value, true) == "$'\\000'"
      && Decode(Quoted(value, true), true, false) == None
      && Decode(Quoted(value, true), true, true) == Some(value)
  {
    var value := [0 as char];
    assert value[0] as int == 0;
    assert !Plain(value[0]);
    assert value[1..] == "";
    assert Body(value, true) == Escaped(value[0], true) + Body("", true);
    QuotedDecodes(value, true, false);
    QuotedDecodes(value, true, true);
    hide Decode;
  }

  /** Two values never share a quoted form, null bytes or not. */
  lemma QuotingIsInjective(a: string, b: string, posix: bool)
    requires Quoted(a, posix) == Quoted(b, posix)
    ensures a == b
  {
    QuotedDecodes(a, posix, true);
    QuotedDecodes(b, posix, true);
  }
}
