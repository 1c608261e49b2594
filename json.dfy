/**
 * The one JSON document the framework writes itself: an error body
 * `{"message":"..."}` (valar/src/http/error.rs). String escaping follows
 * serde_json's compact writer: `"` and `\` are backslash-escaped, the
 * control characters below U+0020 become `\b`, `\t`, `\n`, `\f`, `\r` or a
 * `\u00xx` escape with lower-case hex digits, and every other character is
 * written as is. A decoder for the same subset of JSON is the partner that
 * shows the encoding loses nothing.
 */
module JsonText {
  import opened Wrappers

  function HexDigit(d: nat): char
    requires d < 16
  {
    if d < 10 then ('0' as int + d) as char else ('a' as int + d - 10) as char
  }

  /** The value of a hex digit (either case), if `c` is one. */
  function HexValue(c: char): (r: Option<nat>)
    ensures r.Some? ==> r.value < 16
  {
    if '0' <= c <= '9' then Some(c as int - '0' as int)
    else if 'a' <= c <= 'f' then Some(c as int - 'a' as int + 10)
    else if 'A' <= c <= 'F' then Some(c as int - 'A' as int + 10)
    else None
  }

  lemma HexDigitValue(d: nat)
    requires d < 16
    ensures HexValue(HexDigit(d)) == Some(d)
  {
  }

  /** How serde_json writes one character inside a string literal. */
  function EscapeChar(c: char): (r: string)
    ensures |r| >= 1
  {
    if c == '"' then "\\\""
    else if c == '\\' then "\\\\"
    else if c == '\U{0008}' then "\\b"
    else if c == '\t' then "\\t"
    else if c == '\n' then "\\n"
    else if c == '\U{000C}' then "\\f"
    else if c == '\r' then "\\r"
    else if (c as int) < 0x20 then "\\u00" + [HexDigit(c as int / 16), HexDigit(c as int % 16)]
    else [c]
  }

  function Escape(s: string): (r: string)
    ensures |r| >= |s|
  {
    if |s| == 0 then "" else EscapeChar(s[0]) + Escape(s[1..])
  }

  /** Every character of an escaped string that is not a control character. */
  lemma {:induction false} EscapeHasNoControl(s: string)
    ensures forall i :: 0 <= i < |Escape(s)| ==> Escape(s)[i] as int >= 0x20
    decreases |s|
  {
    if |s| > 0 {
      EscapeHasNoControl(s[1..]);
      var e := EscapeChar(s[0]);
      assert forall i :: 0 <= i < |e| ==> e[i] as int >= 0x20;
    }
  }

  /** The character a simple two-character escape `\e` stands for. */
  function SimpleEscape(e: char): Option<char> {
    if e == '"' then Some('"')
    else if e == '\\' then Some('\\')
    else if e == '/' then Some('/')
    else if e == 'b' then Some('\U{0008}')
    else if e == 'f' then Some('\U{000C}')
    else if e == 'n' then Some('\n')
    else if e == 'r' then Some('\r')
    else if e == 't' then Some('\t')
    else None
  }

  /** The code of a `\uXXXX` escape at the start of `s`, if there is one. */
  function UnicodeEscape(s: string): Option<char> {
    if |s| < 6 || s[0] != '\\' || s[1] != 'u' then None
    else
      var h0, h1, h2, h3 := HexValue(s[2]), HexValue(s[3]), HexValue(s[4]), HexValue(s[5]);
      if h0.None? || h1.None? || h2.None? || h3.None? then None
      else
        var code := ((h0.value * 16 + h1.value) * 16 + h2.value) * 16 + h3.value;
        if 0xD800 <= code < 0xE000 then None else Some(code as char)
  }

  /**
   * Decodes the first character of a string literal's body and says how many
   * characters it used. An unescaped `"`, a raw control character, an
   * unknown escape or a `\u` escape naming a surrogate is rejected.
   */
  function DecodeOne(s: string): (r: Option<(char, nat)>)
    requires |s| > 0
    ensures r.Some? ==> 1 <= r.value.1 <= |s|
  {
    if s[0] == '"' || (s[0] as int) < 0x20 then None
    else if s[0] != '\\' then Some((s[0], 1))
    else if |s| >= 2 && SimpleEscape(s[1]).Some? then Some((SimpleEscape(s[1]).value, 2))
    else if UnicodeEscape(s).Some? then Some((UnicodeEscape(s).value, 6))
    else None
  }

  /** Decodes the body of a JSON string literal (between the quotes). */
  function Unescape(s: string): (r: Option<string>)
    decreases |s|
  {
    if |s| == 0 then Some("")
    else
      var d := DecodeOne(s);
      if d.None? then None
      else
        var rest := Unescape(s[d.value.1..]);
        if rest.Some? then Some([d.value.0] + rest.value) else None
  }

  lemma DecodeEscapeChar(c: char, tail: string)
    ensures DecodeOne(EscapeChar(c) + tail) == Some((c, |EscapeChar(c)|))
  {
    var s := EscapeChar(c) + tail;
    if (c as int) < 0x20 && c != '\U{0008}' && c != '\t' && c != '\n' && c != '\U{000C}' && c != '\r' {
      HexDigitValue(c as int / 16);
      HexDigitValue(c as int % 16);
      assert s[..6] == EscapeChar(c);
      assert UnicodeEscape(s) == Some(c);
    }
  }

  lemma UnescapeChar(c: char, tail: string)
    ensures Unescape(EscapeChar(c) + tail) ==
      (if Unescape(tail).Some? then Some([c] + Unescape(tail).value) else None)
  {
    var s := EscapeChar(c) + tail;
    DecodeEscapeChar(c, tail);
    assert s[|EscapeChar(c)|..] == tail;
  }

  /** Decoding inverts encoding: the message comes back unchanged. */
  lemma {:induction false} UnescapeEscape(s: string)
    ensures Unescape(Escape(s)) == Some(s)
    decreases |s|
  {
    if |s| > 0 {
      UnescapeEscape(s[1..]);
      UnescapeChar(s[0], Escape(s[1..]));
      assert [s[0]] + s[1..] == s;
    }
  }

  const MessagePrefix: string := "{\"message\":\""
  const MessageSuffix: string := "\"}"

  /** `serde_json::to_string(&JsonError { message })`. */
  function MessageBody(message: string): (r: string)
    ensures |r| == |MessagePrefix| + |Escape(message)| + |MessageSuffix|
    ensures r[..|MessagePrefix|] == MessagePrefix
  {
    MessagePrefix + Escape(message) + MessageSuffix
  }

  /** Reads a compact `{"message":"..."}` document back. */
  function ParseMessageBody(body: string): (r: Option<string>)
  {
    if |body| < |MessagePrefix| + |MessageSuffix| then None
    else if body[..|MessagePrefix|] != MessagePrefix then None
    else if body[|body| - |MessageSuffix|..] != MessageSuffix then None
    else Unescape(body[|MessagePrefix|..|body| - |MessageSuffix|])
  }

  lemma ParseMessageBodyRoundTrip(message: string)
    ensures ParseMessageBody(MessageBody(message)) == Some(message)
  {
    var b := MessageBody(message);
    assert b[|MessagePrefix|..|b| - |MessageSuffix|] == Escape(message);
    assert b[|b| - |MessageSuffix|..] == MessageSuffix;
    UnescapeEscape(message);
  }

  /** Different messages give different bodies. */
  lemma MessageBodyInjective(m1: string, m2: string)
    requires MessageBody(m1) == MessageBody(m2)
    ensures m1 == m2
  {
    ParseMessageBodyRoundTrip(m1);
    ParseMessageBodyRoundTrip(m2);
  }
}
