/** `JSON.stringify` restricted to what the logger hands it: a flat object
    whose property values are strings. */
module Json {
  import opened Records

  /** Every character is at least U+0020: the text holds no control character,
      in particular no ESC that a terminal would read as an escape sequence. */
  predicate NoControl(s: string) {
    forall i :: 0 <= i < |s| ==> s[i] >= ' '
  }

  lemma NoControlConcat(a: string, b: string)
    requires NoControl(a) && NoControl(b)
    ensures NoControl(a + b)
  {
  }

  const HexDigits := "0123456789abcdef"

  /** One character inside a JSON string literal: `"` and `\` are escaped
      with a backslash, backspace, tab, line feed, form feed and carriage
      return use their two-character forms, any other character below U+0020
      is written `\u00xx` in lower-case hex, and everything else is kept. */
  function EscapeChar(c: char): (s: string)
    ensures NoControl(s)
    ensures |s| >= 1
    ensures s == [c] <==> c >= ' ' && c != '"' && c != '\\'
  {
    if c == '"' then "\\\""
    else if c == '\\' then "\\\\"
    else if c == '\U{8}' then "\\b"
    else if c == '\t' then "\\t"
    else if c == '\n' then "\\n"
    else if c == '\U{C}' then "\\f"
    else if c == '\r' then "\\r"
    else if c < ' ' then "\\u00" + [HexDigits[c as int / 16], HexDigits[c as int % 16]]
    else [c]
  }

  /** The escaped characters of `s`, in order. */
  function EscapeAll(s: string): (r: string)
    ensures NoControl(r)
    ensures |r| >= |s|
  {
    if s == [] then ""
    else
      NoControlConcat(EscapeChar(s[0]), EscapeAll(s[1..]));
      EscapeChar(s[0]) + EscapeAll(s[1..])
  }

  /** Text that JSON string escaping leaves alone. */
  predicate Plain(s: string) {
    forall i :: 0 <= i < |s| ==> s[i] >= ' ' && s[i] != '"' && s[i] != '\\'
  }

  /** Escaping changes plain text not at all. */
  lemma {:induction false} EscapeAllPlain(s: string)
    requires Plain(s)
    ensures EscapeAll(s) == s
  {
    if s != [] {
      EscapeAllPlain(s[1..]);
      assert s == [s[0]] + s[1..];
    }
  }

  /** A JSON string literal: the escaped text between double quotes. */
  function Quote(s: string): (q: string)
    ensures NoControl(q)
    ensures |q| >= 2 && q[0] == '"' && q[|q| - 1] == '"'
  {
    NoControlConcat("\"", EscapeAll(s));
    NoControlConcat("\"" + EscapeAll(s), "\"");
    "\"" + EscapeAll(s) + "\""
  }

  /** `"key":"value"` for one property. */
  function Member(k: string, v: string): (m: string)
    ensures NoControl(m)
  {
    NoControlConcat(Quote(k), ":");
    NoControlConcat(Quote(k) + ":", Quote(v));
    Quote(k) + ":" + Quote(v)
  }

  /** The members for the keys `ks`, separated by commas. */
  function Members(ks: seq<string>, values: map<string, string>): (r: string)
    requires forall k :: k in ks ==> k in values
    ensures NoControl(r)
  {
    if ks == [] then ""
    else if |ks| == 1 then Member(ks[0], values[ks[0]])
    else
      var head := Member(ks[0], values[ks[0]]) + ",";
      NoControlConcat(Member(ks[0], values[ks[0]]), ",");
      NoControlConcat(head, Members(ks[1..], values));
      head + Members(ks[1..], values)
  }

  /** `JSON.stringify(o)` for a flat string-valued object: its members in
      property order between braces, with no whitespace. */
  function Serialize(o: JsObject): (s: string)
    ensures NoControl(s)
    ensures |s| >= 2 && s[0] == '{' && s[|s| - 1] == '}'
  {
    NoControlConcat("{", Members(o.keys, o.values));
    NoControlConcat("{" + Members(o.keys, o.values), "}");
    "{" + Members(o.keys, o.values) + "}"
  }
}
