/** The structured "extra data" attached to a record and its two textual
    renderings, following Python's `json.dumps(..., ensure_ascii=False)`:
    the compact form used in the local log line and the `indent=2` form used
    in the chat attachment. Floating-point numbers are not modelled. */
module Json {
  import opened Wrappers

  datatype Json =
    | Null
    | Bool(b: bool)
    | Int(i: int)
    | Str(s: string)
    | Array(items: seq<Json>)
    | Object(members: seq<(string, Json)>)

  /** A Python dict of extra data: its key/value pairs in insertion order.
      The keys are taken to be distinct, as in a dict; the type does not
      enforce it. */
  type Members = seq<(string, Json)>

  /** Python truthiness of an `Optional[Dict]`: `None` and `{}` are falsy. */
  predicate HasExtra(extra: Option<Members>) {
    extra.Some? && |extra.value| > 0
  }

  function HexDigit(d: nat): char
    requires d < 16
  {
    if d < 10 then ('0' as int + d) as char else ('a' as int + d - 10) as char
  }

  function DecimalDigit(d: nat): char
    requires d < 10
  {
    ('0' as int + d) as char
  }

  /** Escape sequence `json.dumps` writes for one character of a string. */
  function EscapeChar(c: char): string {
    if c == '"' then "\\\""
    else if c == '\\' then "\\\\"
    else if c == '\n' then "\\n"
    else if c == '\r' then "\\r"
    else if c == '\t' then "\\t"
    else if c as int == 0x08 then "\\b"
    else if c as int == 0x0c then "\\f"
    else if c as int < 0x20 then "\\u00" + [HexDigit(c as int / 16), HexDigit(c as int % 16)]
    else [c]
  }

  function Escape(s: string): string {
    if |s| == 0 then "" else EscapeChar(s[0]) + Escape(s[1..])
  }

  /** A character `json.dumps` writes as itself. */
  predicate Plain(c: char) {
    c != '"' && c != '\\' && c as int >= 0x20
  }

  /** Text made of plain characters is written unchanged. */
  lemma {:induction false} EscapePlain(s: string)
    requires AllPlain(s)
    ensures Escape(s) == s
  {
    if |s| > 0 {
      EscapePlain(s[1..]);
      assert s == [s[0]] + s[1..];
    }
  }

  function Quote(s: string): string {
    "\"" + Escape(s) + "\""
  }

  function NatToDecimal(n: nat): string {
    if n < 10 then [DecimalDigit(n)] else NatToDecimal(n / 10) + [DecimalDigit(n % 10)]
  }

  function IntToDecimal(i: int): string {
    if i < 0 then "-" + NatToDecimal(-i) else NatToDecimal(i)
  }

  function Join(parts: seq<string>, sep: string): string {
    if |parts| == 0 then ""
    else if |parts| == 1 then parts[0]
    else parts[0] + sep + Join(parts[1..], sep)
  }

  function Scalar(j: Json): string
    requires !j.Array? && !j.Object?
  {
    match j
    case Null => "null"
    case Bool(b) => if b then "true" else "false"
    case Int(i) => IntToDecimal(i)
    case Str(s) => Quote(s)
  }

  /** `json.dumps(j)`: separators ", " and ": ", everything on one line. */
  function Compact(j: Json): string
    decreases j
  {
    match j
    case Array(items) =>
      "[" + Join(seq(|items|, i requires 0 <= i < |items| => Compact(items[i])), ", ") + "]"
    case Object(ms) =>
      "{" + Join(seq(|ms|, i requires 0 <= i < |ms| => Quote(ms[i].0) + ": " + Compact(ms[i].1)), ", ") + "}"
    case _ => Scalar(j)
  }

  function Spaces(n: nat): string {
    if n == 0 then "" else " " + Spaces(n - 1)
  }

  /** Line break followed by the indentation of nesting depth `depth`. */
  function NewLine(depth: nat): string {
    "\n" + Spaces(2 * depth)
  }

  /** `json.dumps(j, indent=2)` for a value written at nesting depth `depth`:
      an empty container stays `[]`/`{}`, otherwise each element goes on its
      own line, separated by ",", with the closing bracket on a line of its
      own at the enclosing depth. */
  function Pretty(j: Json, depth: nat): string
    decreases j
  {
    match j
    case Array(items) =>
      if |items| == 0 then "[]"
      else
        "[" + NewLine(depth + 1)
        + Join(seq(|items|, i requires 0 <= i < |items| => Pretty(items[i], depth + 1)), "," + NewLine(depth + 1))
        + NewLine(depth) + "]"
    case Object(ms) =>
      if |ms| == 0 then "{}"
      else
        "{" + NewLine(depth + 1)
        + Join(seq(|ms|, i requires 0 <= i < |ms| => Quote(ms[i].0) + ": " + Pretty(ms[i].1, depth + 1)),
               "," + NewLine(depth + 1))
        + NewLine(depth) + "}"
    case _ => Scalar(j)
  }

  predicate AllPlain(s: string) {
    forall i :: 0 <= i < |s| ==> Plain(s[i])
  }

  /** Layout of a one-key dict, compact form: `{"k": v}`. */
  lemma CompactOneMember(k: string, v: Json)
    ensures Compact(Object([(k, v)])) == "{" + Quote(k) + ": " + Compact(v) + "}"
  {
    var parts := seq(1, i requires 0 <= i < 1 => Quote([(k, v)][i].0) + ": " + Compact([(k, v)][i].1));
    assert parts == [Quote(k) + ": " + Compact(v)];
  }

  /** Layout of a one-key dict, `indent=2` form at depth `depth`: the key on
      its own line one level deeper, the closing brace back at `depth`. */
  lemma PrettyOneMember(k: string, v: Json, depth: nat)
    ensures Pretty(Object([(k, v)]), depth)
            == "{" + NewLine(depth + 1) + Quote(k) + ": " + Pretty(v, depth + 1) + NewLine(depth) + "}"
  {
    var parts := seq(1, i requires 0 <= i < 1 => Quote([(k, v)][i].0) + ": " + Pretty([(k, v)][i].1, depth + 1));
    assert parts == [Quote(k) + ": " + Pretty(v, depth + 1)];
  }

  predicate SingleLine(s: string) {
    forall i :: 0 <= i < |s| ==> s[i] != '\n'
  }

  lemma SingleLineAppend(a: string, b: string)
    ensures SingleLine(a + b) <==> SingleLine(a) && SingleLine(b)
  {
    if SingleLine(a) && SingleLine(b) {
      forall i | 0 <= i < |a + b| ensures (a + b)[i] != '\n' {
        if i < |a| { assert (a + b)[i] == a[i]; } else { assert (a + b)[i] == b[i - |a|]; }
      }
    }
    if SingleLine(a + b) {
      forall i | 0 <= i < |a| ensures a[i] != '\n' { assert (a + b)[i] == a[i]; }
      forall i | 0 <= i < |b| ensures b[i] != '\n' { assert (a + b)[|a| + i] == b[i]; }
    }
  }

  /** Escaping turns every line break into the two characters `\n`. */
  lemma {:induction false} EscapeSingleLine(s: string)
    ensures SingleLine(Escape(s))
  {
    if |s| > 0 {
      EscapeSingleLine(s[1..]);
      SingleLineAppend(EscapeChar(s[0]), Escape(s[1..]));
    }
  }

  lemma {:induction false} NatToDecimalSingleLine(n: nat)
    ensures SingleLine(NatToDecimal(n))
  {
    if n >= 10 {
      NatToDecimalSingleLine(n / 10);
      SingleLineAppend(NatToDecimal(n / 10), [DecimalDigit(n % 10)]);
    }
  }

  lemma {:induction false} JoinSingleLine(parts: seq<string>, sep: string)
    requires SingleLine(sep)
    requires forall i :: 0 <= i < |parts| ==> SingleLine(parts[i])
    ensures SingleLine(Join(parts, sep))
  {
    if |parts| > 1 {
      JoinSingleLine(parts[1..], sep);
      SingleLineAppend(parts[0], sep);
      SingleLineAppend(parts[0] + sep, Join(parts[1..], sep));
    }
  }

  lemma QuoteSingleLine(s: string)
    ensures SingleLine(Quote(s))
  {
    EscapeSingleLine(s);
    SingleLineAppend("\"", Escape(s));
    SingleLineAppend("\"" + Escape(s), "\"");
  }

  /** The compact rendering never breaks a line, so the local log entry that
      embeds it stays one line whenever the message itself is. */
  lemma {:induction false} CompactSingleLine(j: Json)
    ensures SingleLine(Compact(j))
    decreases j
  {
    match j
    case Array(items) =>
      var parts := seq(|items|, i requires 0 <= i < |items| => Compact(items[i]));
      forall i | 0 <= i < |items| ensures SingleLine(parts[i]) {
        CompactSingleLine(items[i]);
      }
      JoinSingleLine(parts, ", ");
      SingleLineAppend("[", Join(parts, ", "));
      SingleLineAppend("[" + Join(parts, ", "), "]");
    case Object(ms) =>
      var parts := seq(|ms|, i requires 0 <= i < |ms| => Quote(ms[i].0) + ": " + Compact(ms[i].1));
      forall i | 0 <= i < |ms| ensures SingleLine(parts[i]) {
        CompactSingleLine(ms[i].1);
        QuoteSingleLine(ms[i].0);
        SingleLineAppend(Quote(ms[i].0), ": ");
        SingleLineAppend(Quote(ms[i].0) + ": ", Compact(ms[i].1));
      }
      JoinSingleLine(parts, ", ");
      SingleLineAppend("{", Join(parts, ", "));
      SingleLineAppend("{" + Join(parts, ", "), "}");
    case Null =>
    case Bool(_) =>
    case Int(i) =>
      if i < 0 {
        NatToDecimalSingleLine(-i);
        SingleLineAppend("-", NatToDecimal(-i));
      } else {
        NatToDecimalSingleLine(i);
      }
    case Str(s) =>
      QuoteSingleLine(s);
  }

  /** The indented rendering of a non-empty dict spreads over several lines,
      one per key, which is why the attachment carries it in a code block. */
  lemma PrettyObjectIsMultiLine(ms: Members, depth: nat)
    requires |ms| > 0
    ensures !SingleLine(Pretty(Object(ms), depth))
  {
    var p := Pretty(Object(ms), depth);
    assert p[1] == '\n';
  }
}
