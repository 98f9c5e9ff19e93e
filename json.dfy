/** `JSON.stringify` on the values of `JsValue`, as the login page uses it to
    write the session store: no white space, object members in insertion
    order, `undefined` members skipped, `undefined` array elements as `null`. */
module Json {
  import opened Wrappers
  import opened JsValue

  /** `JSON.stringify(v)`; `None` when it returns `undefined` (for `undefined` itself). */
  function Stringify(v: Value): (r: Option<string>)
    ensures r.None? <==> v.Undefined?
  {
    match v
    case Undefined => None
    case Null => Some("null")
    case Bool(b) => Some(if b then "true" else "false")
    case Num(n) => Some(IntToString(n))
    case Str(s) => Some(Quote(s))
    case Arr(items) => Some("[" + ElementsText(items) + "]")
    case Obj(ms) => Some("{" + MembersText(ms, true) + "}")
  }

  function ElementsText(items: seq<Value>): string
  {
    if items == [] then ""
    else
      var first := Stringify(items[0]).GetOr("null");
      if |items| == 1 then first else first + "," + ElementsText(items[1..])
  }

  /** The members with a defined value as `"key":value`, comma-separated;
      `first` says no member has been written yet. */
  function MembersText(ms: seq<Member>, first: bool): string
  {
    if ms == [] then ""
    else match Stringify(ms[0].value)
      case None => MembersText(ms[1..], first)
      case Some(t) => (if first then "" else ",") + Quote(ms[0].key) + ":" + t + MembersText(ms[1..], false)
  }

  function Quote(s: string): string
  {
    "\"" + Escape(s) + "\""
  }

  function Escape(s: string): string
  {
    if s == [] then "" else EscapeChar(s[0]) + Escape(s[1..])
  }

  /** Text without quotation marks, backslashes or control characters is written as it is. */
  lemma {:induction false} EscapePlain(s: string)
    requires forall k :: 0 <= k < |s| ==> s[k] != '"' && s[k] != '\\' && (s[k] as int) >= 0x20
    ensures Escape(s) == s
  {
    if s != [] {
      EscapePlain(s[1..]);
      assert s == [s[0]] + s[1..];
    }
  }

  /** Quotation mark and backslash are escaped, control characters get their
      short escape or a lower-case `\u00XX`; everything else stands for itself. */
  function EscapeChar(c: char): string
  {
    if c == '"' then "\\\""
    else if c == '\\' then "\\\\"
    else if (c as int) == 0x08 then "\\b"
    else if (c as int) == 0x0C then "\\f"
    else if c == '\n' then "\\n"
    else if c == '\r' then "\\r"
    else if c == '\t' then "\\t"
    else if (c as int) < 0x20 then "\\u00" + [HexDigit((c as int) / 16), HexDigit((c as int) % 16)]
    else [c]
  }

  function HexDigit(d: nat): char
    requires d < 16
  {
    "0123456789abcdef"[d]
  }

  /** What `localStorage.setItem(key, JSON.stringify(v))` stores: `setItem`
      turns `undefined` into the string "undefined". */
  function StorageText(v: Value): (r: string)
    ensures v.Undefined? ==> r == "undefined"
    ensures !v.Undefined? ==> Some(r) == Stringify(v)
  {
    Stringify(v).GetOr("undefined")
  }
}
