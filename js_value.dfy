/** JavaScript values as the pages see them: parsed response bodies, loaded
    records and the objects they build as request payloads, together with the
    few language operations the pages rely on (property access, truthiness,
    `||`, `String(x)`, `Number(x)`, `===`, `trim`, `split`). */
module JsValue {
  import opened Wrappers

  /** A value of a parsed JSON body, or `undefined` (what a missing property
      reads as). Numbers are integers; objects keep their members in
      insertion order, as JavaScript objects do. */
  datatype Value =
    | Undefined
    | Null
    | Bool(b: bool)
    | Num(n: int)
    | Str(s: string)
    | Arr(items: seq<Value>)
    | Obj(members: seq<Member>)

  datatype Member = Member(key: string, value: Value)

  /** JavaScript truthiness: `undefined`, `null`, `false`, `0` and `""` are falsy. */
  predicate Truthy(v: Value)
  {
    match v
    case Undefined => false
    case Null => false
    case Bool(b) => b
    case Num(n) => n != 0
    case Str(s) => s != ""
    case Arr(_) => true
    case Obj(_) => true
  }

  predicate IsNullish(v: Value)
  {
    v.Undefined? || v.Null?
  }

  predicate HasKey(ms: seq<Member>, k: string)
  {
    exists i :: 0 <= i < |ms| && ms[i].key == k
  }

  /** The value bound to `k` in an object's members (`undefined` if none). */
  function Lookup(ms: seq<Member>, k: string): (r: Value)
    ensures !HasKey(ms, k) ==> r == Undefined
    ensures HasKey(ms, k) ==> exists i :: 0 <= i < |ms| && ms[i].key == k && r == ms[i].value
  {
    if ms == [] then Undefined
    else if ms[0].key == k then ms[0].value
    else
      var r := Lookup(ms[1..], k);
      assert HasKey(ms, k) ==> HasKey(ms[1..], k) by {
        if HasKey(ms, k) {
          var i :| 0 <= i < |ms| && ms[i].key == k;
          assert i > 0 && ms[1..][i - 1].key == k;
        }
      }
      assert forall i :: 0 <= i < |ms| - 1 ==> ms[1..][i] == ms[i + 1];
      r
  }

  /** Property access `v.k`: `None` when JavaScript throws a TypeError
      (reading a property of `null` or `undefined`). Primitives and arrays have
      no own keys the pages read, so their properties read as `undefined`. */
  function Get(v: Value, k: string): (r: Option<Value>)
    ensures r.None? <==> IsNullish(v)
  {
    match v
    case Undefined => None
    case Null => None
    case Obj(ms) => Some(Lookup(ms, k))
    case _ => Some(Undefined)
  }

  /** Optional chaining `v?.k`: never throws. */
  function OptGet(v: Value, k: string): (r: Value)
    ensures IsNullish(v) ==> r == Undefined
    ensures !IsNullish(v) ==> Some(r) == Get(v, k)
  {
    match v
    case Obj(ms) => Lookup(ms, k)
    case _ => Undefined
  }

  /** `a || b`: `a` when truthy, else `b`. */
  function Or(a: Value, b: Value): (r: Value)
    ensures Truthy(a) ==> r == a
    ensures !Truthy(a) ==> r == b
  {
    if Truthy(a) then a else b
  }

  /** The members after `{ ...ms, [k]: v }`: an existing key keeps its position
      and takes the new value, a new key is appended. */
  function SetMember(ms: seq<Member>, k: string, v: Value): (r: seq<Member>)
    ensures Lookup(r, k) == v
    ensures forall k' :: k' != k ==> Lookup(r, k') == Lookup(ms, k')
  {
    if ms == [] then [Member(k, v)]
    else if ms[0].key == k then [Member(k, v)] + ReplaceAll(ms[1..], k, v)
    else [ms[0]] + SetMember(ms[1..], k, v)
  }

  /** Every later binding of `k` also gets `v` (parsed objects never repeat a key). */
  function ReplaceAll(ms: seq<Member>, k: string, v: Value): (r: seq<Member>)
    ensures HasKey(ms, k) ==> Lookup(r, k) == v
    ensures forall k' :: k' != k ==> Lookup(r, k') == Lookup(ms, k')
  {
    if ms == [] then []
    else if ms[0].key == k then [Member(k, v)] + ReplaceAll(ms[1..], k, v)
    else
      assert HasKey(ms, k) ==> HasKey(ms[1..], k) by {
        if HasKey(ms, k) {
          var i :| 0 <= i < |ms| && ms[i].key == k;
          assert i > 0 && ms[1..][i - 1].key == k;
        }
      }
      [ms[0]] + ReplaceAll(ms[1..], k, v)
  }

  /** `Object.keys(o)`: the members' keys, in order. */
  function Keys(ms: seq<Member>): seq<string>
  {
    if ms == [] then [] else [ms[0].key] + Keys(ms[1..])
  }

  /** Rewriting the bindings of a key leaves the keys as they were. */
  lemma {:induction false} ReplaceAllKeepsKeys(ms: seq<Member>, k: string, v: Value)
    ensures Keys(ReplaceAll(ms, k, v)) == Keys(ms)
  {
    if ms != [] {
      ReplaceAllKeepsKeys(ms[1..], k, v);
      var r := ReplaceAll(ms, k, v);
      assert r[1..] == ReplaceAll(ms[1..], k, v);
    }
  }

  /** A key other than the first one's is bound in the members iff it is bound in the rest. */
  lemma HasKeyTail(ms: seq<Member>, k: string)
    requires ms != [] && ms[0].key != k
    ensures HasKey(ms, k) <==> HasKey(ms[1..], k)
  {
    if HasKey(ms, k) {
      var i :| 0 <= i < |ms| && ms[i].key == k;
      assert ms[1..][i - 1].key == k;
    }
    if HasKey(ms[1..], k) {
      var i :| 0 <= i < |ms[1..]| && ms[1..][i].key == k;
      assert ms[i + 1].key == k;
    }
  }

  /** `{ ...ms, [k]: v }` keeps the key order of `ms`, appending `k` only when
      it is new. */
  lemma {:induction false} SetMemberKeys(ms: seq<Member>, k: string, v: Value)
    ensures Keys(SetMember(ms, k, v)) == if HasKey(ms, k) then Keys(ms) else Keys(ms) + [k]
  {
    if ms == [] {
      assert !HasKey(ms, k);
    } else if ms[0].key == k {
      assert HasKey(ms, k) by { assert ms[0].key == k; }
      ReplaceAllKeepsKeys(ms[1..], k, v);
      KeysCons(Member(k, v), ReplaceAll(ms[1..], k, v));
    } else {
      var t := SetMember(ms[1..], k, v);
      SetMemberKeys(ms[1..], k, v);
      HasKeyTail(ms, k);
      KeysCons(ms[0], t);
      if !HasKey(ms, k) {
        assert [ms[0].key] + (Keys(ms[1..]) + [k]) == ([ms[0].key] + Keys(ms[1..])) + [k];
      }
    }
  }

  /** Unfolding `Lookup` at the head of the members. */
  lemma LookupHead(m: Member, rest: seq<Member>, k: string)
    ensures Lookup([m] + rest, k) == if m.key == k then m.value else Lookup(rest, k)
  {
    assert ([m] + rest)[1..] == rest;
  }

  lemma KeysCons(m: Member, ms: seq<Member>)
    ensures Keys([m] + ms) == [m.key] + Keys(ms)
  {
    assert ([m] + ms)[1..] == ms;
  }

  /** `delete o[k]`: the members without any binding of `k`, in order. */
  function DeleteMember(ms: seq<Member>, k: string): (r: seq<Member>)
    ensures !HasKey(r, k)
    ensures Lookup(r, k) == Undefined
    ensures forall k' :: k' != k ==> Lookup(r, k') == Lookup(ms, k')
  {
    if ms == [] then []
    else if ms[0].key == k then DeleteMember(ms[1..], k)
    else
      var rest := DeleteMember(ms[1..], k);
      assert forall i :: 1 <= i < |[ms[0]] + rest| ==> ([ms[0]] + rest)[i] == rest[i - 1];
      [ms[0]] + rest
  }

  /** The characters JavaScript's `trim` removes and its regular expressions
      match with `\s`: WhiteSpace (tab, vertical tab, form feed, space,
      no-break space, byte order mark, the Unicode space separators) and
      LineTerminator (line feed, carriage return, U+2028, U+2029). */
  predicate IsJsSpace(c: char)
  {
    var x := c as int;
    || (0x09 <= x <= 0x0D) || x == 0x20 || x == 0xA0 || x == 0x1680
    || (0x2000 <= x <= 0x200A) || x == 0x2028 || x == 0x2029 || x == 0x202F
    || x == 0x205F || x == 0x3000 || x == 0xFEFF
  }

  predicate AllSpace(s: string)
  {
    forall k :: 0 <= k < |s| ==> IsJsSpace(s[k])
  }

  predicate NoSpace(s: string)
  {
    forall k :: 0 <= k < |s| ==> !IsJsSpace(s[k])
  }

  /** How many white-space characters `s` starts with. */
  function LeadingSpaces(s: string): (n: nat)
    ensures n <= |s|
    ensures AllSpace(s[..n])
    ensures n < |s| ==> !IsJsSpace(s[n])
  {
    if s == [] || !IsJsSpace(s[0]) then 0
    else
      var n := LeadingSpaces(s[1..]);
      assert s[..n + 1] == [s[0]] + s[1..][..n];
      1 + n
  }

  /** How many white-space characters `s` ends with. */
  function TrailingSpaces(s: string): (n: nat)
    ensures n <= |s|
    ensures AllSpace(s[|s| - n..])
    ensures n < |s| ==> !IsJsSpace(s[|s| - n - 1])
  {
    if s == [] || !IsJsSpace(s[|s| - 1]) then 0
    else
      var n := TrailingSpaces(s[..|s| - 1]);
      assert s[|s| - (n + 1)..] == s[..|s| - 1][|s| - 1 - n..] + [s[|s| - 1]];
      1 + n
  }

  /** `s.trim()`. */
  function Trim(s: string): (r: string)
    ensures |r| <= |s|
    ensures r == "" <==> AllSpace(s)
    ensures r != "" ==> !IsJsSpace(r[0]) && !IsJsSpace(r[|r| - 1])
    ensures NoSpace(s) ==> r == s
    ensures LeadingSpaces(s) + |r| <= |s|
    ensures r == s[LeadingSpaces(s)..LeadingSpaces(s) + |r|]
    ensures AllSpace(s[LeadingSpaces(s) + |r|..])
  {
    var a := LeadingSpaces(s);
    var b := TrailingSpaces(s[a..]);
    TrimmedEmptyIff(s, a, b);
    TrimmedEnds(s, a, b);
    TrimmedNothing(s, a, b);
    TrimmedTail(s, a, b);
    s[a..|s| - b]
  }

  /** With `a` leading and `b` trailing white-space characters cut off, nothing is left exactly for an all-space text. */
  lemma TrimmedEmptyIff(s: string, a: nat, b: nat)
    requires a == LeadingSpaces(s) && b == TrailingSpaces(s[a..])
    ensures a <= |s| - b
    ensures s[a..|s| - b] == "" <==> AllSpace(s)
  {
    if a < |s| {
      NotAllSpaceAfterLeading(s, a, b);
    } else {
      AllLeadingSpace(s, a, b);
    }
  }

  /** A text made only of leading white space is all space and has nothing left to trim. */
  lemma AllLeadingSpace(s: string, a: nat, b: nat)
    requires a == LeadingSpaces(s) && a == |s| && b == TrailingSpaces(s[a..])
    ensures b == 0 && s[a..|s| - b] == "" && AllSpace(s)
  {
    assert |s[a..]| == 0;
    assert s[..a] == s;
    assert |s[a..|s| - b]| == 0;
  }

  /** When some character is not white space, the trimmed slice is not empty. */
  lemma NotAllSpaceAfterLeading(s: string, a: nat, b: nat)
    requires a == LeadingSpaces(s) && a < |s| && b == TrailingSpaces(s[a..])
    ensures a < |s| - b && s[a..|s| - b] != "" && !AllSpace(s)
  {
    var t := s[a..];
    assert t[0] == s[a];
    FirstNotTrailing(t);
    assert |s[a..|s| - b]| > 0;
  }

  /** A text that starts with a non-space character is not all trailing space. */
  lemma {:induction false} FirstNotTrailing(t: string)
    requires t != [] && !IsJsSpace(t[0])
    ensures TrailingSpaces(t) < |t|
    decreases |t|
  {
    if IsJsSpace(t[|t| - 1]) {
      assert |t| > 1;
      var u := t[..|t| - 1];
      assert u[0] == t[0];
      FirstNotTrailing(u);
    }
  }

  /** A text without white space loses nothing. */
  lemma TrimmedNothing(s: string, a: nat, b: nat)
    requires a == LeadingSpaces(s) && b == TrailingSpaces(s[a..])
    ensures NoSpace(s) ==> a == 0 && b == 0
  {
  }

  /** What is left starts and ends with a character that is not white space. */
  lemma TrimmedEnds(s: string, a: nat, b: nat)
    requires a == LeadingSpaces(s) && b == TrailingSpaces(s[a..]) && a <= |s| - b
    ensures var r := s[a..|s| - b]; r != "" ==> !IsJsSpace(r[0]) && !IsJsSpace(r[|r| - 1])
  {
    var t := s[a..];
    if a < |s| - b {
      assert s[a..|s| - b][0] == s[a];
      assert s[a..|s| - b][|s| - b - a - 1] == t[|t| - b - 1];
    }
  }

  /** Everything after what is left is white space. */
  lemma TrimmedTail(s: string, a: nat, b: nat)
    requires a == LeadingSpaces(s) && b == TrailingSpaces(s[a..]) && a <= |s| - b
    ensures AllSpace(s[|s| - b..])
  {
    var t := s[a..];
    assert s[|s| - b..] == t[|t| - b..];
  }

  /** `s.startsWith(p)`. */
  predicate StartsWith(s: string, p: string)
  {
    |p| <= |s| && s[..|p|] == p
  }

  /** `s.split(c)` for a one-character separator: the pieces between the
      separators, always at least one (`"".split("/")` is `[""]`). */
  function Split(s: string, c: char): (r: seq<string>)
    ensures |r| >= 1
    ensures forall i :: 0 <= i < |r| ==> c !in r[i]
  {
    if s == [] then [""]
    else
      var rest := Split(s[1..], c);
      if s[0] == c then [""] + rest
      else [[s[0]] + rest[0]] + rest[1..]
  }

  /** `parts.join(c)` for a non-empty list of parts. */
  function Join(parts: seq<string>, c: char): string
    requires |parts| >= 1
  {
    if |parts| == 1 then parts[0] else parts[0] + [c] + Join(parts[1..], c)
  }

  lemma {:induction false} JoinSplit(s: string, c: char)
    ensures Join(Split(s, c), c) == s
  {
    if s != [] {
      JoinSplit(s[1..], c);
      var rest := Split(s[1..], c);
      if s[0] == c {
        assert s == [c] + s[1..];
      } else {
        if |rest| == 1 {
          assert s == [s[0]] + s[1..];
        } else {
          assert rest == [rest[0]] + rest[1..];
          assert Join(rest, c) == rest[0] + [c] + Join(rest[1..], c);
          assert s == [s[0]] + s[1..];
        }
      }
    }
  }

  /** Splitting a joined list gives the parts back when no part contains the separator. */
  lemma {:induction false} SplitJoin(parts: seq<string>, c: char)
    requires |parts| >= 1
    requires forall i :: 0 <= i < |parts| ==> c !in parts[i]
    ensures Split(Join(parts, c), c) == parts
  {
    if |parts| == 1 {
      SplitNoSeparator(parts[0], c);
    } else {
      SplitJoin(parts[1..], c);
      SplitPrefix(parts[0], Join(parts[1..], c), c);
      assert Join(parts, c) == parts[0] + ([c] + Join(parts[1..], c));
    }
  }

  /** A join ends with the last character of its last part. */
  lemma {:induction false} JoinEndsWithLastPart(parts: seq<string>, c: char)
    requires |parts| >= 1 && parts[|parts| - 1] != ""
    ensures var j := Join(parts, c); j != "" && j[|j| - 1] == parts[|parts| - 1][|parts[|parts| - 1]| - 1]
  {
    if |parts| > 1 {
      JoinEndsWithLastPart(parts[1..], c);
    }
  }

  lemma {:induction false} SplitNoSeparator(s: string, c: char)
    requires c !in s
    ensures Split(s, c) == [s]
  {
    if s != [] {
      assert c !in s[1..] by { assert forall x :: x in s[1..] ==> x in s; }
      SplitNoSeparator(s[1..], c);
      assert s == [s[0]] + s[1..];
    }
  }

  /** Splitting `p + c + t` where `p` is free of `c` yields `p` followed by the pieces of `t`. */
  lemma {:induction false} SplitPrefix(p: string, t: string, c: char)
    requires c !in p
    ensures Split(p + ([c] + t), c) == [p] + Split(t, c)
  {
    if p == [] {
      assert p + ([c] + t) == [c] + t;
      assert ([c] + t)[1..] == t;
    } else {
      assert c !in p[1..] by { assert forall x :: x in p[1..] ==> x in p; }
      SplitPrefix(p[1..], t, c);
      var s := p + ([c] + t);
      assert s[0] == p[0] && s[1..] == p[1..] + ([c] + t);
      assert [p[0]] + p[1..] == p;
    }
  }

  /** The decimal digits of a natural number. */
  function NatToString(n: nat): (r: string)
    ensures |r| >= 1 && AllDigits(r)
    decreases n
  {
    if n < 10 then [Digit(n)] else NatToString(n / 10) + [Digit(n % 10)]
  }

  function Digit(d: nat): char
    requires d < 10
  {
    "0123456789"[d]
  }

  predicate IsDigit(c: char)
  {
    '0' <= c <= '9'
  }

  predicate AllDigits(s: string)
  {
    forall k :: 0 <= k < |s| ==> IsDigit(s[k])
  }

  /** The number a string of decimal digits denotes. */
  function DigitsValue(s: string): nat
    requires AllDigits(s)
  {
    if s == [] then 0
    else DigitsValue(s[..|s| - 1]) * 10 + ((s[|s| - 1] as int) - ('0' as int))
  }

  lemma {:induction false} DigitsOfNat(n: nat)
    ensures DigitsValue(NatToString(n)) == n
    decreases n
  {
    if n >= 10 {
      DigitsOfNat(n / 10);
      var s := NatToString(n);
      assert s[..|s| - 1] == NatToString(n / 10);
    }
  }

  /** A number in decimal, as `String(n)` writes it. */
  function IntToString(n: int): string
  {
    if n < 0 then "-" + NatToString(-n) else NatToString(n)
  }

  /** `Number(s)` on a string: surrounding white space is ignored, the empty
      string is 0, an optionally signed run of decimal digits is its value and
      anything else is NaN (`None`). */
  function NumberFromString(s: string): (r: Option<int>)
  {
    var t := Trim(s);
    if t == "" then Some(0)
    else if (t[0] == '-' || t[0] == '+') && |t| > 1 && AllDigits(t[1..]) then
      var magnitude: int := DigitsValue(t[1..]);
      Some(if t[0] == '-' then -magnitude else magnitude)
    else if AllDigits(t) then Some(DigitsValue(t))
    else None
  }

  /** `Number(String(n)) === n` for every integer. */
  lemma NumberOfIntString(n: int)
    ensures NumberFromString(IntToString(n)) == Some(n)
  {
    var s := IntToString(n);
    var d := NatToString(if n < 0 then -n else n);
    DigitsOfNat(if n < 0 then -n else n);
    assert NoSpace(s) by {
      if n < 0 { assert s == "-" + d; }
    }
    if n < 0 {
      assert s[1..] == d;
    } else {
      assert s == d && !(s[0] == '-' || s[0] == '+');
    }
  }

  /** `String(v)`, also what a template literal `${v}` and `localStorage.setItem` write. */
  function JsString(v: Value): string
  {
    match v
    case Undefined => "undefined"
    case Null => "null"
    case Bool(b) => if b then "true" else "false"
    case Num(n) => IntToString(n)
    case Str(s) => s
    case Arr(items) => JoinElements(items)
    case Obj(_) => "[object Object]"
  }

  /** `String(array)`: the elements joined by commas, `null` and `undefined` as empty. */
  function JoinElements(items: seq<Value>): string
  {
    if items == [] then ""
    else
      var first := if IsNullish(items[0]) then "" else JsString(items[0]);
      if |items| == 1 then first else first + "," + JoinElements(items[1..])
  }

  /** `Number(v)`; `None` is NaN. */
  function ToNumber(v: Value): Option<int>
  {
    match v
    case Undefined => None
    case Null => Some(0)
    case Bool(b) => Some(if b then 1 else 0)
    case Num(n) => Some(n)
    case Str(s) => NumberFromString(s)
    case _ => NumberFromString(JsString(v))
  }

  /** `Number(a) === Number(b)`: NaN equals nothing, not even itself. */
  predicate SameNumber(a: Value, b: Value)
  {
    ToNumber(a).Some? && ToNumber(b).Some? && ToNumber(a).value == ToNumber(b).value
  }

  /** `a === b` on values read from parsed JSON. Arrays and objects compare by
      identity in JavaScript; two separately parsed ones are never identical,
      which is how the model treats them. */
  predicate StrictEquals(a: Value, b: Value)
  {
    match (a, b)
    case (Undefined, Undefined) => true
    case (Null, Null) => true
    case (Bool(x), Bool(y)) => x == y
    case (Num(x), Num(y)) => x == y
    case (Str(x), Str(y)) => x == y
    case _ => false
  }

  /** `s.trim()` applied to a value: only strings have `trim`; on anything else
      the call throws a TypeError (`None`). */
  function TrimValue(v: Value): (r: Option<string>)
    ensures r.Some? <==> v.Str?
    ensures v.Str? ==> r.value == Trim(v.s)
  {
    match v
    case Str(s) => Some(Trim(s))
    case _ => None
  }

  /** The JavaScript `length` of a string: UTF-16 code units, so a character
      outside the Basic Multilingual Plane counts twice. */
  function Utf16Length(s: string): (n: nat)
    ensures |s| <= n <= 2 * |s|
  {
    if s == [] then 0
    else (if s[0] as int > 0xFFFF then 2 else 1) + Utf16Length(s[1..])
  }
}
