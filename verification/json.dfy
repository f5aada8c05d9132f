/** The part of JSON that the analytics record goes through: JSON.stringify
    of a plain object whose properties hold integers or strings, and
    JSON.parse back into such an object. A JavaScript object is kept as its
    own properties in property order, so that the text JSON.stringify writes
    is determined. */
module Json {
  import opened Wrappers
  import opened JsNumbers

  /** A property value: a JSON number (integers only) or a string. */
  datatype Value = Num(n: int) | Str(s: string)

  type Member = (string, Value)

  /** A plain object as the list of its properties, oldest first. */
  type Object = seq<Member>

  /** ToBoolean: 0 and the empty string are falsy, every other value is truthy. */
  predicate Truthy(v: Value)
    ensures Truthy(v) <==> v != Num(0) && v != Str("")
  {
    match v
    case Num(n) => n != 0
    case Str(s) => s != ""
  }

  function KeySet(o: Object): set<string>
  {
    if o == [] then {} else {o[0].0} + KeySet(o[1..])
  }

  /** No property name occurs twice, which holds of every real object. */
  predicate DistinctKeys(o: Object)
  {
    o == [] || (o[0].0 !in KeySet(o[1..]) && DistinctKeys(o[1..]))
  }

  /** The names every plain object inherits from Object.prototype. Reading
      one of them from an object that has no own property of that name finds
      the inherited member, a function, which this model does not represent. */
  predicate Inherited(name: string)
  {
    name in {"constructor", "hasOwnProperty", "isPrototypeOf", "propertyIsEnumerable",
             "toLocaleString", "toString", "valueOf", "__proto__",
             "__defineGetter__", "__defineSetter__", "__lookupGetter__", "__lookupSetter__"}
  }

  /** The property read obj[key] of an own property; None is undefined. */
  function Get(o: Object, key: string): (r: Option<Value>)
    ensures r.Some? <==> key in KeySet(o)
  {
    if o == [] then None
    else if o[0].0 == key then Some(o[0].1)
    else Get(o[1..], key)
  }

  /** The property assignment obj[key] = v: a property that exists keeps its
      place and takes the new value, a new one is added after the others. */
  function Put(o: Object, key: string, v: Value): (r: Object)
    ensures Get(r, key) == Some(v)
    ensures forall k | k != key :: Get(r, k) == Get(o, k)
    ensures KeySet(r) == KeySet(o) + {key}
    ensures DistinctKeys(o) ==> DistinctKeys(r)
    ensures key !in KeySet(o) ==> r == o + [(key, v)]
  {
    if o == [] then [(key, v)]
    else if o[0].0 == key then [(key, v)] + o[1..]
    else
      var r := [o[0]] + Put(o[1..], key, v);
      assert r[1..] == Put(o[1..], key, v);
      r
  }

  // ---------------------------------------------------------------------
  // JSON.stringify

  /** How JSON.stringify writes one character of a string. */
  function EscapeChar(c: char): string
  {
    if c == '"' then ['\\', '"']
    else if c == '\\' then ['\\', '\\']
    else if c == '\U{8}' then ['\\', 'b']
    else if c == '\t' then ['\\', 't']
    else if c == '\n' then ['\\', 'n']
    else if c == '\U{C}' then ['\\', 'f']
    else if c == '\r' then ['\\', 'r']
    else if c < ' ' then ['\\', 'u', '0', '0', HexChar(c as int / 16), HexChar(c as int % 16)]
    else [c]
  }

  function Escape(s: string): string
  {
    if s == [] then [] else EscapeChar(s[0]) + Escape(s[1..])
  }

  function Quote(s: string): string
  {
    ['"'] + Escape(s) + ['"']
  }

  function ValueText(v: Value): string
  {
    match v
    case Num(n) => IntToString(n)
    case Str(s) => Quote(s)
  }

  function MemberText(m: Member): string
  {
    Quote(m.0) + [':'] + ValueText(m.1)
  }

  function MembersText(o: Object): string
    requires o != []
  {
    if |o| == 1 then MemberText(o[0]) else MemberText(o[0]) + [','] + MembersText(o[1..])
  }

  /** JSON.stringify(obj). */
  function Stringify(o: Object): (text: string)
    ensures text != "" && text[0] == '{'
  {
    if o == [] then "{}" else ['{'] + MembersText(o) + ['}']
  }

  // ---------------------------------------------------------------------
  // JSON.parse

  predicate IsJsonSpace(c: char) { c == ' ' || c == '\t' || c == '\n' || c == '\r' }

  function SkipSpace(s: string): (r: string)
    ensures |r| <= |s|
    ensures r == [] || !IsJsonSpace(r[0])
  {
    if s != [] && IsJsonSpace(s[0]) then SkipSpace(s[1..]) else s
  }

  /** The character that an escape sequence stands for, and the length of the
      sequence; s is the text after the backslash. A \u escape that names a
      surrogate code unit is refused. */
  function Unescape(s: string): (r: Option<(char, nat)>)
    ensures r.Some? ==> 1 <= r.value.1 <= |s|
  {
    if s == [] then None
    else if s[0] == '"' then Some(('"', 1))
    else if s[0] == '\\' then Some(('\\', 1))
    else if s[0] == '/' then Some(('/', 1))
    else if s[0] == 'b' then Some(('\U{8}', 1))
    else if s[0] == 'f' then Some(('\U{C}', 1))
    else if s[0] == 'n' then Some(('\n', 1))
    else if s[0] == 'r' then Some(('\r', 1))
    else if s[0] == 't' then Some(('\t', 1))
    else if s[0] == 'u' && |s| >= 5 && IsHexDigit(s[1]) && IsHexDigit(s[2])
            && IsHexDigit(s[3]) && IsHexDigit(s[4]) then
      var code := 4096 * HexDigitValue(s[1]) + 256 * HexDigitValue(s[2])
                  + 16 * HexDigitValue(s[3]) + HexDigitValue(s[4]);
      if 0xD800 <= code < 0xE000 then None else Some((code as char, 5))
    else None
  }

  /** The characters of a JSON string up to its closing quote, and the text
      after that quote; s is the text after the opening quote. */
  function ParseChars(s: string): (r: Option<(string, string)>)
    ensures r.Some? ==> |r.value.1| < |s|
    decreases |s|
  {
    if s == [] then None
    else if s[0] == '"' then Some(([], s[1..]))
    else if s[0] == '\\' then
      match Unescape(s[1..])
      case None => None
      case Some((c, n)) => Prepend(c, ParseChars(s[1 + n..]))
    else if s[0] < ' ' then None
    else Prepend(s[0], ParseChars(s[1..]))
  }

  function Prepend(c: char, r: Option<(string, string)>): Option<(string, string)>
  {
    match r
    case None => None
    case Some((t, rest)) => Some(([c] + t, rest))
  }

  /** A JSON number that is an integer: an optional minus sign and digits
      with no leading zero. A fraction or an exponent is not read. */
  function ParseNumber(s: string): (r: Option<(int, string)>)
    ensures r.Some? ==> |r.value.1| < |s|
  {
    if s != [] && s[0] == '-' then
      match ParseDigits(s[1..])
      case None => None
      case Some((n, rest)) => Some((-n, rest))
    else ParseDigits(s)
  }

  function ParseDigits(u: string): (r: Option<(int, string)>)
    ensures r.Some? ==> |r.value.1| < |u|
  {
    var n := DigitCount(u);
    if n == 0 || (u[0] == '0' && n > 1) then None
    else Some((DigitsValue(u[..n]), u[n..]))
  }

  /** A property value, after optional white space. */
  function ParseValue(s: string): (r: Option<(Value, string)>)
    ensures r.Some? ==> |r.value.1| < |s|
  {
    var t := SkipSpace(s);
    if t != [] && t[0] == '"' then
      match ParseChars(t[1..])
      case None => None
      case Some((str, rest)) => Some((Str(str), rest))
    else
      match ParseNumber(t)
      case None => None
      case Some((n, rest)) => Some((Num(n), rest))
  }

  /** One property, "name": value, after optional white space; with the
      text that follows its value. */
  function ParseMember(s: string): (r: Option<(Member, string)>)
    ensures r.Some? ==> |r.value.1| < |s|
  {
    var t := SkipSpace(s);
    if t == [] || t[0] != '"' then None
    else
      match ParseChars(t[1..])
      case None => None
      case Some((key, afterKey)) =>
        var colon := SkipSpace(afterKey);
        if colon == [] || colon[0] != ':' then None
        else
          match ParseValue(colon[1..])
          case None => None
          case Some((v, afterValue)) => Some(((key, v), afterValue))
  }

  /** The properties of an object from the first one on, added to acc in the
      order they are written; a repeated name keeps its first place and takes
      its last value, as JSON.parse does. */
  function ParseMembers(s: string, acc: Object): (r: Option<Object>)
    ensures r.Some? && DistinctKeys(acc) ==> DistinctKeys(r.value)
    decreases |s|
  {
    match ParseMember(s)
    case None => None
    case Some((m, afterValue)) =>
      var next := SkipSpace(afterValue);
      if next != [] && next[0] == ',' then ParseMembers(next[1..], Put(acc, m.0, m.1))
      else if next != [] && next[0] == '}' && SkipSpace(next[1..]) == [] then Some(Put(acc, m.0, m.1))
      else None
  }

  /** JSON.parse(text) when the text is an object of integer and string
      properties; None for any other text, where JSON.parse throws or yields
      something that is not such an object. */
  function Parse(text: string): (r: Option<Object>)
    ensures r.Some? ==> DistinctKeys(r.value)
  {
    var s := SkipSpace(text);
    if s == [] || s[0] != '{' then None
    else
      var t := SkipSpace(s[1..]);
      if t != [] && t[0] == '}' then (if SkipSpace(t[1..]) == [] then Some([]) else None)
      else ParseMembers(t, [])
  }

  // ---------------------------------------------------------------------
  // JSON.parse reads back what JSON.stringify writes

  /** Reading one written character and then the rest of a string. */
  lemma ParseCharsStep(c: char, x: string)
    ensures ParseChars(EscapeChar(c) + x) == Prepend(c, ParseChars(x))
  {
    if c == '"' || c == '\\' || c == '\U{8}' || c == '\t' || c == '\n' || c == '\U{C}' || c == '\r' {
      ParseShortEscape(c, x);
    } else if c < ' ' {
      ParseUnicodeEscape(c, x);
    } else {
      var s := EscapeChar(c) + x;
      assert s[0] == c && s[1..] == x;
    }
  }

  lemma ParseShortEscape(c: char, x: string)
    requires c == '"' || c == '\\' || c == '\U{8}' || c == '\t' || c == '\n' || c == '\U{C}' || c == '\r'
    ensures ParseChars(EscapeChar(c) + x) == Prepend(c, ParseChars(x))
  {
    var e := EscapeChar(c);
    var s := e + x;
    assert |e| == 2 && e[0] == '\\';
    assert s[0] == '\\' && s[1..] == [e[1]] + x && s[2..] == x;
    assert Unescape(s[1..]) == Some((c, 1));
  }

  lemma ParseUnicodeEscape(c: char, x: string)
    requires c < ' ' && c != '\U{8}' && c != '\t' && c != '\n' && c != '\U{C}' && c != '\r'
    ensures ParseChars(EscapeChar(c) + x) == Prepend(c, ParseChars(x))
  {
    var hi, lo := c as int / 16, c as int % 16;
    var u := ['u', '0', '0', HexChar(hi), HexChar(lo)] + x;
    var s := EscapeChar(c) + x;
    assert s == ['\\'] + u;
    assert s[0] == '\\' && s[1..] == u && s[6..] == x;
    assert u[0] == 'u' && u[1] == '0' && u[2] == '0' && u[3] == HexChar(hi) && u[4] == HexChar(lo);
    assert HexDigitValue('0') == 0;
    assert 16 * hi + lo == c as int;
    assert Unescape(u) == Some((c, 5));
  }

  lemma {:induction false} ParseCharsRoundTrip(t: string, rest: string)
    ensures ParseChars(Escape(t) + ['"'] + rest) == Some((t, rest))
  {
    if t == [] {
      assert Escape(t) + ['"'] + rest == ['"'] + rest;
    } else {
      var x := Escape(t[1..]) + ['"'] + rest;
      assert Escape(t) + ['"'] + rest == EscapeChar(t[0]) + x;
      ParseCharsStep(t[0], x);
      ParseCharsRoundTrip(t[1..], rest);
      assert [t[0]] + t[1..] == t;
    }
  }

  /** Digits with no leading zero, followed by a non-digit, are read as a number. */
  lemma ParseDigitsOfText(d: string, rest: string)
    requires |d| > 0 && AllDigits(d) && (d[0] == '0' ==> |d| == 1)
    requires rest == [] || !IsDigit(rest[0])
    ensures ParseDigits(d + rest) == Some((DigitsValue(d), rest))
  {
    DigitCountOfDigits(d, rest);
    var s := d + rest;
    assert s[..|d|] == d && s[|d|..] == rest && s[0] == d[0];
  }

  lemma ParseNumberRoundTrip(n: int, rest: string)
    requires rest == [] || !IsDigit(rest[0])
    ensures ParseNumber(IntToString(n) + rest) == Some((n, rest))
  {
    if n < 0 {
      var d := NatToString(-n);
      ParseDigitsOfText(d, rest);
      assert IntToString(n) + rest == ['-'] + (d + rest);
      assert (['-'] + (d + rest))[1..] == d + rest;
    } else {
      var d := NatToString(n);
      ParseDigitsOfText(d, rest);
      assert IsDigit(d[0]);
    }
  }

  lemma ParseValueRoundTrip(v: Value, rest: string)
    requires rest == [] || !IsDigit(rest[0])
    ensures ParseValue(ValueText(v) + rest) == Some((v, rest))
  {
    match v
    case Num(n) => ParseValueOfNumber(n, rest);
    case Str(s) => ParseValueOfString(s, rest);
  }

  lemma ParseValueOfNumber(n: int, rest: string)
    requires rest == [] || !IsDigit(rest[0])
    ensures ParseValue(IntToString(n) + rest) == Some((Num(n), rest))
  {
    var t := IntToString(n) + rest;
    assert t[0] == '-' || IsDigit(t[0]) by {
      assert t[0] == IntToString(n)[0];
      if n >= 0 { assert IsDigit(NatToString(n)[0]); }
    }
    assert SkipSpace(t) == t;
    ParseNumberRoundTrip(n, rest);
  }

  lemma ParseValueOfString(s: string, rest: string)
    ensures ParseValue(Quote(s) + rest) == Some((Str(s), rest))
  {
    var t := Quote(s) + rest;
    assert t == ['"'] + (Escape(s) + ['"'] + rest);
    assert t[0] == '"' && t[1..] == Escape(s) + ['"'] + rest;
    assert SkipSpace(t) == t;
    ParseCharsRoundTrip(s, rest);
  }

  lemma KeySetAppend(a: Object, b: Object)
    ensures KeySet(a + b) == KeySet(a) + KeySet(b)
  {
    if a != [] {
      assert (a + b)[1..] == a[1..] + b;
      KeySetAppend(a[1..], b);
    } else {
      assert a + b == b;
    }
  }

  lemma {:induction false} DistinctAppend(a: Object, b: Object)
    requires DistinctKeys(a + b)
    ensures DistinctKeys(a) && KeySet(a) !! KeySet(b)
  {
    if a != [] {
      assert (a + b)[1..] == a[1..] + b;
      DistinctAppend(a[1..], b);
      KeySetAppend(a[1..], b);
    }
  }

  /** What ParseMember reads from a quoted name, a colon and a value. */
  lemma ParseMemberOfParts(s: string, key: string, afterKey: string, v: Value, tail: string)
    requires s != [] && s[0] == '"' && ParseChars(s[1..]) == Some((key, afterKey))
    requires afterKey != [] && afterKey[0] == ':' && ParseValue(afterKey[1..]) == Some((v, tail))
    ensures ParseMember(s) == Some(((key, v), tail))
  {
    assert SkipSpace(s) == s && SkipSpace(afterKey) == afterKey;
  }

  /** What ParseMember reads from an opening quote, a written name and its
      closing quote x, a colon, a written value vt and what follows. */
  lemma ParseMemberOfTexts(x: string, key: string, afterKey: string, y: string, v: Value, tail: string)
    requires ParseChars(x) == Some((key, afterKey))
    requires afterKey == [':'] + y
    requires ParseValue(y) == Some((v, tail))
    ensures ParseMember(['"'] + x) == Some(((key, v), tail))
  {
    var s := ['"'] + x;
    assert s[1..] == x;
    assert afterKey[1..] == y;
    ParseMemberOfParts(s, key, afterKey, v, tail);
  }

  /** Reading one written property, followed by a comma or by the closing brace. */
  lemma ParseMemberRoundTrip(m: Member, tail: string)
    requires tail == [] || !IsDigit(tail[0])
    ensures ParseMember(MemberText(m) + tail) == Some((m, tail))
  {
    var y := ValueText(m.1) + tail;
    var afterKey := [':'] + y;
    var x := Escape(m.0) + ['"'] + afterKey;
    assert MemberText(m) == ['"'] + Escape(m.0) + ['"'] + [':'] + ValueText(m.1);
    RegroupMember(Escape(m.0), ValueText(m.1), tail);
    ParseCharsRoundTrip(m.0, afterKey);
    ParseValueRoundTrip(m.1, tail);
    ParseMemberOfTexts(x, m.0, afterKey, y, m.1, tail);
  }

  lemma RegroupMember(e: string, vt: string, tail: string)
    ensures ['"'] + e + ['"'] + [':'] + vt + tail == ['"'] + (e + ['"'] + ([':'] + (vt + tail)))
  {
  }

  /** What ParseMembers does after reading one property. */
  lemma ParseMembersAfterMember(s: string, m: Member, tail: string, acc: Object)
    requires ParseMember(s) == Some((m, tail))
    requires tail == ['}'] || (tail != [] && tail[0] == ',')
    ensures ParseMembers(s, acc)
            == if tail == ['}'] then Some(Put(acc, m.0, m.1)) else ParseMembers(tail[1..], Put(acc, m.0, m.1))
  {
    assert SkipSpace(tail) == tail;
    if tail == ['}'] {
      assert tail[1..] == [];
    }
  }

  lemma ParseMemberStep(m: Member, tail: string, acc: Object)
    requires tail == ['}'] || (tail != [] && tail[0] == ',')
    ensures ParseMembers(MemberText(m) + tail, acc)
            == if tail == ['}'] then Some(Put(acc, m.0, m.1)) else ParseMembers(tail[1..], Put(acc, m.0, m.1))
  {
    ParseMemberRoundTrip(m, tail);
    ParseMembersAfterMember(MemberText(m) + tail, m, tail, acc);
  }

  /** The first property of a non-empty object is not among those before it,
      and assigning it appends it. */
  lemma PutFirstAppends(o: Object, acc: Object)
    requires o != [] && DistinctKeys(acc + o)
    ensures Put(acc, o[0].0, o[0].1) == acc + [o[0]]
    ensures DistinctKeys((acc + [o[0]]) + o[1..])
  {
    assert o[0].0 !in KeySet(acc) by {
      DistinctAppend(acc, o);
      assert o[0].0 in KeySet(o);
    }
    AppendFirst(acc, o);
  }

  lemma Regroup2(a: string, b: string)
    ensures a + [','] + b + ['}'] == a + ([','] + b + ['}'])
    ensures ([','] + b + ['}'])[1..] == b + ['}']
  {
  }

  lemma AppendFirst<T>(a: seq<T>, o: seq<T>)
    requires o != []
    ensures (a + [o[0]]) + o[1..] == a + o
  {
    assert [o[0]] + o[1..] == o;
  }

  /** Reading the last written property and the closing brace. */
  lemma ParseLastMember(o: Object, acc: Object)
    requires |o| == 1 && DistinctKeys(acc + o)
    ensures ParseMembers(MembersText(o) + ['}'], acc) == Some(acc + o)
  {
    var m := o[0];
    assert MembersText(o) == MemberText(m);
    assert Put(acc, m.0, m.1) == acc + o by {
      PutFirstAppends(o, acc);
      assert [o[0]] == o;
    }
    ParseMemberStep(m, ['}'], acc);
  }

  /** Reading a written property that a comma follows. */
  lemma ParseInnerMember(o: Object, acc: Object)
    requires |o| > 1 && DistinctKeys(acc + o)
    ensures ParseMembers(MembersText(o) + ['}'], acc) == ParseMembers(MembersText(o[1..]) + ['}'], acc + [o[0]])
  {
    PutFirstAppends(o, acc);
    var tail := [','] + MembersText(o[1..]) + ['}'];
    Regroup2(MemberText(o[0]), MembersText(o[1..]));
    ParseMemberStep(o[0], tail, acc);
  }

  /** Reading the written properties of a non-empty object, one at a time,
      into what has been read so far. */
  lemma {:induction false} ParseMembersRoundTrip(o: Object, acc: Object)
    requires o != [] && DistinctKeys(acc + o)
    ensures ParseMembers(MembersText(o) + ['}'], acc) == Some(acc + o)
  {
    if |o| == 1 {
      ParseLastMember(o, acc);
    } else {
      ParseInnerMember(o, acc);
      PutFirstAppends(o, acc);
      ParseMembersRoundTrip(o[1..], acc + [o[0]]);
      AppendFirst(acc, o);
    }
  }

  /** JSON.parse(JSON.stringify(obj)) gives back obj. */
  lemma ParseStringify(o: Object)
    requires DistinctKeys(o)
    ensures Parse(Stringify(o)) == Some(o)
  {
    if o != [] {
      var body := MembersText(o) + ['}'];
      MembersTextOpensWithQuote(o);
      assert Stringify(o) == ['{'] + body;
      ParseOfBraced(body);
      assert [] + o == o;
      ParseMembersRoundTrip(o, []);
    }
  }

  /** An object text whose first property opens right after the brace is
      read property by property from there. */
  lemma ParseOfBraced(body: string)
    requires body != [] && body[0] == '"'
    ensures Parse(['{'] + body) == ParseMembers(body, [])
  {
    var text := ['{'] + body;
    assert SkipSpace(text) == text;
    assert text[1..] == body;
    assert SkipSpace(body) == body;
  }

  lemma MembersTextOpensWithQuote(o: Object)
    requires o != []
    ensures MembersText(o) + ['}'] != [] && (MembersText(o) + ['}'])[0] == '"'
  {
    assert MemberText(o[0])[0] == '"';
  }
}
