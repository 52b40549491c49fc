/** The values given to json.dumps and the texts it makes of them, which tell the values apart. */
module CacheKeyText {
  import opened Core

  /** What json.dumps writes for None, booleans and numbers: no quote or bracket at the front and
      none of the characters that end a value. */
  predicate IsToken(t: string) {
    t != "" && t[0] != '"' && t[0] != '[' && t[0] != '{' && forall i :: 0 <= i < |t| ==> !Delimiter(t[i])
  }

  predicate Delimiter(c: char) {
    c == ',' || c == ']' || c == '}'
  }

  type Token = t: string | IsToken(t) witness "null"

  /** Dictionaries are written with their keys sorted, so they are maps. */
  datatype Canon =
    | Text(text: string)
    | Literal(token: Token)
    | Dict(entries: map<string, Canon>)
    | Array(elements: seq<Canon>)

  // ---------- the order of strings ----------

  predicate TextLess(a: string, b: string) {
    if b == "" then false
    else if a == "" then true
    else a[0] < b[0] || (a[0] == b[0] && TextLess(a[1..], b[1..]))
  }

  lemma {:induction false} TextLessOrder(a: string, b: string, c: string)
    ensures !TextLess(a, a)
    ensures TextLess(a, b) && TextLess(b, c) ==> TextLess(a, c)
  {
    if a != "" {
      if b != "" && c != "" {
        TextLessOrder(a[1..], b[1..], c[1..]);
      } else {
        TextLessOrder(a[1..], "", "");
      }
    }
  }

  lemma {:induction false} TextLessTotal(a: string, b: string)
    ensures a == b || TextLess(a, b) || TextLess(b, a)
  {
    if a != "" && b != "" && a[0] == b[0] {
      TextLessTotal(a[1..], b[1..]);
      assert a == [a[0]] + a[1..] && b == [b[0]] + b[1..];
    }
  }

  // ---------- sorted keys ----------

  predicate IsLeast(s: set<string>, x: string) {
    x in s && forall y :: y in s ==> x == y || TextLess(x, y)
  }

  lemma {:induction false} LeastExists(s: set<string>)
    requires s != {}
    ensures exists x :: IsLeast(s, x)
  {
    var x :| x in s;
    if s == {x} {
      assert IsLeast(s, x);
    } else {
      LeastExists(s - {x});
      var y :| IsLeast(s - {x}, y);
      TextLessTotal(x, y);
      if TextLess(y, x) {
        assert IsLeast(s, y);
      } else {
        forall z | z in s ensures x == z || TextLess(x, z) {
          TextLessOrder(x, y, z);
        }
        assert IsLeast(s, x);
      }
    }
  }

  lemma LeastUnique(s: set<string>)
    ensures forall x, y :: IsLeast(s, x) && IsLeast(s, y) ==> x == y
  {
    forall x, y | IsLeast(s, x) && IsLeast(s, y) ensures x == y {
      TextLessOrder(x, y, x);
    }
  }

  function Least(s: set<string>): (x: string)
    requires s != {}
    ensures x in s
  {
    LeastExists(s);
    LeastUnique(s);
    var x :| IsLeast(s, x);
    x
  }

  /** sorted(keys) */
  function SortedKeys(s: set<string>): (r: seq<string>)
    ensures forall k :: k in r <==> k in s
  {
    if s == {} then [] else [Least(s)] + SortedKeys(s - {Least(s)})
  }

  // ---------- json.dumps ----------

  function HexDigit(d: nat): char
    requires d < 16
  {
    "0123456789abcdef"[d]
  }

  /** One character of a string literal, with ensure_ascii off. */
  function Escaped(c: char): string {
    if c == '"' then "\\\""
    else if c == '\\' then "\\\\"
    else if c == '\n' then "\\n"
    else if c == '\r' then "\\r"
    else if c == '\t' then "\\t"
    else if c as int == 8 then "\\b"
    else if c as int == 12 then "\\f"
    else if c as int < 32 then "\\u00" + [HexDigit(c as int / 16), HexDigit(c as int % 16)]
    else [c]
  }

  function Escape(s: string): string {
    if s == "" then "" else Escaped(s[0]) + Escape(s[1..])
  }

  function Quoted(s: string): string {
    "\"" + Escape(s) + "\""
  }

  function Json(c: Canon): string
    decreases c, 1, 0
  {
    match c
    case Text(text) => Quoted(text)
    case Literal(token) => token
    case Array(elements) => "[" + JsonElements(c, elements) + "]"
    case Dict(entries) => "{" + JsonEntries(c, SortedKeys(entries.Keys)) + "}"
  }

  function JsonElements(c: Canon, elements: seq<Canon>): string
    requires c.Array? && forall e :: e in elements ==> e in c.elements
    decreases c, 0, |elements|
  {
    if elements == [] then ""
    else
      assert elements[0] in elements;
      Json(elements[0]) + if |elements| == 1 then "" else "," + JsonElements(c, elements[1..])
  }

  function JsonEntries(c: Canon, keys: seq<string>): string
    requires c.Dict? && forall k :: k in keys ==> k in c.entries
    decreases c, 0, |keys|
  {
    if keys == [] then ""
    else
      assert keys[0] in keys;
      Quoted(keys[0]) + ":" + Json(c.entries[keys[0]]) + if |keys| == 1 then "" else "," + JsonEntries(c, keys[1..])
  }

  // ---------- reading a text back ----------

  function HexValue(c: char): Option<nat> {
    if '0' <= c <= '9' then Some(c as int - '0' as int)
    else if 'a' <= c <= 'f' then Some(10 + (c as int - 'a' as int))
    else if 'A' <= c <= 'F' then Some(10 + (c as int - 'A' as int))
    else None
  }

  function ReadHex(s: string): Option<char> {
    if |s| < 4 then None
    else
      match (HexValue(s[0]), HexValue(s[1]), HexValue(s[2]), HexValue(s[3]))
      case (Some(a), Some(b), Some(c), Some(d)) =>
        var code := ((a * 16 + b) * 16 + c) * 16 + d;
        if code < 0xD800 || 0xE000 <= code < 0x10000 then Some(code as char) else None
      case _ => None
  }

  /** One character of a string literal, as section 7 of RFC 8259 has it, and what follows. */
  function ReadChar(s: string): (r: Option<(char, string)>)
    ensures r.Some? ==> |r.value.1| < |s|
  {
    if s == "" || s[0] == '"' || s[0] as int < 32 then None
    else if s[0] != '\\' then Some((s[0], s[1..]))
    else if |s| < 2 then None
    else
      match s[1]
      case '"' => Some(('"', s[2..]))
      case '\\' => Some(('\\', s[2..]))
      case '/' => Some(('/', s[2..]))
      case 'b' => Some((8 as char, s[2..]))
      case 'f' => Some((12 as char, s[2..]))
      case 'n' => Some(('\n', s[2..]))
      case 'r' => Some(('\r', s[2..]))
      case 't' => Some(('\t', s[2..]))
      case 'u' =>
        if ReadHex(s[2..]).Some? && |s| >= 6 then Some((ReadHex(s[2..]).value, s[6..])) else None
      case _ => None
  }

  /** The characters up to the closing quote. */
  function ReadText(s: string): (r: Option<(string, string)>)
    ensures r.Some? ==> |r.value.1| < |s|
    decreases |s|
  {
    if s == "" then None
    else if s[0] == '"' then Some(("", s[1..]))
    else
      match ReadChar(s)
      case None => None
      case Some((c, rest)) =>
        match ReadText(rest)
        case None => None
        case Some((text, rest')) => Some(([c] + text, rest'))
  }

  /** Up to the first character that ends a value. */
  function TokenLength(s: string): (n: nat)
    ensures n <= |s| && (n == |s| || Delimiter(s[n])) && forall i :: 0 <= i < n ==> !Delimiter(s[i])
  {
    if s == "" || Delimiter(s[0]) then 0 else 1 + TokenLength(s[1..])
  }

  /** A value as json.loads reads it, from a text without white space, and what follows it. */
  function ReadValue(s: string): (r: Option<(Canon, string)>)
    ensures r.Some? ==> |r.value.1| < |s|
    decreases |s|, 0
  {
    if s == "" then None
    else if s[0] == '"' then
      match ReadText(s[1..])
      case None => None
      case Some((text, rest)) => Some((Text(text), rest))
    else if s[0] == '[' then
      if |s| > 1 && s[1] == ']' then Some((Array([]), s[2..]))
      else
        match ReadElements(s[1..])
        case None => None
        case Some((elements, rest)) => Some((Array(elements), rest))
    else if s[0] == '{' then
      if |s| > 1 && s[1] == '}' then Some((Dict(map[]), s[2..]))
      else
        match ReadEntries(s[1..])
        case None => None
        case Some((entries, rest)) => Some((Dict(entries), rest))
    else
      var n := TokenLength(s);
      if IsToken(s[..n]) then Some((Literal(s[..n]), s[n..])) else None
  }

  function ReadElements(s: string): (r: Option<(seq<Canon>, string)>)
    ensures r.Some? ==> |r.value.1| < |s|
    decreases |s|, 1
  {
    match ReadValue(s)
    case None => None
    case Some((c, rest)) =>
      if rest != "" && rest[0] == ']' then Some(([c], rest[1..]))
      else if rest != "" && rest[0] == ',' then
        match ReadElements(rest[1..])
        case None => None
        case Some((more, rest')) => Some(([c] + more, rest'))
      else None
  }

  function ReadEntries(s: string): (r: Option<(map<string, Canon>, string)>)
    ensures r.Some? ==> |r.value.1| < |s|
    decreases |s|, 1
  {
    if s == "" || s[0] != '"' then None
    else
      match ReadText(s[1..])
      case None => None
      case Some((key, rest)) =>
        if rest == "" || rest[0] != ':' then None
        else
          match ReadValue(rest[1..])
          case None => None
          case Some((c, rest)) =>
            if rest != "" && rest[0] == '}' then Some((map[key := c], rest[1..]))
            else if rest != "" && rest[0] == ',' then
              match ReadEntries(rest[1..])
              case None => None
              case Some((more, rest')) => Some((map[key := c] + more, rest'))
            else None
  }

  // ---------- what is written is read back ----------

  lemma Assoc(a: string, b: string, c: string)
    ensures a + b + c == a + (b + c)
  {
  }

  lemma Regroup(a: string, b: string, right: string, r: string)
    ensures a + ("," + b) + right + r == a + ("," + (b + right + r))
  {
    var mid := "," + b;
    Assoc(a, mid, right);
    Assoc(a, mid + right, r);
    Assoc(mid, right, r);
    Assoc(",", b, right + r);
    Assoc(b, right, r);
  }

  lemma RegroupLast(a: string, right: string, r: string)
    ensures a + "" + right + r == a + (right + r)
  {
    assert a + "" == a;
    Assoc(a, right, r);
  }

  lemma NoQuoteFirst(c: char)
    ensures Escaped(c) != "" && Escaped(c)[0] != '"'
  {
  }

  /** A string literal ends at the first quote that is read. */
  lemma FirstOf(a: string, r: string)
    ensures Escape(a) + "\"" + r != ""
    ensures a == "" <==> (Escape(a) + "\"" + r)[0] == '"'
    ensures a == "" ==> Escape(a) + "\"" + r == "\"" + r
    ensures a != "" ==> Escape(a) + "\"" + r == Escaped(a[0]) + (Escape(a[1..]) + "\"" + r)
  {
    if a != "" {
      NoQuoteFirst(a[0]);
      hide Escaped;
      assert (Escape(a) + "\"" + r)[0] == Escape(a)[0] == Escaped(a[0])[0];
      var x, y := Escaped(a[0]), Escape(a[1..]);
      assert Escape(a) == x + y;
      Assoc(x, y, "\"");
      Assoc(x, y + "\"", r);
    }
  }

  lemma HexBack(c: char)
    requires c as int < 32
    ensures ReadHex("00" + [HexDigit(c as int / 16), HexDigit(c as int % 16)]) == Some(c)
  {
    var a, b: nat := c as int / 16, c as int % 16;
    DigitBack(a);
    DigitBack(b);
    var s := "00" + [HexDigit(a), HexDigit(b)];
    assert s[0] == '0' && s[1] == '0' && s[2] == HexDigit(a) && s[3] == HexDigit(b);
    hide HexValue, HexDigit;
    assert HexValue('0') == Some(0) by { DigitBack(0); ZeroDigit(); }
    assert (a * 16 + b) as char == c;
  }

  lemma ZeroDigit()
    ensures HexDigit(0) == '0'
  {
  }

  lemma DigitBack(d: nat)
    requires d < 16
    ensures HexValue(HexDigit(d)) == Some(d)
  {
  }

  lemma CharBack(c: char, r: string)
    ensures ReadChar(Escaped(c) + r) == Some((c, r))
  {
    var s := Escaped(c) + r;
    if c as int < 32 && |Escaped(c)| == 6 {
      HexBack(c);
      assert Escaped(c) == "\\u00" + [HexDigit(c as int / 16), HexDigit(c as int % 16)];
      var hex := "00" + [HexDigit(c as int / 16), HexDigit(c as int % 16)];
      assert s[2..] == hex + r;
      HexPrefix(hex, r);
      assert s[6..] == r && s[0] == '\\' && s[1] == 'u';
      hide HexDigit, ReadHex;
    } else if |Escaped(c)| == 2 {
      assert s[0] == Escaped(c)[0] && s[1] == Escaped(c)[1] && s[2..] == r;
    } else {
      assert s[0] == c && s[1..] == r;
    }
  }

  lemma HexPrefix(hex: string, r: string)
    requires |hex| == 4
    ensures ReadHex(hex + r) == ReadHex(hex)
  {
  }

  lemma {:induction false} TextBack(a: string, r: string)
    ensures ReadText(Escape(a) + "\"" + r) == Some((a, r))
  {
    FirstOf(a, r);
    hide Escaped, ReadChar;
    if a == "" {
      assert ("\"" + r)[1..] == r;
    } else {
      var rest := Escape(a[1..]) + "\"" + r;
      CharBack(a[0], rest);
      TextBack(a[1..], r);
      assert [a[0]] + a[1..] == a;
    }
  }

  lemma QuotedBack(a: string, r: string)
    ensures Quoted(a) + r != "" && (Quoted(a) + r)[0] == '"' && ReadText((Quoted(a) + r)[1..]) == Some((a, r))
  {
    TextBack(a, r);
    assert Quoted(a) + r == "\"" + (Escape(a) + "\"" + r);
    hide Escape, ReadText;
    assert (Quoted(a) + r)[1..] == Escape(a) + "\"" + r;
  }

  /** Nothing follows the value, or a character that ends it. */
  predicate Ends(r: string) {
    r == "" || Delimiter(r[0])
  }

  /** A token reaches to the first character that ends it. */
  lemma TokenBack(t: Token, r: string)
    requires Ends(r)
    ensures TokenLength(t + r) == |t|
  {
    assert IsToken(t);
    var s := t + r;
    assert forall i :: 0 <= i < |t| ==> !Delimiter(s[i]);
    assert |t| == |s| || Delimiter(s[|t|]);
  }

  /** The first character tells the four kinds of values apart. */
  lemma FirstTells(c: Canon)
    ensures Json(c) != "" && !Delimiter(Json(c)[0])
    ensures c.Text? <==> Json(c)[0] == '"'
    ensures c.Array? <==> Json(c)[0] == '['
    ensures c.Dict? <==> Json(c)[0] == '{'
  {
    if c.Literal? { assert IsToken(c.token); }
  }

  lemma {:induction false} ValueBack(c: Canon, r: string)
    requires Ends(r)
    ensures ReadValue(Json(c) + r) == Some((c, r))
    decreases c, 1, 0
  {
    FirstTells(c);
    var s := Json(c) + r;
    assert s[0] == Json(c)[0];
    hide ReadText, ReadElements, ReadEntries, JsonElements, JsonEntries;
    match c
    case Text(text) => QuotedBack(text, r);
    case Literal(token) =>
      TokenBack(token, r);
      assert s[..|token|] == token && s[|token|..] == r;
    case Array(elements) => ArrayBack(c, elements, r);
    case Dict(entries) => DictBack(c, r);
  }

  lemma {:induction false} ArrayBack(c: Canon, es: seq<Canon>, r: string)
    requires c.Array? && es == c.elements
    ensures ReadValue("[" + JsonElements(c, es) + "]" + r) == Some((c, r))
    decreases c, 0, |es| + 1
  {
    var inner := JsonElements(c, es) + "]" + r;
    var s := "[" + JsonElements(c, es) + "]" + r;
    Inside("[", JsonElements(c, es), "]", r);
    BracketFirst(c, es, r);
    hide JsonElements, ReadElements;
    if es == [] {
      assert s[2..] == r;
    } else {
      ElementsBack(c, es, r);
    }
  }

  lemma {:induction false} DictBack(c: Canon, r: string)
    requires c.Dict?
    ensures ReadValue("{" + JsonEntries(c, SortedKeys(c.entries.Keys)) + "}" + r) == Some((c, r))
    decreases c, 0, |SortedKeys(c.entries.Keys)| + 1
  {
    hide JsonEntries, ReadEntries, SortedKeys, ReadElements, ReadText;
    var ks := SortedKeys(c.entries.Keys);
    var inner := JsonEntries(c, ks);
    Inside("{", inner, "}", r);
    BraceFirst(c, ks, r);
    if ks == [] {
      assert ("{" + inner + "}" + r)[2..] == r;
      assert c.entries == map[];
    } else {
      EntriesBack(c, ks, r);
      assert (map k | k in ks :: c.entries[k]) == c.entries;
      ObjectBack("{" + inner + "}" + r);
    }
  }

  lemma ObjectBack(s: string)
    requires |s| > 1 && s[0] == '{' && s[1] != '}' && ReadEntries(s[1..]).Some?
    ensures ReadValue(s) == Some((Dict(ReadEntries(s[1..]).value.0), ReadEntries(s[1..]).value.1))
  {
    hide ReadEntries;
  }

  /** Behind the opening bracket. */
  lemma Inside(left: string, u: string, right: string, r: string)
    requires |left| == 1
    ensures left + u + right + r == left + (u + right + r) && (left + u + right + r)[1..] == u + right + r
    ensures u + right + r != "" ==> |left + u + right + r| > 1 && (left + u + right + r)[1] == (u + right + r)[0]
  {
    assert left + u + right + r == left + (u + right + r);
  }

  /** What follows the first of several elements or entries. */
  function Rest(more: bool, rest: string, right: string, r: string): string {
    if more then "," + (rest + right + r) else right + r
  }

  lemma FirstElement(c: Canon, es: seq<Canon>, r: string)
    requires es != [] && c.Array? && forall e :: e in es ==> e in c.elements
    ensures forall e :: e in es[1..] ==> e in c.elements
    ensures JsonElements(c, es) + "]" + r == Json(es[0]) + Rest(|es| > 1, JsonElements(c, es[1..]), "]", r)
  {
    assert es[0] in es;
    var first, rest := Json(es[0]), JsonElements(c, es[1..]);
    hide Json;
    if |es| == 1 {
      assert JsonElements(c, es) == first + "";
      RegroupLast(first, "]", r);
    } else {
      assert JsonElements(c, es) == first + ("," + rest);
      Regroup(first, rest, "]", r);
    }
  }

  lemma ElementBack(s: string, c: Canon, rest: string)
    requires ReadValue(s) == Some((c, rest)) && rest != ""
    ensures rest[0] == ']' ==> ReadElements(s) == Some(([c], rest[1..]))
    ensures rest[0] == ',' && ReadElements(rest[1..]).Some? ==>
              var (more, after) := ReadElements(rest[1..]).value; ReadElements(s) == Some(([c] + more, after))
  {
    hide ReadValue;
  }

  lemma {:induction false} ElementsBack(c: Canon, es: seq<Canon>, r: string)
    requires es != [] && c.Array? && forall e :: e in es ==> e in c.elements
    ensures ReadElements(JsonElements(c, es) + "]" + r) == Some((es, r))
    decreases c, 0, |es|
  {
    FirstElement(c, es, r);
    hide Json, JsonElements, ReadValue, ReadElements;
    assert es[0] in es;
    var rest := Rest(|es| > 1, JsonElements(c, es[1..]), "]", r);
    ValueBack(es[0], rest);
    ElementBack(JsonElements(c, es) + "]" + r, es[0], rest);
    if |es| > 1 {
      assert rest[1..] == JsonElements(c, es[1..]) + "]" + r;
      ElementsBack(c, es[1..], r);
      assert es == [es[0]] + es[1..];
    } else {
      assert rest[1..] == r && es == [es[0]];
    }
  }

  /** A list is empty exactly when the closing bracket comes first. */
  lemma BracketFirst(c: Canon, es: seq<Canon>, r: string)
    requires c.Array? && forall e :: e in es ==> e in c.elements
    ensures JsonElements(c, es) + "]" + r != ""
    ensures es == [] <==> (JsonElements(c, es) + "]" + r)[0] == ']'
    ensures es == [] ==> JsonElements(c, es) + "]" + r == "]" + r
  {
    if es != [] {
      FirstElement(c, es, r);
      FirstTells(es[0]);
      hide Json, JsonElements;
    }
  }

  lemma FirstEntry(c: Canon, ks: seq<string>, r: string)
    requires ks != [] && c.Dict? && forall k :: k in ks ==> k in c.entries
    ensures ks[0] in c.entries && forall k :: k in ks[1..] ==> k in c.entries
    ensures JsonEntries(c, ks) + "}" + r ==
              Quoted(ks[0]) + (":" + (Json(c.entries[ks[0]]) + Rest(|ks| > 1, JsonEntries(c, ks[1..]), "}", r)))
  {
    assert ks[0] in ks;
    var key, first, rest := Quoted(ks[0]), Json(c.entries[ks[0]]), JsonEntries(c, ks[1..]);
    hide Json, Quoted;
    if |ks| == 1 {
      assert JsonEntries(c, ks) == key + ":" + first + "";
      RegroupLast(key + ":" + first, "}", r);
    } else {
      assert JsonEntries(c, ks) == key + ":" + first + ("," + rest);
      Regroup(key + ":" + first, rest, "}", r);
    }
    var x := Rest(|ks| > 1, rest, "}", r);
    Assoc(key + ":", first, x);
    Assoc(key, ":", first + x);
  }

  lemma BraceFirst(c: Canon, ks: seq<string>, r: string)
    requires c.Dict? && forall k :: k in ks ==> k in c.entries
    ensures JsonEntries(c, ks) + "}" + r != ""
    ensures ks == [] <==> (JsonEntries(c, ks) + "}" + r)[0] == '}'
    ensures ks == [] ==> JsonEntries(c, ks) + "}" + r == "}" + r
  {
    if ks != [] {
      FirstEntry(c, ks, r);
      hide Json, JsonEntries, Escape;
    }
  }

  lemma EntryBack(s: string, key: string, value: string, d: Canon, rest: string)
    requires s != "" && s[0] == '"' && ReadText(s[1..]) == Some((key, ":" + value))
    requires ReadValue(value) == Some((d, rest))
    requires rest != ""
    ensures rest[0] == '}' ==> ReadEntries(s) == Some((map[key := d], rest[1..]))
    ensures rest[0] == ',' && ReadEntries(rest[1..]).Some? ==>
              var (more, after) := ReadEntries(rest[1..]).value; ReadEntries(s) == Some((map[key := d] + more, after))
  {
    hide ReadText, ReadValue;
    assert (":" + value)[1..] == value;
  }

  lemma {:induction false} EntriesBack(c: Canon, ks: seq<string>, r: string)
    requires ks != [] && c.Dict? && forall k :: k in ks ==> k in c.entries
    ensures ReadEntries(JsonEntries(c, ks) + "}" + r) == Some((map k | k in ks :: c.entries[k], r))
    decreases c, 0, |ks|
  {
    FirstEntry(c, ks, r);
    hide Json, ReadValue, ReadText, ReadEntries, Quoted, JsonEntries;
    var d := c.entries[ks[0]];
    var rest := Rest(|ks| > 1, JsonEntries(c, ks[1..]), "}", r);
    var value := Json(d) + rest;
    QuotedBack(ks[0], ":" + value);
    ValueBack(d, rest);
    EntryBack(JsonEntries(c, ks) + "}" + r, ks[0], value, d, rest);
    if |ks| > 1 {
      assert rest[1..] == JsonEntries(c, ks[1..]) + "}" + r;
      EntriesBack(c, ks[1..], r);
      FirstKey(c, ks);
    } else {
      assert rest[1..] == r && ks == [ks[0]];
      assert (map k | k in ks :: c.entries[k]) == map[ks[0] := d];
    }
  }

  lemma FirstKey(c: Canon, ks: seq<string>)
    requires ks != [] && c.Dict? && forall k :: k in ks ==> k in c.entries
    ensures ks[0] in c.entries && forall k :: k in ks[1..] ==> k in c.entries
    ensures map[ks[0] := c.entries[ks[0]]] + (map k | k in ks[1..] :: c.entries[k]) == map k | k in ks :: c.entries[k]
  {
    assert ks == [ks[0]] + ks[1..];
  }

  /** The text of a value is JSON that is read back as the value, to its end. */
  lemma ReadsBack(c: Canon)
    ensures ReadValue(Json(c)) == Some((c, ""))
  {
    ValueBack(c, "");
    assert Json(c) + "" == Json(c);
  }

  /** So two values have the same text if and only if they are the same. */
  lemma TextsTellApart(a: Canon, b: Canon)
    ensures Json(a) == Json(b) <==> a == b
  {
    ReadsBack(a);
    ReadsBack(b);
    hide ReadValue, Json;
  }

  /** A character is written in the shortest way there is to write it, and in lower-case digits. */
  lemma EscapedShortest(c: char, s: string)
    requires ReadChar(s) == Some((c, ""))
    ensures |Escaped(c)| <= |s|
    ensures ReadChar(Escaped(c)) == Some((c, "")) && forall d :: d in Escaped(c) && d != c ==> !('A' <= d <= 'Z')
  {
    ShortEscape(c, s);
    CharBack(c, "");
    assert Escaped(c) + "" == Escaped(c);
    hide ReadChar, Escaped;
    forall i | 0 <= i < |Escaped(c)| && Escaped(c)[i] != c ensures !('A' <= Escaped(c)[i] <= 'Z') { LowerEscape(c, i); }
  }

  lemma LowerEscape(c: char, i: nat)
    requires i < |Escaped(c)|
    ensures Escaped(c)[i] == c || !('A' <= Escaped(c)[i] <= 'Z')
  {
    if |Escaped(c)| == 6 {
      LowerCase(c as int / 16);
      LowerCase(c as int % 16);
      hide HexDigit;
    } else {
      hide HexDigit;
    }
  }

  lemma ShortEscape(c: char, s: string)
    requires ReadChar(s) == Some((c, ""))
    ensures |Escaped(c)| <= |s|
  {
    hide ReadHex, HexDigit;
  }

  lemma LowerCase(d: nat)
    requires d < 16
    ensures !('A' <= HexDigit(d) <= 'Z')
  {
  }

  /** The keys of an object in the order in which they are read, from behind its opening brace. */
  function ReadKeys(s: string): (r: Option<seq<string>>)
    decreases |s|
  {
    if s == "" || s[0] != '"' then None
    else
      match ReadText(s[1..])
      case None => None
      case Some((key, rest)) =>
        if rest == "" || rest[0] != ':' then None
        else
          match ReadValue(rest[1..])
          case None => None
          case Some((_, rest)) =>
            if rest != "" && rest[0] == '}' then Some([key])
            else if rest != "" && rest[0] == ',' then
              match ReadKeys(rest[1..])
              case None => None
              case Some(more) => Some([key] + more)
            else None
  }

  lemma KeyBack(s: string, key: string, value: string, d: Canon, rest: string)
    requires s != "" && s[0] == '"' && ReadText(s[1..]) == Some((key, ":" + value))
    requires ReadValue(value) == Some((d, rest))
    requires rest != ""
    ensures rest[0] == '}' ==> ReadKeys(s) == Some([key])
    ensures rest[0] == ',' && ReadKeys(rest[1..]).Some? ==> ReadKeys(s) == Some([key] + ReadKeys(rest[1..]).value)
  {
    hide ReadText, ReadValue;
    assert (":" + value)[1..] == value;
  }

  lemma {:induction false} KeysBack(c: Canon, ks: seq<string>, r: string)
    requires ks != [] && c.Dict? && forall k :: k in ks ==> k in c.entries
    ensures ReadKeys(JsonEntries(c, ks) + "}" + r) == Some(ks)
    decreases |ks|
  {
    hide Json, ReadValue, ReadText, ReadKeys, Quoted, JsonEntries;
    FirstEntry(c, ks, r);
    var after := JsonEntries(c, ks[1..]);
    var rest := Rest(|ks| > 1, after, "}", r);
    FirstKeyBack(c, ks, rest, r);
    if |ks| > 1 {
      assert rest[1..] == after + "}" + r;
      KeysBack(c, ks[1..], r);
      assert ks == [ks[0]] + ks[1..];
    } else {
      assert ks == [ks[0]];
    }
  }

  lemma FirstKeyBack(c: Canon, ks: seq<string>, rest: string, r: string)
    requires ks != [] && c.Dict? && (forall k :: k in ks ==> k in c.entries) && ks[0] in c.entries
    requires rest != "" && Ends(rest)
    requires JsonEntries(c, ks) + "}" + r == Quoted(ks[0]) + (":" + (Json(c.entries[ks[0]]) + rest))
    ensures var s := JsonEntries(c, ks) + "}" + r;
      && (rest[0] == '}' ==> ReadKeys(s) == Some([ks[0]]))
      && (rest[0] == ',' && ReadKeys(rest[1..]).Some? ==> ReadKeys(s) == Some([ks[0]] + ReadKeys(rest[1..]).value))
  {
    hide Json, ReadValue, ReadText, ReadKeys, Quoted, JsonEntries;
    var d := c.entries[ks[0]];
    var value := Json(d) + rest;
    QuotedBack(ks[0], ":" + value);
    ValueBack(d, rest);
    KeyBack(JsonEntries(c, ks) + "}" + r, ks[0], value, d, rest);
  }

  /** In the text of a dictionary its keys stand once each, in ascending order. */
  lemma KeysAscend(m: map<string, Canon>)
    requires m != map[]
    ensures ReadKeys(Json(Dict(m))[1..]).Some?
    ensures var ks := ReadKeys(Json(Dict(m))[1..]).value;
      && (forall k :: k in ks <==> k in m)
      && forall i, j :: 0 <= i < j < |ks| ==> TextLess(ks[i], ks[j])
  {
    var ks := SortedKeys(m.Keys);
    DictText(m);
    hide Json, ReadKeys, JsonEntries, SortedKeys, TextLess;
    SortedAscend(m.Keys);
    var k :| k in m;
    assert k in ks;
    KeysBack(Dict(m), ks, "");
  }

  lemma DictText(m: map<string, Canon>)
    ensures Json(Dict(m))[1..] == JsonEntries(Dict(m), SortedKeys(m.Keys)) + "}" + ""
  {
    hide JsonEntries, SortedKeys;
  }

  lemma {:induction false} SortedAscend(s: set<string>)
    ensures forall i, j :: 0 <= i < j < |SortedKeys(s)| ==> TextLess(SortedKeys(s)[i], SortedKeys(s)[j])
  {
    if s != {} {
      var least, rest := Least(s), SortedKeys(s - {Least(s)});
      SortedAscend(s - {least});
      forall j | 0 <= j < |rest| ensures TextLess(least, rest[j]) {
        assert rest[j] in rest;
        LeastIs(s);
      }
    }
  }

  lemma LeastIs(s: set<string>)
    requires s != {}
    ensures IsLeast(s, Least(s))
  {
  }

  predicate SameUpTo(a: string, b: string, n: nat) {
    n <= |a| && n <= |b| && forall k :: 0 <= k < n ==> a[k] == b[k]
  }

  lemma SameTail(a: string, b: string, n: nat)
    requires a != "" && b != "" && a[0] == b[0] && n > 0
    ensures SameUpTo(a, b, n) <==> SameUpTo(a[1..], b[1..], n - 1)
  {
    if SameUpTo(a[1..], b[1..], n - 1) {
      forall k | 0 < k < n ensures a[k] == b[k] { assert a[1..][k - 1] == b[1..][k - 1]; }
    }
  }

  /** The order of strings: a proper prefix comes first, and else the first difference decides. */
  lemma {:induction false} TextLessMeans(a: string, b: string)
    ensures TextLess(a, b) <==>
              || (|a| < |b| && SameUpTo(a, b, |a|))
              || exists i :: 0 <= i < |a| && i < |b| && SameUpTo(a, b, i) && a[i] < b[i]
  {
    if a != "" && b != "" && a[0] == b[0] {
      TextLessMeans(a[1..], b[1..]);
      SameTail(a, b, |a|);
      forall i | 0 < i < |a| && i < |b| ensures SameUpTo(a, b, i) <==> SameUpTo(a[1..], b[1..], i - 1) {
        SameTail(a, b, i);
      }
      hide SameUpTo;
      if i :| 0 <= i < |a[1..]| && i < |b[1..]| && SameUpTo(a[1..], b[1..], i) && a[1..][i] < b[1..][i] {
        assert SameUpTo(a, b, i + 1) && a[i + 1] < b[i + 1];
      }
      if i :| 0 <= i < |a| && i < |b| && SameUpTo(a, b, i) && a[i] < b[i] {
        assert SameUpTo(a[1..], b[1..], i - 1) && a[1..][i - 1] < b[1..][i - 1];
      }
    } else if a != "" && b != "" {
      assert SameUpTo(a, b, 0);
      forall i | 0 < i <= |a| && i <= |b| ensures !SameUpTo(a, b, i) {}
    }
  }

  // ---------- sorting values by their texts ----------

  function InsertValue(c: Canon, sorted: seq<Canon>): (r: seq<Canon>)
    ensures multiset(r) == multiset(sorted) + multiset{c}
  {
    if sorted == [] then [c]
    else
      assert sorted == [sorted[0]] + sorted[1..];
      if TextLess(Json(c), Json(sorted[0])) then [c] + sorted
      else [sorted[0]] + InsertValue(c, sorted[1..])
  }

  /** sorted(values, key=json.dumps) */
  function SortValues(cs: seq<Canon>): (r: seq<Canon>)
    ensures multiset(r) == multiset(cs)
  {
    if cs == [] then []
    else
      var last := |cs| - 1;
      assert cs == cs[..last] + [cs[last]];
      InsertValue(cs[last], SortValues(cs[..last]))
  }

  ghost predicate InOrder(cs: seq<Canon>) {
    forall i, j :: 0 <= i < j < |cs| ==> !TextLess(Json(cs[j]), Json(cs[i]))
  }

  lemma FrontInOrder(head: Canon, rest: seq<Canon>)
    requires InOrder(rest) && forall c :: c in rest ==> !TextLess(Json(c), Json(head))
    ensures InOrder([head] + rest)
  {
  }

  lemma {:induction false} InsertInOrder(c: Canon, sorted: seq<Canon>)
    requires InOrder(sorted)
    ensures InOrder(InsertValue(c, sorted))
  {
    if sorted == [] {
    } else if TextLess(Json(c), Json(sorted[0])) {
      hide Json;
      forall d | d in sorted ensures !TextLess(Json(d), Json(c)) {
        var i :| 0 <= i < |sorted| && sorted[i] == d;
        TextLessOrder(Json(d), Json(c), Json(sorted[0]));
        TextLessOrder(Json(c), Json(sorted[0]), Json(c));
      }
      FrontInOrder(c, sorted);
    } else {
      hide Json;
      var tail := sorted[1..];
      InsertInOrder(c, tail);
      forall d | d in InsertValue(c, tail) ensures !TextLess(Json(d), Json(sorted[0])) { InsertedIs(c, sorted, d); }
      FrontInOrder(sorted[0], InsertValue(c, tail));
    }
  }

  lemma InsertedIs(c: Canon, sorted: seq<Canon>, d: Canon)
    requires sorted != [] && InOrder(sorted) && !TextLess(Json(c), Json(sorted[0])) && d in InsertValue(c, sorted[1..])
    ensures !TextLess(Json(d), Json(sorted[0]))
  {
    hide Json;
    assert d in multiset(InsertValue(c, sorted[1..]));
    if d != c {
      assert d in sorted[1..];
      var j :| 0 <= j < |sorted[1..]| && sorted[1..][j] == d;
      assert sorted[j + 1] == d;
    }
  }

  lemma {:induction false} SortInOrder(cs: seq<Canon>)
    ensures InOrder(SortValues(cs))
  {
    if cs != [] {
      SortInOrder(cs[..|cs| - 1]);
      InsertInOrder(cs[|cs| - 1], SortValues(cs[..|cs| - 1]));
    }
  }

  lemma HeadsAgree(a: seq<Canon>, b: seq<Canon>)
    requires InOrder(a) && InOrder(b) && multiset(a) == multiset(b) && a != []
    ensures b != [] && a[0] == b[0]
  {
    hide Json;
    assert a[0] in multiset(b);
    var i :| 0 <= i < |b| && b[i] == a[0];
    assert b[0] in multiset(a);
    var j :| 0 <= j < |a| && a[j] == b[0];
    TextLessTotal(Json(a[0]), Json(b[0]));
    TextsTellApart(a[0], b[0]);
  }

  /** Since texts tell values apart, one order of a collection is in order. */
  lemma {:induction false} InOrderUnique(a: seq<Canon>, b: seq<Canon>)
    requires InOrder(a) && InOrder(b) && multiset(a) == multiset(b)
    ensures a == b
  {
    if a == [] {
      assert |multiset(b)| == 0;
    } else {
      HeadsAgree(a, b);
      hide Json;
      assert a == [a[0]] + a[1..] && b == [b[0]] + b[1..];
      assert multiset(a[1..]) == multiset(a) - multiset{a[0]};
      assert multiset(b[1..]) == multiset(b) - multiset{b[0]};
      InOrderUnique(a[1..], b[1..]);
    }
  }

  /** Sorting forgets the order and nothing else. */
  lemma SortsAgreeIff(a: seq<Canon>, b: seq<Canon>)
    ensures SortValues(a) == SortValues(b) <==> multiset(a) == multiset(b)
  {
    SortInOrder(a);
    SortInOrder(b);
    if multiset(a) == multiset(b) { InOrderUnique(SortValues(a), SortValues(b)); }
  }
}
