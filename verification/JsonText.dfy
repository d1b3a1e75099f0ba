/** JSON values, the compact printer and the strict reader (RFC 8259) that the journal file format relies on. */
module JsonText {
  import opened Prelude

  datatype Json =
    | Null
    | Flag(value: bool)
    | Number(text: string)  // the literal as written
    | Text(chars: string)
    | Array(items: seq<Json>)
    | Object(members: seq<Member>)

  datatype Member = Member(key: string, value: Json)

  // ----- printing -----

  /** A string that is printed without an escape. */
  predicate Plain(s: string) { forall c <- s :: ' ' <= c <= '~' && c != '"' && c != '\\' }

  predicate Digit(c: char) { '0' <= c <= '9' }

  /** A positive integer literal. */
  predicate Counting(s: string) { s != "" && '1' <= s[0] <= '9' && forall c <- s :: Digit(c) }

  predicate Printable(v: Json)
    decreases v, 0
  {
    match v
    case Null => true
    case Flag(_) => true
    case Number(text) => Counting(text)
    case Text(chars) => Plain(chars)
    case Array(items) => forall i <- items :: Printable(i)
    case Object(members) => UniqueKeys(members) && forall m <- members :: Plain(m.key) && Printable(m.value)
  }

  function Print(v: Json): string
    decreases v, 0
  {
    match v
    case Null => "null"
    case Flag(b) => if b then "true" else "false"
    case Number(text) => text
    case Text(chars) => "\"" + chars + "\""
    case Array(items) => if items == [] then "[]" else "[" + PrintItems(items) + "]"
    case Object(members) => if members == [] then "{}" else "{" + PrintMembers(members) + "}"
  }

  function PrintItems(items: seq<Json>): string
    requires items != []
    decreases items, |items|
  {
    if |items| == 1 then Print(items[0]) else Print(items[0]) + "," + PrintItems(items[1..])
  }

  function PrintMember(m: Member): string
    decreases m, 0
  {
    "\"" + m.key + "\":" + Print(m.value)
  }

  function PrintMembers(members: seq<Member>): string
    requires members != []
    decreases members, |members|
  {
    if |members| == 1 then PrintMember(members[0]) else PrintMember(members[0]) + "," + PrintMembers(members[1..])
  }

  // ----- reading -----

  type Parsed<T> = Option<(T, string)>

  predicate Space(c: char) { c == ' ' || c == '\t' || c == '\n' || c == '\r' }

  function Skip(s: string): (rest: string)
    ensures |rest| <= |s|
  {
    if s != "" && Space(s[0]) then Skip(s[1..]) else s
  }

  function Hex(c: char): Option<int> {
    if '0' <= c <= '9' then Some(c as int - '0' as int)
    else if 'a' <= c <= 'f' then Some(c as int - 'a' as int + 10)
    else if 'A' <= c <= 'F' then Some(c as int - 'A' as int + 10)
    else None
  }

  /** The character of a four-digit escape; a surrogate is refused. */
  function FourHex(s: string): Option<char>
    requires |s| >= 4
  {
    var a :- Hex(s[0]);
    var b :- Hex(s[1]);
    var c :- Hex(s[2]);
    var d :- Hex(s[3]);
    var code := ((a * 16 + b) * 16 + c) * 16 + d;
    if 0 <= code < 0xD800 || 0xE000 <= code < 0x10000 then Some(code as char) else None
  }

  function Unescaped(c: char): Option<char> {
    if c == '"' || c == '\\' || c == '/' then Some(c)
    else if c == 'b' then Some(8 as char)
    else if c == 'f' then Some(12 as char)
    else if c == 'n' then Some('\n')
    else if c == 'r' then Some('\r')
    else if c == 't' then Some('\t')
    else None
  }

  /** The rest of a string after its opening quote. */
  function ReadText(s: string): (r: Parsed<string>)
    ensures r.Some? ==> |r.value.1| < |s|
    decreases |s|
  {
    if s == "" || s[0] < ' ' then None
    else if s[0] == '"' then Some(("", s[1..]))
    else if s[0] != '\\' then
      var tail :- ReadText(s[1..]);
      Some(([s[0]] + tail.0, tail.1))
    else if |s| >= 6 && s[1] == 'u' then
      var c :- FourHex(s[2..6]);
      var tail :- ReadText(s[6..]);
      Some(([c] + tail.0, tail.1))
    else if |s| >= 2 then
      var c :- Unescaped(s[1]);
      var tail :- ReadText(s[2..]);
      Some(([c] + tail.0, tail.1))
    else None
  }

  function Digits(s: string): (n: nat)
    ensures n <= |s|
    ensures forall i :: 0 <= i < n ==> Digit(s[i])
    ensures n < |s| ==> !Digit(s[n])
  {
    if s != "" && Digit(s[0]) then 1 + Digits(s[1..]) else 0
  }

  /** The length of the optional fraction and exponent, which need at least one digit each. */
  function FractionLength(s: string): (n: nat)
    ensures n <= |s|
  {
    if |s| >= 2 && s[0] == '.' && Digits(s[1..]) > 0 then 1 + Digits(s[1..]) else 0
  }

  function ExponentLength(s: string): (n: nat)
    ensures n <= |s|
  {
    if |s| >= 1 && (s[0] == 'e' || s[0] == 'E') then
      var sign := if |s| >= 2 && (s[1] == '+' || s[1] == '-') then 1 else 0;
      if Digits(s[1 + sign..]) > 0 then 1 + sign + Digits(s[1 + sign..]) else 0
    else 0
  }

  /** The length of the number at the start of the text, or zero. */
  function NumberLength(s: string): (n: nat)
    ensures n <= |s|
  {
    var sign := if s != "" && s[0] == '-' then 1 else 0;
    var whole := if |s| > sign && s[sign] == '0' then 1 else Digits(s[sign..]);
    if whole == 0 then 0
    else
      var a := sign + whole;
      var b := a + FractionLength(s[a..]);
      b + ExponentLength(s[b..])
  }

  function ReadNumber(s: string): (r: Parsed<string>)
    ensures r.Some? ==> |r.value.1| < |s|
  {
    var n := NumberLength(s);
    if n == 0 then None else Some((s[..n], s[n..]))
  }

  predicate UniqueKeys(members: seq<Member>) {
    forall i, j :: 0 <= i < j < |members| ==> members[i].key != members[j].key
  }

  /** A value at the start of the text, which has no leading white space. */
  function Read(s: string): (r: Parsed<Json>)
    ensures r.Some? ==> |r.value.1| < |s|
    decreases |s|, 0
  {
    if s == "" then None
    else if s[0] == '"' then
      var t :- ReadText(s[1..]);
      Some((Text(t.0), t.1))
    else if s[0] == '[' then
      var rest := Skip(s[1..]);
      if rest != "" && rest[0] == ']' then Some((Array([]), rest[1..]))
      else
        var items :- ReadItems(rest);
        Some((Array(items.0), items.1))
    else if s[0] == '{' then
      var rest := Skip(s[1..]);
      if rest != "" && rest[0] == '}' then Some((Object([]), rest[1..]))
      else
        var members :- ReadMembers(rest);
        if UniqueKeys(members.0) then Some((Object(members.0), members.1)) else None
    else if "null" <= s then Some((Null, s[4..]))
    else if "true" <= s then Some((Flag(true), s[4..]))
    else if "false" <= s then Some((Flag(false), s[5..]))
    else
      var n :- ReadNumber(s);
      Some((Number(n.0), n.1))
  }

  /** One or more items up to the closing bracket. */
  function ReadItems(s: string): (r: Parsed<seq<Json>>)
    ensures r.Some? ==> |r.value.1| < |s|
    decreases |s|, 1
  {
    var first :- Read(s);
    var rest := Skip(first.1);
    if rest == "" then None
    else if rest[0] == ']' then Some(([first.0], rest[1..]))
    else if rest[0] != ',' then None
    else
      var more :- ReadItems(Skip(rest[1..]));
      Some(([first.0] + more.0, more.1))
  }

  function ReadMember(s: string): (r: Parsed<Member>)
    ensures r.Some? ==> |r.value.1| < |s|
    decreases |s|, 1
  {
    if s == "" || s[0] != '"' then None
    else
      var key :- ReadText(s[1..]);
      var colon := Skip(key.1);
      if colon == "" || colon[0] != ':' then None
      else
        var value :- Read(Skip(colon[1..]));
        Some((Member(key.0, value.0), value.1))
  }

  /** One or more members up to the closing brace. */
  function ReadMembers(s: string): (r: Parsed<seq<Member>>)
    ensures r.Some? ==> |r.value.1| < |s|
    decreases |s|, 2
  {
    var first :- ReadMember(s);
    var rest := Skip(first.1);
    if rest == "" then None
    else if rest[0] == '}' then Some(([first.0], rest[1..]))
    else if rest[0] != ',' then None
    else
      var more :- ReadMembers(Skip(rest[1..]));
      Some(([first.0] + more.0, more.1))
  }

  /** A whole document: one value with white space around it and nothing else. */
  function Load(s: string): Option<Json> {
    var v :- Read(Skip(s));
    if Skip(v.1) == "" then Some(v.0) else None
  }

  // ----- reading what was printed -----

  /** Text that can follow a printed value: it does not lengthen a number. */
  predicate Follows(rest: string) { rest == "" || rest[0] == ',' || rest[0] == ']' || rest[0] == '}' || rest[0] == '\n' }

  lemma {:induction false} ReadsText(chars: string, rest: string)
    requires Plain(chars)
    ensures ReadText(chars + "\"" + rest) == Some((chars, rest))
    decreases |chars|
  {
    var s := chars + "\"" + rest;
    if chars == "" {
      assert s == "\"" + rest && s[1..] == rest;
    } else {
      assert s[0] == chars[0] && s[1..] == chars[1..] + "\"" + rest;
      assert chars[0] in chars;
      assert forall c <- chars[1..] :: c in chars;
      ReadsText(chars[1..], rest);
      assert [chars[0]] + chars[1..] == chars;
    }
  }

  lemma ReadsNumber(text: string, rest: string)
    requires Counting(text) && Follows(rest)
    ensures ReadNumber(text + rest) == Some((text, rest))
  {
    var s := text + rest;
    assert text[0] in text;
    assert s[0] == text[0];
    assert s[0..] == s;
    DigitsOf(text, rest);
    assert s[|text|..] == rest && s[..|text|] == text;
  }

  lemma {:induction false} DigitsOf(text: string, rest: string)
    requires (forall c <- text :: Digit(c)) && Follows(rest)
    ensures Digits(text + rest) == |text|
    decreases |text|
  {
    if text == "" {
      assert text + rest == rest;
    } else {
      assert text[0] in text;
      assert (text + rest)[1..] == text[1..] + rest;
      DigitsOf(text[1..], rest);
    }
  }

  lemma Starts(v: Json)
    requires Printable(v)
    ensures Print(v) != "" && !Space(Print(v)[0])
    ensures v.Number? ==> Digit(Print(v)[0])
  {
  }

  lemma {:induction false} ReadsPrinted(v: Json, rest: string)
    requires Printable(v) && Follows(rest)
    ensures Read(Print(v) + rest) == Some((v, rest))
    decreases v, 0
  {
    match v
    case Array(items) => ReadsArray(items, rest);
    case Object(members) => ReadsObject(members, rest);
    case Number(_) => ReadsPrintedNumber(v, rest);
    case Text(_) => ReadsPrintedText(v, rest);
    case _ => ReadsLiteral(v, rest);
  }

  lemma ReadsLiteral(v: Json, rest: string)
    requires v.Null? || v.Flag?
    ensures Read(Print(v) + rest) == Some((v, rest))
  {
    var s := Print(v) + rest;
    match v
    case Null => assert s == "null" + rest && s[4..] == rest;
    case Flag(b) =>
      assert b ==> s == "true" + rest && s[4..] == rest;
      assert !b ==> s == "false" + rest && s[5..] == rest;
  }

  lemma ReadsPrintedNumber(v: Json, rest: string)
    requires v.Number? && Printable(v) && Follows(rest)
    ensures Read(Print(v) + rest) == Some((v, rest))
  {
    ReadsNumber(v.text, rest);
    StartsWithDigit(v.text + rest);
  }

  lemma StartsWithDigit(s: string)
    requires s != "" && Digit(s[0]) && ReadNumber(s).Some?
    ensures Read(s) == Some((Number(ReadNumber(s).value.0), ReadNumber(s).value.1))
  {
    assert !("null" <= s) && !("true" <= s) && !("false" <= s);
  }

  lemma ReadsPrintedText(v: Json, rest: string)
    requires v.Text? && Printable(v)
    ensures Read(Print(v) + rest) == Some((v, rest))
  {
    assert (Print(v) + rest)[1..] == v.chars + "\"" + rest;
    ReadsText(v.chars, rest);
  }

  lemma {:induction false} ReadsArray(items: seq<Json>, rest: string)
    requires (forall i <- items :: Printable(i)) && Follows(rest)
    ensures Read(Print(Array(items)) + rest) == Some((Array(items), rest))
    decreases items, |items| + 1
  {
    var s := Print(Array(items)) + rest;
    if items == [] {
      assert s[1..] == "]" + rest && ("]" + rest)[1..] == rest;
    } else {
      assert s[1..] == PrintItems(items) + "]" + rest;
      ItemsStart(items, "]" + rest);
      assert PrintItems(items) + "]" + rest == PrintItems(items) + ("]" + rest);
      ReadsItems(items, rest);
    }
  }

  lemma ItemsStart(items: seq<Json>, rest: string)
    requires items != [] && forall i <- items :: Printable(i)
    ensures var s := PrintItems(items) + rest; s != "" && s[0] != ']' && Skip(s) == s
  {
    Starts(items[0]);
    assert PrintItems(items)[0] == Print(items[0])[0];
  }

  lemma Regroup(a: string, b: string, close: string, rest: string)
    ensures a + "," + b + close + rest == a + ("," + (b + close + rest))
    ensures b + close + rest == b + (close + rest)
  {
  }

  lemma {:induction false} ReadsItems(items: seq<Json>, rest: string)
    requires items != [] && (forall i <- items :: Printable(i)) && Follows(rest)
    ensures ReadItems(PrintItems(items) + "]" + rest) == Some((items, rest))
    decreases items, |items|
  {
    var s := PrintItems(items) + "]" + rest;
    if |items| == 1 {
      assert s == Print(items[0]) + ("]" + rest);
      ReadsPrinted(items[0], "]" + rest);
      assert ("]" + rest)[1..] == rest && items == [items[0]];
    } else {
      var more := PrintItems(items[1..]) + "]" + rest;
      Regroup(Print(items[0]), PrintItems(items[1..]), "]", rest);
      ReadsPrinted(items[0], "," + more);
      assert ("," + more)[1..] == more;
      ItemsStart(items[1..], "]" + rest);
      ReadsItems(items[1..], rest);
      assert [items[0]] + items[1..] == items;
    }
  }

  lemma {:induction false} ReadsObject(members: seq<Member>, rest: string)
    requires UniqueKeys(members) && (forall m <- members :: Plain(m.key) && Printable(m.value)) && Follows(rest)
    ensures Read(Print(Object(members)) + rest) == Some((Object(members), rest))
    decreases members, |members| + 1
  {
    var s := Print(Object(members)) + rest;
    if members == [] {
      assert s[1..] == "}" + rest && ("}" + rest)[1..] == rest;
    } else {
      assert s[1..] == PrintMembers(members) + "}" + rest;
      Regroup("", PrintMembers(members), "}", rest);
      MembersStart(members, "}" + rest);
      ReadsMembers(members, rest);
    }
  }

  lemma {:induction false} ReadsMember(m: Member, rest: string)
    requires Plain(m.key) && Printable(m.value) && Follows(rest)
    ensures ReadMember(PrintMember(m) + rest) == Some((m, rest))
    decreases m, 0
  {
    var s := PrintMember(m) + rest;
    var colon := ":" + (Print(m.value) + rest);
    assert s[1..] == m.key + "\"" + colon;
    ReadsText(m.key, colon);
    assert colon[1..] == Print(m.value) + rest;
    Starts(m.value);
    assert Skip(Print(m.value) + rest) == Print(m.value) + rest;
    ReadsPrinted(m.value, rest);
  }

  lemma MembersStart(members: seq<Member>, rest: string)
    requires members != []
    ensures var s := PrintMembers(members) + rest; s != "" && s[0] == '"' && Skip(s) == s
  {
    assert PrintMember(members[0])[0] == '"';
    assert PrintMembers(members)[0] == '"';
  }

  lemma {:induction false} ReadsLastMember(m: Member, rest: string)
    requires Plain(m.key) && Printable(m.value) && Follows(rest)
    ensures ReadMembers(PrintMember(m) + ("}" + rest)) == Some(([m], rest))
    decreases m, 1
  {
    ReadsMember(m, "}" + rest);
    assert ("}" + rest)[1..] == rest;
  }

  lemma {:induction false} ReadsOneMoreMember(m: Member, more: string, tail: seq<Member>, rest: string)
    requires Plain(m.key) && Printable(m.value) && Skip(more) == more && ReadMembers(more) == Some((tail, rest))
    ensures ReadMembers(PrintMember(m) + ("," + more)) == Some(([m] + tail, rest))
    decreases m, 1
  {
    ReadsMember(m, "," + more);
    assert ("," + more)[1..] == more;
  }

  lemma MembersSplit(members: seq<Member>, rest: string)
    requires |members| > 1
    ensures var more := PrintMembers(members[1..]) + "}" + rest;
            PrintMembers(members) + "}" + rest == PrintMember(members[0]) + ("," + more) && Skip(more) == more
  {
    Regroup(PrintMember(members[0]), PrintMembers(members[1..]), "}", rest);
    MembersStart(members[1..], "}" + rest);
  }

  lemma {:induction false} ReadsMembers(members: seq<Member>, rest: string)
    requires members != [] && (forall m <- members :: Plain(m.key) && Printable(m.value)) && Follows(rest)
    ensures ReadMembers(PrintMembers(members) + "}" + rest) == Some((members, rest))
    decreases members, |members|
  {
    var s := PrintMembers(members) + "}" + rest;
    if |members| == 1 {
      assert s == PrintMember(members[0]) + ("}" + rest);
      ReadsLastMember(members[0], rest);
      assert members == [members[0]];
    } else {
      var tail := members[1..];
      var more := PrintMembers(tail) + "}" + rest;
      MembersSplit(members, rest);
      ReadsMembers(tail, rest);
      ReadsOneMoreMember(members[0], more, tail, rest);
      assert [members[0]] + tail == members;
    }
  }

  /** A printed document with its final newline is read back as the same value. */
  lemma LoadsPrinted(v: Json)
    requires Printable(v)
    ensures Load(Print(v) + "\n") == Some(v)
  {
    Starts(v);
    assert (Print(v) + "\n")[0] == Print(v)[0];
    assert Skip(Print(v) + "\n") == Print(v) + "\n";
    ReadsPrinted(v, "\n");
    assert "\n"[1..] == "";
  }
}
