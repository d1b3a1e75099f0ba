/** The depth check and the strict reader agree: every document that can be read is a text the scanner measures exactly. */
module JsonDepth {
  import opened Prelude
  import opened DepthScanner
  import opened JsonText

  function Nesting(v: Json): nat
    decreases v, 0
  {
    match v
    case Array(items) => 1 + NestingOfItems(items)
    case Object(members) => 1 + NestingOfMembers(members)
    case _ => 0
  }

  function NestingOfItems(items: seq<Json>): nat
    decreases items, |items|
  {
    if items == [] then 0 else Max(Nesting(items[0]), NestingOfItems(items[1..]))
  }

  function NestingOfMembers(members: seq<Member>): nat
    decreases members, |members|
  {
    if members == [] then 0 else Max(Nesting(members[0].value), NestingOfMembers(members[1..]))
  }

  lemma NestingOfMoreItems(first: Json, more: seq<Json>)
    ensures NestingOfItems([first] + more) == Max(Nesting(first), NestingOfItems(more))
    ensures NestingOfItems([first]) == Nesting(first)
  {
    assert ([first] + more)[1..] == more && [first][1..] == [];
  }

  lemma NestingOfMoreMembers(first: Member, more: seq<Member>)
    ensures NestingOfMembers([first] + more) == Max(Nesting(first.value), NestingOfMembers(more))
    ensures NestingOfMembers([first]) == Nesting(first.value)
  {
    assert ([first] + more)[1..] == more && [first][1..] == [];
  }

  // ----- texts as trees -----

  predicate TreesOk(ts: seq<Tree>) { forall t <- ts :: TreeOk(t) }

  /** The trees spell a text and nest this deep. */
  predicate Spells(ts: seq<Tree>, text: string, depth: nat) { TreesOk(ts) && PrintAll(ts) == text && DepthAll(ts) == depth }

  lemma SpellsOne(t: Tree)
    requires TreeOk(t)
    ensures Spells([t], DepthScanner.Print(t), Depth(t))
  {
    assert [t][1..] == [] && DepthScanner.Print(t) + "" == DepthScanner.Print(t);
  }

  lemma {:induction false} SpellsBoth(a: seq<Tree>, b: seq<Tree>, s: string, t: string, m: nat, n: nat)
    requires Spells(a, s, m) && Spells(b, t, n)
    ensures Spells(a + b, s + t, Max(m, n))
    decreases |a|
  {
    if a == [] {
      assert a + b == b && s + t == t;
    } else {
      var rest := a[1..];
      SpellsBoth(rest, b, PrintAll(rest), t, DepthAll(rest), n);
      assert (a + b)[0] == a[0] && (a + b)[1..] == rest + b;
      assert DepthScanner.Print(a[0]) + (PrintAll(rest) + t) == s + t;
    }
  }

  lemma SpellsWord(text: string)
    requires WordOk(text)
    ensures Spells([Word(text)], text, 0)
  {
    SpellsOne(Word(text));
  }

  // ----- white space, strings and numbers -----

  lemma {:induction false} Spaces(s: string) returns (w: string)
    ensures WordOk(w) && s == w + Skip(s)
    decreases |s|
  {
    if s != "" && Space(s[0]) {
      w := Spaces(s[1..]);
      w := [s[0]] + w;
    } else {
      w := "";
    }
  }

  lemma SpellsPiece(p: Piece, body: seq<Piece>)
    requires PieceOk(p) && forall q <- body :: PieceOk(q)
    ensures forall q <- [p] + body :: PieceOk(q)
    ensures Spell([p] + body) == (match p case Raw(c) => [c] case Escaped(c) => ['\\', c]) + Spell(body)
  {
    assert ([p] + body)[1..] == body;
  }

  lemma Prefixed(s: string, n: nat, body: string, rest: string)
    requires n <= |s| && s[n..] == body + "\"" + rest
    ensures s == s[..n] + body + "\"" + rest
    ensures n == 1 ==> s[..n] == [s[0]]
  {
    assert s == s[..n] + s[n..];
  }

  /** The rest of a string literal is a body of pieces and the closing quote. */
  lemma {:induction false} Pieces(s: string) returns (body: seq<Piece>)
    requires ReadText(s).Some?
    ensures (forall p <- body :: PieceOk(p)) && s == Spell(body) + "\"" + ReadText(s).value.1
    decreases |s|
  {
    if s[0] == '"' {
      body := [];
      assert s == "\"" + s[1..];
    } else if s[0] != '\\' {
      var tail := Pieces(s[1..]);
      body := [Raw(s[0])] + tail;
      SpellsPiece(Raw(s[0]), tail);
      Prefixed(s, 1, Spell(tail), ReadText(s).value.1);
    } else if |s| >= 6 && s[1] == 'u' {
      body := EscapedPieces(s);
    } else {
      var tail := Pieces(s[2..]);
      body := [Escaped(s[1])] + tail;
      SpellsPiece(Escaped(s[1]), tail);
      Prefixed(s, 2, Spell(tail), ReadText(s).value.1);
      assert s[..2] == ['\\', s[1]];
    }
  }

  lemma {:induction false} EscapedPieces(s: string) returns (body: seq<Piece>)
    requires ReadText(s).Some? && |s| >= 6 && s[0] == '\\' && s[1] == 'u'
    ensures (forall p <- body :: PieceOk(p)) && s == Spell(body) + "\"" + ReadText(s).value.1
    decreases |s|, 0
  {
    var tail := Pieces(s[6..]);
    assert FourHex(s[2..6]).Some?;
    assert s[2..6] == [s[2], s[3], s[4], s[5]];
    var e := tail;
    SpellsPiece(Raw(s[5]), e);
    e := [Raw(s[5])] + e;
    SpellsPiece(Raw(s[4]), e);
    e := [Raw(s[4])] + e;
    SpellsPiece(Raw(s[3]), e);
    e := [Raw(s[3])] + e;
    SpellsPiece(Raw(s[2]), e);
    e := [Raw(s[2])] + e;
    SpellsPiece(Escaped('u'), e);
    body := [Escaped('u')] + e;
    assert s == ['\\', 'u'] + ([s[2]] + ([s[3]] + ([s[4]] + ([s[5]] + s[6..]))));
  }

  predicate NumberChar(c: char) { Digit(c) || c == '-' || c == '+' || c == '.' || c == 'e' || c == 'E' }

  predicate AllNumber(s: string, n: nat)
    requires n <= |s|
  {
    forall i :: 0 <= i < n ==> NumberChar(s[i])
  }

  lemma FractionIsNumber(s: string)
    ensures AllNumber(s, FractionLength(s))
  {
    forall i | 0 <= i < FractionLength(s) ensures NumberChar(s[i]) {
      assert i > 0 ==> s[i] == s[1..][i - 1];
    }
  }

  lemma ExponentIsNumber(s: string)
    ensures AllNumber(s, ExponentLength(s))
  {
    forall i | 0 <= i < ExponentLength(s) ensures NumberChar(s[i]) {
      var sign := if |s| >= 2 && (s[1] == '+' || s[1] == '-') then 1 else 0;
      assert i > sign ==> s[i] == s[1 + sign..][i - 1 - sign];
    }
  }

  lemma JoinNumber(s: string, a: nat, n: nat)
    requires a + n <= |s| && AllNumber(s, a) && AllNumber(s[a..], n)
    ensures AllNumber(s, a + n)
  {
    forall i | 0 <= i < a + n ensures NumberChar(s[i]) {
      assert i >= a ==> s[i] == s[a..][i - a];
    }
  }

  lemma TailIsNumber(s: string, a: nat)
    requires a <= |s| && AllNumber(s, a)
    ensures var b := a + FractionLength(s[a..]); AllNumber(s, b + ExponentLength(s[b..]))
  {
    FractionIsNumber(s[a..]);
    JoinNumber(s, a, FractionLength(s[a..]));
    var b := a + FractionLength(s[a..]);
    ExponentIsNumber(s[b..]);
    JoinNumber(s, b, ExponentLength(s[b..]));
  }

  lemma WholeIsNumber(s: string, sign: nat)
    requires sign <= |s| && sign <= 1 && (sign == 1 ==> s[0] == '-')
    ensures var whole := if |s| > sign && s[sign] == '0' then 1 else Digits(s[sign..]); AllNumber(s, sign + whole)
  {
    JoinNumber(s, sign, if |s| > sign && s[sign] == '0' then 1 else Digits(s[sign..]));
  }

  lemma NumbersAreNumbers(s: string)
    ensures AllNumber(s, NumberLength(s))
  {
    var sign := if s != "" && s[0] == '-' then 1 else 0;
    var whole := if |s| > sign && s[sign] == '0' then 1 else Digits(s[sign..]);
    WholeIsNumber(s, sign);
    TailIsNumber(s, sign + whole);
  }

  lemma NumbersAreWords(s: string)
    ensures WordOk(s[..NumberLength(s)])
  {
    NumbersAreNumbers(s);
  }

  // ----- values -----

  /** What was read is spelled by trees that nest as deep as the value. */
  lemma {:induction false} ReadsTrees(s: string) returns (ts: seq<Tree>, text: string)
    requires JsonText.Read(s).Some?
    ensures s == text + JsonText.Read(s).value.1 && Spells(ts, text, Nesting(JsonText.Read(s).value.0))
    decreases |s|, 1
  {
    if s[0] == '"' {
      ts, text := ReadsQuoted(s);
    } else if s[0] == '[' {
      ts, text := ReadsArray(s);
    } else if s[0] == '{' {
      ts, text := ReadsObject(s);
    } else {
      text := s[..|s| - |JsonText.Read(s).value.1|];
      ScalarIsWord(s);
      ts := [Word(text)];
      SpellsWord(text);
    }
  }

  lemma ScalarIsWord(s: string)
    requires JsonText.Read(s).Some? && s[0] != '"' && s[0] != '[' && s[0] != '{'
    ensures var n := |s| - |JsonText.Read(s).value.1|;
            WordOk(s[..n]) && s == s[..n] + JsonText.Read(s).value.1 && Nesting(JsonText.Read(s).value.0) == 0
  {
    if "null" <= s {
      LiteralIsWord(s, "null");
    } else if "true" <= s {
      LiteralIsWord(s, "true");
    } else if "false" <= s {
      LiteralIsWord(s, "false");
    } else {
      NumbersAreWords(s);
      assert s == s[..NumberLength(s)] + s[NumberLength(s)..];
    }
  }

  lemma LiteralIsWord(s: string, word: string)
    requires word <= s && forall c <- word :: 'a' <= c <= 'z'
    ensures WordOk(s[..|word|]) && s == s[..|word|] + s[|word|..] && |s[|word|..]| == |s| - |word|
  {
    assert s[..|word|] == word;
  }

  lemma Bracketed(s: string, open: char, w: string, text: string, close: char, rest: string)
    requires s != "" && s[0] == open && s[1..] == w + (text + ([close] + rest))
    ensures s == [open] + (w + text) + [close] + rest
  {
    assert s == [open] + s[1..];
  }

  lemma {:induction false} ReadsArray(s: string) returns (ts: seq<Tree>, text: string)
    requires s != "" && s[0] == '[' && JsonText.Read(s).Some?
    ensures s == text + JsonText.Read(s).value.1 && Spells(ts, text, Nesting(JsonText.Read(s).value.0))
    decreases |s|, 0
  {
    var w := Spaces(s[1..]);
    var inner := Skip(s[1..]);
    var kids, body := [], "";
    if inner != "" && inner[0] == ']' {
      assert inner == "" + ([']'] + inner[1..]);
    } else {
      kids, body := ReadsAllItems(inner);
    }
    SpellsWord(w);
    SpellsBoth([Word(w)], kids, w, body, 0, DepthAll(kids));
    Bracketed(s, '[', w, body, ']', JsonText.Read(s).value.1);
    ts, text := [List([Word(w)] + kids)], "[" + (w + body) + "]";
    SpellsOne(List([Word(w)] + kids));
  }

  lemma {:induction false} ReadsObject(s: string) returns (ts: seq<Tree>, text: string)
    requires s != "" && s[0] == '{' && JsonText.Read(s).Some?
    ensures s == text + JsonText.Read(s).value.1 && Spells(ts, text, Nesting(JsonText.Read(s).value.0))
    decreases |s|, 0
  {
    var w := Spaces(s[1..]);
    var inner := Skip(s[1..]);
    var kids, body := [], "";
    if inner != "" && inner[0] == '}' {
      assert inner == "" + (['}'] + inner[1..]);
    } else {
      kids, body := ReadsAllMembers(inner);
    }
    SpellsWord(w);
    SpellsBoth([Word(w)], kids, w, body, 0, DepthAll(kids));
    Bracketed(s, '{', w, body, '}', JsonText.Read(s).value.1);
    ts, text := [Record([Word(w)] + kids)], "{" + (w + body) + "}";
    SpellsOne(Record([Word(w)] + kids));
  }

  lemma UnfoldItems(s: string) returns (first: (Json, string), more: Parsed<seq<Json>>)
    requires ReadItems(s).Some?
    ensures JsonText.Read(s) == Some(first) && Skip(first.1) != ""
    ensures match more
            case None => Skip(first.1)[0] == ']' && ReadItems(s) == Some(([first.0], Skip(first.1)[1..]))
            case Some(m) =>
              && Skip(first.1)[0] == ',' && |Skip(Skip(first.1)[1..])| < |s|
              && ReadItems(Skip(Skip(first.1)[1..])) == more && ReadItems(s) == Some(([first.0] + m.0, m.1))
  {
    first := JsonText.Read(s).value;
    more := if Skip(first.1)[0] == ',' then ReadItems(Skip(Skip(first.1)[1..])) else None;
  }

  lemma UnfoldMembers(s: string) returns (first: (Member, string), more: Parsed<seq<Member>>)
    requires ReadMembers(s).Some?
    ensures ReadMember(s) == Some(first) && Skip(first.1) != ""
    ensures match more
            case None => Skip(first.1)[0] == '}' && ReadMembers(s) == Some(([first.0], Skip(first.1)[1..]))
            case Some(m) =>
              && Skip(first.1)[0] == ',' && |Skip(Skip(first.1)[1..])| < |s|
              && ReadMembers(Skip(Skip(first.1)[1..])) == more && ReadMembers(s) == Some(([first.0] + m.0, m.1))
  {
    first := ReadMember(s).value;
    more := if Skip(first.1)[0] == ',' then ReadMembers(Skip(Skip(first.1)[1..])) else None;
  }

  /** One element and the white space after it. */
  lemma Padded(ts: seq<Tree>, text: string, depth: nat, tail: string) returns (us: seq<Tree>, padded: string)
    requires Spells(ts, text, depth)
    ensures Spells(us, padded, depth) && text + tail == padded + Skip(tail)
  {
    var w := Spaces(tail);
    SpellsWord(w);
    SpellsBoth(ts, [Word(w)], text, w, depth, 0);
    us, padded := ts + [Word(w)], text + w;
  }

  /** An element, a comma, and the elements after it. */
  lemma Separated(ts: seq<Tree>, text: string, depth: nat, rest: string, us: seq<Tree>, others: string, n: nat, end: string)
    returns (all: seq<Tree>, whole: string)
    requires Spells(ts, text, depth) && Spells(us, others, n)
    requires rest != "" && rest[0] == ',' && Skip(rest[1..]) == others + end
    ensures Spells(all, whole, Max(depth, n)) && text + rest == whole + end
  {
    var w := Spaces(rest[1..]);
    var comma := "," + w;
    SpellsWord(comma);
    SpellsBoth(ts, [Word(comma)], text, comma, depth, 0);
    SpellsBoth(ts + [Word(comma)], us, text + comma, others, depth, n);
    all, whole := ts + [Word(comma)] + us, text + comma + others;
    assert rest == "," + rest[1..];
    assert text + ("," + (w + (others + end))) == text + ("," + w) + others + end;
  }

  lemma {:induction false} ReadsAllItems(s: string) returns (ts: seq<Tree>, text: string)
    requires ReadItems(s).Some?
    ensures s == text + ([']'] + ReadItems(s).value.1) && Spells(ts, text, NestingOfItems(ReadItems(s).value.0))
    decreases |s|, 2
  {
    var first, more := UnfoldItems(s);
    var rest := Skip(first.1);
    ts, text := ReadsTrees(s);
    ts, text := Padded(ts, text, Nesting(first.0), first.1);
    NestingOfMoreItems(first.0, if more.Some? then more.value.0 else []);
    if more.Some? {
      var us, others := ReadsAllItems(Skip(rest[1..]));
      ts, text := Separated(ts, text, Nesting(first.0), rest, us, others, NestingOfItems(more.value.0),
                            [']'] + more.value.1);
    } else {
      assert rest == [']'] + rest[1..];
    }
  }

  lemma UnfoldMember(s: string) returns (key: (string, string), tail: string, value: (Json, string))
    requires ReadMember(s).Some?
    ensures s != "" && s[0] == '"' && ReadText(s[1..]) == Some(key)
    ensures Skip(key.1) != "" && Skip(key.1)[0] == ':' && tail == Skip(Skip(key.1)[1..]) && |tail| < |s|
    ensures JsonText.Read(tail) == Some(value) && ReadMember(s) == Some((Member(key.0, value.0), value.1))
  {
    key := ReadText(s[1..]).value;
    tail := Skip(Skip(key.1)[1..]);
    value := JsonText.Read(tail).value;
  }

  lemma ReadsQuoted(s: string) returns (ts: seq<Tree>, text: string)
    requires s != "" && s[0] == '"' && ReadText(s[1..]).Some?
    ensures s == text + ReadText(s[1..]).value.1 && Spells(ts, text, 0)
  {
    var body := Pieces(s[1..]);
    ts, text := [Quoted(body)], "\"" + Spell(body) + "\"";
    SpellsOne(Quoted(body));
    assert s == "\"" + s[1..];
  }

  lemma Glue(a: string, b: string, c: string)
    ensures a + (b + c) == a + b + c
  {
  }

  lemma ReadsColon(tail: string) returns (text: string)
    requires Skip(tail) != "" && Skip(tail)[0] == ':'
    ensures WordOk(text) && tail == text + Skip(Skip(tail)[1..])
  {
    var w := Spaces(tail);
    var v := Spaces(Skip(tail)[1..]);
    text := w + (":" + v);
    assert Skip(tail) == ":" + Skip(tail)[1..];
  }

  lemma {:induction false} ReadsOneMember(s: string) returns (ts: seq<Tree>, text: string)
    requires ReadMember(s).Some?
    ensures s == text + ReadMember(s).value.1 && Spells(ts, text, Nesting(ReadMember(s).value.0.value))
    decreases |s|, 1
  {
    var key, tail, value := UnfoldMember(s);
    ts, text := ReadsQuoted(s);
    var colon := ReadsColon(key.1);
    SpellsWord(colon);
    SpellsBoth(ts, [Word(colon)], text, colon, 0, 0);
    Glue(text, colon, tail);
    var us, more := ReadsTrees(tail);
    SpellsBoth(ts + [Word(colon)], us, text + colon, more, 0, Nesting(value.0));
    Glue(text + colon, more, value.1);
    ts, text := ts + [Word(colon)] + us, text + colon + more;
  }

  lemma {:induction false} ReadsAllMembers(s: string) returns (ts: seq<Tree>, text: string)
    requires ReadMembers(s).Some?
    ensures s == text + (['}'] + ReadMembers(s).value.1) && Spells(ts, text, NestingOfMembers(ReadMembers(s).value.0))
    decreases |s|, 2
  {
    var first, more := UnfoldMembers(s);
    var rest := Skip(first.1);
    ts, text := ReadsOneMember(s);
    ts, text := Padded(ts, text, Nesting(first.0.value), first.1);
    NestingOfMoreMembers(first.0, if more.Some? then more.value.0 else []);
    if more.Some? {
      var us, others := ReadsAllMembers(Skip(rest[1..]));
      ts, text := Separated(ts, text, Nesting(first.0.value), rest, us, others, NestingOfMembers(more.value.0),
                            ['}'] + more.value.1);
    } else {
      assert rest == ['}'] + rest[1..];
    }
  }

  /** The check before parsing accepts a document that can be parsed exactly when it is nested at most three deep. */
  lemma AcceptsWhatIsShallow(s: string)
    requires Load(s).Some?
    ensures Accepts(s) <==> Nesting(Load(s).value) <= MAX_DEPTH
  {
    var w := Spaces(s);
    var ts, text := ReadsTrees(Skip(s));
    var end := JsonText.Read(Skip(s)).value.1;
    var us, padded := Padded(ts, text, Nesting(Load(s).value), end);
    SpellsWord(w);
    SpellsBoth([Word(w)], us, w, padded, 0, Nesting(Load(s).value));
    assert s == w + padded;
    AcceptsExactlyShallow([Word(w)] + us);
  }
}
