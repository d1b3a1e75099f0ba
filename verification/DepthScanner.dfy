/** The bracket-depth check on a carousel manifest before it is parsed (standalone/mutations.py). */
module DepthScanner {
  const MAX_DEPTH := 3

  // ----- the scanner -----

  datatype Scan = Scan(depth: int, inString: bool, escaped: bool) | Rejected

  const START := Scan(0, false, false)

  predicate Opens(c: char) { c == '[' || c == '{' }
  predicate Closes(c: char) { c == ']' || c == '}' }

  function Read(s: Scan, c: char): Scan {
    match s
    case Rejected => Rejected
    case Scan(depth, inString, escaped) =>
      if inString then
        if escaped then Scan(depth, true, false)
        else if c == '\\' then Scan(depth, true, true)
        else Scan(depth, c != '"', false)
      else if c == '"' then Scan(depth, true, escaped)
      else if Opens(c) then if depth + 1 > MAX_DEPTH then Rejected else Scan(depth + 1, false, escaped)
      else if Closes(c) then if depth - 1 < 0 then Rejected else Scan(depth - 1, false, escaped)
      else s
  }

  function ReadAll(s: Scan, text: string): Scan
    decreases |text|
  {
    if text == "" then s else ReadAll(Read(s, text[0]), text[1..])
  }

  predicate Accepts(text: string) { ReadAll(START, text) == START }

  /** The scanning loop, which gives up at the first bracket too deep or too many. */
  method ValidateDepth(document: string) returns (valid: bool)
    ensures valid <==> Accepts(document)
  {
    var depth, inString, escaped := 0, false, false;
    for i := 0 to |document|
      invariant ReadAll(START, document) == ReadAll(Scan(depth, inString, escaped), document[i..])
    {
      var c := document[i];
      assert document[i..][0] == c && document[i..][1..] == document[i + 1..];
      if inString {
        if escaped {
          escaped := false;
        } else if c == '\\' {
          escaped := true;
        } else if c == '"' {
          inString := false;
        }
      } else if c == '"' {
        inString := true;
      } else if Opens(c) {
        depth := depth + 1;
        if depth > MAX_DEPTH {
          StaysRejected(document[i + 1..]);
          return false;
        }
      } else if Closes(c) {
        depth := depth - 1;
        if depth < 0 {
          StaysRejected(document[i + 1..]);
          return false;
        }
      }
    }
    valid := depth == 0 && !inString && !escaped;
  }

  lemma {:induction false} StaysRejected(text: string)
    ensures ReadAll(Rejected, text) == Rejected
    decreases |text|
  {
    if text == "" {
    } else {
      StaysRejected(text[1..]);
    }
  }

  lemma {:induction false} ReadAllSplits(s: Scan, a: string, b: string)
    ensures ReadAll(s, a + b) == ReadAll(ReadAll(s, a), b)
    decreases |a|
  {
    if a == "" {
      assert a + b == b;
    } else {
      assert (a + b)[0] == a[0] && (a + b)[1..] == a[1..] + b;
      ReadAllSplits(Read(s, a[0]), a[1..], b);
    }
  }

  // ----- JSON texts as trees -----

  /** A string body: characters as they are, or a backslash and the character after it (section 7 of RFC 8259). */
  datatype Piece = Raw(c: char) | Escaped(c: char)

  /**
   * Any JSON text, whatever its spacing and its spelling of strings: brackets and what is between them, where a
   * `Word` is a number, a literal, white space, a comma or a colon.
   */
  datatype Tree = Word(text: string) | Quoted(body: seq<Piece>) | List(kids: seq<Tree>) | Record(kids: seq<Tree>)

  predicate PieceOk(p: Piece) { p.Raw? ==> p.c != '"' && p.c != '\\' }

  predicate WordOk(text: string) { forall c <- text :: c != '"' && !Opens(c) && !Closes(c) }

  predicate TreeOk(t: Tree) {
    match t
    case Word(text) => WordOk(text)
    case Quoted(body) => forall p <- body :: PieceOk(p)
    case List(kids) => forall k <- kids :: TreeOk(k)
    case Record(kids) => forall k <- kids :: TreeOk(k)
  }

  function Spell(body: seq<Piece>): string
    decreases |body|
  {
    if body == [] then ""
    else (match body[0] case Raw(c) => [c] case Escaped(c) => ['\\', c]) + Spell(body[1..])
  }

  function Print(t: Tree): string
    decreases t, 0
  {
    match t
    case Word(text) => text
    case Quoted(body) => "\"" + Spell(body) + "\""
    case List(kids) => "[" + PrintAll(kids) + "]"
    case Record(kids) => "{" + PrintAll(kids) + "}"
  }

  function PrintAll(kids: seq<Tree>): string
    decreases kids, |kids|
  {
    if kids == [] then "" else Print(kids[0]) + PrintAll(kids[1..])
  }

  function Max(a: nat, b: nat): nat { if a < b then b else a }

  function Depth(t: Tree): nat
    decreases t, 0
  {
    match t
    case Word(_) => 0
    case Quoted(_) => 0
    case List(kids) => 1 + DepthAll(kids)
    case Record(kids) => 1 + DepthAll(kids)
  }

  function DepthAll(kids: seq<Tree>): nat
    decreases kids, |kids|
  {
    if kids == [] then 0 else Max(Depth(kids[0]), DepthAll(kids[1..]))
  }

  // ----- the scanner measures exactly the depth -----

  lemma {:induction false} ReadsWord(depth: nat, text: string)
    requires WordOk(text)
    ensures ReadAll(Scan(depth, false, false), text) == Scan(depth, false, false)
    decreases |text|
  {
    if text == "" {
    } else {
      assert text[0] in text;
      assert forall c <- text[1..] :: c in text;
      ReadsWord(depth, text[1..]);
    }
  }

  lemma {:induction false} ReadsBody(depth: nat, body: seq<Piece>)
    requires forall p <- body :: PieceOk(p)
    ensures ReadAll(Scan(depth, true, false), Spell(body)) == Scan(depth, true, false)
    decreases |body|
  {
    if body == [] {
    } else {
      var first := match body[0] case Raw(c) => [c] case Escaped(c) => ['\\', c];
      ReadAllSplits(Scan(depth, true, false), first, Spell(body[1..]));
      assert PieceOk(body[0]);
      if body[0].Escaped? {
        assert first == ['\\'] + [body[0].c];
        ReadAllSplits(Scan(depth, true, false), ['\\'], [body[0].c]);
        ReadsOne(Scan(depth, true, false), '\\');
        ReadsOne(Scan(depth, true, true), body[0].c);
      } else {
        ReadsOne(Scan(depth, true, false), body[0].c);
      }
      assert ReadAll(Scan(depth, true, false), first) == Scan(depth, true, false);
      ReadsBody(depth, body[1..]);
    }
  }

  function Reading(depth: nat, inner: nat): Scan {
    if depth + inner <= MAX_DEPTH then Scan(depth, false, false) else Rejected
  }

  lemma ReadsQuoted(depth: nat, body: seq<Piece>)
    requires forall p <- body :: PieceOk(p)
    ensures ReadAll(Scan(depth, false, false), "\"" + Spell(body) + "\"") == Scan(depth, false, false)
  {
    ReadAllSplits(Scan(depth, false, false), "\"" + Spell(body), "\"");
    ReadAllSplits(Scan(depth, false, false), "\"", Spell(body));
    ReadsBody(depth, body);
    ReadsOne(Scan(depth, false, false), '"');
    ReadsOne(Scan(depth, true, false), '"');
  }

  lemma ReadsOne(s: Scan, c: char)
    ensures ReadAll(s, [c]) == Read(s, c)
  {
    assert [c][1..] == "";
  }

  lemma {:induction false} ReadsTree(depth: nat, t: Tree)
    requires TreeOk(t) && depth <= MAX_DEPTH
    ensures ReadAll(Scan(depth, false, false), Print(t)) == Reading(depth, Depth(t))
    decreases t, 0
  {
    match t
    case Word(text) => ReadsWord(depth, text);
    case Quoted(body) => ReadsQuoted(depth, body);
    case List(kids) => ReadsBrackets(depth, '[', kids, ']');
    case Record(kids) => ReadsBrackets(depth, '{', kids, '}');
  }

  lemma {:induction false} ReadsBrackets(depth: nat, open: char, kids: seq<Tree>, close: char)
    requires (forall k <- kids :: TreeOk(k)) && depth <= MAX_DEPTH && Opens(open) && Closes(close)
    ensures ReadAll(Scan(depth, false, false), [open] + PrintAll(kids) + [close]) == Reading(depth, 1 + DepthAll(kids))
    decreases kids, |kids| + 1
  {
    var s := Scan(depth, false, false);
    ReadAllSplits(s, [open] + PrintAll(kids), [close]);
    ReadAllSplits(s, [open], PrintAll(kids));
    ReadsOne(s, open);
    if depth + 1 > MAX_DEPTH {
      StaysRejected(PrintAll(kids));
      StaysRejected([close]);
    } else {
      ReadsTrees(depth + 1, kids);
      ReadsOne(Scan(depth + 1, false, false), close);
      StaysRejected([close]);
    }
  }

  lemma {:induction false} ReadsTrees(depth: nat, kids: seq<Tree>)
    requires (forall k <- kids :: TreeOk(k)) && depth <= MAX_DEPTH
    ensures ReadAll(Scan(depth, false, false), PrintAll(kids)) == Reading(depth, DepthAll(kids))
    decreases kids, |kids|
  {
    if kids == [] {
    } else {
      ReadAllSplits(Scan(depth, false, false), Print(kids[0]), PrintAll(kids[1..]));
      ReadsTree(depth, kids[0]);
      if depth + Depth(kids[0]) <= MAX_DEPTH {
        ReadsTrees(depth, kids[1..]);
      } else {
        StaysRejected(PrintAll(kids[1..]));
      }
    }
  }

  /** The scanner accepts a JSON text exactly when its nesting is at most three deep, however it is spelled. */
  lemma AcceptsExactlyShallow(document: seq<Tree>)
    requires forall t <- document :: TreeOk(t)
    ensures Accepts(PrintAll(document)) <==> DepthAll(document) <= MAX_DEPTH
  {
    ReadsTrees(0, document);
  }
}
