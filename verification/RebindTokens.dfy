/**
 What a query is made of, as SQL sees it, and what `rebind` makes of each part:
 only the question marks of code are numbered.  The parts are defined without
 the lexer.
 */
module RebindTokens {
  import opened Text
  import opened Rebind

  /** A literal with a doubled quote is two tokens, one right after the other. */
  datatype Token =
    | Code(text: string)
    | Literal(text: string)      // 'text'
    | Name(text: string)         // "text"
    | Remark(text: string)       // -- text, to the end of the line
    | Comment(text: string)      // /* text */

  predicate HasPair(s: string, a: char, b: char) {
    |s| > 1 && ((s[0] == a && s[1] == b) || HasPair(s[1..], a, b))
  }

  /** The text has none of the marks that would end the token, or in code begin another one. */
  predicate IsToken(t: Token) {
    match t
    case Code(s) => '\'' !in s && '"' !in s && !HasPair(s, '-', '-') && !HasPair(s, '/', '*')
    case Literal(s) => '\'' !in s
    case Name(s) => '"' !in s
    case Remark(s) => '\n' !in s
    case Comment(s) => !HasPair(s, '*', '/')
  }

  function Opened(t: Token): string {
    match t
    case Code(s) => s
    case Literal(s) => "'" + s
    case Name(s) => "\"" + s
    case Remark(s) => "--" + s
    case Comment(s) => "/*" + s
  }

  function Close(t: Token): string {
    match t
    case Code(_) => ""
    case Literal(_) => "'"
    case Name(_) => "\""
    case Remark(_) => "\n"
    case Comment(_) => "*/"
  }

  function Written(t: Token): string {
    Opened(t) + Close(t)
  }

  /** Tokens one after another, no two of code side by side. */
  predicate IsQuery(ts: seq<Token>) {
    ts != [] ==> IsToken(ts[0]) && (|ts| > 1 && ts[0].Code? ==> !ts[1].Code?) && IsQuery(ts[1..])
  }

  function WrittenAll(ts: seq<Token>): string {
    if ts == [] then "" else Written(ts[0]) + WrittenAll(ts[1..])
  }

  // ----- what becomes of them -----

  function Marks(s: string): nat {
    if s == "" then 0 else (if s[0] == '?' then 1 else 0) + Marks(s[1..])
  }

  /** Every question mark numbered, from `k` on. */
  function Numbered(s: string, k: nat): string {
    if s == "" then ""
    else if s[0] == '?' then "$" + Decimal(k) + Numbered(s[1..], k + 1)
    else [s[0]] + Numbered(s[1..], k)
  }

  function Bound(t: Token, k: nat): string {
    if t.Code? then Numbered(t.text, k) else Written(t)
  }

  function MarksOf(t: Token): nat {
    if t.Code? then Marks(t.text) else 0
  }

  function BoundAll(ts: seq<Token>, k: nat): string {
    if ts == [] then "" else Bound(ts[0], k) + BoundAll(ts[1..], k + MarksOf(ts[0]))
  }

  function MarksOfAll(ts: seq<Token>): nat {
    if ts == [] then 0 else MarksOf(ts[0]) + MarksOfAll(ts[1..])
  }

  // ----- one token -----

  /** The text is lexed from `m` to `to`; it has `n` placeholders and is translated to `out`. */
  predicate Reads(m: Mode, k: nat, s: string, to: Mode, n: nat, out: string) {
    Lex(m, s) == to && Placeholders(m, s) == n && Bind(m, k, s) == out
  }

  lemma ReadsMore(m: Mode, k: nat, s: string, mid: Mode, n: nat, out: string,
                  t: string, to: Mode, n2: nat, out2: string)
    requires Reads(m, k, s, mid, n, out) && Reads(mid, k + n, t, to, n2, out2)
    ensures Reads(m, k, s + t, to, n + n2, out + out2)
  {
    BindSplits(m, k, s, t);
    LexSplits(m, s, t);
  }

  predicate IsFresh(m: Mode) {
    m == Plain || m == SingleEnd || m == DoubleEnd
  }

  lemma {:induction false} CodeReads(m: Mode, k: nat, s: string)
    requires IsToken(Code(s)) && IsCode(m)
    requires s != "" ==> !(m == Dash && s[0] == '-') && !(m == Slash && s[0] == '*')
    ensures IsCode(Lex(m, s)) && Reads(m, k, s, Lex(m, s), Marks(s), Numbered(s, k))
    decreases |s|
  {
    if s != "" {
      var next := Next(m, s[0]);
      assert s[0] in s && next == FromCode(s[0]);
      assert |s| > 1 ==> s[1..][0] == s[1];
      CodeReads(next, if s[0] == '?' then k + 1 else k, s[1..]);
    }
  }

  lemma {:induction false} BodyReads(m: Mode, k: nat, s: string)
    requires (m == Single && '\'' !in s) || (m == Double && '"' !in s) || (m == Line && '\n' !in s)
    ensures Reads(m, k, s, m, 0, s)
  {
    if s != "" {
      BodyReads(m, k, s[1..]);
      assert s == [s[0]] + s[1..];
    }
  }

  lemma {:induction false} CommentReads(m: Mode, k: nat, s: string)
    requires (m == Block || m == Star) && !HasPair(s, '*', '/') && (m == Star && s != "" ==> s[0] != '/')
    ensures (Lex(m, s) == Block || Lex(m, s) == Star) && Reads(m, k, s, Lex(m, s), 0, s)
    decreases |s|
  {
    if s != "" {
      assert |s| > 1 ==> s[1..][0] == s[1];
      CommentReads(Next(m, s[0]), k, s[1..]);
      assert s == [s[0]] + s[1..];
    }
  }

  lemma OneReads(m: Mode, k: nat, c: char)
    requires !IsPlaceholder(m, c)
    ensures Reads(m, k, [c], Next(m, c), 0, [c])
  {
    assert [c][1..] == "";
    assert [c] + "" == [c];
  }

  lemma TwoRead(m: Mode, k: nat, c: char, d: char)
    requires !IsPlaceholder(m, c) && !IsPlaceholder(Next(m, c), d)
    ensures Reads(m, k, [c, d], Next(Next(m, c), d), 0, [c, d])
  {
    OneReads(m, k, c);
    OneReads(Next(m, c), k, d);
    ReadsMore(m, k, [c], Next(m, c), 0, [c], [d], Next(Next(m, c), d), 0, [d]);
    assert [c] + [d] == [c, d];
  }

  /** Where the lexer is inside a token that is not code. */
  function Inside(t: Token): Mode {
    match t
    case Literal(_) => Single
    case Name(_) => Double
    case Remark(_) => Line
    case _ => Block
  }

  /** The beginning of a token that is not code is copied, whatever code came before it. */
  lemma OpenedReads(m: Mode, k: nat, t: Token) returns (to: Mode)
    requires IsToken(t) && !t.Code? && IsCode(m)
    ensures Reads(m, k, Opened(t), to, 0, Opened(t))
    ensures to == Inside(t) || (t.Comment? && to == Star)
  {
    match t
    case Literal(s) =>
      OneReads(m, k, '\'');
      BodyReads(Single, k, s);
      to := Single;
      ReadsMore(m, k, "'", Single, 0, "'", s, to, 0, s);
    case Name(s) =>
      OneReads(m, k, '"');
      BodyReads(Double, k, s);
      to := Double;
      ReadsMore(m, k, "\"", Double, 0, "\"", s, to, 0, s);
    case Remark(s) =>
      TwoRead(m, k, '-', '-');
      BodyReads(Line, k, s);
      to := Line;
      ReadsMore(m, k, "--", Line, 0, "--", s, to, 0, s);
    case Comment(s) =>
      TwoRead(m, k, '/', '*');
      CommentReads(Block, k, s);
      to := Lex(Block, s);
      ReadsMore(m, k, "/*", Block, 0, "/*", s, to, 0, s);
  }

  lemma TokenReads(m: Mode, k: nat, t: Token) returns (to: Mode)
    requires IsToken(t) && IsCode(m) && (t.Code? ==> IsFresh(m))
    ensures IsCode(to) && (!t.Code? ==> IsFresh(to))
    ensures Reads(m, k, Written(t), to, MarksOf(t), Bound(t, k))
  {
    if t.Code? {
      CodeReads(m, k, t.text);
      to := Lex(m, t.text);
      assert Written(t) == t.text;
    } else {
      var mid := OpenedReads(m, k, t);
      if t.Comment? {
        TwoRead(mid, k, '*', '/');
        to := Plain;
      } else {
        OneReads(mid, k, Close(t)[0]);
        to := Next(mid, Close(t)[0]);
        assert Close(t) == [Close(t)[0]];
      }
      ReadsMore(m, k, Opened(t), mid, 0, Opened(t), Close(t), to, 0, Close(t));
    }
  }

  // ----- a query -----

  lemma {:induction false} TokensRead(m: Mode, k: nat, ts: seq<Token>) returns (to: Mode)
    requires IsQuery(ts) && IsCode(m) && (ts != [] && ts[0].Code? ==> IsFresh(m))
    ensures IsCode(to) && Reads(m, k, WrittenAll(ts), to, MarksOfAll(ts), BoundAll(ts, k))
    decreases |ts|
  {
    if ts == [] {
      to := m;
    } else {
      var mid := TokenReads(m, k, ts[0]);
      assert |ts| > 1 ==> ts[1..][0] == ts[1];
      to := TokensRead(mid, k + MarksOf(ts[0]), ts[1..]);
      ReadsMore(m, k, Written(ts[0]), mid, MarksOf(ts[0]), Bound(ts[0], k),
                WrittenAll(ts[1..]), to, MarksOfAll(ts[1..]), BoundAll(ts[1..], k + MarksOf(ts[0])));
    }
  }

  /** What is left of a query after its last complete token: nothing, or the beginning of a literal, a name or a
      comment that does not end. */
  ghost predicate IsRest(rest: string) {
    rest == "" || exists t: Token :: IsToken(t) && !t.Code? && rest == Opened(t)
  }

  /** However a query is put together, `rebind` numbers the question marks of its code, in order, and copies
      everything else. */
  lemma RebindsTokens(ts: seq<Token>, rest: string)
    requires IsQuery(ts) && IsRest(rest)
    ensures Bind(Plain, 1, WrittenAll(ts) + rest) == BoundAll(ts, 1) + rest
  {
    var to := TokensRead(Plain, 1, ts);
    var n := MarksOfAll(ts);
    if rest == "" {
      assert Reads(to, 1 + n, rest, to, 0, rest);
      ReadsMore(Plain, 1, WrittenAll(ts), to, n, BoundAll(ts, 1), rest, to, 0, rest);
    } else {
      var t: Token :| IsToken(t) && !t.Code? && rest == Opened(t);
      var end := OpenedReads(to, 1 + n, t);
      ReadsMore(Plain, 1, WrittenAll(ts), to, n, BoundAll(ts, 1), rest, end, 0, rest);
    }
  }

  // ----- every query is put together so -----

  /** The first place of `c`, or the end. */
  function Find(s: string, c: char): (i: nat)
    ensures i <= |s| && (i < |s| ==> s[i] == c) && c !in s[..i]
  {
    if s == "" || s[0] == c then 0
    else
      var i := Find(s[1..], c);
      assert s[..1 + i] == [s[0]] + s[1..][..i];
      1 + i
  }

  /** The first place of the two characters, or the end. */
  function FindPair(s: string, a: char, b: char): (i: nat)
    ensures i <= |s| && (i < |s| ==> i < |s| - 1 && s[i] == a && s[i + 1] == b) && !HasPair(s[..i], a, b)
  {
    if s == "" || (|s| > 1 && s[0] == a && s[1] == b) then 0
    else
      var i := FindPair(s[1..], a, b);
      assert s[..1 + i][1..] == s[1..][..i];
      1 + i
  }

  /** The token that `s` begins with, when it is not code: up to its end, or unfinished. */
  lemma FirstToken(s: string) returns (t: Token, closed: bool, rest: string)
    requires s != "" && (s[0] == '\'' || s[0] == '"' || (|s| > 1 && (s[..2] == "--" || s[..2] == "/*")))
    ensures IsToken(t) && !t.Code?
    ensures if closed then s == Written(t) + rest && |rest| < |s| else s == Opened(t)
  {
    if s[0] == '\'' || s[0] == '"' {
      var i := Find(s[1..], s[0]);
      var body := s[1..][..i];
      t := if s[0] == '\'' then Literal(body) else Name(body);
      closed := i < |s| - 1;
      if closed {
        rest := s[1..][i + 1..];
        assert s == [s[0]] + body + [s[0]] + rest;
      } else {
        assert s == [s[0]] + body;
        rest := "";
      }
    } else if s[..2] == "--" {
      var i := Find(s[2..], '\n');
      var body := s[2..][..i];
      t, closed := Remark(body), i < |s| - 2;
      if closed {
        rest := s[2..][i + 1..];
        assert s == s[..2] + body + ['\n'] + rest;
      } else {
        assert s == s[..2] + body;
        rest := "";
      }
    } else {
      var i := FindPair(s[2..], '*', '/');
      var body := s[2..][..i];
      t, closed := Comment(body), i < |s| - 2;
      if closed {
        rest := s[2..][i + 2..];
        assert s == s[..2] + body + ['*', '/'] + rest;
      } else {
        assert s == s[..2] + body;
        rest := "";
      }
    }
  }

  lemma Prepend(t: Token, ts: seq<Token>, rest: string)
    requires IsToken(t) && IsQuery(ts) && (t.Code? && ts != [] ==> !ts[0].Code?)
    ensures IsQuery([t] + ts) && WrittenAll([t] + ts) + rest == Written(t) + (WrittenAll(ts) + rest)
  {
    assert ([t] + ts)[1..] == ts;
  }

  /** A query of tokens and a rest, whatever its text. */
  lemma {:induction false} EveryQueryHasTokens(s: string) returns (ts: seq<Token>, rest: string)
    ensures IsQuery(ts) && IsRest(rest) && s == WrittenAll(ts) + rest
    decreases |s|
  {
    if s == "" {
      ts, rest := [], "";
    } else if s[0] == '\'' || s[0] == '"' || (|s| > 1 && (s[..2] == "--" || s[..2] == "/*")) {
      var t, closed, after := FirstToken(s);
      if closed {
        ts, rest := EveryQueryHasTokens(after);
        Prepend(t, ts, rest);
        ts := [t] + ts;
      } else {
        ts, rest := [], s;
      }
    } else {
      ts, rest := EveryQueryHasTokens(s[1..]);
      ts := AddCode(s, ts, rest);
    }
  }

  /** One more character of code in front. */
  lemma AddCode(s: string, ts: seq<Token>, rest: string) returns (more: seq<Token>)
    requires s != "" && s[0] != '\'' && s[0] != '"' && !(|s| > 1 && (s[..2] == "--" || s[..2] == "/*"))
    requires IsQuery(ts) && s[1..] == WrittenAll(ts) + rest
    ensures IsQuery(more) && s == WrittenAll(more) + rest
  {
    var c := s[0];
    assert s == [c] + s[1..];
    if ts != [] && ts[0].Code? {
      assert |s| > 1 ==> s[..2] == [c, s[1..][0]];
      more := JoinCode(c, ts, rest);
    } else {
      Prepend(Code([c]), ts, rest);
      more := [Code([c])] + ts;
    }
  }

  /** The character joins the code that the query begins with. */
  lemma JoinCode(c: char, ts: seq<Token>, rest: string) returns (more: seq<Token>)
    requires IsQuery(ts) && ts != [] && ts[0].Code? && c != '\'' && c != '"'
    requires var s := WrittenAll(ts) + rest; s != "" ==> [c, s[0]] != "--" && [c, s[0]] != "/*"
    ensures IsQuery(more) && [c] + (WrittenAll(ts) + rest) == WrittenAll(more) + rest
  {
    var text, tail := ts[0].text, ts[1..];
    assert tail != [] ==> tail[0] == ts[1];
    FirstIsCode(ts, rest);
    if text != "" {
      assert [c, text[0]][0] == c && [c, text[0]][1] == text[0];
    }
    CodeGrows(c, text);
    Prepend(Code([c] + text), tail, rest);
    Regroup(c, text, WrittenAll(tail) + rest);
    more := [Code([c] + text)] + tail;
  }

  lemma FirstIsCode(ts: seq<Token>, rest: string)
    requires ts != [] && ts[0].Code?
    ensures WrittenAll(ts) + rest == ts[0].text + (WrittenAll(ts[1..]) + rest)
    ensures ts[0].text != "" ==> (WrittenAll(ts) + rest)[0] == ts[0].text[0]
  {
    assert Written(ts[0]) == ts[0].text;
  }

  lemma CodeGrows(c: char, text: string)
    requires IsToken(Code(text)) && c != '\'' && c != '"'
    requires text != "" ==> !(c == '-' && text[0] == '-') && !(c == '/' && text[0] == '*')
    ensures IsToken(Code([c] + text))
  {
    assert ([c] + text)[1..] == text;
  }

  lemma Regroup(c: char, text: string, after: string)
    ensures [c] + (text + after) == Written(Code([c] + text)) + after
  {
    assert Written(Code([c] + text)) == [c] + text;
  }

  /** So every query is translated token by token. */
  lemma RebindIsTokenwise(query: string) returns (ts: seq<Token>, rest: string)
    ensures IsQuery(ts) && IsRest(rest) && query == WrittenAll(ts) + rest
    ensures Bind(Plain, 1, query) == BoundAll(ts, 1) + rest
  {
    ts, rest := EveryQueryHasTokens(query);
    RebindsTokens(ts, rest);
  }
}
