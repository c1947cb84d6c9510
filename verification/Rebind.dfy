/**
 `rebind`: question marks outside quotes and comments become numbered
 placeholders.  The program scans with one character of lookahead and four
 flags; the reference here is an automaton that reads one character at a time.
 */
module Rebind {
  import opened Text

  // ----- the reference lexer -----

  /** What the last characters were: `Dash`, `Slash` and `Star` may open or close a comment with the next one,
      `SingleEnd` and `DoubleEnd` may turn out to be an escaped quote. */
  datatype Mode = Plain | Dash | Slash | Line | Block | Star | Single | SingleEnd | Double | DoubleEnd

  predicate IsCode(m: Mode) {
    m.Plain? || m.Dash? || m.Slash? || m.SingleEnd? || m.DoubleEnd?
  }

  function FromCode(c: char): Mode {
    match c
    case '-' => Dash
    case '/' => Slash
    case '\'' => Single
    case '"' => Double
    case _ => Plain
  }

  function Next(m: Mode, c: char): Mode {
    match m
    case Plain => FromCode(c)
    case Dash => if c == '-' then Line else FromCode(c)
    case Slash => if c == '*' then Block else FromCode(c)
    case Line => if c == '\n' then Plain else Line
    case Block => if c == '*' then Star else Block
    case Star => if c == '/' then Plain else if c == '*' then Star else Block
    case Single => if c == '\'' then SingleEnd else Single
    case SingleEnd => if c == '\'' then Single else FromCode(c)
    case Double => if c == '"' then DoubleEnd else Double
    case DoubleEnd => if c == '"' then Double else FromCode(c)
  }

  function Lex(m: Mode, s: string): Mode
    decreases |s|
  {
    if s == "" then m else Lex(Next(m, s[0]), s[1..])
  }

  predicate IsPlaceholder(m: Mode, c: char) {
    IsCode(m) && c == '?'
  }

  /** The number of placeholders in `s`, lexed from mode `m`. */
  function Placeholders(m: Mode, s: string): nat
    decreases |s|
  {
    if s == "" then 0 else (if IsPlaceholder(m, s[0]) then 1 else 0) + Placeholders(Next(m, s[0]), s[1..])
  }

  // ----- the reference translation -----

  function Bind(m: Mode, k: nat, s: string): string
    decreases |s|
  {
    if s == "" then ""
    else if IsPlaceholder(m, s[0]) then "$" + Decimal(k) + Bind(Next(m, s[0]), k + 1, s[1..])
    else [s[0]] + Bind(Next(m, s[0]), k, s[1..])
  }

  /** The translation of one character. */
  function Piece(m: Mode, k: nat, c: char): string {
    if IsPlaceholder(m, c) then "$" + Decimal(k) else [c]
  }

  function Number(m: Mode, k: nat, c: char): nat {
    if IsPlaceholder(m, c) then k + 1 else k
  }

  lemma BindHead(m: Mode, k: nat, s: string)
    requires s != ""
    ensures Bind(m, k, s) == Piece(m, k, s[0]) + Bind(Next(m, s[0]), Number(m, k, s[0]), s[1..])
  {
  }

  lemma Associative(a: string, b: string, c: string)
    ensures (a + b) + c == a + (b + c)
  {
  }

  /** Everything before a position is translated on its own and fixes the mode and the next number. */
  lemma {:induction false} BindSplits(m: Mode, k: nat, a: string, b: string)
    ensures Bind(m, k, a + b) == Bind(m, k, a) + Bind(Lex(m, a), k + Placeholders(m, a), b)
    decreases |a|
  {
    if a == "" {
      assert a + b == b;
    } else {
      var c, k2 := a[0], Number(m, k, a[0]);
      assert (a + b)[0] == c && (a + b)[1..] == a[1..] + b;
      BindHead(m, k, a + b);
      BindHead(m, k, a);
      BindSplits(Next(m, c), k2, a[1..], b);
      Associative(Piece(m, k, c), Bind(Next(m, c), k2, a[1..]), Bind(Lex(m, a), k + Placeholders(m, a), b));
    }
  }

  /** In a query `a + s`, the first character of `s` is copied, unless it is a question mark in code:
      the k-th of those becomes $k.  What surrounds it is translated on its own. */
  lemma BindAt(a: string, s: string)
    requires s != ""
    ensures var m, k := Lex(Plain, a), 1 + Placeholders(Plain, a);
            Bind(Plain, 1, a + s) ==
              Bind(Plain, 1, a) + (Piece(m, k, s[0]) + Bind(Next(m, s[0]), Number(m, k, s[0]), s[1..]))
  {
    BindSplits(Plain, 1, a, s);
    BindHead(Lex(Plain, a), 1 + Placeholders(Plain, a), s);
  }

  // ----- the program -----

  /** The four flags as a mode; the lookahead has already settled the two-character tokens. */
  function Flags(line: bool, block: bool, single: bool, double: bool): Mode {
    if line then Line else if block then Block else if single then Single else if double then Double else Plain
  }

  lemma BindSettled(m: Mode, to: Mode, k: nat, s: string)
    requires s == "" || (Next(m, s[0]) == Next(to, s[0]) && IsCode(m) == IsCode(to))
    ensures Bind(m, k, s) == Bind(to, k, s)
  {
  }

  lemma BindCopiesTwo(m: Mode, k: nat, s: string)
    requires |s| >= 2 && !IsPlaceholder(m, s[0]) && !IsPlaceholder(Next(m, s[0]), s[1])
    ensures Bind(m, k, s) == [s[0], s[1]] + Bind(Next(Next(m, s[0]), s[1]), k, s[2..])
  {
    var t := s[1..];
    assert t[1..] == s[2..] && t[0] == s[1];
    BindHead(m, k, s);
    BindHead(Next(m, s[0]), k, t);
    Associative([s[0]], [s[1]], Bind(Next(Next(m, s[0]), s[1]), k, s[2..]));
    assert [s[0]] + [s[1]] == [s[0], s[1]];
  }

  method Rebind(query: string) returns (b: string)
    ensures b == Bind(Plain, 1, query)
  {
    b := "";
    var placeholder := 1;
    var inSingleQuote, inDoubleQuote, inLineComment, inBlockComment := false, false, false, false;
    var i := 0;
    while i < |query|
      invariant 0 <= i <= |query| && placeholder >= 1
      invariant inLineComment ==> !inBlockComment && !inSingleQuote && !inDoubleQuote
      invariant inBlockComment ==> !inSingleQuote && !inDoubleQuote
      invariant inSingleQuote ==> !inDoubleQuote
      invariant b + Bind(Flags(inLineComment, inBlockComment, inSingleQuote, inDoubleQuote), placeholder, query[i..])
                == Bind(Plain, 1, query)
    {
      var ch := query[i];
      var next := if i + 1 < |query| then query[i + 1] else '\0';
      ghost var m := Flags(inLineComment, inBlockComment, inSingleQuote, inDoubleQuote);
      ghost var rest := query[i..];
      ghost var was := b;
      ghost var k := placeholder;
      ghost var start := i;
      assert rest[0] == ch && (i + 1 < |query| ==> rest[1] == next);
      Written(b, rest, k);
      if inLineComment {
        b := b + [ch];
        if ch == '\n' {
          inLineComment := false;
        }
      } else if inBlockComment {
        b := b + [ch];
        if ch == '*' && next == '/' {
          b := b + [next];
          i := i + 1;
          inBlockComment := false;
        }
      } else if inSingleQuote {
        b := b + [ch];
        if ch == '\'' {
          if next == '\'' {
            b := b + [next];
            i := i + 1;
          } else {
            inSingleQuote := false;
          }
        }
      } else if inDoubleQuote {
        b := b + [ch];
        if ch == '"' {
          if next == '"' {
            b := b + [next];
            i := i + 1;
          } else {
            inDoubleQuote := false;
          }
        }
      } else if ch == '-' && next == '-' {
        b := b + [ch] + [next];
        i := i + 1;
        inLineComment := true;
      } else if ch == '/' && next == '*' {
        b := b + [ch] + [next];
        i := i + 1;
        inBlockComment := true;
      } else if ch == '\'' {
        b := b + [ch];
        inSingleQuote := true;
      } else if ch == '"' {
        b := b + [ch];
        inDoubleQuote := true;
      } else if ch == '?' {
        b := b + "$" + Decimal(placeholder);
        placeholder := placeholder + 1;
      } else {
        b := b + [ch];
      }
      i := i + 1;
      ghost var to := Flags(inLineComment, inBlockComment, inSingleQuote, inDoubleQuote);
      RoundOk(m, rest);
      assert i - start == Taken(m, ch, next) && to == RoundEnd(m, ch, next);
      assert b == was + Bound(m, k, rest, i - start);
      RebindStep(was, m, to, k, rest, i - start);
      assert query[i..] == rest[i - start..];
    }
  }

  /** The two-character tokens that the loop takes at once. */
  predicate IsPair(m: Mode, c: char, next: char) {
    || (m == Plain && ((c == '-' && next == '-') || (c == '/' && next == '*')))
    || (m == Block && c == '*' && next == '/')
    || (m == Single && c == '\'' && next == '\'')
    || (m == Double && c == '"' && next == '"')
  }

  /** How many characters one round of the loop consumes. */
  function Taken(m: Mode, c: char, next: char): nat {
    if IsPair(m, c, next) then 2 else 1
  }

  /** The mode that one round of the loop ends in. */
  function RoundEnd(m: Mode, c: char, next: char): Mode {
    match m
    case Line => if c == '\n' then Plain else Line
    case Block => if IsPair(m, c, next) then Plain else Block
    case Single => if c == '\'' && next != '\'' then Plain else Single
    case Double => if c == '"' && next != '"' then Plain else Double
    case _ =>
      if IsPair(m, c, next) then (if c == '-' then Line else Block)
      else if c == '\'' then Single else if c == '"' then Double else Plain
  }

  lemma RoundOk(m: Mode, s: string)
    requires s != "" && (m == Plain || m == Line || m == Block || m == Single || m == Double)
    ensures var next := if |s| > 1 then s[1] else '\0';
            Round(m, RoundEnd(m, s[0], next), s, Taken(m, s[0], next))
  {
  }

  /** What one round of the loop writes when it consumes `n` characters. */
  function Bound(m: Mode, k: nat, s: string, n: nat): string
    requires n <= |s| && s != ""
  {
    if IsPlaceholder(m, s[0]) then "$" + Decimal(k) else s[..n]
  }

  /** A round that consumes `n` characters and ends in mode `to` is one that the lexer agrees with. */
  predicate Round(m: Mode, to: Mode, s: string, n: nat) {
    && s != "" && 1 <= n <= 2 && n <= |s|
    && (m == Plain || m == Line || m == Block || m == Single || m == Double)
    && (n == 1 ==> Settles(m, to, s))
    && (n == 2 ==> Next(Next(m, s[0]), s[1]) == to && !IsPlaceholder(m, s[0]) && !IsPlaceholder(Next(m, s[0]), s[1]))
  }

  predicate Settles(m: Mode, to: Mode, s: string)
    requires s != ""
  {
    |s| > 1 ==> Next(Next(m, s[0]), s[1]) == Next(to, s[1]) && IsCode(Next(m, s[0])) == IsCode(to)
  }

  /** One round of the loop is one step of the reference, or two. */
  lemma RoundBinds(m: Mode, to: Mode, k: nat, s: string, n: nat)
    requires Round(m, to, s, n)
    ensures Bind(m, k, s) == Bound(m, k, s, n) + Bind(to, Number(m, k, s[0]), s[n..])
  {
    if n == 1 {
      BindHead(m, k, s);
      BindSettled(Next(m, s[0]), to, Number(m, k, s[0]), s[1..]);
      assert s[..1] == [s[0]];
    } else {
      BindCopiesTwo(m, k, s);
      assert s[..2] == [s[0], s[1]];
    }
  }

  lemma RebindStep(was: string, m: Mode, to: Mode, k: nat, s: string, n: nat)
    requires Round(m, to, s, n)
    ensures was + Bind(m, k, s) == (was + Bound(m, k, s, n)) + Bind(to, Number(m, k, s[0]), s[n..])
  {
    RoundBinds(m, to, k, s, n);
    Associative(was, Bound(m, k, s, n), Bind(to, Number(m, k, s[0]), s[n..]));
  }

  /** The forms in which a round appends what it writes. */
  lemma Written(b: string, s: string, k: nat)
    requires s != ""
    ensures b + [s[0]] == b + s[..1] && (|s| > 1 ==> b + [s[0]] + [s[1]] == b + s[..2])
    ensures b + "$" + Decimal(k) == b + ("$" + Decimal(k))
  {
  }

  // ----- applying it twice -----

  lemma {:induction false} LexSplits(m: Mode, a: string, b: string)
    ensures Lex(m, a + b) == Lex(Lex(m, a), b)
    ensures Placeholders(m, a + b) == Placeholders(m, a) + Placeholders(Lex(m, a), b)
    decreases |a|
  {
    if a == "" {
      assert a + b == b;
    } else {
      assert (a + b)[1..] == a[1..] + b;
      LexSplits(Next(m, a[0]), a[1..], b);
    }
  }

  lemma {:induction false} LexDigits(s: string)
    requires AllDigits(s)
    ensures Lex(Plain, s) == Plain && Placeholders(Plain, s) == 0
    decreases |s|
  {
    if s == "" {
    } else {
      LexDigits(s[1..]);
    }
  }

  /** A numbered placeholder is code without a question mark. */
  lemma LexNumber(m: Mode, k: nat)
    requires IsCode(m)
    ensures Lex(m, "$" + Decimal(k)) == Plain && Placeholders(m, "$" + Decimal(k)) == 0
  {
    DecimalIsNumeral(k);
    LexDigits(Decimal(k));
    assert ("$" + Decimal(k))[1..] == Decimal(k);
  }

  /** The result lexes as the query does, and leaves no placeholder. */
  lemma {:induction false} BindLeavesNone(m: Mode, k: nat, s: string)
    ensures Lex(m, Bind(m, k, s)) == Lex(m, s) && Placeholders(m, Bind(m, k, s)) == 0
    decreases |s|
  {
    if s == "" {
    } else {
      var c := s[0];
      var rest := Bind(Next(m, c), Number(m, k, c), s[1..]);
      BindHead(m, k, s);
      BindLeavesNone(Next(m, c), Number(m, k, c), s[1..]);
      LexSplits(m, Piece(m, k, c), rest);
      if IsPlaceholder(m, c) {
        LexNumber(m, k);
      }
    }
  }

  lemma {:induction false} BindCopiesAll(m: Mode, k: nat, s: string)
    requires Placeholders(m, s) == 0
    ensures Bind(m, k, s) == s
    decreases |s|
  {
    if s == "" {
    } else {
      BindCopiesAll(Next(m, s[0]), k, s[1..]);
    }
  }

  /** Applying rebind twice is applying it once. */
  lemma BindTwice(q: string)
    ensures Bind(Plain, 1, Bind(Plain, 1, q)) == Bind(Plain, 1, q)
  {
    BindLeavesNone(Plain, 1, q);
    BindCopiesAll(Plain, 1, Bind(Plain, 1, q));
  }

  // ----- erasing the numbers -----

  /** The length of the run of digits that `s` starts with. */
  function Digits(s: string): (n: nat)
    ensures n <= |s| && AllDigits(s[..n]) && (n < |s| ==> !IsDigit(s[n]))
  {
    if s == "" || !IsDigit(s[0]) then 0
    else
      assert s[..1 + Digits(s[1..])] == [s[0]] + s[1..][..Digits(s[1..])];
      1 + Digits(s[1..])
  }

  /** Every `$` with its digits, in code, becomes a question mark again. */
  function Erase(m: Mode, s: string): string
    decreases |s|
  {
    if s == "" then ""
    else if IsCode(m) && s[0] == '$' && Digits(s[1..]) > 0 then "?" + Erase(Plain, s[1..][Digits(s[1..])..])
    else [s[0]] + Erase(Next(m, s[0]), s[1..])
  }

  /** No placeholder and no `$` in code has a digit right after it. */
  predicate Unambiguous(m: Mode, s: string)
    decreases |s|
  {
    s != "" ==>
      && (IsCode(m) && (s[0] == '$' || s[0] == '?') ==> Digits(s[1..]) == 0)
      && Unambiguous(Next(m, s[0]), s[1..])
  }

  lemma {:induction false} DigitsOf(a: string, b: string)
    requires AllDigits(a) && (b == "" || !IsDigit(b[0]))
    ensures Digits(a + b) == |a| && (a + b)[|a|..] == b
    decreases |a|
  {
    if a == "" {
      assert a + b == b;
    } else {
      assert (a + b)[1..] == a[1..] + b;
      DigitsOf(a[1..], b);
    }
  }

  /** Digits in code are copied, and the translation of what follows them does not start with one. */
  lemma {:induction false} BindDigits(k: nat, a: string, b: string)
    requires AllDigits(a)
    ensures Bind(Plain, k, a + b) == a + Bind(Plain, k, b)
    decreases |a|
  {
    if a == "" {
      assert a + b == b;
    } else {
      assert (a + b)[1..] == a[1..] + b;
      BindDigits(k, a[1..], b);
    }
  }

  lemma BindStartsPlain(m: Mode, k: nat, s: string)
    requires s == "" || !IsDigit(s[0])
    ensures Bind(m, k, s) == "" || !IsDigit(Bind(m, k, s)[0])
  {
    if s != "" {
      BindHead(m, k, s);
    }
  }

  lemma EraseRun(m: Mode, digits: string, tail: string)
    requires IsCode(m) && digits != "" && AllDigits(digits) && (tail == "" || !IsDigit(tail[0]))
    ensures Erase(m, "$" + (digits + tail)) == "?" + Erase(Plain, tail)
  {
    DigitsOf(digits, tail);
    var out := "$" + (digits + tail);
    assert out[1..] == digits + tail && (digits + tail)[|digits|..] == tail;
  }

  lemma RunSplits(k: nat, number: string, s: string)
    ensures var d := Digits(s);
            number + Bind(Plain, k, s) == (number + s[..d]) + Bind(Plain, k, s[d..])
  {
    var digits, rest := s[..Digits(s)], s[Digits(s)..];
    assert s == digits + rest;
    BindDigits(k, digits, rest);
    Associative(number, digits, Bind(Plain, k, rest));
  }

  /** A `$` that the translation left or made, with `d` more digits of the query behind it, is erased as one. */
  lemma EraseNumber(m: Mode, k: nat, number: string, s: string)
    requires IsCode(m) && AllDigits(number) && (number != "" || Digits(s) > 0)
    ensures Erase(m, "$" + (number + Bind(Plain, k, s))) == "?" + Erase(Plain, Bind(Plain, k, s[Digits(s)..]))
  {
    var digits, rest := s[..Digits(s)], s[Digits(s)..];
    BindStartsPlain(Plain, k, rest);
    RunSplits(k, number, s);
    EraseRun(m, number + digits, Bind(Plain, k, rest));
  }

  lemma EraseMark(m: Mode, k: nat, s: string)
    requires s != "" && IsCode(m) && s[0] == '?'
    ensures var t := s[1..];
            Erase(m, Bind(m, k, s)) == "?" + Erase(Plain, Bind(Plain, k + 1, t[Digits(t)..]))
  {
    DecimalIsNumeral(k);
    BindHead(m, k, s);
    Associative("$", Decimal(k), Bind(Plain, k + 1, s[1..]));
    EraseNumber(m, k + 1, Decimal(k), s[1..]);
  }

  lemma EraseDollar(m: Mode, k: nat, s: string)
    requires s != "" && IsCode(m) && s[0] == '$' && Digits(s[1..]) > 0
    ensures var t := s[1..];
            Erase(m, Bind(m, k, s)) == "?" + Erase(Plain, Bind(Plain, k, t[Digits(t)..]))
  {
    assert Bind(m, k, s) == "$" + ("" + Bind(Plain, k, s[1..]));
    EraseNumber(m, k, "", s[1..]);
  }

  lemma UnambiguousHead(m: Mode, s: string)
    requires s != "" && IsCode(m) && s[0] == '?'
    ensures Unambiguous(m, s) <==> Digits(s[1..]) == 0 && Unambiguous(Plain, s[1..])
  {
  }

  /** Erasing gives back the query exactly when nothing in it runs into a number; otherwise text is lost. */
  lemma {:induction false} EraseBack(m: Mode, k: nat, s: string)
    ensures |Erase(m, Bind(m, k, s))| <= |s|
    ensures Unambiguous(m, s) ==> Erase(m, Bind(m, k, s)) == s
    ensures !Unambiguous(m, s) ==> |Erase(m, Bind(m, k, s))| < |s|
    decreases |s|
  {
    if s == "" {
      return;
    }
    var c, t := s[0], s[1..];
    assert s == [c] + t;
    var rest := t[Digits(t)..];
    if IsCode(m) && c == '?' {
      EraseMark(m, k, s);
      EraseBack(Plain, k + 1, rest);
      UnambiguousHead(m, s);
      assert Digits(t) == 0 ==> rest == t;
    } else if IsCode(m) && c == '$' && Digits(t) > 0 {
      EraseDollar(m, k, s);
      EraseBack(Plain, k, rest);
    } else {
      EraseCopied(m, k, s);
      EraseBack(Next(m, c), k, t);
    }
  }

  lemma EraseCopied(m: Mode, k: nat, s: string)
    requires s != "" && !(IsCode(m) && s[0] == '?') && !(IsCode(m) && s[0] == '$' && Digits(s[1..]) > 0)
    ensures Erase(m, Bind(m, k, s)) == [s[0]] + Erase(Next(m, s[0]), Bind(Next(m, s[0]), k, s[1..]))
  {
    var out := Bind(m, k, s);
    BindHead(m, k, s);
    assert out[1..] == Bind(Next(m, s[0]), k, s[1..]);
    if IsCode(m) && s[0] == '$' {
      BindStartsPlain(Next(m, s[0]), k, s[1..]);
    }
  }

  /** A digit right after a placeholder joins its number: `?5` names parameter 15 and cannot be erased back. */
  lemma DigitJoinsNumber()
    ensures Bind(Plain, 1, "?5") == "$15" && Erase(Plain, Bind(Plain, 1, "?5")) == "?"
  {
    assert "?5"[1..] == "5" && "5"[1..] == "";
    assert Bind(Plain, 2, "5") == "5";
    EraseMark(Plain, 1, "?5");
    assert Digits("5") == 1 && "5"[1..] == "";
  }
}
