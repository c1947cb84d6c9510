/** The texts that are versions, said without the parser of the program. */
module VersionTexts {
  import opened Basics
  import opened Text
  import opened Version

  /** What may follow the numbers: nothing, build metadata, or a dash and identifiers, none of them empty. */
  predicate IsTail(tail: string, pre: seq<string>) {
    if tail == "" || tail[0] == '+' then pre == []
    else
      && tail[0] == '-'
      && var ids := Before(tail[1..], '+'); if ids == "" then pre == [] else pre == Split(ids, '.') && "" !in pre
  }

  predicate IsWrittenAs(s: string, x: string, y: string, z: string, tail: string, v: SemVer) {
    && s == Numbers(x, y, z) + tail
    && IsNumber(x) && IsNumber(y) && IsNumber(z) && IsTail(tail, v.pre)
    && v.major == Value(x) && v.minor == Value(y) && v.patch == Value(z)
  }

  /** What is left of the text from the first `c` on. */
  function From(s: string, c: char): string {
    if s == "" || s[0] == c then s else From(s[1..], c)
  }

  lemma {:induction false} CutAt(s: string, c: char)
    ensures s == Before(s, c) + From(s, c) && c !in Before(s, c)
    ensures From(s, c) == "" || From(s, c)[0] == c
    ensures After(s, c) == if From(s, c) == "" then "" else From(s, c)[1..]
  {
    if s == "" || s[0] == c {
    } else {
      CutAt(s[1..], c);
      assert s == [s[0]] + s[1..];
    }
  }

  lemma NumbersHaveNoMarks(x: string, y: string, z: string)
    requires IsNumber(x) && IsNumber(y) && IsNumber(z)
    ensures '+' !in Numbers(x, y, z) && '-' !in Numbers(x, y, z) && '.' !in x && '.' !in y && '.' !in z
  {
    NumberHasNoMarks(x);
    NumberHasNoMarks(y);
    NumberHasNoMarks(z);
  }

  lemma NumberHasNoMarks(x: string)
    requires IsNumber(x)
    ensures '+' !in x && '-' !in x && '.' !in x
  {
    forall i | 0 <= i < |x| ensures x[i] != '+' && x[i] != '-' && x[i] != '.' {
      assert IsDigit(x[i]);
    }
  }

  /** The part before the metadata, cut at the first dash. */
  lemma CutTail(nums: string, tail: string)
    requires '+' !in nums && '-' !in nums && (tail == "" || tail[0] == '+' || tail[0] == '-')
    ensures var core := Before(nums + tail, '+');
            && Before(core, '-') == nums
            && After(core, '-') == if tail == "" || tail[0] == '+' then "" else Before(tail[1..], '+')
  {
    if tail == "" || tail[0] == '+' {
      BeforeStops(nums, '+', tail);
      BeforeStops(nums, '-', "");
      assert nums + "" == nums;
      NothingAfter(nums, '-');
    } else {
      CutIdentifiers(nums, tail[1..]);
      assert tail == ['-'] + tail[1..];
    }
  }

  lemma CutIdentifiers(nums: string, ids: string)
    requires '+' !in nums && '-' !in nums
    ensures var core := Before(nums + (['-'] + ids), '+');
            Before(core, '-') == nums && After(core, '-') == Before(ids, '+')
  {
    CutAt(ids, '+');
    CutPieces(nums, Before(ids, '+'), From(ids, '+'));
  }

  lemma CutPieces(nums: string, ids: string, build: string)
    requires '+' !in nums && '-' !in nums && '+' !in ids && (build == "" || build[0] == '+')
    ensures var core := Before(nums + (['-'] + (ids + build)), '+');
            Before(core, '-') == nums && After(core, '-') == ids
  {
    var front := nums + ['-'] + ids;
    assert nums + (['-'] + (ids + build)) == front + build;
    BeforeStops(front, '+', build);
    assert front == nums + (['-'] + ids);
    BeforeStops(nums, '-', ['-'] + ids);
    AfterFirst(nums, '-', ids);
  }

  lemma WrittenParses(s: string, x: string, y: string, z: string, tail: string, v: SemVer)
    requires IsWrittenAs(s, x, y, z, tail, v)
    ensures var core := Before(s, '+'); ParseParts(Before(core, '-'), After(core, '-')) == Some(v)
  {
    NumbersHaveNoMarks(x, y, z);
    CutTail(Numbers(x, y, z), tail);
    NumbersSplit(x, y, z);
  }

  lemma ParsedIsWritten(s: string) returns (x: string, y: string, z: string, tail: string)
    requires var core := Before(s, '+'); ParseParts(Before(core, '-'), After(core, '-')).Some?
    ensures var core := Before(s, '+');
            IsWrittenAs(s, x, y, z, tail, ParseParts(Before(core, '-'), After(core, '-')).value)
  {
    var core := Before(s, '+');
    var nums := Before(core, '-');
    CutAt(s, '+');
    CutAt(core, '-');
    SplitJoins(nums, '.');
    var parts := Split(nums, '.');
    x, y, z := parts[0], parts[1], parts[2];
    JoinThree(parts);
    tail := From(core, '-') + From(s, '+');
    assert s == nums + tail;
    NumbersHaveNoMarks(x, y, z);
    CutTail(nums, tail);
  }

  lemma JoinThree(parts: seq<string>)
    requires |parts| == 3
    ensures Join(parts, '.') == Numbers(parts[0], parts[1], parts[2])
  {
    assert parts[1..][1..] == [parts[2]];
    assert Join(parts[1..], '.') == parts[1] + ['.'] + parts[2];
  }

  /** A text is version `v` exactly when, without the spaces around it and one leading `v`, it is three numbers of
      digits that fit an int, joined by dots, with nothing, metadata or identifiers after them. */
  lemma ParseIff(text: string, v: SemVer)
    ensures Parse(text) == Some(v) <==>
            exists x, y, z, tail :: IsWrittenAs(TrimV(TrimSpace(text)), x, y, z, tail, v)
  {
    var s := TrimV(TrimSpace(text));
    if Parse(text) == Some(v) {
      var x, y, z, tail := ParsedIsWritten(s);
    }
    if x, y, z, tail :| IsWrittenAs(s, x, y, z, tail, v) {
      WrittenParses(s, x, y, z, tail, v);
      assert Numbers(x, y, z) != "" && TrimSpace(text) != "";
    }
  }

  /** Trimming takes only spaces away, all of them at both ends. */
  lemma {:induction false} TrimTakesSpaces(s: string) returns (left: string, right: string)
    ensures s == left + TrimSpace(s) + right && IsBlank(left) && IsBlank(right)
    ensures TrimSpace(s) == "" || (!IsSpace(TrimSpace(s)[0]) && !IsSpace(TrimSpace(s)[|TrimSpace(s)| - 1]))
    decreases |s|
  {
    if s != "" && IsSpace(s[0]) {
      left, right := TrimTakesSpaces(s[1..]);
      left := [s[0]] + left;
      assert s == [s[0]] + s[1..];
    } else if s != "" && IsSpace(s[|s| - 1]) {
      left, right := TrimTakesSpaces(s[..|s| - 1]);
      right := right + [s[|s| - 1]];
      assert s == s[..|s| - 1] + [s[|s| - 1]];
    } else {
      left, right := "", "";
    }
  }
}
