/**
 Semantic version comparison: parsing, precedence, and the validator's own
 comparison of three-part versions.  Integers are 64-bit where the program
 converts text to numbers; strings are byte strings.
 */
module Version {
  import opened Basics
  import opened Text

  const MAX_INT := 9223372036854775807

  // ----- text -----

  function TrimV(s: string): string {
    if s != "" && s[0] == 'v' then s[1..] else s
  }

  /** Up to the first `c`. */
  function Before(s: string, c: char): string {
    if s == "" || s[0] == c then "" else [s[0]] + Before(s[1..], c)
  }

  /** After the first `c`; empty when there is none. */
  function After(s: string, c: char): string {
    if s == "" then "" else if s[0] == c then s[1..] else After(s[1..], c)
  }

  function Split(s: string, c: char): (parts: seq<string>)
    ensures parts != []
    decreases |s|
  {
    if s == "" then [""]
    else if s[0] == c then [""] + Split(s[1..], c)
    else
      var rest := Split(s[1..], c);
      [[s[0]] + rest[0]] + rest[1..]
  }

  function Join(parts: seq<string>, c: char): string {
    if parts == [] then ""
    else if |parts| == 1 then parts[0]
    else parts[0] + [c] + Join(parts[1..], c)
  }

  /** Splitting loses nothing, and no part holds the separator. */
  lemma {:induction false} SplitJoins(s: string, c: char)
    ensures Join(Split(s, c), c) == s
    ensures forall i | 0 <= i < |Split(s, c)| :: c !in Split(s, c)[i]
    decreases |s|
  {
    if s == "" {
    } else {
      SplitJoins(s[1..], c);
      var rest := Split(s[1..], c);
      if s[0] == c {
        assert Split(s, c)[1..] == rest;
      } else {
        assert Split(s, c)[1..] == rest[1..];
      }
    }
  }

  predicate IsDigits(s: string) {
    s != "" && AllDigits(s)
  }

  /** parseNumber: digits only, and within an int. */
  function ParseNumber(s: string): Option<int> {
    if IsDigits(s) && Value(s) <= MAX_INT then Some(Value(s)) else None
  }

  // ----- versions -----

  datatype SemVer = SemVer(major: int, minor: int, patch: int, pre: seq<string>)

  /** The numbers before the first dash and the identifiers after it. */
  function ParseParts(numbers: string, pre: string): Option<SemVer> {
    var parts := Split(numbers, '.');
    if |parts| != 3 then None
    else
      var a, b, c := ParseNumber(parts[0]), ParseNumber(parts[1]), ParseNumber(parts[2]);
      var ids := if pre == "" then [] else Split(pre, '.');
      if a.None? || b.None? || c.None? || "" in ids then None
      else Some(SemVer(a.value, b.value, c.value, ids))
  }

  function Parse(text: string): Option<SemVer> {
    var t := TrimSpace(text);
    if t == "" then None
    else
      var core := Before(TrimV(t), '+');
      ParseParts(Before(core, '-'), After(core, '-'))
  }

  /** A parsed version: its numbers fit an int, and no identifier is empty. */
  predicate IsParsed(v: SemVer) {
    0 <= v.major <= MAX_INT && 0 <= v.minor <= MAX_INT && 0 <= v.patch <= MAX_INT && "" !in v.pre
  }

  lemma ParseYieldsParsed(text: string)
    ensures Parse(text).Some? ==> IsParsed(Parse(text).value)
  {
  }

  function Show(v: SemVer): string
    requires v.major >= 0 && v.minor >= 0 && v.patch >= 0
  {
    var pre := Join(v.pre, '.');
    Numbers(Decimal(v.major), Decimal(v.minor), Decimal(v.patch)) + (if pre == "" then "" else ['-'] + pre)
  }

  /** An identifier that can be written: not empty, without the separators and without spaces. */
  predicate IsIdentifier(s: string) {
    s != "" && forall i | 0 <= i < |s| :: s[i] != '.' && s[i] != '+' && !IsSpace(s[i])
  }

  predicate IsWritable(v: SemVer) {
    IsParsed(v) && forall i | 0 <= i < |v.pre| :: IsIdentifier(v.pre[i])
  }

  lemma {:induction false} SplitFirst(a: string, rest: string, c: char)
    requires c !in a
    ensures Split(a + [c] + rest, c) == [a] + Split(rest, c)
  {
    var s := a + [c] + rest;
    if a == "" {
      assert s[1..] == rest;
    } else {
      assert s[1..] == a[1..] + [c] + rest;
      SplitFirst(a[1..], rest, c);
      assert [s[0]] + a[1..] == a && ([a[1..]] + Split(rest, c))[1..] == Split(rest, c);
    }
  }

  lemma {:induction false} SplitNone(a: string, c: char)
    requires c !in a
    ensures Split(a, c) == [a]
  {
    if a == "" {
    } else {
      SplitNone(a[1..], c);
      assert [a[0]] + a[1..] == a;
    }
  }

  /** Joining loses nothing either. */
  lemma {:induction false} JoinSplits(parts: seq<string>, c: char)
    requires parts != [] && forall i | 0 <= i < |parts| :: c !in parts[i]
    ensures Split(Join(parts, c), c) == parts
  {
    assert c !in parts[0];
    if |parts| == 1 {
      SplitNone(parts[0], c);
    } else {
      JoinSplits(parts[1..], c);
      SplitFirst(parts[0], Join(parts[1..], c), c);
    }
  }

  predicate Plainly(s: string) {
    forall i | 0 <= i < |s| :: s[i] != '+' && !IsSpace(s[i])
  }

  lemma {:induction false} JoinIsPlain(parts: seq<string>)
    requires forall i | 0 <= i < |parts| :: IsIdentifier(parts[i])
    ensures Plainly(Join(parts, '.')) && (parts != [] ==> Join(parts, '.') != "")
  {
    if |parts| <= 1 {
    } else {
      JoinIsPlain(parts[1..]);
      assert IsIdentifier(parts[0]);
    }
  }

  lemma NumeralIsPlain(n: nat)
    ensures Plainly(Decimal(n)) && Decimal(n) != "" && '.' !in Decimal(n) && '-' !in Decimal(n)
    ensures n <= MAX_INT ==> ParseNumber(Decimal(n)) == Some(n)
    ensures IsDigit(Decimal(n)[0])
  {
    DecimalIsNumeral(n);
    forall i | 0 <= i < |Decimal(n)| ensures Decimal(n)[i] != '+' && !IsSpace(Decimal(n)[i]) {
      assert IsDigit(Decimal(n)[i]);
    }
  }

  function Numbers(x: string, y: string, z: string): string {
    x + ['.'] + (y + ['.'] + z)
  }

  /** The three numbers, joined and split again. */
  lemma NumbersSplit(x: string, y: string, z: string)
    requires '.' !in x && '.' !in y && '.' !in z
    ensures Split(Numbers(x, y, z), '.') == [x, y, z]
  {
    SplitNone(z, '.');
    SplitFirst(y, z, '.');
    SplitFirst(x, y + ['.'] + z, '.');
  }

  lemma NumbersArePlain(x: string, y: string, z: string)
    requires Plainly(x) && Plainly(y) && Plainly(z) && '-' !in x && '-' !in y && '-' !in z
    ensures Plainly(Numbers(x, y, z)) && '-' !in Numbers(x, y, z)
  {
  }

  lemma {:induction false} AfterFirst(a: string, c: char, rest: string)
    requires c !in a
    ensures After(a + [c] + rest, c) == rest
  {
    var s := a + [c] + rest;
    if a == "" {
      assert s[1..] == rest;
    } else {
      assert s[1..] == a[1..] + [c] + rest;
      AfterFirst(a[1..], c, rest);
    }
  }

  lemma PartsParse(v: SemVer)
    requires IsWritable(v)
    ensures ParseParts(Numbers(Decimal(v.major), Decimal(v.minor), Decimal(v.patch)), Join(v.pre, '.')) == Some(v)
  {
    NumeralIsPlain(v.major);
    NumeralIsPlain(v.minor);
    NumeralIsPlain(v.patch);
    NumbersSplit(Decimal(v.major), Decimal(v.minor), Decimal(v.patch));
    if v.pre == [] {
    } else {
      JoinIsPlain(v.pre);
      forall i | 0 <= i < |v.pre| ensures '.' !in v.pre[i] && v.pre[i] != "" {
        assert IsIdentifier(v.pre[i]);
      }
      JoinSplits(v.pre, '.');
    }
  }

  /** What follows the first dash, and what comes before it. */
  lemma TextSplits(core: string, pre: string)
    requires '-' !in core
    ensures var t := core + (if pre == "" then "" else ['-'] + pre);
            Before(t, '-') == core && After(t, '-') == pre
  {
    if pre == "" {
      assert core + "" == core;
      BeforeStops(core, '-', "");
      NothingAfter(core, '-');
    } else {
      BeforeStops(core, '-', ['-'] + pre);
      AfterFirst(core, '-', pre);
      assert core + (['-'] + pre) == core + ['-'] + pre;
    }
  }

  lemma ShowIsPlain(v: SemVer)
    requires IsWritable(v)
    ensures Plainly(Show(v)) && Show(v) != "" && IsDigit(Show(v)[0])
  {
    NumeralIsPlain(v.major);
    NumeralIsPlain(v.minor);
    NumeralIsPlain(v.patch);
    NumbersArePlain(Decimal(v.major), Decimal(v.minor), Decimal(v.patch));
    JoinIsPlain(v.pre);
  }

  /** A version that is written out parses back to itself. */
  lemma ShowParses(v: SemVer)
    requires IsWritable(v)
    ensures Parse(Show(v)) == Some(v)
  {
    var t := Show(v);
    ShowIsPlain(v);
    NothingToTrim(t);
    PlusIsAbsent(t);
    NumeralIsPlain(v.major);
    NumeralIsPlain(v.minor);
    NumeralIsPlain(v.patch);
    NumbersArePlain(Decimal(v.major), Decimal(v.minor), Decimal(v.patch));
    JoinIsPlain(v.pre);
    TextSplits(Numbers(Decimal(v.major), Decimal(v.minor), Decimal(v.patch)), Join(v.pre, '.'));
    PartsParse(v);
  }

  lemma PlusIsAbsent(t: string)
    requires Plainly(t)
    ensures Before(t, '+') == t
  {
    BeforeStops(t, '+', "");
    assert t + "" == t;
  }

  function Sign(n: int): int {
    if n < 0 then -1 else if n > 0 then 1 else 0
  }

  predicate FitsInt(n: int) {
    -MAX_INT - 1 <= n <= MAX_INT
  }

  // ----- precedence -----

  /** An identifier as items 10 and 11 of the standard compare it, numbers that fit an int apart from text. */
  datatype Ident = Num(n: int) | Word(s: string)

  function IdentOf(s: string): Ident {
    if ParseNumber(s).Some? then Num(ParseNumber(s).value) else Word(s)
  }

  function CompareText(a: string, b: string): int {
    if a == "" && b == "" then 0
    else if a == "" then -1
    else if b == "" then 1
    else if a[0] != b[0] then (if a[0] < b[0] then -1 else 1)
    else CompareText(a[1..], b[1..])
  }

  function CompareIdent(a: Ident, b: Ident): int {
    match (a, b)
    case (Num(m), Num(n)) => Sign(m - n)
    case (Num(_), Word(_)) => -1
    case (Word(_), Num(_)) => 1
    case (Word(s), Word(t)) => CompareText(s, t)
  }

  /** Field by field; a longer list with the same beginning is greater. */
  function CompareFields(a: seq<string>, b: seq<string>): int {
    if a == [] && b == [] then 0
    else if a == [] then -1
    else if b == [] then 1
    else
      var c := CompareIdent(IdentOf(a[0]), IdentOf(b[0]));
      if c != 0 then c else CompareFields(a[1..], b[1..])
  }

  /** A release is greater than its prereleases. */
  function ComparePre(a: seq<string>, b: seq<string>): int {
    if a == [] && b == [] then 0
    else if a == [] then 1
    else if b == [] then -1
    else CompareFields(a, b)
  }

  function Precedence(x: SemVer, y: SemVer): int {
    if x.major != y.major then Sign(x.major - y.major)
    else if x.minor != y.minor then Sign(x.minor - y.minor)
    else if x.patch != y.patch then Sign(x.patch - y.patch)
    else ComparePre(x.pre, y.pre)
  }

  // ----- the program -----

  method ComparePrerelease(a: seq<string>, b: seq<string>) returns (cmp: int)
    ensures cmp == ComparePre(a, b)
    ensures (cmp == -1 <==> PreBefore(a, b)) && (cmp == 1 <==> PreBefore(b, a)) && -1 <= cmp <= 1
  {
    PreBeforeIff(a, b);
    PreBeforeIff(b, a);
    FieldsOrder(a, b);
    if |a| == 0 && |b| == 0 {
      return 0;
    }
    if |a| == 0 {
      return 1;
    }
    if |b| == 0 {
      return -1;
    }
    var limit := if |b| < |a| then |b| else |a|;
    var i := 0;
    while i < limit
      invariant 0 <= i <= limit
      invariant CompareFields(a, b) == CompareFields(a[i..], b[i..])
    {
      var ai, bi := ParseNumber(a[i]), ParseNumber(b[i]);
      assert a[i..][1..] == a[i + 1..] && b[i..][1..] == b[i + 1..];
      if ai.Some? && bi.Some? && ai.value != bi.value {
        assert FitsInt(ai.value - bi.value);
        return Sign(ai.value - bi.value);
      } else if ai.Some? && bi.None? {
        return -1;
      } else if ai.None? && bi.Some? {
        return 1;
      } else if ai.None? && bi.None? && a[i] != b[i] {
        TextOrder(a[i], b[i]);
        return CompareText(a[i], b[i]);
      }
      TextEqual(a[i]);
      i := i + 1;
    }
    return Sign(|a| - |b|);
  }

  lemma {:induction false} TextEqual(s: string)
    ensures CompareText(s, s) == 0
  {
    if s == "" {
    } else {
      TextEqual(s[1..]);
    }
  }

  lemma {:induction false} TextOrder(a: string, b: string)
    ensures CompareText(a, b) == -CompareText(b, a) && (CompareText(a, b) == 0 <==> a == b)
    ensures CompareText(a, b) == -1 || CompareText(a, b) == 0 || CompareText(a, b) == 1
  {
    if a != "" && b != "" {
      TextOrder(a[1..], b[1..]);
      assert a == [a[0]] + a[1..] && b == [b[0]] + b[1..];
    }
  }

  method Compare(a: string, b: string) returns (cmp: int, ok: bool)
    ensures ok <==> Parse(a).Some? && Parse(b).Some?
    ensures ok ==> cmp == Precedence(Parse(a).value, Parse(b).value)
    ensures ok ==> (cmp == -1 <==> ComesBefore(Parse(a).value, Parse(b).value))
    ensures ok ==> (cmp == 1 <==> ComesBefore(Parse(b).value, Parse(a).value)) && -1 <= cmp <= 1
    ensures !ok ==> cmp == 0
  {
    var av := Parse(a);
    if av.None? {
      return 0, false;
    }
    var bv := Parse(b);
    if bv.None? {
      return 0, false;
    }
    var x, y := av.value, bv.value;
    PrecedenceIsTotal(x, y);
    PrecedenceIffComesBefore(x, y);
    ParseYieldsParsed(a);
    ParseYieldsParsed(b);
    assert FitsInt(x.major - y.major) && FitsInt(x.minor - y.minor) && FitsInt(x.patch - y.patch);
    if x.major != y.major {
      return Sign(x.major - y.major), true;
    }
    if x.minor != y.minor {
      return Sign(x.minor - y.minor), true;
    }
    if x.patch != y.patch {
      return Sign(x.patch - y.patch), true;
    }
    cmp := ComparePrerelease(x.pre, y.pre);
    ok := true;
  }

  // ----- a total preorder -----

  lemma {:induction false} TextTransitive(a: string, b: string, c: string)
    requires CompareText(a, b) <= 0 && CompareText(b, c) <= 0
    ensures CompareText(a, c) <= 0
  {
    if a != "" && b != "" && c != "" && a[0] == b[0] == c[0] {
      TextTransitive(a[1..], b[1..], c[1..]);
    }
  }

  lemma IdentOrder(a: Ident, b: Ident)
    ensures CompareIdent(a, b) == -CompareIdent(b, a) && (CompareIdent(a, b) == 0 <==> a == b)
    ensures -1 <= CompareIdent(a, b) <= 1
  {
    if a.Word? && b.Word? {
      TextOrder(a.s, b.s);
    }
  }

  lemma IdentTransitive(a: Ident, b: Ident, c: Ident)
    requires CompareIdent(a, b) <= 0 && CompareIdent(b, c) <= 0
    ensures CompareIdent(a, c) <= 0
    ensures CompareIdent(a, c) == 0 ==> CompareIdent(a, b) == 0 && CompareIdent(b, c) == 0
  {
    IdentOrder(a, b);
    IdentOrder(b, c);
    IdentOrder(a, c);
    if a.Word? && b.Word? && c.Word? {
      TextTransitive(a.s, b.s, c.s);
    }
  }

  function Idents(a: seq<string>): seq<Ident> {
    seq(|a|, i requires 0 <= i < |a| => IdentOf(a[i]))
  }

  lemma {:induction false} FieldsOrder(a: seq<string>, b: seq<string>)
    ensures CompareFields(a, b) == -CompareFields(b, a) && -1 <= CompareFields(a, b) <= 1
    ensures CompareFields(a, b) == 0 <==> Idents(a) == Idents(b)
  {
    if a != [] && b != [] {
      IdentOrder(IdentOf(a[0]), IdentOf(b[0]));
      FieldsOrder(a[1..], b[1..]);
      assert Idents(a) == [IdentOf(a[0])] + Idents(a[1..]);
      assert Idents(b) == [IdentOf(b[0])] + Idents(b[1..]);
      assert Idents(a)[1..] == Idents(a[1..]) && Idents(b)[1..] == Idents(b[1..]);
      assert Idents(a)[0] == IdentOf(a[0]) && Idents(b)[0] == IdentOf(b[0]);
    } else {
      assert |Idents(a)| == |a| && |Idents(b)| == |b|;
    }
  }

  lemma {:induction false} FieldsTransitive(a: seq<string>, b: seq<string>, c: seq<string>)
    requires CompareFields(a, b) <= 0 && CompareFields(b, c) <= 0
    ensures CompareFields(a, c) <= 0
  {
    if a != [] && b != [] && c != [] {
      var i, j, k := IdentOf(a[0]), IdentOf(b[0]), IdentOf(c[0]);
      IdentOrder(i, j);
      IdentOrder(j, k);
      IdentTransitive(i, j, k);
      if CompareIdent(i, k) == 0 {
        FieldsTransitive(a[1..], b[1..], c[1..]);
      }
    }
  }

  /** Compare is total and antisymmetric, and ties exactly the versions with equal numbers and identifiers. */
  lemma PrecedenceIsTotal(x: SemVer, y: SemVer)
    ensures Precedence(x, y) == -Precedence(y, x) && -1 <= Precedence(x, y) <= 1
    ensures Precedence(x, y) == 0 <==>
            x.major == y.major && x.minor == y.minor && x.patch == y.patch && Idents(x.pre) == Idents(y.pre)
  {
    FieldsOrder(x.pre, y.pre);
    assert |Idents(x.pre)| == |x.pre| && |Idents(y.pre)| == |y.pre|;
  }

  lemma PrecedenceIsTransitive(x: SemVer, y: SemVer, z: SemVer)
    requires Precedence(x, y) <= 0 && Precedence(y, z) <= 0
    ensures Precedence(x, z) <= 0
  {
    if x.pre != [] && y.pre != [] && z.pre != [] && CompareFields(x.pre, y.pre) <= 0
       && CompareFields(y.pre, z.pre) <= 0 {
      FieldsTransitive(x.pre, y.pre, z.pre);
    }
  }

  // ----- who comes first -----

  /** Digits only, and within an int. */
  predicate IsNumber(s: string) {
    s != "" && AllDigits(s) && Value(s) <= MAX_INT
  }

  /** At the first different place `a` has ended or has the smaller character. */
  predicate TextBefore(a: string, b: string) {
    exists k | 0 <= k <= |a| && k < |b| :: a[..k] == b[..k] && (k == |a| || a[k] < b[k])
  }

  /** Numbers come by value and before every other identifier; other identifiers come as texts. */
  predicate IdentBefore(a: string, b: string) {
    if IsNumber(a) && IsNumber(b) then Value(a) < Value(b)
    else if IsNumber(a) || IsNumber(b) then IsNumber(a)
    else TextBefore(a, b)
  }

  predicate IdentSame(a: string, b: string) {
    if IsNumber(a) && IsNumber(b) then Value(a) == Value(b) else a == b
  }

  /** `a` and `b` agree before place `k`, where `a` has ended or has the lower identifier. */
  predicate DecidedAt(a: seq<string>, b: seq<string>, k: nat) {
    && k <= |a| && k < |b|
    && (forall i | 0 <= i < k :: IdentSame(a[i], b[i]))
    && (k == |a| || IdentBefore(a[k], b[k]))
  }

  /** Identifiers come before none; otherwise the first different place decides. */
  ghost predicate PreBefore(a: seq<string>, b: seq<string>) {
    a != [] && (b == [] || exists k :: DecidedAt(a, b, k))
  }

  /** The first different one of major, minor and patch decides, and only then the identifiers. */
  ghost predicate ComesBefore(x: SemVer, y: SemVer) {
    || x.major < y.major
    || (x.major == y.major && x.minor < y.minor)
    || (x.major == y.major && x.minor == y.minor && x.patch < y.patch)
    || (x.major == y.major && x.minor == y.minor && x.patch == y.patch && PreBefore(x.pre, y.pre))
  }

  lemma SameStart(a: string, b: string, k: nat)
    requires k <= |a| && k < |b| && a[..k] == b[..k]
    ensures k > 0 ==> a[0] == b[0]
  {
    if k > 0 {
      assert a[..k][0] == a[0] && b[..k][0] == b[0];
    }
  }

  lemma {:induction false} TextBeforeIff(a: string, b: string)
    ensures CompareText(a, b) < 0 <==> TextBefore(a, b)
  {
    if a == "" || b == "" || a[0] != b[0] {
      if a == "" && b != "" {
        assert a[..0] == b[..0];
      } else if a != "" && b != "" && a[0] < b[0] {
        assert a[..0] == b[..0] && a[0] < b[0];
      } else if k :| 0 <= k <= |a| && k < |b| && a[..k] == b[..k] && (k == |a| || a[k] < b[k]) {
        SameStart(a, b, k);
      }
    } else {
      TextBeforeIff(a[1..], b[1..]);
      if k :| 0 <= k <= |a| && k < |b| && a[..k] == b[..k] && (k == |a| || a[k] < b[k]) {
        assert a[1..][..k - 1] == a[..k][1..] && b[1..][..k - 1] == b[..k][1..];
        assert k == |a| || a[1..][k - 1] < b[1..][k - 1];
      }
      if k :| 0 <= k <= |a[1..]| && k < |b[1..]| && a[1..][..k] == b[1..][..k]
              && (k == |a[1..]| || a[1..][k] < b[1..][k]) {
        assert a[..k + 1] == [a[0]] + a[1..][..k] && b[..k + 1] == [b[0]] + b[1..][..k];
      }
    }
  }

  lemma IdentBeforeIff(a: string, b: string)
    ensures CompareIdent(IdentOf(a), IdentOf(b)) < 0 <==> IdentBefore(a, b)
    ensures CompareIdent(IdentOf(a), IdentOf(b)) == 0 <==> IdentSame(a, b)
  {
    TextBeforeIff(a, b);
    TextOrder(a, b);
  }

  lemma {:induction false} DecidedIff(a: seq<string>, b: seq<string>)
    ensures CompareFields(a, b) < 0 <==> exists k :: DecidedAt(a, b, k)
  {
    if a == [] || b == [] {
      if a == [] && b != [] {
        assert DecidedAt(a, b, 0);
      }
    } else {
      IdentBeforeIff(a[0], b[0]);
      IdentOrder(IdentOf(a[0]), IdentOf(b[0]));
      DecidedIff(a[1..], b[1..]);
      if k: nat :| DecidedAt(a, b, k) {
        if k > 0 {
          assert IdentSame(a[0], b[0]);
          DecidedLater(a, b, k - 1);
        }
      }
      if IdentBefore(a[0], b[0]) {
        assert DecidedAt(a, b, 0);
      }
      if k: nat :| DecidedAt(a[1..], b[1..], k) {
        if IdentSame(a[0], b[0]) {
          DecidedLater(a, b, k);
        }
      }
    }
  }

  lemma DecidedLater(a: seq<string>, b: seq<string>, k: nat)
    requires a != [] && b != [] && IdentSame(a[0], b[0])
    ensures DecidedAt(a, b, k + 1) <==> DecidedAt(a[1..], b[1..], k)
  {
    if DecidedAt(a[1..], b[1..], k) {
      forall i | 0 <= i < k + 1 ensures IdentSame(a[i], b[i]) {
        assert i > 0 ==> IdentSame(a[1..][i - 1], b[1..][i - 1]);
      }
    }
    if DecidedAt(a, b, k + 1) {
      forall i | 0 <= i < k ensures IdentSame(a[1..][i], b[1..][i]) {
        assert IdentSame(a[i + 1], b[i + 1]);
      }
    }
  }

  lemma PreBeforeIff(a: seq<string>, b: seq<string>)
    ensures ComparePre(a, b) < 0 <==> PreBefore(a, b)
  {
    DecidedIff(a, b);
  }

  /** The comparison is the precedence of the standard, with identifiers that are numbers beyond an int as texts:
      lower, higher, and level in every other case. */
  lemma PrecedenceIffComesBefore(x: SemVer, y: SemVer)
    ensures Precedence(x, y) == -1 <==> ComesBefore(x, y)
    ensures Precedence(x, y) == 1 <==> ComesBefore(y, x)
    ensures Precedence(x, y) == 0 <==> !ComesBefore(x, y) && !ComesBefore(y, x)
  {
    PrecedenceIsTotal(x, y);
    PreBeforeIff(x.pre, y.pre);
    PreBeforeIff(y.pre, x.pre);
    FieldsOrder(x.pre, y.pre);
  }

  /** With equal numbers a version without identifiers is greater than every one with identifiers. */
  lemma ReleaseComesAfterPrereleases(x: SemVer, y: SemVer)
    requires x.major == y.major && x.minor == y.minor && x.patch == y.patch && x.pre == [] && y.pre != []
    ensures Precedence(x, y) == 1 && Precedence(y, x) == -1
  {
    PrecedenceIffComesBefore(y, x);
    PrecedenceIsTotal(x, y);
  }

  /** Identifiers after a place where the lists differ do not matter. */
  lemma FirstDifferenceDecides(x: SemVer, y: SemVer, k: nat)
    requires x.major == y.major && x.minor == y.minor && x.patch == y.patch
    requires k < |x.pre| && k < |y.pre| && forall i | 0 <= i < k :: IdentSame(x.pre[i], y.pre[i])
    requires !IdentSame(x.pre[k], y.pre[k])
    ensures Precedence(x, y) == if IdentBefore(x.pre[k], y.pre[k]) then -1 else 1
  {
    IdentBeforeIff(x.pre[k], y.pre[k]);
    IdentBeforeIff(y.pre[k], x.pre[k]);
    IdentOrder(IdentOf(x.pre[k]), IdentOf(y.pre[k]));
    if IdentBefore(x.pre[k], y.pre[k]) {
      assert DecidedAt(x.pre, y.pre, k);
    } else {
      forall i | 0 <= i < k ensures IdentSame(y.pre[i], x.pre[i]) {
        assert IdentSame(x.pre[i], y.pre[i]);
      }
      assert DecidedAt(y.pre, x.pre, k);
    }
    PrecedenceIffComesBefore(x, y);
  }

  // ----- the rules of the standard -----

  /** Item 11: with equal beginnings the longer identifier list is greater. */
  lemma {:induction false} LongerIsGreater(a: seq<string>, more: seq<string>)
    requires more != []
    ensures CompareFields(a, a + more) == -1
  {
    if a == [] {
      assert a + more == more;
    } else {
      assert (a + more)[1..] == a[1..] + more;
      IdentOrder(IdentOf(a[0]), IdentOf(a[0]));
      LongerIsGreater(a[1..], more);
    }
  }

  /** A numeric identifier of the standard: digits without a leading zero. */
  predicate IsNumeral(s: string) {
    IsDigits(s) && (s[0] == '0' ==> |s| == 1)
  }

  /** The shorter numeral is at most the beginning of the longer one that is as long. */
  predicate BeginsAtMost(short: string, long: string)
    requires AllDigits(short) && AllDigits(long) && |short| <= |long|
  {
    Value(short) <= Value(long[..|short|])
  }

  /**
   Item 11: numeric identifiers compare as numbers, exactly when one of them
   fits an int, or they are equally long, or the shorter one is at most the
   beginning of the longer one.
   */
  lemma NumbersCompareAsNumbers(a: string, b: string)
    requires IsNumeral(a) && IsNumeral(b)
    ensures CompareIdent(IdentOf(a), IdentOf(b)) == Sign(Value(a) - Value(b)) <==>
            || Value(a) <= MAX_INT || Value(b) <= MAX_INT || |a| == |b|
            || (if |a| < |b| then BeginsAtMost(a, b) else BeginsAtMost(b, a))
  {
    TextOrder(a, b);
    if |a| == |b| {
      EqualLengthOrder(a, b);
    } else if |a| < |b| {
      ShorterIsSmaller(a, b);
      BeginningDecides(a, b);
    } else {
      ShorterIsSmaller(b, a);
      BeginningDecides(b, a);
    }
  }

  /** A shorter text comes first exactly when it does not come after the beginning of the longer one. */
  lemma {:induction false} TextBeginning(a: string, b: string)
    requires |a| < |b|
    ensures CompareText(a, b) < 0 <==> CompareText(a, b[..|a|]) <= 0
  {
    if a == "" {
    } else {
      assert b[..|a|][1..] == b[1..][..|a| - 1];
      TextBeginning(a[1..], b[1..]);
    }
  }

  lemma BeginningDecides(a: string, b: string)
    requires AllDigits(a) && AllDigits(b) && |a| < |b|
    ensures CompareText(a, b) < 0 <==> BeginsAtMost(a, b)
  {
    TextBeginning(a, b);
    EqualLengthOrder(a, b[..|a|]);
  }

  /** Text of equal length: the last place decides only between equal beginnings. */
  lemma {:induction false} LastPlace(a: string, b: string)
    requires |a| == |b| > 0
    ensures var n := |a| - 1; var c := CompareText(a[..n], b[..n]);
            CompareText(a, b) == if c != 0 then c else Sign(a[n] as int - b[n] as int)
  {
    var n := |a| - 1;
    if n > 0 && a[0] == b[0] {
      assert a[1..][..n - 1] == a[..n][1..] && b[1..][..n - 1] == b[..n][1..];
      LastPlace(a[1..], b[1..]);
    }
  }

  lemma {:induction false} EqualLengthOrder(a: string, b: string)
    requires AllDigits(a) && AllDigits(b) && |a| == |b|
    ensures CompareText(a, b) == Sign(Value(a) - Value(b))
  {
    if a == "" {
    } else {
      var n := |a| - 1;
      assert IsDigit(a[n]) && IsDigit(b[n]);
      EqualLengthOrder(a[..n], b[..n]);
      LastPlace(a, b);
    }
  }

  lemma {:induction false} ValueBounds(s: string)
    requires AllDigits(s)
    ensures Value(s) < Pow10(|s|)
    ensures s != "" && s[0] != '0' ==> Pow10(|s| - 1) <= Value(s)
  {
    if s == "" {
    } else {
      assert IsDigit(s[|s| - 1]);
      ValueBounds(s[..|s| - 1]);
    }
  }

  lemma {:induction false} Pow10Grows(m: nat, n: nat)
    requires m <= n
    ensures 1 <= Pow10(m) <= Pow10(n)
  {
    if m < n {
      Pow10Grows(m, n - 1);
    } else if n > 0 {
      Pow10Grows(m - 1, n - 1);
    }
  }

  lemma ShorterIsSmaller(a: string, b: string)
    requires IsNumeral(a) && IsNumeral(b) && |a| < |b|
    ensures Value(a) < Value(b)
  {
    ValueBounds(a);
    ValueBounds(b);
    Pow10Grows(|a|, |b| - 1);
  }

  /** It fails: ten quintillion comes before nine. */
  lemma LargeNumbersCompareAsText()
    ensures var a, b := "10000000000000000000", "9300000000000000000";
            IsDigits(a) && IsDigits(b) && Value(a) > Value(b) && CompareIdent(IdentOf(a), IdentOf(b)) == -1
  {
    ZeroesValue("1", 19);
    ZeroesValue("93", 17);
    assert "1" + Zeroes(19) == "10000000000000000000";
    assert "93" + Zeroes(17) == "9300000000000000000";
    TenTo17();
    assert Pow10(19) == 100 * Pow10(17);
    assert Value("1") == 1;
    assert "93"[..1] == "9" && Value("93") == 93;
  }

  lemma TenTo17()
    ensures Pow10(17) == 100000000000000000
  {
    assert Pow10(2) == 100;
    assert Pow10(4) == 10000;
    assert Pow10(6) == 1000000;
    assert Pow10(8) == 100000000;
    assert Pow10(10) == 10000000000;
    assert Pow10(12) == 1000000000000;
    assert Pow10(14) == 100000000000000;
    assert Pow10(16) == 10000000000000000;
  }

  function Zeroes(n: nat): string {
    seq(n, i => '0')
  }

  function Pow10(n: nat): nat {
    if n == 0 then 1 else 10 * Pow10(n - 1)
  }

  lemma {:induction false} ZeroesValue(s: string, n: nat)
    requires IsDigits(s)
    ensures IsDigits(s + Zeroes(n)) && Value(s + Zeroes(n)) == Value(s) * Pow10(n)
  {
    var t := s + Zeroes(n);
    if n == 0 {
      assert t == s;
    } else {
      ZeroesValue(s, n - 1);
      assert t[..|t| - 1] == s + Zeroes(n - 1);
    }
  }

  /** Item 10: build metadata does not matter. */
  lemma BuildIsIgnored(s: string, build: string)
    requires s != "" && !IsSpace(s[0]) && !IsSpace(s[|s| - 1]) && '+' !in s
    requires build != "" && build[0] == '+' && !IsSpace(build[|build| - 1])
    ensures Parse(s + build) == Parse(s)
  {
    var t := s + build;
    NothingToTrim(t);
    NothingToTrim(s);
    assert TrimV(t) == TrimV(s) + build;
    BeforeStops(TrimV(s), '+', build);
    BeforeStops(TrimV(s), '+', "");
    assert TrimV(s) + "" == TrimV(s);
  }

  lemma {:induction false} BeforeStops(s: string, c: char, rest: string)
    requires c !in s && (rest == "" || rest[0] == c)
    ensures Before(s + rest, c) == s
  {
    if s == "" {
      assert s + rest == rest;
    } else {
      assert (s + rest)[1..] == s[1..] + rest;
      BeforeStops(s[1..], c, rest);
    }
  }

  // ----- the validator's comparison -----

  /** What Atoi leaves behind: the value, the nearest int when it does not fit, 0 when the part is no number. */
  function PartValue(s: string): int {
    var signed := s != "" && (s[0] == '+' || s[0] == '-');
    var digits := if signed then s[1..] else s;
    if !IsDigits(digits) then 0
    else if s[0] == '-' then (if Value(digits) <= MAX_INT + 1 then 0 - Value(digits) else -MAX_INT - 1)
    else if Value(digits) <= MAX_INT then Value(digits) else MAX_INT
  }

  function VersionParts(v: string): seq<int> {
    var parts := Split(TrimV(v), '.');
    seq(3, i requires 0 <= i < 3 => if i < |parts| then PartValue(parts[i]) else 0)
  }

  function CompareParts(x: seq<int>, y: seq<int>): int
    requires |x| == |y| == 3
  {
    if x[0] != y[0] then Sign(x[0] - y[0]) else if x[1] != y[1] then Sign(x[1] - y[1]) else Sign(x[2] - y[2])
  }

  method CompareVersions(a: string, b: string) returns (cmp: int)
    ensures cmp == CompareParts(VersionParts(a), VersionParts(b))
  {
    var x, y := VersionParts(a), VersionParts(b);
    for i := 0 to 3
      invariant forall j | 0 <= j < i :: x[j] == y[j]
    {
      if x[i] < y[i] {
        return -1;
      }
      if x[i] > y[i] {
        return 1;
      }
    }
    return 0;
  }

  /** A plain version: no spaces around it, no build metadata and no prerelease. */
  predicate IsPlain(s: string) {
    s != "" && TrimSpace(s) == s && '+' !in s && '-' !in s
  }

  lemma PlainParts(s: string)
    requires IsPlain(s) && Parse(s).Some?
    ensures var v := Parse(s).value; v.pre == [] && VersionParts(s) == [v.major, v.minor, v.patch]
  {
    var t := TrimV(s);
    assert '+' !in t && '-' !in t;
    BeforeStops(t, '+', "");
    BeforeStops(t, '-', "");
    assert t + "" == t;
    NothingAfter(t, '-');
  }

  lemma {:induction false} NothingAfter(s: string, c: char)
    requires c !in s
    ensures After(s, c) == ""
  {
    if s == "" {
    } else {
      NothingAfter(s[1..], c);
    }
  }

  /** On plain parseable versions the two comparisons agree. */
  lemma ComparisonsAgree(a: string, b: string)
    requires IsPlain(a) && IsPlain(b) && Parse(a).Some? && Parse(b).Some?
    ensures Precedence(Parse(a).value, Parse(b).value) == CompareParts(VersionParts(a), VersionParts(b))
  {
    PlainParts(a);
    PlainParts(b);
  }
}
