/**
 The field-level difference of two configuration trees.  A reported change is
 kept as the sequence of keys that leads to it, with the raw values on both
 sides; redaction, joining the keys with dots and sorting come after this.
 */
module TreeDiff {
  /** A parsed YAML value.  A number that is not a number differs from everything, itself included.  A map with
      a key that is not a string is not walked into; its keys are taken as text together with their type. */
  datatype Value =
    | Null
    | Str(s: string)
    | Bool(b: bool)
    | Int(n: int)
    | Float(r: real)
    | NaN
    | Infinite(positive: bool)
    | Mixed(values: map<string, Value>)
    | List(items: seq<Value>)
    | Map(entries: map<string, Value>)

  type Path = seq<string>

  datatype Change = Change(path: Path, before: Value, after: Value)

  /** A missing key reads as null. */
  function Get(v: Value, k: string): Value {
    if v.Map? && k in v.entries then v.entries[k] else Null
  }

  function At(v: Value, p: Path): Value
    decreases |p|
  {
    if p == [] then v else At(Get(v, p[0]), p[1..])
  }

  predicate NaNFree(v: Value) {
    match v
    case NaN => false
    case List(items) => forall i | 0 <= i < |items| :: NaNFree(items[i])
    case Mixed(values) => forall k | k in values :: NaNFree(values[k])
    case Map(entries) => forall k | k in entries :: NaNFree(entries[k])
    case _ => true
  }

  /** The value has a JSON text: no number in it is infinite or not a number, and every key is a string. */
  predicate Marshals(v: Value) {
    match v
    case NaN => false
    case Infinite(_) => false
    case Mixed(_) => false
    case List(items) => forall i | 0 <= i < |items| :: Marshals(items[i])
    case Map(entries) => forall k | k in entries :: Marshals(entries[k])
    case _ => true
  }

  lemma {:induction false} MarshalsIsNaNFree(v: Value)
    requires Marshals(v)
    ensures NaNFree(v)
  {
    match v
    case List(items) =>
      forall i | 0 <= i < |items| ensures NaNFree(items[i]) {
        MarshalsIsNaNFree(items[i]);
      }
    case Map(entries) =>
      forall k | k in entries ensures NaNFree(entries[k]) {
        MarshalsIsNaNFree(entries[k]);
      }
    case _ =>
  }

  predicate DeepEqual(b: Value, t: Value) {
    b == t && NaNFree(b)
  }

  predicate BothMaps(b: Value, t: Value) {
    b.Map? && t.Map?
  }

  // ----- what is reported -----

  /** Walking both trees along `p` ends at a difference that is not between two maps. */
  predicate Reported(p: Path, b: Value, t: Value)
    decreases |p|
  {
    if BothMaps(b, t) then p != [] && Reported(p[1..], Get(b, p[0]), Get(t, p[0]))
    else p == [] && !DeepEqual(b, t)
  }

  /** The same, said of the values on the path. */
  lemma {:induction false} ReportedIff(p: Path, b: Value, t: Value)
    ensures Reported(p, b, t) <==>
              && !BothMaps(At(b, p), At(t, p)) && !DeepEqual(At(b, p), At(t, p))
              && (forall i | 0 <= i < |p| :: BothMaps(At(b, p[..i]), At(t, p[..i])))
    decreases |p|
  {
    if p == [] {
    } else {
      var k, q := p[0], p[1..];
      ReportedIff(q, Get(b, k), Get(t, k));
      forall i | 0 < i < |p|
        ensures At(b, p[..i]) == At(Get(b, k), q[..i - 1])
                && At(t, p[..i]) == At(Get(t, k), q[..i - 1])
      {
        assert p[..i][1..] == q[..i - 1];
      }
      assert At(b, p[..0]) == b && At(t, p[..0]) == t;
      if BothMaps(b, t) {
        assert forall i | 0 <= i < |q| :: At(b, p[..i + 1]) == At(Get(b, k), q[..i]);
      }
    }
  }

  /** `c` is the change for some reported path below `prefix`. */
  predicate InDiff(prefix: Path, b: Value, t: Value, c: Change) {
    && prefix <= c.path
    && var p := c.path[|prefix|..];
       Reported(p, b, t) && c.before == At(b, p) && c.after == At(t, p)
  }

  lemma InDiffBelow(prefix: Path, b: Value, t: Value, k: string, c: Change)
    requires BothMaps(b, t)
    ensures InDiff(prefix + [k], Get(b, k), Get(t, k), c) <==>
            InDiff(prefix, b, t, c) && |c.path| > |prefix| && c.path[|prefix|] == k
  {
    if prefix <= c.path && |c.path| > |prefix| && c.path[|prefix|] == k {
      var p := c.path[|prefix|..];
      assert p[0] == k && p[1..] == c.path[|prefix + [k]|..];
      assert prefix + [k] <= c.path;
    }
  }

  /** A reported path leads into a key of one of the maps. */
  lemma ReportedKey(p: Path, b: Value, t: Value)
    requires BothMaps(b, t) && Reported(p, b, t)
    ensures p != [] && p[0] in b.entries.Keys + t.entries.Keys
  {
    assert !Reported(p[1..], Null, Null);
  }

  predicate Distinct(cs: seq<Change>) {
    forall i, j | 0 <= i < j < |cs| :: cs[i].path != cs[j].path
  }

  /** walkDiff: appends the changes below `path`, each once. */
  method WalkDiff(path: Path, b: Value, t: Value, out: seq<Change>) returns (res: seq<Change>)
    ensures out <= res
    ensures forall c :: c in res[|out|..] <==> InDiff(path, b, t, c)
    ensures Distinct(res[|out|..])
    decreases BothMaps(b, t), b
  {
    if b.Map? && t.Map? {
      res := out;
      var todo := b.entries.Keys + t.entries.Keys;
      ghost var keys := todo;
      while todo != {}
        invariant todo <= keys && out <= res
        invariant forall c :: c in res[|out|..] <==>
                    InDiff(path, b, t, c) && |c.path| > |path| && c.path[|path|] in keys && c.path[|path|] !in todo
        invariant Distinct(res[|out|..])
        decreases todo
      {
        var k :| k in todo;
        ghost var before := res;
        res := WalkDiff(path + [k], Get(b, k), Get(t, k), res);
        Appended(path, b, t, keys, todo, k, before[|out|..], res[|before|..]);
        assert res[|out|..] == before[|out|..] + res[|before|..];
        todo := todo - {k};
      }
      forall c ensures c in res[|out|..] <==> InDiff(path, b, t, c) {
        if InDiff(path, b, t, c) {
          ReportedKey(c.path[|path|..], b, t);
        }
      }
    } else if !DeepEqual(b, t) {
      res := out + [Change(path, b, t)];
      assert res[|out|..] == [Change(path, b, t)];
      forall c ensures InDiff(path, b, t, c) <==> c == Change(path, b, t) {
        if InDiff(path, b, t, c) {
          assert c.path == path + c.path[|path|..];
        }
        assert path[|path|..] == [];
      }
    } else {
      res := out;
    }
  }

  /** One more key: the changes below it are new, and different from each other. */
  lemma Appended(path: Path, b: Value, t: Value, keys: set<string>, todo: set<string>, k: string,
                 old': seq<Change>, more: seq<Change>)
    requires BothMaps(b, t) && k in todo && todo <= keys
    requires forall c :: c in old' <==>
               InDiff(path, b, t, c) && |c.path| > |path| && c.path[|path|] in keys && c.path[|path|] !in todo
    requires forall c :: c in more <==> InDiff(path + [k], Get(b, k), Get(t, k), c)
    requires Distinct(old') && Distinct(more)
    ensures Distinct(old' + more)
    ensures forall c :: c in old' + more <==>
              InDiff(path, b, t, c) && |c.path| > |path| && c.path[|path|] in keys && c.path[|path|] !in todo - {k}
  {
    forall c ensures c in old' + more <==>
              InDiff(path, b, t, c) && |c.path| > |path| && c.path[|path|] in keys && c.path[|path|] !in todo - {k}
    {
      InDiffBelow(path, b, t, k, c);
    }
    var all := old' + more;
    forall i, j | 0 <= i < j < |all| ensures all[i].path != all[j].path {
      if i < |old'| <= j {
        assert all[i] in old' && all[j] in more;
        InDiffBelow(path, b, t, k, all[j]);
      }
    }
  }

  // ----- patching -----

  /** The tree with null-valued keys removed at every level that is reached through maps. */
  function Strip(v: Value): Value {
    if v.Map? then Map(map k | k in v.entries && !v.entries[k].Null? :: Strip(v.entries[k])) else v
  }

  function Set(v: Value, p: Path, x: Value): Value
    decreases |p|
  {
    if p == [] then x
    else Map((if v.Map? then v.entries else map[])[p[0] := Set(Get(v, p[0]), p[1..], x)])
  }

  function Patch(v: Value, cs: seq<Change>): Value
    decreases |cs|
  {
    if cs == [] then v else Patch(Set(v, cs[0].path, cs[0].after), cs[1..])
  }

  /** The changes are those of `b` and `t`, all of them, in any order. */
  ghost predicate Lists(cs: seq<Change>, b: Value, t: Value) {
    forall c :: c in cs <==> InDiff([], b, t, c)
  }

  /** The changes below one key, relative to it. */
  function Below(cs: seq<Change>, k: string): seq<Change> {
    if cs == [] then []
    else if cs[0].path != [] && cs[0].path[0] == k
    then [cs[0].(path := cs[0].path[1..])] + Below(cs[1..], k)
    else Below(cs[1..], k)
  }

  lemma {:induction false} BelowHas(cs: seq<Change>, k: string, c: Change)
    ensures c in Below(cs, k) <==> c.(path := [k] + c.path) in cs
  {
    if cs == [] {
    } else {
      BelowHas(cs[1..], k, c);
      assert cs == [cs[0]] + cs[1..];
      if cs[0] == c.(path := [k] + c.path) {
        assert cs[0].path[1..] == c.path;
      }
      if cs[0].path != [] && cs[0].path[0] == k {
        assert cs[0].path == [k] + cs[0].path[1..];
      }
    }
  }

  lemma ListsBelow(cs: seq<Change>, b: Value, t: Value, k: string)
    requires BothMaps(b, t) && Lists(cs, b, t)
    ensures Lists(Below(cs, k), Get(b, k), Get(t, k))
  {
    forall c ensures c in Below(cs, k) <==> InDiff([], Get(b, k), Get(t, k), c) {
      var d := c.(path := [k] + c.path);
      BelowHas(cs, k, c);
      InDiffBelow([], b, t, k, d);
      assert [] + [k] == [k] && d.path[1..] == c.path && c.path[0..] == c.path;
      assert InDiff([k], Get(b, k), Get(t, k), d) <==> InDiff([], Get(b, k), Get(t, k), c);
    }
  }

  /** Patching a map below its keys patches the value of each key on its own. */
  lemma {:induction false} PatchKey(v: Value, cs: seq<Change>, k: string)
    requires v.Map? && forall i | 0 <= i < |cs| :: cs[i].path != []
    ensures Patch(v, cs).Map? && Get(Patch(v, cs), k) == Patch(Get(v, k), Below(cs, k))
    decreases |cs|
  {
    if cs == [] {
    } else {
      var w := Set(v, cs[0].path, cs[0].after);
      PatchKey(w, cs[1..], k);
      if cs[0].path[0] == k {
        var c := cs[0].(path := cs[0].path[1..]);
        assert Below(cs, k) == [c] + Below(cs[1..], k);
        assert Below(cs, k)[1..] == Below(cs[1..], k);
        assert Get(w, k) == Set(Get(v, k), c.path, c.after);
      } else {
        assert Get(w, k) == Get(v, k);
      }
    }
  }

  lemma {:induction false} PatchNothing(v: Value, cs: seq<Change>)
    requires forall i | 0 <= i < |cs| :: cs[i].path == [] && cs[i].after == v
    ensures Patch(v, cs) == v
  {
    if cs == [] {
    } else {
      PatchNothing(v, cs[1..]);
    }
  }

  lemma PatchLeaf(b: Value, t: Value, cs: seq<Change>)
    requires !BothMaps(b, t) && Lists(cs, b, t)
    ensures Patch(b, cs) == t
  {
    forall i | 0 <= i < |cs| ensures cs[i].path == [] && cs[i].after == t {
      assert cs[i] in cs;
      assert cs[i].path[0..] == cs[i].path;
    }
    if DeepEqual(b, t) {
      PatchNothing(b, cs);
    } else {
      var c := Change([], b, t);
      assert c.path[0..] == [] && InDiff([], b, t, c);
      assert c in cs;
      PatchNothing(t, cs[1..]);
    }
  }

  lemma StripMaps(v: Value, w: Value)
    requires BothMaps(v, w)
    requires forall k :: Strip(Get(v, k)) == Strip(Get(w, k))
    ensures Strip(v) == Strip(w)
  {
    var a, b := Strip(v).entries, Strip(w).entries;
    forall k ensures k in a <==> k in b {
      assert Strip(Get(v, k)) == Strip(Get(w, k));
      assert k in a <==> !Get(v, k).Null?;
      assert k in b <==> !Get(w, k).Null?;
    }
    forall k | k in a ensures a[k] == b[k] {
      assert Strip(Get(v, k)) == Strip(Get(w, k));
    }
    assert a == b;
  }

  /** Patching the base with its reported changes, in any order, gives the target up to null-valued keys. */
  lemma {:induction false} PatchReaches(b: Value, t: Value, cs: seq<Change>)
    requires Lists(cs, b, t)
    ensures Strip(Patch(b, cs)) == Strip(t)
    decreases BothMaps(b, t), b
  {
    if BothMaps(b, t) {
      var v := Patch(b, cs);
      forall i | 0 <= i < |cs| ensures cs[i].path != [] {
        assert cs[i] in cs;
        assert cs[i].path[0..] == cs[i].path;
      }
      forall k ensures v.Map? && Strip(Get(v, k)) == Strip(Get(t, k)) {
        PatchKey(b, cs, k);
        ListsBelow(cs, b, t, k);
        PatchReaches(Get(b, k), Get(t, k), Below(cs, k));
      }
      StripMaps(v, t);
    } else {
      PatchLeaf(b, t, cs);
    }
  }

  // ----- when nothing is reported -----

  ghost predicate Silent(b: Value, t: Value) {
    forall p :: !Reported(p, b, t)
  }

  lemma SilentBelow(b: Value, t: Value, k: string)
    requires BothMaps(b, t) && Silent(b, t)
    ensures Silent(Get(b, k), Get(t, k))
  {
    forall p ensures !Reported(p, Get(b, k), Get(t, k)) {
      assert ([k] + p)[1..] == p;
      assert !Reported([k] + p, b, t);
    }
  }

  lemma SilentMaps(b: Value, t: Value)
    requires BothMaps(b, t) && forall k :: Silent(Get(b, k), Get(t, k))
    ensures Silent(b, t)
  {
    forall p ensures !Reported(p, b, t) {
      if p != [] {
        assert Silent(Get(b, p[0]), Get(t, p[0]));
      }
    }
  }

  /** Nothing is reported exactly when the trees agree up to null-valued keys and hold no NaN. */
  lemma {:induction false} SilentIff(b: Value, t: Value)
    ensures Silent(b, t) <==> Strip(b) == Strip(t) && NaNFree(b)
    decreases BothMaps(b, t), b
  {
    if BothMaps(b, t) {
      if Silent(b, t) {
        forall k ensures Strip(Get(b, k)) == Strip(Get(t, k)) && NaNFree(Get(b, k)) {
          SilentBelow(b, t, k);
          SilentIff(Get(b, k), Get(t, k));
        }
        StripMaps(b, t);
        forall k | k in b.entries ensures NaNFree(b.entries[k]) {
          assert NaNFree(Get(b, k));
        }
      }
      if Strip(b) == Strip(t) && NaNFree(b) {
        forall k ensures Silent(Get(b, k), Get(t, k)) {
          StripKey(b, t, k);
          SilentIff(Get(b, k), Get(t, k));
        }
        SilentMaps(b, t);
      }
    } else {
      assert Reported([], b, t) <==> !DeepEqual(b, t);
    }
  }

  lemma StripKey(v: Value, w: Value, k: string)
    requires BothMaps(v, w) && Strip(v) == Strip(w)
    ensures Strip(Get(v, k)) == Strip(Get(w, k))
  {
    assert k in Strip(v).entries <==> !Get(v, k).Null?;
    assert k in Strip(w).entries <==> !Get(w, k).Null?;
  }

  /** walkDiff on its own reports nothing between a tree and itself exactly when it holds no NaN.  Its caller
      never asks when it holds one: such a tree has no JSON text to differ in. */
  lemma SelfDiff(v: Value)
    ensures Silent(v, v) <==> NaNFree(v)
  {
    SilentIff(v, v);
  }

  // ----- the reported paths as a set -----

  function Paths(b: Value, t: Value): set<Path>
    decreases BothMaps(b, t), b
  {
    if BothMaps(b, t) then
      set k, p | k in b.entries.Keys + t.entries.Keys && p in Paths(Get(b, k), Get(t, k)) :: [k] + p
    else if DeepEqual(b, t) then {}
    else {[]}
  }

  lemma {:induction false} PathsAreReported(p: Path, b: Value, t: Value)
    ensures p in Paths(b, t) <==> Reported(p, b, t)
    decreases |p|
  {
    if BothMaps(b, t) && p != [] {
      var k, q := p[0], p[1..];
      PathsAreReported(q, Get(b, k), Get(t, k));
      assert p == [k] + q;
      if Reported(p, b, t) {
        ReportedKey(p, b, t);
      }
    }
  }

  lemma {:induction false} StripKeepsNaN(v: Value)
    ensures NaNFree(Strip(v)) <==> NaNFree(v)
  {
    if v.Map? {
      var s := Strip(v).entries;
      forall k | k in v.entries ensures NaNFree(v.entries[k]) <==> (k in s ==> NaNFree(s[k])) {
        StripKeepsNaN(v.entries[k]);
      }
    }
  }
}
