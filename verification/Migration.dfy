/**
 The migration assistant: four vendor converters that fill a draft collector
 configuration, and the defaults that complete it.  Inputs are decoded vendor
 settings; a source that cannot be parsed is absent.
 */
module Migration {
  import opened Basics
  import opened Text
  import V = Validator

  datatype Pipeline = Pipeline(receivers: seq<string>, processors: seq<string>, exporters: seq<string>)

  // ----- decoded sources -----

  datatype Section = Section(name: string, header: string, keys: map<string, seq<string>>)

  function LastOf(s: Section, key: string): string {
    if Lower(key) in s.keys && s.keys[Lower(key)] != []
    then TrimSpace(s.keys[Lower(key)][|s.keys[Lower(key)]| - 1])
    else ""
  }

  datatype LogItem = LogItem(isFile: bool, path: string, service: string, source: string)

  datatype Source =
    | Unparsed
    | Datadog(env: string, tags: seq<(string, string)>, logs: seq<LogItem>, apm: bool, port: Option<string>)
    | FluentBit(sections: seq<Section>)
    | Splunk(sections: seq<Section>)
    | NewRelic(displayName: string, attributes: map<string, string>, logFile: string, metrics: bool)

  predicate SafeKeyChar(c: char) {
    'A' <= c <= 'Z' || 'a' <= c <= 'z' || IsDigit(c) || c == '_' || c == '.' || c == '-' || c == '/'
  }

  predicate SafeKey(key: string) {
    TrimSpace(key) != "" && forall c | c in TrimSpace(key) :: SafeKeyChar(c)
  }

  const HEC := "splunk_hec"
  const OTLP := "otlp"

  /** Every run of other characters becomes one underscore. */
  function ReplaceRuns(s: string, inRun: bool): string {
    if s == "" then ""
    else if SafeKeyChar(s[0]) then [s[0]] + ReplaceRuns(s[1..], false)
    else (if inRun then "" else "_") + ReplaceRuns(s[1..], true)
  }

  function TrimUnderscores(s: string): string {
    if s != "" && s[0] == '_' then TrimUnderscores(s[1..])
    else if s != "" && s[|s| - 1] == '_' then TrimUnderscores(s[..|s| - 1])
    else s
  }

  /** sanitizeAttrKey. */
  function Sanitize(s: string): string {
    var t := TrimUnderscores(ReplaceRuns(TrimSpace(s), false));
    if t == "" then "unknown" else t
  }

  predicate AllSafe(s: string) {
    forall i | 0 <= i < |s| :: SafeKeyChar(s[i])
  }

  lemma {:induction false} ReplacedIsSafe(s: string, inRun: bool)
    ensures AllSafe(ReplaceRuns(s, inRun))
  {
    if s == "" {
    } else {
      ReplacedIsSafe(s[1..], !SafeKeyChar(s[0]));
    }
  }

  lemma {:induction false} TrimmedIsSafe(s: string)
    requires AllSafe(s)
    ensures AllSafe(TrimUnderscores(s))
  {
    if s == "" {
    } else if s[0] == '_' {
      TrimmedIsSafe(s[1..]);
    } else if s[|s| - 1] == '_' {
      TrimmedIsSafe(s[..|s| - 1]);
    }
  }

  /** A sanitized key behind a safe prefix is always a safe key. */
  lemma SanitizedIsSafe(prefix: string, s: string)
    requires AllSafe(prefix)
    ensures SafeKey(prefix + Sanitize(s))
  {
    var key := prefix + Sanitize(s);
    ReplacedIsSafe(TrimSpace(s), false);
    TrimmedIsSafe(ReplaceRuns(TrimSpace(s), false));
    assert AllSafe(Sanitize(s)) && Sanitize(s) != "" && AllSafe(key);
    NothingToTrim(key);
  }

  // ----- resource attributes -----

  predicate Storable(isSecret: string -> bool, key: string, value: string) {
    SafeKey(key) && !isSecret(key) && !IsBlank(value)
  }

  /** The attributes after these settings, in order; a setting that is unsafe, secret or blank is passed over. */
  function StoredAll(isSecret: string -> bool, attrs: map<string, string>,
                     settings: seq<(string, string)>): map<string, string>
  {
    if settings == [] then attrs
    else
      var before, last := StoredAll(isSecret, attrs, settings[..|settings| - 1]), settings[|settings| - 1];
      if Storable(isSecret, last.0, last.1) then before[last.0 := TrimSpace(last.1)] else before
  }

  /** An attribute has the value of the last setting of its key that can be stored. */
  lemma {:induction false} LastSettingWins(isSecret: string -> bool, attrs: map<string, string>,
                                           settings: seq<(string, string)>, i: nat)
    requires i < |settings| && Storable(isSecret, settings[i].0, settings[i].1)
    requires forall j | i < j < |settings| && settings[j].0 == settings[i].0 ::
             !Storable(isSecret, settings[j].0, settings[j].1)
    ensures var after := StoredAll(isSecret, attrs, settings);
            settings[i].0 in after && after[settings[i].0] == TrimSpace(settings[i].1)
    decreases |settings|
  {
    var n := |settings| - 1;
    if i == n {
    } else {
      LastSettingWins(isSecret, attrs, settings[..n], i);
    }
  }

  lemma {:induction false} StoredMore(isSecret: string -> bool, attrs: map<string, string>, a: seq<(string, string)>,
                                      b: seq<(string, string)>)
    ensures StoredAll(isSecret, attrs, a + b) == StoredAll(isSecret, StoredAll(isSecret, attrs, a), b)
    decreases |b|
  {
    if b == [] {
      assert a + b == a;
    } else {
      assert (a + b)[..|a + b| - 1] == a + b[..|b| - 1];
      StoredMore(isSecret, attrs, a, b[..|b| - 1]);
    }
  }

  lemma StoredOne(isSecret: string -> bool, attrs: map<string, string>, key: string, value: string)
    ensures StoredAll(isSecret, attrs, [(key, value)]) ==
            if Storable(isSecret, key, value) then attrs[key := TrimSpace(value)] else attrs
  {
    assert [(key, value)][..0] == [];
  }

  /** The settings of a map that can be stored; their keys are different, so their order does not matter. */
  function StorableOf(isSecret: string -> bool, values: map<string, string>): map<string, string> {
    map key | key in values && Storable(isSecret, key, values[key]) :: TrimSpace(values[key])
  }

  /** The attribute is stored from the map, or, when its key is still to come, as it was before. */
  predicate StoredUnless(isSecret: string -> bool, before: map<string, string>, values: map<string, string>,
                         todo: set<string>, attrs: map<string, string>, k: string)
  {
    if k in values && k !in todo && Storable(isSecret, k, values[k]) then k in attrs && attrs[k] == TrimSpace(values[k])
    else if k in before then k in attrs && attrs[k] == before[k]
    else k !in attrs
  }

  const TAG := "otel-magnify.vendor.datadog.tag."

  function TagSetting(tag: (string, string)): (string, string) {
    (TAG + Sanitize(tag.0), tag.1)
  }

  function TagSettings(tags: seq<(string, string)>): seq<(string, string)> {
    seq(|tags|, i requires 0 <= i < |tags| => TagSetting(tags[i]))
  }

  lemma TagStep(tags: seq<(string, string)>, i: nat)
    requires i < |tags|
    ensures TagSettings(tags[..i + 1]) == TagSettings(tags[..i]) + [TagSetting(tags[i])]
  {
  }

  function ItemSettings(item: LogItem): seq<(string, string)> {
    [("service.name", item.service), ("otel-magnify.vendor.source", item.source)]
  }

  function LogSettings(logs: seq<LogItem>): seq<(string, string)> {
    if logs == [] then []
    else
      var last := logs[|logs| - 1];
      LogSettings(logs[..|logs| - 1])
      + (if IsLog(last) then ItemSettings(last) else [])
  }

  function DatadogSettings(env: string, tags: seq<(string, string)>, logs: seq<LogItem>): seq<(string, string)> {
    [("deployment.environment", env)] + TagSettings(tags) + LogSettings(logs)
  }

  function MonitorSettings(s: Section): seq<(string, string)> {
    [("splunk.sourcetype", LastOf(s, "sourcetype")), ("splunk.index", LastOf(s, "index")),
     ("host.name", LastOf(s, "host"))]
  }

  function SplunkSettings(sections: seq<Section>): seq<(string, string)> {
    if sections == [] then []
    else
      var last := sections[|sections| - 1];
      SplunkSettings(sections[..|sections| - 1])
      + (if IsMonitor(last) then MonitorSettings(last) else [])
  }

  // ----- the static keys of Fluent Bit filters -----

  predicate IsModify(s: Section) {
    Lower(s.name) == "filter" && (Lower(LastOf(s, "Name")) == "modify" || Lower(LastOf(s, "Name")) == "record_modifier")
  }

  function FilterKeys(s: Section): set<string> {
    if IsModify(s) then s.keys.Keys else {}
  }

  const FLUENT := "otel-magnify.vendor.fluentbit."

  function FluentKey(key: string): string {
    FLUENT + Sanitize(key)
  }

  /** Key `key` of the filter sets attribute `k`. */
  predicate Sets(isSecret: string -> bool, s: Section, key: string, k: string) {
    && key in s.keys && key != "name" && key != "match" && s.keys[key] != []
    && FluentKey(key) == k && Storable(isSecret, k, s.keys[key][|s.keys[key]| - 1])
  }

  function Setting(s: Section, key: string): string
    requires key in s.keys && s.keys[key] != []
  {
    TrimSpace(s.keys[key][|s.keys[key]| - 1])
  }

  ghost predicate SetByOneOf(isSecret: string -> bool, s: Section, among: set<string>, k: string) {
    exists key :: key in among && Sets(isSecret, s, key, k)
  }

  ghost predicate StoresAt(isSecret: string -> bool, before: map<string, string>, s: Section, among: set<string>,
                           after: map<string, string>, k: string)
  {
    if SetByOneOf(isSecret, s, among, k) then
      k in after && exists key :: key in among && Sets(isSecret, s, key, k) && after[k] == Setting(s, key)
    else if k in before then k in after && after[k] == before[k]
    else k !in after
  }

  /** The attributes after one section, whose keys are taken in any order: every attribute that some of the keys
      `among` set has the value of one of them, and the others are as they were. */
  ghost predicate SectionStores(isSecret: string -> bool, before: map<string, string>, s: Section, among: set<string>,
                                after: map<string, string>)
  {
    forall k :: StoresAt(isSecret, before, s, among, after, k)
  }

  ghost predicate FluentStores(isSecret: string -> bool, before: map<string, string>, sections: seq<Section>,
                               after: map<string, string>)
  {
    if sections == [] then after == before
    else
      var last := sections[|sections| - 1];
      exists mid :: FluentStores(isSecret, before, sections[..|sections| - 1], mid)
                    && SectionStores(isSecret, mid, last, FilterKeys(last), after)
  }

  lemma NoKeysStoreNothing(isSecret: string -> bool, before: map<string, string>, s: Section)
    ensures SectionStores(isSecret, before, s, {}, before)
  {
    forall k ensures StoresAt(isSecret, before, s, {}, before, k) {
    }
  }

  /** One more key of the section. */
  lemma KeyStores(isSecret: string -> bool, before: map<string, string>, s: Section, among: set<string>,
                  mid: map<string, string>, key: string, after: map<string, string>)
    requires SectionStores(isSecret, before, s, among, mid) && key in s.keys
    requires after == if Sets(isSecret, s, key, FluentKey(key)) then mid[FluentKey(key) := Setting(s, key)] else mid
    ensures SectionStores(isSecret, before, s, among + {key}, after)
  {
    forall k ensures StoresAt(isSecret, before, s, among + {key}, after, k) {
      assert StoresAt(isSecret, before, s, among, mid, k);
      if x :| x in among && Sets(isSecret, s, x, k) {
        assert x in among + {key};
      }
    }
  }

  /** Two keys of the section set the same attribute to different values. */
  ghost predicate Collide(isSecret: string -> bool, s: Section) {
    exists x, y, k :: Sets(isSecret, s, x, k) && Sets(isSecret, s, y, k) && Setting(s, x) != Setting(s, y)
  }

  // ----- the order of the keys -----

  /** The attributes after the keys of a section, taken in this order. */
  function Fold(isSecret: string -> bool, before: map<string, string>, s: Section, keys: seq<string>)
    : map<string, string>
  {
    if keys == [] then before
    else
      var mid, key := Fold(isSecret, before, s, keys[..|keys| - 1]), keys[|keys| - 1];
      if Sets(isSecret, s, key, FluentKey(key)) then mid[FluentKey(key) := Setting(s, key)] else mid
  }

  /** All the keys of the section, each once. */
  ghost predicate IsOrder(s: Section, keys: seq<string>) {
    && (forall i, j | 0 <= i < j < |keys| :: keys[i] != keys[j])
    && (forall key :: key in keys <==> key in s.keys)
  }

  ghost function Elements(keys: seq<string>): set<string> {
    set key | key in keys
  }

  lemma {:induction false} FoldStores(isSecret: string -> bool, before: map<string, string>, s: Section,
                                      keys: seq<string>)
    requires forall key | key in keys :: key in s.keys
    ensures SectionStores(isSecret, before, s, Elements(keys), Fold(isSecret, before, s, keys))
  {
    if keys == [] {
      assert Elements(keys) == {};
      NoKeysStoreNothing(isSecret, before, s);
    } else {
      var init, key := keys[..|keys| - 1], keys[|keys| - 1];
      assert keys == init + [key];
      FoldStores(isSecret, before, s, init);
      assert Elements(keys) == Elements(init) + {key};
      KeyStores(isSecret, before, s, Elements(init), Fold(isSecret, before, s, init), key,
        Fold(isSecret, before, s, keys));
    }
  }

  /** Keys at the end that do not set the attribute leave it alone. */
  lemma {:induction false} FoldSkips(isSecret: string -> bool, before: map<string, string>, s: Section,
                                     keys: seq<string>, n: nat, k: string)
    requires n <= |keys| && forall i | n <= i < |keys| :: !Sets(isSecret, s, keys[i], k)
    ensures var all, some := Fold(isSecret, before, s, keys), Fold(isSecret, before, s, keys[..n]);
            (k in all <==> k in some) && (k in all && k in some ==> all[k] == some[k])
  {
    if n == |keys| {
      assert keys[..n] == keys;
    } else {
      var init := keys[..|keys| - 1];
      FoldSkips(isSecret, before, s, init, n, k);
      assert init[..n] == keys[..n];
    }
  }

  /** The last key that sets an attribute gives it its value. */
  lemma LastKeyWins(isSecret: string -> bool, before: map<string, string>, s: Section, keys: seq<string>, i: nat,
                    k: string)
    requires i < |keys| && Sets(isSecret, s, keys[i], k)
    requires forall j | i < j < |keys| :: !Sets(isSecret, s, keys[j], k)
    ensures var after := Fold(isSecret, before, s, keys); k in after && after[k] == Setting(s, keys[i])
  {
    FoldSkips(isSecret, before, s, keys, i + 1, k);
    FoldTakes(isSecret, before, s, keys[..i + 1], k);
  }

  lemma FoldTakes(isSecret: string -> bool, before: map<string, string>, s: Section, keys: seq<string>, k: string)
    requires keys != [] && Sets(isSecret, s, keys[|keys| - 1], k)
    ensures var after := Fold(isSecret, before, s, keys); k in after && after[k] == Setting(s, keys[|keys| - 1])
  {
  }

  lemma {:induction false} Enumerate(keys: set<string>) returns (order: seq<string>)
    ensures (forall i, j | 0 <= i < j < |order| :: order[i] != order[j]) && forall key :: key in order <==> key in keys
  {
    if keys == {} {
      order := [];
    } else {
      var key :| key in keys;
      var rest := Enumerate(keys - {key});
      order := rest + [key];
    }
  }

  /** The key is the one from which its attribute has its value. */
  ghost predicate IsWinner(isSecret: string -> bool, s: Section, winner: map<string, string>, key: string) {
    Sets(isSecret, s, key, FluentKey(key)) && FluentKey(key) in winner && winner[FluentKey(key)] == key
  }

  /** For every attribute that the section sets, a key that gives it the value it has. */
  ghost predicate Wins(isSecret: string -> bool, s: Section, winner: map<string, string>, after: map<string, string>) {
    forall k | SetByOneOf(isSecret, s, s.keys.Keys, k) ::
      && k in winner && k in after && Sets(isSecret, s, winner[k], k) && after[k] == Setting(s, winner[k])
  }

  ghost function Pick(isSecret: string -> bool, s: Section, after: map<string, string>, k: string): string
    requires exists key :: key in s.keys.Keys && Sets(isSecret, s, key, k) && k in after && after[k] == Setting(s, key)
  {
    var key :| key in s.keys.Keys && Sets(isSecret, s, key, k) && k in after && after[k] == Setting(s, key);
    key
  }

  lemma WinnersExist(isSecret: string -> bool, before: map<string, string>, s: Section, after: map<string, string>)
    returns (winner: map<string, string>)
    requires SectionStores(isSecret, before, s, s.keys.Keys, after)
    ensures Wins(isSecret, s, winner, after)
  {
    var ks := set x | x in s.keys && SetByOneOf(isSecret, s, s.keys.Keys, FluentKey(x)) :: FluentKey(x);
    forall k | k in ks
      ensures exists key :: key in s.keys.Keys && Sets(isSecret, s, key, k) && k in after && after[k] == Setting(s, key)
    {
      assert StoresAt(isSecret, before, s, s.keys.Keys, after, k);
    }
    winner := map k | k in ks :: Pick(isSecret, s, after, k);
    forall k | SetByOneOf(isSecret, s, s.keys.Keys, k) ensures k in ks {
      var x :| x in s.keys.Keys && Sets(isSecret, s, x, k);
      assert FluentKey(x) == k;
    }
  }

  /** The other keys first, then the winners: every attribute gets the value of its winner. */
  lemma WinnersLast(isSecret: string -> bool, before: map<string, string>, s: Section, after: map<string, string>,
                    winner: map<string, string>, losers: seq<string>, winners: seq<string>)
    requires SectionStores(isSecret, before, s, s.keys.Keys, after) && Wins(isSecret, s, winner, after)
    requires forall key :: key in winners <==> key in s.keys && IsWinner(isSecret, s, winner, key)
    requires forall key :: key in losers <==> key in s.keys && !IsWinner(isSecret, s, winner, key)
    requires forall i, j | 0 <= i < j < |winners| :: winners[i] != winners[j]
    ensures Fold(isSecret, before, s, losers + winners) == after
  {
    var keys := losers + winners;
    var result := Fold(isSecret, before, s, keys);
    forall k ensures (k in result <==> k in after) && (k in result && k in after ==> result[k] == after[k]) {
      assert StoresAt(isSecret, before, s, s.keys.Keys, after, k);
      if SetByOneOf(isSecret, s, s.keys.Keys, k) {
        assert IsWinner(isSecret, s, winner, winner[k]);
        var i :| 0 <= i < |winners| && winners[i] == winner[k];
        WinnerIsLast(isSecret, before, s, winner, losers, winners, k, i);
      } else {
        forall i | 0 <= i < |keys| ensures !Sets(isSecret, s, keys[i], k) {
          assert keys[i] in losers || keys[i] in winners;
        }
        FoldSkips(isSecret, before, s, keys, 0, k);
        assert keys[..0] == [];
      }
    }
  }

  lemma OneWinner(isSecret: string -> bool, s: Section, winner: map<string, string>, key: string, k: string)
    requires IsWinner(isSecret, s, winner, key) && k in winner && key != winner[k]
    ensures !Sets(isSecret, s, key, k)
  {
  }

  lemma WinnerIsLast(isSecret: string -> bool, before: map<string, string>, s: Section, winner: map<string, string>,
                     losers: seq<string>, winners: seq<string>, k: string, i: nat)
    requires k in winner && Sets(isSecret, s, winner[k], k) && i < |winners| && winners[i] == winner[k]
    requires forall j | 0 <= j < |winners| :: IsWinner(isSecret, s, winner, winners[j])
    requires forall j | i < j < |winners| :: winners[j] != winners[i]
    ensures var result := Fold(isSecret, before, s, losers + winners); k in result && result[k] == Setting(s, winner[k])
  {
    var keys := losers + winners;
    forall j | |losers| + i < j < |keys| ensures !Sets(isSecret, s, keys[j], k) {
      assert keys[j] == winners[j - |losers|];
      OneWinner(isSecret, s, winner, keys[j], k);
    }
    assert keys[|losers| + i] == winner[k];
    LastKeyWins(isSecret, before, s, keys, |losers| + i, k);
  }

  /** Some order of the keys leaves these attributes. */
  ghost predicate FromSomeOrder(isSecret: string -> bool, before: map<string, string>, s: Section,
                                after: map<string, string>)
  {
    exists keys :: IsOrder(s, keys) && Fold(isSecret, before, s, keys) == after
  }

  /** A section can leave these attributes exactly when some order of its keys does. */
  lemma OutcomesAreOrders(isSecret: string -> bool, before: map<string, string>, s: Section, after: map<string, string>)
    ensures SectionStores(isSecret, before, s, s.keys.Keys, after) <==> FromSomeOrder(isSecret, before, s, after)
  {
    if keys :| IsOrder(s, keys) && Fold(isSecret, before, s, keys) == after {
      FoldStores(isSecret, before, s, keys);
      assert Elements(keys) == s.keys.Keys;
    }
    if SectionStores(isSecret, before, s, s.keys.Keys, after) {
      var winner := WinnersExist(isSecret, before, s, after);
      var winners := Enumerate(set key | key in s.keys && IsWinner(isSecret, s, winner, key));
      var losers := Enumerate(set key | key in s.keys && !IsWinner(isSecret, s, winner, key));
      WinnersLast(isSecret, before, s, after, winner, losers, winners);
      OneAfterTheOther(s, losers, winners);
    }
  }

  lemma OneAfterTheOther(s: Section, a: seq<string>, b: seq<string>)
    requires forall i, j | 0 <= i < j < |a| :: a[i] != a[j]
    requires forall i, j | 0 <= i < j < |b| :: b[i] != b[j]
    requires forall key :: key in s.keys <==> key in a || key in b
    requires forall key | key in a :: key !in b
    ensures IsOrder(s, a + b)
  {
    var keys := a + b;
    forall i, j | 0 <= i < j < |keys| ensures keys[i] != keys[j] {
      if i < |a| <= j {
        assert keys[i] in a && keys[j] in b;
      }
    }
  }

  lemma SameOutcome(isSecret: string -> bool, before: map<string, string>, s: Section, a: map<string, string>,
                    b: map<string, string>)
    requires !Collide(isSecret, s)
    requires SectionStores(isSecret, before, s, s.keys.Keys, a) && SectionStores(isSecret, before, s, s.keys.Keys, b)
    ensures a == b
  {
    forall k ensures (k in a <==> k in b) && (k in a && k in b ==> a[k] == b[k]) {
      assert StoresAt(isSecret, before, s, s.keys.Keys, a, k) && StoresAt(isSecret, before, s, s.keys.Keys, b, k);
    }
  }

  /** With `key` as the last of its keys the section gives its attribute the value of `key`. */
  lemma KeyLast(isSecret: string -> bool, before: map<string, string>, s: Section, key: string, k: string)
    returns (keys: seq<string>)
    requires Sets(isSecret, s, key, k)
    ensures IsOrder(s, keys)
    ensures var after := Fold(isSecret, before, s, keys); k in after && after[k] == Setting(s, key)
  {
    var rest := Enumerate(s.keys.Keys - {key});
    keys := rest + [key];
    OneAfterTheOther(s, rest, [key]);
    assert keys[|rest|] == key;
    LastKeyWins(isSecret, before, s, keys, |rest|, k);
  }

  /** The attributes that a filter leaves do not depend on the order of its keys exactly when no two of them
      become the same attribute with different values. */
  lemma OneOutcomeIff(isSecret: string -> bool, before: map<string, string>, s: Section)
    ensures (forall p, q | IsOrder(s, p) && IsOrder(s, q) ::
               Fold(isSecret, before, s, p) == Fold(isSecret, before, s, q))
            <==> !Collide(isSecret, s)
  {
    if Collide(isSecret, s) {
      var x, y, k :| Sets(isSecret, s, x, k) && Sets(isSecret, s, y, k) && Setting(s, x) != Setting(s, y);
      var p := KeyLast(isSecret, before, s, x, k);
      var q := KeyLast(isSecret, before, s, y, k);
      assert Fold(isSecret, before, s, p) != Fold(isSecret, before, s, q);
    } else {
      forall p, q | IsOrder(s, p) && IsOrder(s, q)
        ensures Fold(isSecret, before, s, p) == Fold(isSecret, before, s, q)
      {
        OutcomesAreOrders(isSecret, before, s, Fold(isSecret, before, s, p));
        OutcomesAreOrders(isSecret, before, s, Fold(isSecret, before, s, q));
        SameOutcome(isSecret, before, s, Fold(isSecret, before, s, p), Fold(isSecret, before, s, q));
      }
    }
  }

  const FILTER := Section("FILTER", "FILTER", map["name" := ["modify"], "a b" := ["x"], "a_b" := ["y"]])

  lemma FilterSettings()
    ensures "a b" in FILTER.keys && FILTER.keys["a b"] == ["x"] && "a_b" in FILTER.keys && FILTER.keys["a_b"] == ["y"]
    ensures "a b" != "name" && "a b" != "match" && "a_b" != "name" && "a_b" != "match"
  {
    assert "a b"[1] != "a_b"[1] && |"name"| == 4 && |"match"| == 5;
  }

  lemma NotBlank(s: string)
    requires |s| == 1 && !IsSpace(s[0])
    ensures !IsBlank(s) && TrimSpace(s) == s
  {
    assert s[0] in s;
  }

  lemma BothSanitize()
    ensures Sanitize("a b") == Sanitize("a_b")
  {
    NothingToTrim("a b");
    NothingToTrim("a_b");
    assert "a b"[1..] == " b" && "a_b"[1..] == "_b" && " b"[1..] == "b" == "_b"[1..] && "b"[1..] == "";
    assert ReplaceRuns("b", true) == "b" == ReplaceRuns("b", false);
    assert ReplaceRuns(" b", false) == "_b" == ReplaceRuns("_b", false);
    assert ReplaceRuns("a b", false) == ReplaceRuns("a_b", false);
  }

  lemma FluentIsSafe()
    ensures AllSafe(FLUENT)
  {
  }

  /** Two keys that sanitize to the same text, with different values. */
  lemma SameTextCollides(isSecret: string -> bool, s: Section, x: string, y: string)
    requires x in s.keys && y in s.keys && x != "name" && x != "match" && y != "name" && y != "match"
    requires |s.keys[x]| == 1 && |s.keys[y]| == 1 && !IsBlank(s.keys[x][0]) && !IsBlank(s.keys[y][0])
    requires TrimSpace(s.keys[x][0]) != TrimSpace(s.keys[y][0])
    requires Sanitize(x) == Sanitize(y) && !isSecret(FluentKey(x))
    ensures Collide(isSecret, s)
  {
    FluentIsSafe();
    SanitizedIsSafe(FLUENT, x);
    assert Sets(isSecret, s, x, FluentKey(x)) && Sets(isSecret, s, y, FluentKey(x));
  }

  lemma FilterModifies()
    ensures IsModify(FILTER)
  {
    assert Lower("FILTER") == "filter";
    assert Lower("Name") == "name";
    assert Lower("modify") == "modify";
    NothingToTrim("modify");
  }

  lemma FilterCollides(isSecret: string -> bool)
    requires !isSecret(FluentKey("a b"))
    ensures Collide(isSecret, FILTER)
  {
    BothSanitize();
    FilterSettings();
    NotBlank("x");
    NotBlank("y");
    assert "x"[0] != "y"[0];
    SameTextCollides(isSecret, FILTER, "a b", "a_b");
  }

  /** Two results are possible. */
  ghost predicate Ambiguous(isSecret: string -> bool, s: Section) {
    exists a, b :: a != b && SectionStores(isSecret, map[], s, FilterKeys(s), a)
                   && SectionStores(isSecret, map[], s, FilterKeys(s), b)
  }

  lemma TwoOrders(isSecret: string -> bool, s: Section) returns (p: seq<string>, q: seq<string>)
    requires Collide(isSecret, s)
    ensures IsOrder(s, p) && IsOrder(s, q) && Fold(isSecret, map[], s, p) != Fold(isSecret, map[], s, q)
  {
    OneOutcomeIff(isSecret, map[], s);
    p, q :| IsOrder(s, p) && IsOrder(s, q) && Fold(isSecret, map[], s, p) != Fold(isSecret, map[], s, q);
  }

  lemma OrderIsOutcome(isSecret: string -> bool, s: Section, keys: seq<string>)
    requires IsModify(s) && IsOrder(s, keys)
    ensures SectionStores(isSecret, map[], s, FilterKeys(s), Fold(isSecret, map[], s, keys))
  {
    OutcomesAreOrders(isSecret, map[], s, Fold(isSecret, map[], s, keys));
  }

  lemma TwoOutcomes(isSecret: string -> bool, s: Section)
    requires IsModify(s) && Collide(isSecret, s)
    ensures Ambiguous(isSecret, s)
  {
    var p, q := TwoOrders(isSecret, s);
    OrderIsOutcome(isSecret, s, p);
    OrderIsOutcome(isSecret, s, q);
  }

  /** It does depend on it: in a filter that is converted the keys `a b` and `a_b` become one attribute, and two
      orders of the keys leave different values. */
  lemma KeysCollide(isSecret: string -> bool)
    requires !isSecret(FluentKey("a b"))
    ensures IsModify(FILTER) && Ambiguous(isSecret, FILTER)
  {
    FilterModifies();
    FilterCollides(isSecret);
    TwoOutcomes(isSecret, FILTER);
  }

  // ----- the draft as a value -----

  datatype Draft = Draft(receivers: set<string>, processors: set<string>, attrs: map<string, string>,
                         exporters: map<string, string>, pipelines: map<string, Pipeline>)

  predicate Within(ids: seq<string>, defined: set<string>) {
    ids != [] && forall i | 0 <= i < |ids| :: ids[i] in defined
  }

  function DefaultExporter(exporters: map<string, string>): string {
    if HEC in exporters then HEC else OTLP
  }

  /** While converting: every pipeline has defined receivers and the exporter that the draft defaults to. */
  predicate PipelineStarted(receivers: set<string>, exporters: map<string, string>, p: Pipeline) {
    Within(p.receivers, receivers) && p.exporters == [DefaultExporter(exporters)]
  }

  predicate Started(d: Draft) {
    && d.exporters.Keys <= {HEC} && d.processors == {}
    && forall n | n in d.pipelines :: PipelineStarted(d.receivers, d.exporters, d.pipelines[n])
  }

  predicate PipelineComplete(d: Draft, p: Pipeline) {
    && Within(p.receivers, d.receivers) && Within(p.processors, d.processors) && Within(p.exporters, d.exporters.Keys)
    && ("resource" in p.processors <==> d.attrs != map[])
  }

  /** The finished draft: no section empty, every reference defined, attributes always applied. */
  predicate Complete(d: Draft) {
    && d.pipelines.Keys != {} && d.exporters.Keys != {} && d.receivers != {}
    && d.processors != {} && d.processors <= {"resource", "batch"}
    && forall n | n in d.pipelines :: PipelineComplete(d, d.pipelines[n])
  }

  /** The configuration that the draft is rendered as; the resource processor is written only with attributes. */
  function Rendered(d: Draft): V.Config {
    V.Config(d.receivers, (if "resource" in d.processors && d.attrs != map[] then {"resource"} else {}) + {"batch"},
             d.exporters.Keys, {},
             Some(V.Service(Some(map n | n in d.pipelines ::
                                   V.Sections(Some(d.pipelines[n].receivers),
                                              if d.pipelines[n].processors == [] then None
                                              else Some(d.pipelines[n].processors),
                                              Some(d.pipelines[n].exporters))), [])))
  }

  // ----- which log receivers a source asks for -----

  predicate IsLog(item: LogItem) {
    item.isFile && item.path != ""
  }

  function DatadogLogs(logs: seq<LogItem>): seq<string> {
    if logs == [] then []
    else DatadogLogs(logs[..|logs| - 1])
         + (if IsLog(logs[|logs| - 1]) then ["filelog/datadog_logs_" + Decimal(|logs| - 1)] else [])
  }

  lemma LogStep(logs: seq<LogItem>, i: nat)
    requires i < |logs|
    ensures DatadogLogs(logs[..i + 1]) ==
            if IsLog(logs[i]) then DatadogLogs(logs[..i]) + ["filelog/datadog_logs_" + Decimal(i)]
            else DatadogLogs(logs[..i])
    ensures LogSettings(logs[..i + 1]) ==
            if IsLog(logs[i]) then LogSettings(logs[..i]) + ItemSettings(logs[i]) else LogSettings(logs[..i])
  {
    assert logs[..i + 1][..i] == logs[..i];
    assert DatadogLogs(logs[..i]) + [] == DatadogLogs(logs[..i]);
    assert LogSettings(logs[..i]) + [] == LogSettings(logs[..i]);
  }

  predicate IsTail(s: Section) {
    Lower(s.name) == "input" && Lower(LastOf(s, "Name")) == "tail" && LastOf(s, "Path") != ""
  }

  predicate IsMonitor(s: Section) {
    "monitor://" <= Lower(s.header) && LastOf(s, "disabled") != "1"
  }

  /** A HEC output with an endpoint. */
  predicate IsHec(s: Section) {
    && !("monitor://" <= Lower(s.header)) && (Contains(Lower(s.header), "httpout") || Contains(Lower(s.header), "hec"))
    && LastOf(s, "uri") != ""
  }

  /** The last HEC output decides the exporter. */
  function HecExporters(clean: string -> string, exporters: map<string, string>, sections: seq<Section>)
    : map<string, string>
  {
    if sections == [] then exporters
    else if IsHec(sections[|sections| - 1]) then map[HEC := clean(LastOf(sections[|sections| - 1], "uri"))]
    else HecExporters(clean, exporters, sections[..|sections| - 1])
  }

  lemma {:induction false} NoHecStays(clean: string -> string, exporters: map<string, string>, sections: seq<Section>)
    requires forall i | 0 <= i < |sections| :: !IsHec(sections[i])
    ensures HecExporters(clean, exporters, sections) == exporters
  {
    if sections == [] {
    } else {
      NoHecStays(clean, exporters, sections[..|sections| - 1]);
    }
  }

  /** A HEC output that no other follows gives the exporter its endpoint. */
  lemma {:induction false} LastHecWins(clean: string -> string, exporters: map<string, string>,
                                       sections: seq<Section>, i: nat)
    requires i < |sections| && IsHec(sections[i]) && forall j | i < j < |sections| :: !IsHec(sections[j])
    ensures HecExporters(clean, exporters, sections) == map[HEC := clean(LastOf(sections[i], "uri"))]
  {
    if i == |sections| - 1 {
    } else {
      LastHecWins(clean, exporters, sections[..|sections| - 1], i);
    }
  }

  /** The draft exports to HEC exactly when the source has a HEC output. */
  lemma HecIff(clean: string -> string, sections: seq<Section>)
    ensures HEC in HecExporters(clean, map[], sections) <==> exists i :: 0 <= i < |sections| && IsHec(sections[i])
  {
    if exists i :: 0 <= i < |sections| && IsHec(sections[i]) {
      var i := LastHec(sections);
      LastHecWins(clean, map[], sections, i);
    } else {
      NoHecStays(clean, map[], sections);
    }
  }

  lemma {:induction false} LastHec(sections: seq<Section>) returns (i: nat)
    requires exists j :: 0 <= j < |sections| && IsHec(sections[j])
    ensures i < |sections| && IsHec(sections[i]) && forall j | i < j < |sections| :: !IsHec(sections[j])
  {
    var n := |sections| - 1;
    if IsHec(sections[n]) {
      i := n;
    } else {
      var j :| 0 <= j < |sections| && IsHec(sections[j]);
      assert IsHec(sections[..n][j]);
      i := LastHec(sections[..n]);
    }
  }

  function Matching(sections: seq<Section>, splunk: bool): nat {
    if sections == [] then 0
    else
      var last := sections[|sections| - 1];
      var counts := if splunk then IsMonitor(last) else IsTail(last);
      Matching(sections[..|sections| - 1], splunk) + (if counts then 1 else 0)
  }

  lemma SectionStep(isSecret: string -> bool, before: map<string, string>, sections: seq<Section>, i: nat,
                    mid: map<string, string>, after: map<string, string>)
    requires i < |sections| && FluentStores(isSecret, before, sections[..i], mid)
    requires SectionStores(isSecret, mid, sections[i], FilterKeys(sections[i]), after)
    ensures Matching(sections[..i + 1], false) ==
            Matching(sections[..i], false) + (if IsTail(sections[i]) then 1 else 0)
    ensures FluentStores(isSecret, before, sections[..i + 1], after)
  {
    assert sections[..i + 1][..i] == sections[..i] && sections[..i + 1][i] == sections[i];
  }

  lemma StanzaStep(clean: string -> string, exporters: map<string, string>, sections: seq<Section>, i: nat)
    requires i < |sections|
    ensures Matching(sections[..i + 1], true) ==
            Matching(sections[..i], true) + (if IsMonitor(sections[i]) then 1 else 0)
    ensures HecExporters(clean, exporters, sections[..i + 1]) ==
            if IsHec(sections[i]) then map[HEC := clean(LastOf(sections[i], "uri"))]
            else HecExporters(clean, exporters, sections[..i])
  {
    assert sections[..i + 1][..i] == sections[..i] && sections[..i + 1][i] == sections[i];
  }

  lemma StanzaAttrs(isSecret: string -> bool, attrs: map<string, string>, sections: seq<Section>, i: nat)
    requires i < |sections|
    ensures var before := StoredAll(isSecret, attrs, SplunkSettings(sections[..i]));
            StoredAll(isSecret, attrs, SplunkSettings(sections[..i + 1])) ==
            if IsMonitor(sections[i]) then StoredAll(isSecret, before, MonitorSettings(sections[i])) else before
  {
    assert sections[..i + 1][..i] == sections[..i] && sections[..i + 1][i] == sections[i];
    if IsMonitor(sections[i]) {
      StoredMore(isSecret, attrs, SplunkSettings(sections[..i]), MonitorSettings(sections[i]));
    } else {
      assert SplunkSettings(sections[..i]) + [] == SplunkSettings(sections[..i]);
    }
  }

  function Numbered(prefix: string, n: nat): seq<string> {
    if n == 0 then [] else Numbered(prefix, n - 1) + [prefix + Decimal(n - 1)]
  }

  /** The logs pipeline has exactly these receivers, in this order; without any there is no such pipeline. */
  predicate LogsAre(pipelines: map<string, Pipeline>, names: seq<string>) {
    if names == [] then "logs" !in pipelines else "logs" in pipelines && pipelines["logs"].receivers == names
  }

  /** The logs pipeline got one more receiver, or none; the receivers of the others are as they were. */
  predicate LogsGrew(before: map<string, Pipeline>, after: map<string, Pipeline>, name: Option<string>) {
    && (forall n | n in before && n in after && (n != "logs" || name.None?) ::
          after[n].receivers == before[n].receivers)
    && (if name.None? then after.Keys == before.Keys
        else
          && after.Keys == before.Keys + {"logs"}
          && after["logs"].receivers == (if "logs" in before then before["logs"].receivers else []) + [name.value])
  }

  lemma LogsGrow(before: map<string, Pipeline>, after: map<string, Pipeline>, names: seq<string>, name: Option<string>)
    requires LogsAre(before, names) && LogsGrew(before, after, name) && before.Keys <= {"logs"}
    ensures LogsAre(after, if name.None? then names else names + [name.value]) && after.Keys <= {"logs"}
  {
  }

  lemma NumberedGrow(before: map<string, Pipeline>, after: map<string, Pipeline>, prefix: string, n: nat, more: bool)
    requires LogsAre(before, Numbered(prefix, n)) && before.Keys <= {"logs"}
    requires LogsGrew(before, after, if more then Some(prefix + Decimal(n)) else None)
    ensures LogsAre(after, Numbered(prefix, if more then n + 1 else n)) && after.Keys <= {"logs"}
  {
    LogsGrow(before, after, Numbered(prefix, n), if more then Some(prefix + Decimal(n)) else None);
  }

  /** What the stanzas up to here have made of the draft `first`. */
  predicate SplunkDone(isSecret: string -> bool, clean: string -> string, first: Draft, sections: seq<Section>,
                       d: Draft, n: nat)
  {
    && d.pipelines.Keys <= {"logs"} && n == Matching(sections, true)
    && LogsAre(d.pipelines, Numbered("filelog/splunk_monitor_", n))
    && d.exporters == HecExporters(clean, first.exporters, sections)
    && d.attrs == StoredAll(isSecret, first.attrs, SplunkSettings(sections))
  }

  /** What one stanza makes of the draft. */
  predicate StanzaDone(isSecret: string -> bool, clean: string -> string, s: Section, before: Draft, n: nat,
                       after: Draft, next: nat)
  {
    && next == n + (if IsMonitor(s) then 1 else 0)
    && after.exporters == (if IsHec(s) then map[HEC := clean(LastOf(s, "uri"))] else before.exporters)
    && after.attrs == (if IsMonitor(s) then StoredAll(isSecret, before.attrs, MonitorSettings(s)) else before.attrs)
    && LogsGrew(before.pipelines, after.pipelines,
                if IsMonitor(s) then Some("filelog/splunk_monitor_" + Decimal(n)) else None)
  }

  lemma SplunkStep(isSecret: string -> bool, clean: string -> string, first: Draft, sections: seq<Section>, i: nat,
                   before: Draft, n: nat, after: Draft, next: nat)
    requires i < |sections| && SplunkDone(isSecret, clean, first, sections[..i], before, n)
    requires StanzaDone(isSecret, clean, sections[i], before, n, after, next)
    ensures SplunkDone(isSecret, clean, first, sections[..i + 1], after, next)
  {
    StanzaStep(clean, first.exporters, sections, i);
    StanzaAttrs(isSecret, first.attrs, sections, i);
    NumberedGrow(before.pipelines, after.pipelines, "filelog/splunk_monitor_", n, IsMonitor(sections[i]));
  }

  /** The file receivers that a source asks for, in order. */
  function LogNames(source: Source): seq<string> {
    match source
    case Unparsed => []
    case Datadog(_, _, logs, _, _) => DatadogLogs(logs)
    case FluentBit(sections) => Numbered("filelog/fluentbit_tail_", Matching(sections, false))
    case Splunk(sections) => Numbered("filelog/splunk_monitor_", Matching(sections, true))
    case NewRelic(_, _, logFile, _) => if logFile == "" then [] else ["filelog/newrelic_log_0"]
  }

  /** The attributes that a source adds to those of the labels; the filters of Fluent Bit are told apart by
      `FluentStores`. */
  function AttrsOf(isSecret: string -> bool, labels: map<string, string>, source: Source): map<string, string> {
    match source
    case Datadog(env, tags, logs, _, _) => StoredAll(isSecret, labels, DatadogSettings(env, tags, logs))
    case Splunk(sections) => StoredAll(isSecret, labels, SplunkSettings(sections))
    case NewRelic(name, attributes, _, _) =>
      StoredAll(isSecret, labels, [("host.name", name)]) + StorableOf(isSecret, attributes)
    case _ => labels
  }

  // ----- the conversion state -----

  lemma FinishedIsComplete(d: Draft, some: string, used: seq<string>)
    requires some in d.pipelines && DefaultExporter(d.exporters) in d.exporters
    requires "batch" in d.processors && d.processors <= {"resource", "batch"} && Within(used, d.processors)
    requires "resource" in used <==> d.attrs != map[]
    requires forall n | n in d.pipelines :: PipelineStarted(d.receivers, d.exporters, d.pipelines[n])
    requires forall n | n in d.pipelines :: d.pipelines[n].processors == used
    ensures Complete(d)
  {
    assert some in d.pipelines.Keys && DefaultExporter(d.exporters) in d.exporters.Keys;
    assert d.pipelines[some].receivers[0] in d.receivers;
  }

  class Conversion {
    const isSecret: string -> bool
    const cleanEndpoint: string -> string
    var receivers: set<string>
    var processors: set<string>
    var attrs: map<string, string>
    var exporters: map<string, string>
    var pipelines: map<string, Pipeline>
    var mapped: nat

    ghost function Value(): Draft
      reads this
    {
      Draft(receivers, processors, attrs, exporters, pipelines)
    }

    constructor (isSecret: string -> bool, cleanEndpoint: string -> string)
      ensures Value() == Draft({}, {}, map[], map[], map[]) && Started(Value())
      ensures this.isSecret == isSecret && this.cleanEndpoint == cleanEndpoint
    {
      this.isSecret, this.cleanEndpoint := isSecret, cleanEndpoint;
      receivers, processors, attrs, exporters, pipelines, mapped := {}, {}, map[], map[], map[], 0;
    }

    method AddResourceAttr(key: string, value: string)
      modifies `attrs
      ensures attrs == StoredAll(isSecret, old(attrs), [(key, value)])
      ensures attrs == if Storable(isSecret, key, value) then old(attrs)[key := TrimSpace(value)] else old(attrs)
    {
      if SafeKey(key) && !isSecret(key) && !IsBlank(value) {
        attrs := attrs[key := TrimSpace(value)];
      }
      StoredOne(isSecret, old(attrs), key, value);
    }

    /** A file receiver joins the logs pipeline, whose exporter is chosen afresh. */
    method AddLogReceiver(name: string)
      requires Started(Value())
      modifies `receivers, `pipelines, `mapped
      ensures Started(Value()) && "logs" in pipelines
      ensures receivers == old(receivers) + {name}
      ensures pipelines["logs"].receivers ==
              (if "logs" in old(pipelines) then old(pipelines)["logs"].receivers else []) + [name]
      ensures forall n | n != "logs" :: n in pipelines <==> n in old(pipelines)
      ensures forall n | n != "logs" && n in pipelines :: pipelines[n] == old(pipelines)[n]
    {
      receivers := receivers + {name};
      var before := if "logs" in pipelines then pipelines["logs"].receivers else [];
      pipelines := pipelines["logs" := Pipeline(before + [name], [], [DefaultExporter(exporters)])];
      mapped := mapped + 1;
    }

    /** A single receiver with a pipeline of its own. */
    method AddPipeline(receiver: string, pipeline: string)
      requires Started(Value())
      modifies `receivers, `pipelines, `mapped
      ensures Started(Value()) && receivers == old(receivers) + {receiver} && pipeline in pipelines
      ensures pipelines == old(pipelines)[pipeline := pipelines[pipeline]]
      ensures pipelines[pipeline].receivers == [receiver]
    {
      receivers := receivers + {receiver};
      pipelines := pipelines[pipeline := Pipeline([receiver], [], [DefaultExporter(exporters)])];
      mapped := mapped + 1;
    }

    /** The tags of a Datadog agent. */
    method AddTags(tags: seq<(string, string)>)
      modifies `attrs
      ensures attrs == StoredAll(isSecret, old(attrs), TagSettings(tags))
    {
      for i := 0 to |tags|
        invariant attrs == StoredAll(isSecret, old(attrs), TagSettings(tags[..i]))
      {
        var setting := TagSetting(tags[i]);
        TagStep(tags, i);
        StoredMore(isSecret, old(attrs), TagSettings(tags[..i]), [setting]);
        AddResourceAttr(setting.0, setting.1);
      }
      assert tags[..|tags|] == tags;
    }

    /** The file logs of a Datadog agent. */
    method AddLogs(logs: seq<LogItem>)
      requires Started(Value()) && pipelines == map[]
      modifies `receivers, `pipelines, `mapped, `attrs
      ensures Started(Value()) && LogsAre(pipelines, DatadogLogs(logs)) && pipelines.Keys <= {"logs"}
      ensures attrs == StoredAll(isSecret, old(attrs), LogSettings(logs))
    {
      for i := 0 to |logs|
        invariant Started(Value()) && LogsAre(pipelines, DatadogLogs(logs[..i])) && pipelines.Keys <= {"logs"}
        invariant attrs == StoredAll(isSecret, old(attrs), LogSettings(logs[..i]))
      {
        LogStep(logs, i);
        StoredMore(isSecret, old(attrs), LogSettings(logs[..i]), ItemSettings(logs[i]));
        ghost var before := pipelines;
        var name := "filelog/datadog_logs_" + Decimal(i);
        ConvertLog(logs[i], name);
        LogsGrow(before, pipelines, DatadogLogs(logs[..i]), if IsLog(logs[i]) then Some(name) else None);
      }
      assert logs[..|logs|] == logs;
    }

    /** The body of the loop over the log items. */
    method ConvertLog(item: LogItem, name: string)
      requires Started(Value())
      modifies `receivers, `pipelines, `mapped, `attrs
      ensures Started(Value())
      ensures attrs == if IsLog(item) then StoredAll(isSecret, old(attrs), ItemSettings(item)) else old(attrs)
      ensures LogsGrew(old(pipelines), pipelines, if IsLog(item) then Some(name) else None)
    {
      if item.isFile && item.path != "" {
        AddLogReceiver(name);
        AddLogAttrs(item);
      }
    }

    method AddLogAttrs(item: LogItem)
      modifies `attrs
      ensures attrs == StoredAll(isSecret, old(attrs), ItemSettings(item))
    {
      ghost var service, source := ("service.name", item.service), ("otel-magnify.vendor.source", item.source);
      StoredOne(isSecret, attrs, service.0, service.1);
      if item.service != "" {
        AddResourceAttr("service.name", item.service);
      }
      StoredOne(isSecret, attrs, source.0, source.1);
      StoredMore(isSecret, old(attrs), [service], [source]);
      if item.source != "" {
        AddResourceAttr("otel-magnify.vendor.source", item.source);
      }
      assert [service] + [source] == ItemSettings(item);
    }

    method ConvertDatadog(s: Source)
      requires s.Datadog? && Started(Value()) && pipelines == map[]
      modifies this
      ensures Started(Value()) && LogsAre(pipelines, DatadogLogs(s.logs))
      ensures "traces" in pipelines <==> s.apm
      ensures "metrics" in pipelines <==> s.port.Some?
      ensures s.apm ==> pipelines["traces"].receivers == ["otlp"]
      ensures s.port.Some? ==> pipelines["metrics"].receivers == ["statsd"]
      ensures pipelines.Keys <= {"logs", "traces", "metrics"}
      ensures attrs == StoredAll(isSecret, old(attrs), DatadogSettings(s.env, s.tags, s.logs))
      ensures exporters == old(exporters)
    {
      ghost var env := [("deployment.environment", s.env)];
      StoredOne(isSecret, attrs, "deployment.environment", s.env);
      if s.env != "" {
        AddResourceAttr("deployment.environment", s.env);
      }
      AddTags(s.tags);
      AddLogs(s.logs);
      StoredMore(isSecret, old(attrs), env, TagSettings(s.tags));
      StoredMore(isSecret, old(attrs), env + TagSettings(s.tags), LogSettings(s.logs));
      if s.apm {
        AddPipeline(OTLP, "traces");
      }
      if s.port.Some? {
        AddPipeline("statsd", "metrics");
      }
    }

    /** The static keys of one filter, in any order. */
    method AddFilterKeys(s: Section)
      modifies `attrs
      ensures SectionStores(isSecret, old(attrs), s, s.keys.Keys, attrs)
    {
      NoKeysStoreNothing(isSecret, attrs, s);
      var keys := s.keys.Keys;
      ghost var done: set<string> := {};
      while keys != {}
        invariant keys + done == s.keys.Keys
        invariant SectionStores(isSecret, old(attrs), s, done, attrs)
        decreases keys
      {
        var key :| key in keys;
        keys := keys - {key};
        ghost var mid := attrs;
        var values := s.keys[key];
        if key != "name" && key != "match" && values != [] {
          AddResourceAttr(FluentKey(key), values[|values| - 1]);
        }
        KeyStores(isSecret, old(attrs), s, done, mid, key, attrs);
        done := done + {key};
      }
      assert done == s.keys.Keys;
    }

    /** The body of the loop over the sections. */
    method ConvertSection(s: Section, inputIndex: nat) returns (next: nat)
      requires Started(Value())
      modifies this
      ensures Started(Value()) && next == inputIndex + (if IsTail(s) then 1 else 0) && exporters == old(exporters)
      ensures SectionStores(isSecret, old(attrs), s, FilterKeys(s), attrs)
      ensures LogsGrew(old(pipelines), pipelines,
                       if IsTail(s) then Some("filelog/fluentbit_tail_" + Decimal(inputIndex)) else None)
    {
      next := inputIndex;
      NoKeysStoreNothing(isSecret, attrs, s);
      if Lower(s.name) == "input" {
        if Lower(LastOf(s, "Name")) == "tail" && LastOf(s, "Path") != "" {
          AddLogReceiver("filelog/fluentbit_tail_" + Decimal(inputIndex));
          next := next + 1;
        }
      } else if Lower(s.name) == "filter" {
        if Lower(LastOf(s, "Name")) == "modify" || Lower(LastOf(s, "Name")) == "record_modifier" {
          AddFilterKeys(s);
        }
      }
    }

    method ConvertFluentBit(sections: seq<Section>)
      requires Started(Value()) && pipelines == map[]
      modifies this
      ensures Started(Value()) && pipelines.Keys <= {"logs"}
      ensures LogsAre(pipelines, Numbered("filelog/fluentbit_tail_", Matching(sections, false)))
      ensures FluentStores(isSecret, old(attrs), sections, attrs) && exporters == old(exporters)
    {
      var inputIndex: nat := 0;
      for i := 0 to |sections|
        invariant Started(Value()) && pipelines.Keys <= {"logs"} && inputIndex == Matching(sections[..i], false)
        invariant LogsAre(pipelines, Numbered("filelog/fluentbit_tail_", inputIndex))
        invariant FluentStores(isSecret, old(attrs), sections[..i], attrs) && exporters == old(exporters)
      {
        ghost var mid, before, n := attrs, pipelines, inputIndex;
        inputIndex := ConvertSection(sections[i], inputIndex);
        NumberedGrow(before, pipelines, "filelog/fluentbit_tail_", n, IsTail(sections[i]));
        SectionStep(isSecret, old(attrs), sections, i, mid, attrs);
      }
      assert sections[..|sections|] == sections;
    }

    /** A HEC output becomes the exporter of every pipeline there is, and of every later one. */
    method SwitchToHec(endpoint: string)
      requires Started(Value())
      modifies `exporters, `pipelines
      ensures Started(Value()) && exporters == map[HEC := endpoint]
      ensures pipelines.Keys == old(pipelines).Keys
      ensures forall n | n in pipelines :: pipelines[n] == old(pipelines)[n].(exporters := [HEC])
    {
      exporters := exporters[HEC := endpoint];
      var names := pipelines.Keys;
      while names != {}
        invariant names <= pipelines.Keys == old(pipelines).Keys
        invariant exporters == map[HEC := endpoint]
        invariant forall n | n in pipelines ::
                    pipelines[n] == if n in names then old(pipelines)[n] else old(pipelines)[n].(exporters := [HEC])
        decreases names
      {
        var name :| name in names;
        names := names - {name};
        pipelines := pipelines[name := pipelines[name].(exporters := [HEC])];
      }
      forall n | n in pipelines ensures PipelineStarted(receivers, exporters, pipelines[n]) {
        assert PipelineStarted(old(receivers), old(exporters), old(pipelines)[n]);
      }
    }

    method AddMonitorAttrs(s: Section)
      modifies `attrs
      ensures attrs == StoredAll(isSecret, old(attrs), MonitorSettings(s))
    {
      var all := MonitorSettings(s);
      AddResourceAttr("splunk.sourcetype", LastOf(s, "sourcetype"));
      StoredMore(isSecret, old(attrs), [all[0]], [all[1]]);
      AddResourceAttr("splunk.index", LastOf(s, "index"));
      StoredMore(isSecret, old(attrs), [all[0]] + [all[1]], [all[2]]);
      AddResourceAttr("host.name", LastOf(s, "host"));
      assert [all[0]] + [all[1]] + [all[2]] == all;
    }

    /** The body of the loop over the stanzas. */
    method ConvertStanza(s: Section, monitorIndex: nat) returns (next: nat)
      requires Started(Value())
      modifies this
      ensures Started(Value()) && StanzaDone(isSecret, cleanEndpoint, s, old(Value()), monitorIndex, Value(), next)
    {
      next := monitorIndex;
      var header := Lower(s.header);
      if "monitor://" <= header {
        if LastOf(s, "disabled") != "1" {
          AddLogReceiver("filelog/splunk_monitor_" + Decimal(monitorIndex));
          next := next + 1;
          AddMonitorAttrs(s);
        }
      } else if Contains(header, "httpout") || Contains(header, "hec") {
        if LastOf(s, "uri") != "" {
          SwitchToHec(cleanEndpoint(LastOf(s, "uri")));
        }
      }
    }

    method ConvertSplunk(sections: seq<Section>)
      requires Started(Value()) && pipelines == map[]
      modifies this
      ensures Started(Value()) && pipelines.Keys <= {"logs"}
      ensures LogsAre(pipelines, Numbered("filelog/splunk_monitor_", Matching(sections, true)))
      ensures exporters == HecExporters(cleanEndpoint, old(exporters), sections)
      ensures attrs == StoredAll(isSecret, old(attrs), SplunkSettings(sections))
    {
      ghost var first := Value();
      var monitorIndex: nat := 0;
      for i := 0 to |sections|
        invariant Started(Value()) && SplunkDone(isSecret, cleanEndpoint, first, sections[..i], Value(), monitorIndex)
      {
        ghost var before, n := Value(), monitorIndex;
        monitorIndex := ConvertStanza(sections[i], monitorIndex);
        SplunkStep(isSecret, cleanEndpoint, first, sections, i, before, n, Value(), monitorIndex);
      }
      assert sections[..|sections|] == sections;
    }

    method ConvertNewRelic(s: Source)
      requires s.NewRelic? && Started(Value()) && pipelines == map[]
      modifies this
      ensures Started(Value()) && LogsAre(pipelines, if s.logFile == "" then [] else ["filelog/newrelic_log_0"])
      ensures "metrics" in pipelines <==> s.metrics
      ensures s.metrics ==> pipelines["metrics"].receivers == ["hostmetrics"]
      ensures pipelines.Keys <= {"logs", "metrics"}
      ensures attrs == StoredAll(isSecret, old(attrs), [("host.name", s.displayName)])
                       + StorableOf(isSecret, s.attributes)
      ensures exporters == old(exporters)
    {
      StoredOne(isSecret, attrs, "host.name", s.displayName);
      if s.displayName != "" {
        AddResourceAttr("host.name", s.displayName);
      }
      AddAttributes(s.attributes);
      if s.logFile != "" {
        AddLogReceiver("filelog/newrelic_log_0");
      }
      if s.metrics {
        AddPipeline("hostmetrics", "metrics");
      }
    }

    /** The loops over the labels of a request and over the custom attributes of a New Relic agent. */
    method AddAttributes(values: map<string, string>)
      modifies `attrs
      ensures attrs == old(attrs) + StorableOf(isSecret, values)
    {
      var keys := values.Keys;
      while keys != {}
        invariant keys <= values.Keys
        invariant forall k :: StoredUnless(isSecret, old(attrs), values, keys, attrs, k)
        decreases keys
      {
        var key :| key in keys;
        ghost var before := attrs;
        AddResourceAttr(key, values[key]);
        forall k ensures StoredUnless(isSecret, old(attrs), values, keys - {key}, attrs, k) {
          assert StoredUnless(isSecret, old(attrs), values, keys, before, k);
        }
        keys := keys - {key};
      }
      forall k ensures (k in attrs <==> k in old(attrs) + StorableOf(isSecret, values))
                       && (k in attrs ==> attrs[k] == (old(attrs) + StorableOf(isSecret, values))[k])
      {
        assert StoredUnless(isSecret, old(attrs), values, {}, attrs, k);
      }
    }

    /** The processors of a pipeline; using them defines them. */
    method ProcessorList() returns (ps: seq<string>)
      modifies `processors
      ensures ps == if attrs == map[] then ["batch"] else ["resource", "batch"]
      ensures processors == old(processors) + {"batch"} + (if attrs == map[] then {} else {"resource"})
    {
      processors := processors + {"batch"};
      if attrs != map[] {
        processors := processors + {"resource"};
        return ["resource", "batch"];
      }
      return ["batch"];
    }

    method EnsureDefaults(endpoint: string)
      requires Started(Value())
      modifies this
      ensures Complete(Value())
      ensures attrs == old(attrs) && old(receivers) <= receivers
      ensures pipelines.Keys == if old(pipelines) == map[] then {"traces"} else old(pipelines).Keys
      ensures old(pipelines) == map[] ==> pipelines["traces"].receivers == ["otlp"]
      ensures exporters == if old(exporters) == map[] then map[OTLP := endpoint] else old(exporters)
      ensures forall n | n in old(pipelines) :: pipelines[n].receivers == old(pipelines)[n].receivers
    {
      processors := processors + {"batch"};
      if exporters == map[] {
        exporters := exporters[OTLP := endpoint];
      } else {
        ghost var key :| key in exporters;
        assert key == HEC;
      }
      assert DefaultExporter(exporters) in exporters;
      if pipelines == map[] {
        receivers := receivers + {OTLP};
        var ps := ProcessorList();
        pipelines := pipelines["traces" := Pipeline([OTLP], ps, [DefaultExporter(exporters)])];
        assert "traces" in pipelines.Keys;
      } else {
        ghost var name :| name in pipelines;
        assert name in pipelines.Keys;
      }
      Reprocess();
    }

    /** The loop that gives every pipeline the final processors. */
    method Reprocess()
      requires pipelines.Keys != {} && DefaultExporter(exporters) in exporters
      requires "batch" in processors && processors <= {"resource", "batch"}
      requires forall n | n in pipelines ::
               Within(pipelines[n].receivers, receivers) && pipelines[n].exporters == [DefaultExporter(exporters)]
      modifies `pipelines, `processors
      ensures Complete(Value()) && pipelines.Keys == old(pipelines).Keys
      ensures forall n | n in pipelines :: pipelines[n].receivers == old(pipelines)[n].receivers
    {
      ghost var used := if attrs == map[] then ["batch"] else ["resource", "batch"];
      var names := pipelines.Keys;
      while names != {}
        invariant names <= pipelines.Keys == old(pipelines).Keys
        invariant "batch" in processors && processors <= {"resource", "batch"}
        invariant forall n | n in pipelines ::
                    && pipelines[n].receivers == old(pipelines)[n].receivers
                    && pipelines[n].exporters == old(pipelines)[n].exporters
                    && (n !in names ==> pipelines[n].processors == used && Within(used, processors))
        decreases names
      {
        var name :| name in names;
        names := names - {name};
        var ps := ProcessorList();
        var p := pipelines[name].(processors := ps);
        if p.exporters == [] {
          p := p.(exporters := [DefaultExporter(exporters)]);
        }
        pipelines := pipelines[name := p];
      }
      ghost var some :| some in pipelines;
      FinishedIsComplete(Value(), some, used);
    }

    /** Preview up to rendering: any source, parsed or not, ends in a complete draft. */
    method Preview(source: Source, labels: map<string, string>, endpoint: string)
      requires Value() == Draft({}, {}, map[], map[], map[])
      modifies this
      ensures Complete(Value()) && V.StructureOk(Rendered(Value()))
      ensures exporters == var hec := if source.Splunk? then HecExporters(cleanEndpoint, map[], source.sections)
                                      else map[];
                           if hec == map[] then map[OTLP := endpoint] else hec
      ensures LogsAre(pipelines, LogNames(source))
      ensures source.FluentBit? || attrs == AttrsOf(isSecret, StorableOf(isSecret, labels), source)
      ensures source.FluentBit? ==> FluentStores(isSecret, StorableOf(isSecret, labels), source.sections, attrs)
    {
      AddAttributes(labels);
      assert map[] + StorableOf(isSecret, labels) == StorableOf(isSecret, labels);
      match source {
        case Unparsed =>
        case Datadog(_, _, _, _, _) => ConvertDatadog(source);
        case FluentBit(sections) => ConvertFluentBit(sections);
        case Splunk(sections) => ConvertSplunk(sections);
        case NewRelic(_, _, _, _) => ConvertNewRelic(source);
      }
      EnsureDefaults(endpoint);
      CompleteDraftIsValid(Value());
    }
  }

  /** A complete draft passes the validator's structure check. */
  lemma CompleteDraftIsValid(d: Draft)
    requires Complete(d)
    ensures V.StructureOk(Rendered(d))
  {
    var c := Rendered(d);
    var pipelines := c.service.value.pipelines.value;
    var some :| some in d.pipelines.Keys;
    assert some in pipelines;
    forall n | n in pipelines ensures V.PipelineOk(c, pipelines[n]) {
      var p := d.pipelines[n];
      assert PipelineComplete(d, p);
      forall i | 0 <= i < |p.processors| ensures p.processors[i] in c.processors {
        assert p.processors[i] in d.processors;
      }
    }
  }
}
