/**
 The semantic difference of two collector configurations: which components,
 pipelines and endpoints were added, removed or modified, how risky that is,
 and the counters and overall risk that summarise it.  Parsed configurations
 are the input.  Three things the engine calls are parameters (`Env`): the
 JSON text of a value that has one, the redaction of a value and the endpoints
 of a configuration.  Lists that the program fills in sorted order
 are filled in any order here.
 */
module ConfigDiff {
  import opened Basics
  import opened Text
  import T = TreeDiff

  // ----- risk -----

  datatype Risk = NoRisk | Low | Medium | High

  function Rank(r: Risk): nat {
    match r
    case NoRisk => 0 case Low => 1 case Medium => 2 case High => 3
  }

  function MaxRisk(a: Risk, b: Risk): Risk {
    if Rank(b) > Rank(a) then b else a
  }

  // ----- configurations -----

  datatype Category = Receivers | Processors | Exporters | Connectors | Extensions

  const CATEGORIES := {Receivers, Processors, Exporters, Connectors, Extensions}

  datatype Shape = Shape(receivers: seq<string>, processors: seq<string>, exporters: seq<string>)

  datatype Endpoint = Endpoint(cat: Category, typ: string, scheme: string, host: string, port: int, normalized: string)

  datatype Graph = Graph(components: map<Category, map<string, T.Value>>, pipelines: map<string, Shape>)

  function Of(g: Graph, cat: Category): map<string, T.Value> {
    if cat in g.components then g.components[cat] else map[]
  }

  /** A changed field: the keys that lead to it, their joined text, and the redacted values. */
  datatype Field = Field(keys: T.Path, path: string, before: T.Value, after: T.Value)

  datatype Env = Env(json: T.Value -> string, number: T.Value -> string, redact: (T.Value, string) -> T.Value,
                     endpointsOf: Graph -> map<string, Endpoint>)

  /** Equal but for numbers that are written the same, such as the integer and the float of one value. */
  predicate Alike(env: Env, b: T.Value, t: T.Value) {
    match (b, t)
    case (List(xs), List(ys)) => |xs| == |ys| && forall i | 0 <= i < |xs| :: Alike(env, xs[i], ys[i])
    case (Map(m), Map(n)) => m.Keys == n.Keys && forall k | k in m :: k in n && Alike(env, m[k], n[k])
    case _ => b == t || ((b.Int? || b.Float?) && (t.Int? || t.Float?) && env.number(b) == env.number(t))
  }

  /** JSON texts are never empty, and equal exactly for trees that are alike. */
  ghost predicate JsonOk(env: Env) {
    && (forall v :: env.json(v) != "")
    && (forall v, w | T.Marshals(v) && T.Marshals(w) :: env.json(v) == env.json(w) <==> Alike(env, v, w))
  }

  ghost predicate NumbersDiffer(env: Env) {
    forall v: T.Value, w: T.Value | (v.Int? || v.Float?) && (w.Int? || w.Float?) && env.number(v) == env.number(w) ::
      v == w
  }

  /** Where different numbers are written differently only equal trees are alike. */
  lemma {:induction false} AlikeIsEqual(env: Env, b: T.Value, t: T.Value)
    requires NumbersDiffer(env)
    ensures Alike(env, b, t) <==> b == t
  {
    match b {
      case List(xs) =>
        if t.List? && |xs| == |t.items| {
          forall i | 0 <= i < |xs| ensures Alike(env, xs[i], t.items[i]) <==> xs[i] == t.items[i] {
            AlikeIsEqual(env, xs[i], t.items[i]);
          }
        }
      case Map(m) =>
        if t.Map? && m.Keys == t.entries.Keys {
          forall k | k in m ensures Alike(env, m[k], t.entries[k]) <==> m[k] == t.entries[k] {
            AlikeIsEqual(env, m[k], t.entries[k]);
          }
        }
      case _ =>
    }
  }

  /** canonical: the JSON text, or nothing when there is none. */
  function Canon(env: Env, v: T.Value): string {
    if T.Marshals(v) then env.json(v) else ""
  }

  function Joined(prefix: string, p: T.Path): string
    decreases |p|
  {
    if p == [] then prefix else Joined(prefix + "." + p[0], p[1..])
  }

  function FieldAt(env: Env, prefix: string, b: T.Value, t: T.Value, p: T.Path): Field {
    var path := Joined(prefix, p);
    Field(p, path, env.redact(T.At(b, p), path), env.redact(T.At(t, p), path))
  }

  /** The changed fields of a component: one for every path that the walk over both trees reports. */
  function FieldsOf(env: Env, prefix: string, b: T.Value, t: T.Value): set<Field> {
    FieldsAt(env, prefix, b, t, T.Paths(b, t))
  }

  function FieldOf(env: Env, prefix: string, c: T.Change): Field {
    var path := Joined(prefix, c.path);
    Field(c.path, path, env.redact(c.before, path), env.redact(c.after, path))
  }

  function ChangeAt(b: T.Value, t: T.Value, p: T.Path): T.Change {
    T.Change(p, T.At(b, p), T.At(t, p))
  }

  function FieldsAt(env: Env, prefix: string, b: T.Value, t: T.Value, paths: set<T.Path>): set<Field> {
    set p | p in paths :: FieldAt(env, prefix, b, t, p)
  }

  lemma OneMorePath(env: Env, prefix: string, b: T.Value, t: T.Value, paths: set<T.Path>, p: T.Path)
    ensures FieldsAt(env, prefix, b, t, paths + {p}) ==
            FieldsAt(env, prefix, b, t, paths) + {FieldAt(env, prefix, b, t, p)}
  {
  }

  lemma ChangeIsAtPath(b: T.Value, t: T.Value, changes: seq<T.Change>, c: T.Change)
    requires T.Lists(changes, b, t) && c in changes
    ensures c.path in T.Paths(b, t) && c == ChangeAt(b, t, c.path)
  {
    assert T.InDiff([], b, t, c) && c.path[0..] == c.path;
    T.PathsAreReported(c.path, b, t);
  }

  lemma PathHasChange(b: T.Value, t: T.Value, changes: seq<T.Change>, p: T.Path)
    requires T.Lists(changes, b, t) && p in T.Paths(b, t)
    ensures ChangeAt(b, t, p) in changes
  {
    T.PathsAreReported(p, b, t);
    assert p[0..] == p;
    assert T.InDiff([], b, t, ChangeAt(b, t, p));
  }

  ghost function PathsOf(changes: seq<T.Change>): set<T.Path> {
    set i | 0 <= i < |changes| :: changes[i].path
  }

  lemma PathsAreTaken(b: T.Value, t: T.Value, changes: seq<T.Change>)
    requires T.Lists(changes, b, t)
    ensures PathsOf(changes) == T.Paths(b, t)
    ensures forall i | 0 <= i < |changes| :: changes[i] == ChangeAt(b, t, changes[i].path)
  {
    forall i | 0 <= i < |changes|
      ensures changes[i].path in T.Paths(b, t) && changes[i] == ChangeAt(b, t, changes[i].path)
    {
      ChangeIsAtPath(b, t, changes, changes[i]);
    }
    forall p | p in T.Paths(b, t) ensures p in PathsOf(changes) {
      PathHasChange(b, t, changes, p);
      var i :| 0 <= i < |changes| && changes[i] == ChangeAt(b, t, p);
      assert changes[i].path == p;
    }
  }

  /** Every change, redacted. */
  method Redacted(env: Env, prefix: string, b: T.Value, t: T.Value, changes: seq<T.Change>) returns (fields: set<Field>)
    requires forall i | 0 <= i < |changes| :: changes[i] == ChangeAt(b, t, changes[i].path)
    ensures fields == FieldsAt(env, prefix, b, t, PathsOf(changes))
  {
    fields := {};
    for i := 0 to |changes|
      invariant fields == FieldsAt(env, prefix, b, t, PathsOf(changes[..i]))
    {
      assert PathsOf(changes[..i + 1]) == PathsOf(changes[..i]) + {changes[i].path} by {
        assert changes[..i + 1] == changes[..i] + [changes[i]];
        assert changes[..i + 1][i] == changes[i];
      }
      OneMorePath(env, prefix, b, t, PathsOf(changes[..i]), changes[i].path);
      fields := fields + {FieldOf(env, prefix, changes[i])};
    }
    assert changes[..|changes|] == changes;
  }

  /** changedFields: the walk, with every reported change redacted. */
  method ChangedFields(env: Env, prefix: string, b: T.Value, t: T.Value) returns (fields: set<Field>)
    ensures fields == FieldsOf(env, prefix, b, t)
  {
    var changes := T.WalkDiff([], b, t, []);
    assert changes[0..] == changes;
    PathsAreTaken(b, t, changes);
    fields := Redacted(env, prefix, b, t, changes);
  }

  // ----- names -----

  /** The part of a component id before its first slash. */
  function TypeOf(id: string): string {
    if id == "" || id[0] == '/' then "" else [id[0]] + TypeOf(id[1..])
  }

  predicate IsSampling(id: string) {
    Contains(Lower(id), "sampling") || Contains(Lower(id), "probabilistic_sampler")
  }

  predicate IsSensitive(f: Field) {
    var l := Lower(f.path);
    || Contains(l, "auth") || Contains(l, "bearer_token") || Contains(l, "api_key")
    || Contains(l, "client_secret") || Contains(l, "password") || Contains(l, "token") || Contains(l, "headers")
  }

  predicate IsWeakened(f: Field) {
    var l := Lower(f.path);
    && (HasSuffix(l, ".insecure") || HasSuffix(l, ".insecure_skip_verify") || Contains(l, "tls.insecure"))
    && f.after == T.Bool(true) && f.before != T.Bool(true)
  }

  datatype Num = Finite(r: real) | Unbounded | Undefined

  function Number(v: T.Value): Option<Num> {
    match v
    case Int(n) => Some(Finite(n as real))
    case Float(r) => Some(Finite(r))
    case Infinite(_) => Some(Unbounded)
    case NaN => Some(Undefined)
    case _ => None
  }

  /** Dropped to zero, at most halved, at least doubled, or less than everything; a quotient with one infinite
      side is zero or infinite, and one that is undefined compares with nothing. */
  predicate IsStrong(f: Field) {
    var b, t := Number(f.before), Number(f.after);
    && b.Some? && t.Some?
    && if t.value == Finite(0.0) then b.value != Finite(0.0)
       else match (b.value, t.value)
            case (Finite(x), Finite(y)) => x != 0.0 && (y / x <= 0.5 || y / x >= 2.0 || (x == 100.0 && y < 100.0))
            case (Finite(x), Unbounded) => x != 0.0
            case (Unbounded, Finite(_)) => true
            case _ => false
  }

  predicate IsSamplingField(id: string, f: Field) {
    IsSampling(id) && Contains(Lower(f.path), "sampling_percentage")
  }

  // ----- entries -----

  datatype Kind = Added | Removed | Modified

  datatype Key = Component(cat: Category, id: string) | Pipeline(name: string) | EndpointAt(path: string)

  datatype Section = InReceivers | InProcessors | InExporters

  datatype RefChange = RefChange(section: Section, id: string, kind: Kind, risk: Risk, reason: string)

  /** A component, pipeline or endpoint difference; `fields` for a modified component, `refs` for a modified
      pipeline. */
  datatype Entry = Entry(key: Key, kind: Kind, risk: Risk, rules: set<string>, fields: set<Field>, refs: set<RefChange>)

  function RemovedRisk(cat: Category, id: string): Risk {
    if cat == Exporters then High
    else if cat == Processors && (TypeOf(id) == "batch" || TypeOf(id) == "memory_limiter" || IsSampling(id))
    then High
    else Medium
  }

  function RemovedRules(cat: Category, id: string): set<string> {
    (if cat == Exporters then {"exporter_removed"} else {})
    + (if cat == Processors && TypeOf(id) == "batch" then {"batch_processor_removed_from_pipeline"} else {})
    + (if cat == Processors && TypeOf(id) == "memory_limiter" then {"memory_limiter_removed_from_pipeline"} else {})
    + (if cat == Processors && IsSampling(id) then {"sampling_guard_removed"} else {})
  }

  predicate IsHighField(id: string, f: Field) {
    IsSensitive(f) || IsWeakened(f) || (IsSamplingField(id, f) && IsStrong(f))
  }

  /** What the loop over the changed fields amounts to. */
  function ModifiedRisk(id: string, fields: set<Field>): Risk {
    if exists f | f in fields :: IsHighField(id, f) then High
    else if exists f | f in fields :: IsSamplingField(id, f) then Medium
    else Low
  }

  function FieldRisk(id: string, f: Field): Risk {
    if IsHighField(id, f) then High else if IsSamplingField(id, f) then Medium else Low
  }

  lemma OneMoreField(id: string, fields: set<Field>, f: Field)
    ensures ModifiedRisk(id, fields + {f}) == MaxRisk(ModifiedRisk(id, fields), FieldRisk(id, f))
  {
    forall x ensures x in fields + {f} <==> x in fields || x == f {
    }
    assert f in fields + {f};
  }

  method ComputeModifiedRisk(id: string, fields: set<Field>) returns (r: Risk)
    ensures r == ModifiedRisk(id, fields)
  {
    r := Low;
    ghost var done: set<Field> := {};
    var todo := fields;
    while todo != {}
      invariant done + todo == fields && r == ModifiedRisk(id, done)
      decreases todo
    {
      var f :| f in todo;
      OneMoreField(id, done, f);
      if IsSensitive(f) || IsWeakened(f) {
        r := MaxRisk(r, High);
      }
      if IsSamplingField(id, f) {
        r := MaxRisk(r, if IsStrong(f) then High else Medium);
      }
      todo := todo - {f};
      done := done + {f};
    }
    assert done == fields;
  }

  function ModifiedRules(id: string, fields: set<Field>): set<string> {
    (if exists f | f in fields :: IsSensitive(f) then {"auth_header_modified"} else {})
    + (if exists f | f in fields :: IsWeakened(f) then {"transport_security_weakened"} else {})
    + (if exists f | f in fields :: IsSamplingField(id, f) && IsStrong(f)
       then {"sampling_rate_strongly_changed"} else {})
    + (if exists f | f in fields :: IsSamplingField(id, f) && !IsStrong(f) then {"sampling_policy_modified"} else {})
  }

  /** The entry for one component, if it differs. */
  function ComponentEntry(env: Env, base: Graph, target: Graph, cat: Category, id: string): Option<Entry> {
    var b, t := Of(base, cat), Of(target, cat);
    var key := Component(cat, id);
    if id !in b && id !in t then None
    else if id !in b then Some(Entry(key, Added, Low, {}, {}, {}))
    else if id !in t then Some(Entry(key, Removed, RemovedRisk(cat, id), RemovedRules(cat, id), {}, {}))
    else if Canon(env, b[id]) == Canon(env, t[id]) then None
    else
      var fields := FieldsOf(env, PathOf(key), b[id], t[id]);
      Some(Entry(key, Modified, ModifiedRisk(id, fields), ModifiedRules(id, fields), fields, {}))
  }

  function RemovedRef(section: Section, id: string, last: bool): RefChange {
    var batch, limiter, sampling := TypeOf(id) == "batch", TypeOf(id) == "memory_limiter", IsSampling(id);
    match section
    case InReceivers => RefChange(section, id, Removed, Medium, "")
    case InProcessors =>
      RefChange(section, id, Removed, if batch || limiter || sampling then High else Medium,
                if sampling then "sampling_guard_removed"
                else if limiter then "memory_limiter_removed_from_pipeline"
                else if batch then "batch_processor_removed_from_pipeline" else "")
    case InExporters =>
      if last then RefChange(section, id, Removed, High, "pipeline_broken")
      else RefChange(section, id, Removed, Medium, "pipeline_exporter_set_changed")
  }

  function AddedRef(section: Section, id: string): RefChange {
    RefChange(section, id, Added, if section == InReceivers then Medium else Low, "")
  }

  /** refChanges: what entered and what left one section; order and repetition do not count. */
  function RefChanges(section: Section, b: seq<string>, t: seq<string>): set<RefChange> {
    (set id | id in b && id !in t :: RemovedRef(section, id, t == []))
    + (set id | id in t && id !in b :: AddedRef(section, id))
  }

  predicate IsRef(section: Section, b: seq<string>, t: seq<string>, r: RefChange) {
    || (r.id in b && r.id !in t && r == RemovedRef(section, r.id, t == []))
    || (r.id in t && r.id !in b && r == AddedRef(section, r.id))
  }

  lemma RefChangesHas(section: Section, b: seq<string>, t: seq<string>, r: RefChange)
    ensures r in RefChanges(section, b, t) <==> IsRef(section, b, t, r)
  {
  }

  function AllRefChanges(b: Shape, t: Shape): set<RefChange> {
    RefChanges(InReceivers, b.receivers, t.receivers)
    + RefChanges(InProcessors, b.processors, t.processors)
    + RefChanges(InExporters, b.exporters, t.exporters)
  }

  function RefRisk(refs: set<RefChange>): Risk {
    if exists r | r in refs :: r.risk == High then High
    else if exists r | r in refs :: r.risk == Medium then Medium
    else Low
  }

  predicate IsBroken(t: Shape) {
    t.exporters == [] || t.receivers == []
  }

  function PipelineEntry(base: Graph, target: Graph, name: string): Option<Entry> {
    var key := Pipeline(name);
    if name !in base.pipelines && name !in target.pipelines then None
    else if name !in base.pipelines then Some(Entry(key, Added, Low, {}, {}, {}))
    else if name !in target.pipelines then Some(Entry(key, Removed, High, {"pipeline_removed"}, {}, {}))
    else
      var b, t := base.pipelines[name], target.pipelines[name];
      var refs := AllRefChanges(b, t);
      if refs == {} then None
      else
        Some(Entry(key, Modified, if IsBroken(t) then High else RefRisk(refs),
                   (set r | r in refs && r.reason != "" :: r.reason)
                   + (if IsBroken(t) then {"pipeline_broken"} else {}),
                   {}, refs))
  }

  predicate IsOtlp(typ: string) {
    "otlp" <= typ
  }

  predicate Rerouted(e: Endpoint, b: Endpoint, t: Endpoint) {
    IsOtlp(e.typ) && e.cat == Exporters && (b.host != t.host || b.port != t.port || b.scheme != t.scheme)
  }

  function EndpointRisk(b: Endpoint, t: Endpoint): Risk {
    if Rerouted(b, b, t) then High
    else if b.cat == Receivers then Medium
    else if b.scheme == "https" && t.scheme == "http" then High
    else Medium
  }

  function EndpointRules(b: Endpoint, t: Endpoint): set<string> {
    (if Rerouted(b, b, t) then {"otlp_endpoint_changed"} else {})
    + (if b.cat == Receivers then {"receiver_endpoint_exposure_changed"} else {})
    + (if b.scheme == "https" && t.scheme == "http" then {"transport_security_weakened"} else {})
  }

  function EndpointEntry(bs: map<string, Endpoint>, ts: map<string, Endpoint>, path: string): Option<Entry> {
    var key := EndpointAt(path);
    if path !in bs && path !in ts then None
    else if path !in bs then Some(Entry(key, Added, Low, {}, {}, {}))
    else if path !in ts then Some(Entry(key, Removed, Medium, {}, {}, {}))
    else if bs[path].normalized == ts[path].normalized then None
    else Some(Entry(key, Modified, EndpointRisk(bs[path], ts[path]), EndpointRules(bs[path], ts[path]), {}, {}))
  }

  function EntryAt(env: Env, base: Graph, target: Graph, key: Key): Option<Entry> {
    match key
    case Component(cat, id) => ComponentEntry(env, base, target, cat, id)
    case Pipeline(name) => PipelineEntry(base, target, name)
    case EndpointAt(path) => EndpointEntry(env.endpointsOf(base), env.endpointsOf(target), path)
  }

  function ComponentKeys(g: Graph): set<Key> {
    set cat, id | cat in CATEGORIES && id in Of(g, cat) :: Component(cat, id)
  }

  function PipelineKeys(g: Graph): set<Key> {
    set name | name in g.pipelines :: Pipeline(name)
  }

  function EndpointKeys(env: Env, g: Graph): set<Key> {
    set path | path in env.endpointsOf(g) :: EndpointAt(path)
  }

  /** `es` holds the entry of every key of `keys` that differs, once, and nothing else. */
  ghost predicate Listing(env: Env, base: Graph, target: Graph, keys: set<Key>, es: seq<Entry>) {
    && (forall i | 0 <= i < |es| :: es[i].key in keys && EntryAt(env, base, target, es[i].key) == Some(es[i]))
    && (forall k | k in keys && EntryAt(env, base, target, k).Some? :: EntryAt(env, base, target, k).value in es)
    && (forall i, j | 0 <= i < j < |es| :: es[i].key != es[j].key)
  }

  lemma EntryKey(env: Env, base: Graph, target: Graph, key: Key)
    ensures EntryAt(env, base, target, key).Some? ==> EntryAt(env, base, target, key).value.key == key
  {
  }

  /** A listing grows with the entry of one more key. */
  lemma ListingMore(env: Env, base: Graph, target: Graph, keys: set<Key>, es: seq<Entry>, k: Key, more: seq<Entry>)
    requires Listing(env, base, target, keys, es) && k !in keys
    requires more == match EntryAt(env, base, target, k) case Some(e) => [e] case None => []
    ensures Listing(env, base, target, keys + {k}, es + more)
  {
    EntryKey(env, base, target, k);
    var all := es + more;
    forall q | q in keys + {k} && EntryAt(env, base, target, q).Some?
      ensures EntryAt(env, base, target, q).value in all
    {
      if q == k {
        assert all[|es|] == EntryAt(env, base, target, k).value;
      } else {
        assert EntryAt(env, base, target, q).value in es;
      }
    }
  }

  ghost function Named(cat: Category, ids: set<string>): set<Key> {
    set id | id in ids :: Component(cat, id)
  }

  lemma {:induction false} NamedSize(cat: Category, ids: set<string>)
    ensures |Named(cat, ids)| == |ids|
  {
    if ids == {} {
    } else {
      var id :| id in ids;
      NamedSize(cat, ids - {id});
      assert Named(cat, ids) == Named(cat, ids - {id}) + {Component(cat, id)};
    }
  }

  /** countComponents: the number of components is the number of component keys. */
  method CountComponents(g: Graph) returns (n: nat)
    ensures n == |ComponentKeys(g)|
  {
    n := 0;
    ghost var done: set<Key> := {};
    var cats := CATEGORIES;
    while cats != {}
      invariant cats <= CATEGORIES && n == |done|
      invariant forall k :: k in done <==> k.Component? && k.cat in CATEGORIES && k.cat !in cats && k.id in Of(g, k.cat)
      decreases cats
    {
      var cat :| cat in cats;
      cats := cats - {cat};
      n := n + |Of(g, cat)|;
      NamedSize(cat, Of(g, cat).Keys);
      assert done !! Named(cat, Of(g, cat).Keys);
      done := done + Named(cat, Of(g, cat).Keys);
    }
    assert done == ComponentKeys(g);
  }

  // ----- the engine -----

  datatype RiskItem = RiskItem(id: string, risk: Risk)

  /** The seen ids are those of the items, and no two items have the same. */
  ghost predicate OneEach(seen: set<string>, items: seq<RiskItem>) {
    && (forall i | 0 <= i < |items| :: items[i].id in seen)
    && (forall id | id in seen :: exists i :: 0 <= i < |items| && items[i].id == id)
    && (forall i, j | 0 <= i < j < |items| :: items[i].id != items[j].id)
  }

  lemma OneMoreItem(seen: set<string>, items: seq<RiskItem>, item: RiskItem)
    requires OneEach(seen, items) && item.id !in seen
    ensures OneEach(seen + {item.id}, items + [item])
  {
    var all := items + [item];
    forall id | id in seen + {item.id} ensures exists i :: 0 <= i < |all| && all[i].id == id {
      if id == item.id {
        assert all[|items|].id == id;
      } else {
        var i :| 0 <= i < |items| && items[i].id == id;
        assert all[i].id == id;
      }
    }
  }

  datatype Exposure = Sensitive | Weakened

  datatype Security = Security(component: Key, field: Field, what: Exposure)

  predicate Exposes(f: Field, what: Exposure) {
    match what
    case Sensitive => IsSensitive(f)
    case Weakened => IsWeakened(f)
  }

  /** One of the entries has the field, and the field is exposed that way. */
  ghost predicate ExposedBy(es: seq<Entry>, s: Security) {
    exists e :: e in es && e.key == s.component && s.field in e.fields && Exposes(s.field, s.what)
  }

  /** The security entries are those of the exposed fields, each once. */
  ghost predicate Guards(security: seq<Security>, es: seq<Entry>) {
    && (forall s :: s in security <==> ExposedBy(es, s))
    && (forall i, j | 0 <= i < j < |security| :: security[i] != security[j])
  }

  /** The security entries of one field. */
  function ExposureOf(key: Key, f: Field): seq<Security> {
    (if IsSensitive(f) then [Security(key, f, Sensitive)] else [])
    + (if IsWeakened(f) then [Security(key, f, Weakened)] else [])
  }

  lemma GuardsNothing(security: seq<Security>, es: seq<Entry>, e: Entry)
    requires Guards(security, es)
    ensures Guards(security, es + [e.(fields := {})])
  {
    var more := es + [e.(fields := {})];
    forall s ensures ExposedBy(more, s) <==> ExposedBy(es, s) {
      assert forall x :: x in more <==> x in es || x == e.(fields := {});
    }
  }

  /** One more field of the entry: its security entries are new. */
  lemma GuardsMore(security: seq<Security>, es: seq<Entry>, e: Entry, done: set<Field>, f: Field)
    requires Guards(security, es + [e.(fields := done)]) && f !in done && forall x | x in es :: x.key != e.key
    ensures Guards(security + ExposureOf(e.key, f), es + [e.(fields := done + {f})])
  {
    var was, now := e.(fields := done), e.(fields := done + {f});
    var all := security + ExposureOf(e.key, f);
    forall s ensures s in all <==> ExposedBy(es + [now], s) {
      assert forall x :: x in es + [was] <==> x in es || x == was;
      assert forall x :: x in es + [now] <==> x in es || x == now;
      assert s in security <==> ExposedBy(es + [was], s);
      ExposureHas(e.key, f, s);
    }
    forall i, j | 0 <= i < j < |all| ensures all[i] != all[j] {
      if i < |security| <= j {
        assert security[i] in security && ExposedBy(es + [was], security[i]);
        ExposureHas(e.key, f, security[i]);
        assert all[j] in ExposureOf(e.key, f);
      }
    }
  }

  lemma ExposureHas(key: Key, f: Field, s: Security)
    ensures s in ExposureOf(key, f) <==> s.component == key && s.field == f && Exposes(f, s.what)
  {
    var a, b := Security(key, f, Sensitive), Security(key, f, Weakened);
    assert s in [a] <==> s == a;
    assert s in [b] <==> s == b;
    match s.what
    case Sensitive =>
    case Weakened =>
  }

  datatype Counts = Counts(added: nat, removed: nat, modified: nat)

  datatype Levels = Levels(high: nat, medium: nat, low: nat)

  function NameOf(cat: Category): string {
    match cat
    case Receivers => "receivers" case Processors => "processors" case Exporters => "exporters"
    case Connectors => "connectors" case Extensions => "extensions"
  }

  function PathOf(key: Key): string {
    match key
    case Component(cat, id) => NameOf(cat) + "." + id
    case Pipeline(name) => name
    case EndpointAt(path) => path
  }

  /** Every risk item is at most as severe as some entry. */
  ghost predicate Bounded(items: seq<RiskItem>, es: seq<Entry>) {
    forall i | 0 <= i < |items| :: exists e :: e in es && Rank(items[i].risk) <= Rank(e.risk)
  }

  lemma BoundedMore(items: seq<RiskItem>, es: seq<Entry>, more: seq<RiskItem>, e: Entry)
    requires Bounded(items, es) && forall i | 0 <= i < |more| :: Rank(more[i].risk) <= Rank(e.risk)
    ensures Bounded(items + more, es + [e])
  {
    forall i | 0 <= i < |items + more|
      ensures exists x :: x in es + [e] && Rank((items + more)[i].risk) <= Rank(x.risk)
    {
      if i < |items| {
        var x :| x in es && Rank(items[i].risk) <= Rank(x.risk);
        assert x in es + [e];
      } else {
        assert e in es + [e];
      }
    }
  }

  /** The entry is at least as severe as every item it raises. */
  predicate BoundsItems(target: Graph, name: string, e: Entry) {
    && (e.kind == Removed ==> e.risk == High)
    && (e.kind == Modified ==>
          && name in target.pipelines && (IsBroken(target.pipelines[name]) ==> e.risk == High)
          && forall r | r in e.refs :: Rank(r.risk) <= Rank(e.risk))
  }

  lemma PipelineBounds(base: Graph, target: Graph, name: string, e: Entry)
    requires PipelineEntry(base, target, name) == Some(e)
    ensures BoundsItems(target, name, e)
  {
  }

  // ----- counting -----

  datatype Which = Components | Pipelines | Endpoints

  function WhichOf(k: Key): Which {
    match k
    case Component(_, _) => Components
    case Pipeline(_) => Pipelines
    case EndpointAt(_) => Endpoints
  }

  predicate Counted(e: Entry, w: Which, kind: Kind) {
    WhichOf(e.key) == w && e.kind == kind
  }

  function CountOf(es: seq<Entry>, w: Which, kind: Kind): nat {
    if es == [] then 0
    else CountOf(es[..|es| - 1], w, kind) + (if Counted(es[|es| - 1], w, kind) then 1 else 0)
  }

  function CountRisk(es: seq<Entry>, r: Risk): nat {
    if es == [] then 0
    else CountRisk(es[..|es| - 1], r) + (if es[|es| - 1].risk == r then 1 else 0)
  }

  ghost function CountedKeys(es: seq<Entry>, w: Which, kind: Kind): set<Key> {
    set i | 0 <= i < |es| && Counted(es[i], w, kind) :: es[i].key
  }

  lemma CountedMore(es: seq<Entry>, e: Entry, w: Which, kind: Kind)
    ensures CountedKeys(es + [e], w, kind) ==
            if Counted(e, w, kind) then CountedKeys(es, w, kind) + {e.key} else CountedKeys(es, w, kind)
  {
    var all := es + [e];
    forall k ensures k in CountedKeys(all, w, kind) <==>
                     k in CountedKeys(es, w, kind) || (k == e.key && Counted(e, w, kind))
    {
      if k in CountedKeys(es, w, kind) {
        var i :| 0 <= i < |es| && Counted(es[i], w, kind) && es[i].key == k;
        assert all[i] == es[i];
      }
      if k == e.key && Counted(e, w, kind) {
        assert all[|es|] == e;
      }
    }
  }

  /** Without repeated keys the counter is the number of keys counted. */
  lemma {:induction false} CountIsCardinality(es: seq<Entry>, w: Which, kind: Kind)
    requires forall i, j | 0 <= i < j < |es| :: es[i].key != es[j].key
    ensures CountOf(es, w, kind) == |CountedKeys(es, w, kind)|
  {
    if es == [] {
    } else {
      var init, last := es[..|es| - 1], es[|es| - 1];
      assert es == init + [last];
      CountIsCardinality(init, w, kind);
      CountedMore(init, last, w, kind);
      assert last.key !in CountedKeys(init, w, kind);
    }
  }

  /** The counter of a listing is the number of keys whose entry is of that kind. */
  lemma CountOfListing(env: Env, base: Graph, target: Graph, keys: set<Key>, es: seq<Entry>, w: Which, kind: Kind,
                       ks: set<Key>)
    requires Listing(env, base, target, keys, es)
    requires forall k :: k in ks <==>
               k in keys && EntryAt(env, base, target, k).Some? && Counted(EntryAt(env, base, target, k).value, w, kind)
    ensures CountOf(es, w, kind) == |ks|
  {
    CountIsCardinality(es, w, kind);
    forall k ensures k in CountedKeys(es, w, kind) <==> k in ks {
      EntryKey(env, base, target, k);
      if k in ks {
        var e := EntryAt(env, base, target, k).value;
        var i :| 0 <= i < |es| && es[i] == e;
        assert Counted(es[i], w, kind);
      }
    }
    assert CountedKeys(es, w, kind) == ks;
  }

  lemma DifferenceOfSizes<K>(b: set<K>, t: set<K>)
    ensures |t - b| - |b - t| == |t| - |b|
  {
    assert t == (t - b) + (t * b) && b == (b - t) + (t * b);
  }

  /** All the keys that a comparison looks at. */
  function AllKeys(env: Env, base: Graph, target: Graph): set<Key> {
    (ComponentKeys(base) + ComponentKeys(target)) + (PipelineKeys(base) + PipelineKeys(target))
    + (EndpointKeys(env, base) + EndpointKeys(env, target))
  }

  function KeysOf(env: Env, g: Graph, w: Which): set<Key> {
    match w
    case Components => ComponentKeys(g)
    case Pipelines => PipelineKeys(g)
    case Endpoints => EndpointKeys(env, g)
  }

  /** A key is added when only the target has it, and removed when only the base has it. */
  lemma AddedAndRemoved(env: Env, base: Graph, target: Graph, w: Which, k: Key)
    requires WhichOf(k) == w && k in AllKeys(env, base, target)
    ensures EntryAt(env, base, target, k).Some? && EntryAt(env, base, target, k).value.kind == Added <==>
            k in KeysOf(env, target, w) - KeysOf(env, base, w)
    ensures EntryAt(env, base, target, k).Some? && EntryAt(env, base, target, k).value.kind == Removed <==>
            k in KeysOf(env, base, w) - KeysOf(env, target, w)
  {
  }

  lemma CountedIff(env: Env, base: Graph, target: Graph, w: Which, k: Key)
    ensures var b, t := KeysOf(env, base, w), KeysOf(env, target, w);
            var e := EntryAt(env, base, target, k);
            && (k in t - b <==> k in AllKeys(env, base, target) && e.Some? && Counted(e.value, w, Added))
            && (k in b - t <==> k in AllKeys(env, base, target) && e.Some? && Counted(e.value, w, Removed))
  {
    EntryKey(env, base, target, k);
    if k in AllKeys(env, base, target) && WhichOf(k) == w {
      AddedAndRemoved(env, base, target, w, k);
    }
  }

  /** Added minus removed is what the target has more than the base. */
  lemma CountsBalance(env: Env, base: Graph, target: Graph, es: seq<Entry>, w: Which)
    requires Listing(env, base, target, AllKeys(env, base, target), es)
    ensures CountOf(es, w, Added) - CountOf(es, w, Removed) == |KeysOf(env, target, w)| - |KeysOf(env, base, w)|
  {
    var b, t := KeysOf(env, base, w), KeysOf(env, target, w);
    var keys := AllKeys(env, base, target);
    forall k ensures k in t - b <==>
      k in keys && EntryAt(env, base, target, k).Some? && Counted(EntryAt(env, base, target, k).value, w, Added)
    {
      CountedIff(env, base, target, w, k);
    }
    forall k ensures k in b - t <==>
      k in keys && EntryAt(env, base, target, k).Some? && Counted(EntryAt(env, base, target, k).value, w, Removed)
    {
      CountedIff(env, base, target, w, k);
    }
    CountOfListing(env, base, target, keys, es, w, Added, t - b);
    CountOfListing(env, base, target, keys, es, w, Removed, b - t);
    DifferenceOfSizes(b, t);
  }

  class Engine {
    const env: Env
    const base: Graph
    const target: Graph
    var entries: seq<Entry>          // components, then pipelines, then endpoints
    var security: seq<Security>
    var riskItems: seq<RiskItem>
    var seenRisk: set<string>

    constructor (env: Env, base: Graph, target: Graph)
      ensures this.env == env && this.base == base && this.target == target
      ensures entries == [] && security == [] && riskItems == [] && seenRisk == {}
    {
      this.env, this.base, this.target := env, base, target;
      entries, security, riskItems, seenRisk := [], [], [], {};
    }

    ghost predicate Lists(keys: set<Key>)
      reads this
    {
      Listing(env, base, target, keys, entries) && Bounded(riskItems, entries) && Recorded()
    }

    ghost predicate Recorded()
      reads this
    {
      OneEach(seenRisk, riskItems)
    }

    method AddRisk(id: string, risk: Risk)
      requires Recorded()
      modifies `riskItems, `seenRisk
      ensures Recorded()
      ensures seenRisk == old(seenRisk) + {id}
      ensures riskItems == old(riskItems) + (if id in old(seenRisk) then [] else [RiskItem(id, risk)])
    {
      if id !in seenRisk {
        seenRisk := seenRisk + {id};
        riskItems := riskItems + [RiskItem(id, risk)];
        OneMoreItem(old(seenRisk), old(riskItems), RiskItem(id, risk));
      }
    }

    /** One item for every rule of an entry, unless its id was seen before. */
    method AddRules(path: string, rules: set<string>, risk: Risk)
      requires Recorded()
      modifies `riskItems, `seenRisk
      ensures Recorded() && old(riskItems) <= riskItems
      ensures forall i | |old(riskItems)| <= i < |riskItems| :: riskItems[i].risk == risk
    {
      var todo := rules;
      while todo != {}
        invariant Recorded() && old(riskItems) <= riskItems
        invariant forall i | |old(riskItems)| <= i < |riskItems| :: riskItems[i].risk == risk
        decreases todo
      {
        var rule :| rule in todo;
        todo := todo - {rule};
        AddRisk(rule + ":" + path, risk);
      }
    }

    /** The items of a modified pipeline's references. */
    method AddReasons(e: Entry)
      requires Recorded() && forall r | r in e.refs :: Rank(r.risk) <= Rank(e.risk)
      modifies `riskItems, `seenRisk
      ensures Recorded() && old(riskItems) <= riskItems
      ensures forall i | |old(riskItems)| <= i < |riskItems| :: Rank(riskItems[i].risk) <= Rank(e.risk)
    {
      var todo := e.refs;
      while todo != {}
        invariant todo <= e.refs && Recorded() && old(riskItems) <= riskItems
        invariant forall i | |old(riskItems)| <= i < |riskItems| :: Rank(riskItems[i].risk) <= Rank(e.risk)
        decreases todo
      {
        var r :| r in todo;
        todo := todo - {r};
        if r.reason != "" {
          AddRisk(r.reason + ":" + PathOf(e.key) + ":" + r.id, r.risk);
        }
      }
    }

    /** The items of a pipeline entry: it was removed, it is broken, or a reference gave a reason. */
    method AddPipelineItems(e: Entry, name: string)
      requires Recorded() && e.key == Pipeline(name) && BoundsItems(target, name, e)
      modifies `riskItems, `seenRisk
      ensures Recorded() && old(riskItems) <= riskItems
      ensures forall i | |old(riskItems)| <= i < |riskItems| :: Rank(riskItems[i].risk) <= Rank(e.risk)
    {
      if e.kind == Removed {
        AddRisk("pipeline_removed:" + name, High);
      } else if e.kind == Modified {
        if target.pipelines[name].exporters == [] {
          AddRisk("pipeline_broken:" + name + ":exporters", High);
        }
        if target.pipelines[name].receivers == [] {
          AddRisk("pipeline_broken:" + name + ":receivers", High);
        }
        AddReasons(e);
      }
    }

    /** Appends an entry together with the items it raises. */
    method Append(ghost keys: set<Key>, e: Entry)
      requires Lists(keys) && e.key !in keys && EntryAt(env, base, target, e.key) == Some(e)
      modifies `entries, `riskItems, `seenRisk
      ensures Lists(keys + {e.key}) && old(entries) <= entries
    {
      ghost var items, es := riskItems, entries;
      if e.key.Pipeline? {
        PipelineBounds(base, target, e.key.name, e);
        AddPipelineItems(e, e.key.name);
      } else {
        AddRules(PathOf(e.key), e.rules, e.risk);
      }
      ListingMore(env, base, target, keys, es, e.key, [e]);
      BoundedMore(items, es, riskItems[|items|..], e);
      assert riskItems == items + riskItems[|items|..];
      entries := entries + [e];
    }

    /** The body of compareComponents. */
    method DiffComponent(cat: Category, id: string) returns (e: Option<Entry>)
      ensures e == ComponentEntry(env, base, target, cat, id)
    {
      var b, t := Of(base, cat), Of(target, cat);
      if id !in b && id in t {
        return Some(Entry(Component(cat, id), Added, Low, {}, {}, {}));
      } else if id in b && id !in t {
        return Some(Entry(Component(cat, id), Removed, RemovedRisk(cat, id), RemovedRules(cat, id), {}, {}));
      } else if id in b && Canon(env, b[id]) != Canon(env, t[id]) {
        var fields := ChangedFields(env, PathOf(Component(cat, id)), b[id], t[id]);
        var risk := ComputeModifiedRisk(id, fields);
        return Some(Entry(Component(cat, id), Modified, risk, ModifiedRules(id, fields), fields, {}));
      }
      return None;
    }

    method CompareComponents()
      requires Lists({})
      modifies `entries, `riskItems, `seenRisk
      ensures Lists(ComponentKeys(base) + ComponentKeys(target))
    {
      ghost var done: set<Key> := {};
      var cats := CATEGORIES;
      while cats != {}
        invariant cats <= CATEGORIES && Lists(done)
        invariant forall k :: k in done <==>
                    && k.Component? && k.cat in CATEGORIES && k.cat !in cats
                    && (k.id in Of(base, k.cat) || k.id in Of(target, k.cat))
        decreases cats
      {
        var cat :| cat in cats;
        var ids := Of(base, cat).Keys + Of(target, cat).Keys;
        ghost var all := ids;
        while ids != {}
          invariant ids <= all && Lists(done)
          invariant forall k :: k in done <==>
                      && k.Component? && k.cat in CATEGORIES
                      && ((k.cat !in cats && (k.id in Of(base, k.cat) || k.id in Of(target, k.cat)))
                          || (k.cat == cat && k.id in all && k.id !in ids))
          decreases ids
        {
          var id :| id in ids;
          ids := ids - {id};
          var e := DiffComponent(cat, id);
          NextKey(done, Component(cat, id), e);
          done := done + {Component(cat, id)};
        }
        cats := cats - {cat};
      }
      assert done == ComponentKeys(base) + ComponentKeys(target);
    }

    /** One more key of a comparison: its entry is appended, or there is none. */
    method NextKey(ghost done: set<Key>, k: Key, e: Option<Entry>)
      requires Lists(done) && k !in done && e == EntryAt(env, base, target, k)
      modifies `entries, `riskItems, `seenRisk
      ensures Lists(done + {k}) && old(entries) <= entries
    {
      EntryKey(env, base, target, k);
      if e.Some? {
        Append(done, e.value);
      } else {
        ListingMore(env, base, target, done, entries, k, []);
        assert entries + [] == entries;
      }
    }

    /** refChanges as the program runs it. */
    method CollectRefs(section: Section, b: seq<string>, t: seq<string>) returns (out: set<RefChange>)
      ensures out == RefChanges(section, b, t)
    {
      out := {};
      var ids := (set id | id in b) + (set id | id in t);
      ghost var all := ids;
      ghost var seen: set<string> := {};
      while ids != {}
        invariant ids !! seen && ids + seen == all
        invariant forall r :: r in out <==> IsRef(section, b, t, r) && r.id in seen
        decreases ids
      {
        var id :| id in ids;
        MoveOne(ids, seen, id);
        ids := ids - {id};
        seen := seen + {id};
        if id in b && id !in t {
          out := out + {RemovedRef(section, id, t == [])};
        } else if id in t && id !in b {
          out := out + {AddedRef(section, id)};
        }
      }
      forall r ensures r in out <==> r in RefChanges(section, b, t) {
        RefChangesHas(section, b, t, r);
      }
    }

    method WorstRef(refs: set<RefChange>) returns (risk: Risk)
      ensures risk == RefRisk(refs)
    {
      risk := Low;
      ghost var done: set<RefChange> := {};
      var todo := refs;
      while todo != {}
        invariant done + todo == refs && risk == RefRisk(done)
        decreases todo
      {
        var r :| r in todo;
        todo := todo - {r};
        done := done + {r};
        risk := MaxRisk(risk, r.risk);
      }
      assert done == refs;
    }

    /** The body of comparePipelines. */
    method DiffPipeline(name: string) returns (e: Option<Entry>)
      ensures e == PipelineEntry(base, target, name)
    {
      var bok, tok := name in base.pipelines, name in target.pipelines;
      if !bok && tok {
        return Some(Entry(Pipeline(name), Added, Low, {}, {}, {}));
      } else if bok && !tok {
        return Some(Entry(Pipeline(name), Removed, High, {"pipeline_removed"}, {}, {}));
      } else if bok {
        var b, t := base.pipelines[name], target.pipelines[name];
        var receivers := CollectRefs(InReceivers, b.receivers, t.receivers);
        var processors := CollectRefs(InProcessors, b.processors, t.processors);
        var exporters := CollectRefs(InExporters, b.exporters, t.exporters);
        var refs := receivers + processors + exporters;
        if refs == {} {
          return None;
        }
        var risk := WorstRef(refs);
        var rules := set r | r in refs && r.reason != "" :: r.reason;
        if t.exporters == [] || t.receivers == [] {
          risk := High;
          rules := rules + {"pipeline_broken"};
        }
        assert !IsBroken(t) ==> rules + {} == rules;
        return Some(Entry(Pipeline(name), Modified, risk, rules, {}, refs));
      }
      return None;
    }

    method ComparePipelines(ghost before: set<Key>)
      requires Lists(before) && forall k | k in before :: !k.Pipeline?
      modifies `entries, `riskItems, `seenRisk
      ensures Lists(before + (PipelineKeys(base) + PipelineKeys(target)))
    {
      ghost var done := before;
      var names := base.pipelines.Keys + target.pipelines.Keys;
      ghost var all := names;
      while names != {}
        invariant names <= all && Lists(done)
        invariant forall k :: k in done <==> k in before || (k.Pipeline? && k.name in all && k.name !in names)
        decreases names
      {
        var name :| name in names;
        names := names - {name};
        var e := DiffPipeline(name);
        NextKey(done, Pipeline(name), e);
        done := done + {Pipeline(name)};
      }
      assert done == before + (PipelineKeys(base) + PipelineKeys(target));
    }

    method CompareEndpoints(ghost before: set<Key>)
      requires Lists(before) && forall k | k in before :: !k.EndpointAt?
      modifies `entries, `riskItems, `seenRisk
      ensures Lists(before + (EndpointKeys(env, base) + EndpointKeys(env, target)))
    {
      ghost var done := before;
      var bs, ts := env.endpointsOf(base), env.endpointsOf(target);
      var paths := bs.Keys + ts.Keys;
      ghost var all := paths;
      while paths != {}
        invariant paths <= all && Lists(done)
        invariant forall k :: k in done <==> k in before || (k.EndpointAt? && k.path in all && k.path !in paths)
        decreases paths
      {
        var path :| path in paths;
        paths := paths - {path};
        NextKey(done, EndpointAt(path), EndpointEntry(bs, ts, path));
        done := done + {EndpointAt(path)};
      }
      assert done == before + (EndpointKeys(env, base) + EndpointKeys(env, target));
    }

    /** compareSecurity: one security entry for every sensitive and for every weakened field. */
    method CompareSecurity(ghost keys: set<Key>)
      requires Lists(keys) && security == []
      modifies `security, `riskItems, `seenRisk
      ensures Lists(keys) && Guards(security, entries)
    {
      for i := 0 to |entries|
        invariant Lists(keys) && Guards(security, entries[..i])
      {
        var e := entries[i];
        ExposeFields(keys, entries[..i], e);
        if e.kind == Removed && e.key.Component? && e.key.cat == Exporters {
          HighItem(keys, e, "exporter_removed:" + e.key.id);
        }
        assert entries[..i + 1] == entries[..i] + [e];
      }
      assert entries[..|entries|] == entries;
    }

    /** The loop over the fields of one entry. */
    method ExposeFields(ghost keys: set<Key>, ghost before: seq<Entry>, e: Entry)
      requires Lists(keys) && e in entries && Guards(security, before) && forall x | x in before :: x.key != e.key
      modifies `security, `riskItems, `seenRisk
      ensures Lists(keys) && Guards(security, before + [e])
    {
      ghost var done: set<Field> := {};
      GuardsNothing(security, before, e);
      var todo := e.fields;
      while todo != {}
        invariant done !! todo && done + todo == e.fields
        invariant Lists(keys) && Guards(security, before + [e.(fields := done)])
        decreases todo
      {
        var f :| f in todo;
        GuardsMore(security, before, e, done, f);
        todo := todo - {f};
        done := done + {f};
        security := security + ExposureOf(e.key, f);
        if IsSensitive(f) {
          HighItem(keys, e, "auth_header_modified:" + f.path);
        }
        if IsWeakened(f) {
          HighItem(keys, e, "transport_security_weakened:" + f.path);
        }
      }
      assert done == e.fields && e.(fields := done) == e;
    }

    /** A high item for an entry that is high itself. */
    method HighItem(ghost keys: set<Key>, e: Entry, id: string)
      requires Lists(keys) && e in entries && e.risk == High
      modifies `riskItems, `seenRisk
      ensures Lists(keys)
    {
      AddRisk(id, High);
    }

    /** finish: the counters, and the worst risk of all entries and items. */
    method Finish() returns (sum: Summary)
      requires Bounded(riskItems, entries)
      ensures Tallied(sum, entries) && IsWorst(sum.overall, entries)
      ensures forall i | 0 <= i < |riskItems| :: Rank(riskItems[i].risk) <= Rank(sum.overall)
    {
      sum := Summary(Counts(0, 0, 0), Counts(0, 0, 0), Counts(0, 0, 0), Levels(0, 0, 0), NoRisk);
      for i := 0 to |entries|
        invariant Tallied(sum, entries[..i]) && sum.overall == NoRisk
      {
        assert entries[..i + 1] == entries[..i] + [entries[i]];
        TallyMore(sum, entries[..i], entries[i]);
        sum := Tally(sum, entries[i]);
      }
      assert entries[..|entries|] == entries;
      var overall := NoRisk;
      for i := 0 to |riskItems|
        invariant forall j | 0 <= j < i :: Rank(riskItems[j].risk) <= Rank(overall)
        invariant overall == NoRisk || exists j | 0 <= j < i :: riskItems[j].risk == overall
      {
        overall := MaxRisk(overall, riskItems[i].risk);
      }
      ghost var fromItems := overall;
      for i := 0 to |entries|
        invariant Rank(fromItems) <= Rank(overall)
        invariant forall j | 0 <= j < i :: Rank(entries[j].risk) <= Rank(overall)
        invariant overall == fromItems || exists j | 0 <= j < i :: entries[j].risk == overall
      {
        overall := MaxRisk(overall, entries[i].risk);
      }
      ItemsAddNothing(fromItems, overall);
      sum := sum.(overall := overall);
    }

    /** The items never make the overall risk worse than the entries do. */
    lemma ItemsAddNothing(fromItems: Risk, overall: Risk)
      requires Bounded(riskItems, entries) && Rank(fromItems) <= Rank(overall)
      requires fromItems == NoRisk || exists j | 0 <= j < |riskItems| :: riskItems[j].risk == fromItems
      requires forall j | 0 <= j < |entries| :: Rank(entries[j].risk) <= Rank(overall)
      requires overall == fromItems || exists j | 0 <= j < |entries| :: entries[j].risk == overall
      ensures IsWorst(overall, entries)
    {
      if overall == fromItems && fromItems != NoRisk {
        var j :| 0 <= j < |riskItems| && riskItems[j].risk == fromItems;
        var e :| e in entries && Rank(riskItems[j].risk) <= Rank(e.risk);
        assert e.risk == overall;
      }
    }

    /** CompareWithContext on parsed configurations, up to the blast radius. */
    method Compare() returns (sum: Summary)
      requires entries == [] && security == [] && riskItems == [] && seenRisk == {}
      modifies this
      ensures Listing(env, base, target, AllKeys(env, base, target), entries)
      ensures Tallied(sum, entries) && IsWorst(sum.overall, entries)
      ensures Guards(security, entries) && (security != [] ==> sum.overall == High)
      ensures forall i, j | 0 <= i < j < |riskItems| :: riskItems[i].id != riskItems[j].id
    {
      CompareComponents();
      ComparePipelines(ComponentKeys(base) + ComponentKeys(target));
      CompareEndpoints((ComponentKeys(base) + ComponentKeys(target)) + (PipelineKeys(base) + PipelineKeys(target)));
      ghost var keys := AllKeys(env, base, target);
      CompareSecurity(keys);
      sum := Finish();
      if security != [] {
        SecurityForcesHigh(env, base, target, keys, entries, security, sum.overall);
      }
    }
  }

  datatype Summary = Summary(components: Counts, pipelines: Counts, endpoints: Counts, levels: Levels, overall: Risk)

  function CountsOf(es: seq<Entry>, w: Which): Counts {
    Counts(CountOf(es, w, Added), CountOf(es, w, Removed), CountOf(es, w, Modified))
  }

  predicate Tallied(sum: Summary, es: seq<Entry>) {
    && sum.components == CountsOf(es, Components)
    && sum.pipelines == CountsOf(es, Pipelines)
    && sum.endpoints == CountsOf(es, Endpoints)
    && sum.levels == Levels(CountRisk(es, High), CountRisk(es, Medium), CountRisk(es, Low))
  }

  function Bump(c: Counts, kind: Kind): Counts {
    match kind
    case Added => c.(added := c.added + 1)
    case Removed => c.(removed := c.removed + 1)
    case Modified => c.(modified := c.modified + 1)
  }

  function BumpLevel(l: Levels, r: Risk): Levels {
    match r
    case High => l.(high := l.high + 1)
    case Medium => l.(medium := l.medium + 1)
    case Low => l.(low := l.low + 1)
    case NoRisk => l
  }

  function Tally(sum: Summary, e: Entry): Summary {
    var s := sum.(levels := BumpLevel(sum.levels, e.risk));
    match e.key
    case Component(_, _) => s.(components := Bump(s.components, e.kind))
    case Pipeline(_) => s.(pipelines := Bump(s.pipelines, e.kind))
    case EndpointAt(_) => s.(endpoints := Bump(s.endpoints, e.kind))
  }

  lemma CountsMore(es: seq<Entry>, e: Entry, w: Which)
    ensures CountsOf(es + [e], w) == if WhichOf(e.key) == w then Bump(CountsOf(es, w), e.kind) else CountsOf(es, w)
  {
    assert (es + [e])[..|es|] == es;
  }

  lemma TallyMore(sum: Summary, es: seq<Entry>, e: Entry)
    requires Tallied(sum, es)
    ensures Tallied(Tally(sum, e), es + [e])
  {
    CountsMore(es, e, Components);
    CountsMore(es, e, Pipelines);
    CountsMore(es, e, Endpoints);
    assert (es + [e])[..|es|] == es;
  }

  /** The maximum over the entries; none without entries. */
  ghost predicate IsWorst(r: Risk, es: seq<Entry>) {
    && (forall i | 0 <= i < |es| :: Rank(es[i].risk) <= Rank(r))
    && (r == NoRisk || exists i | 0 <= i < |es| :: es[i].risk == r)
  }

  // ----- what the summary promises -----

  lemma ExposedIsHigh(env: Env, base: Graph, target: Graph, keys: set<Key>, es: seq<Entry>, e: Entry, f: Field)
    requires Listing(env, base, target, keys, es) && e in es && f in e.fields && (IsSensitive(f) || IsWeakened(f))
    ensures e.risk == High && e.kind == Modified && e.key.Component?
  {
    assert IsSensitive(f) || IsWeakened(f) ==> forall id :: IsHighField(id, f);
  }

  /** A removed exporter or a removed pipeline makes the overall risk high. */
  lemma RemovalForcesHigh(env: Env, base: Graph, target: Graph, es: seq<Entry>, overall: Risk, k: Key)
    requires Listing(env, base, target, AllKeys(env, base, target), es) && IsWorst(overall, es)
    requires (k.Component? && k.cat == Exporters) || k.Pipeline?
    requires k in KeysOf(env, base, WhichOf(k)) && k !in KeysOf(env, target, WhichOf(k))
    ensures overall == High
  {
    assert k in AllKeys(env, base, target);
    AddedAndRemoved(env, base, target, WhichOf(k), k);
    var e := EntryAt(env, base, target, k).value;
    assert e.risk == High;
    var i :| 0 <= i < |es| && es[i] == e;
  }

  /** Every entry carries a risk, so the three levels add up to all of them. */
  lemma {:induction false} LevelsAddUp(es: seq<Entry>)
    requires forall i | 0 <= i < |es| :: es[i].risk != NoRisk
    ensures CountRisk(es, High) + CountRisk(es, Medium) + CountRisk(es, Low) == |es|
  {
    if es == [] {
    } else {
      LevelsAddUp(es[..|es| - 1]);
    }
  }

  lemma EntriesCarryRisk(env: Env, base: Graph, target: Graph, k: Key)
    ensures EntryAt(env, base, target, k).Some? ==> EntryAt(env, base, target, k).value.risk != NoRisk
  {
  }

  lemma ListedLevelsAddUp(env: Env, base: Graph, target: Graph, keys: set<Key>, es: seq<Entry>)
    requires Listing(env, base, target, keys, es)
    ensures CountRisk(es, High) + CountRisk(es, Medium) + CountRisk(es, Low) == |es|
  {
    forall i | 0 <= i < |es| ensures es[i].risk != NoRisk {
      EntriesCarryRisk(env, base, target, es[i].key);
    }
    LevelsAddUp(es);
  }

  lemma SelfEntry(env: Env, g: Graph, k: Key)
    ensures EntryAt(env, g, g, k).None?
  {
    match k
    case Pipeline(name) =>
      if name in g.pipelines {
        assert AllRefChanges(g.pipelines[name], g.pipelines[name]) == {};
      }
    case _ =>
  }

  /** A configuration compared with itself has no entry and no risk. */
  lemma SelfDiffIsEmpty(env: Env, g: Graph, es: seq<Entry>, overall: Risk)
    requires Listing(env, g, g, AllKeys(env, g, g), es) && IsWorst(overall, es)
    ensures es == [] && overall == NoRisk
  {
    if |es| > 0 {
      SelfEntry(env, g, es[0].key);
    }
  }

  /** A security entry makes the overall risk high. */
  lemma SecurityForcesHigh(env: Env, base: Graph, target: Graph, keys: set<Key>, es: seq<Entry>,
                           security: seq<Security>, overall: Risk)
    requires Listing(env, base, target, keys, es) && IsWorst(overall, es) && security != [] && Guards(security, es)
    ensures overall == High
  {
    var s := security[0];
    assert s in security;
    var e :| e in es && e.key == s.component && s.field in e.fields && Exposes(s.field, s.what);
    ExposedIsHigh(env, base, target, keys, es, e, s.field);
    var i :| 0 <= i < |es| && es[i] == e;
  }

  // ----- components that are compared by their JSON text -----

  predicate BothHave(base: Graph, target: Graph, cat: Category, id: string) {
    id in Of(base, cat) && id in Of(target, cat)
  }

  /** A component on both sides is left out exactly when neither tree has a JSON text, or both have one and are
      alike; where different numbers are written differently that means equal. */
  lemma UnreportedIff(env: Env, base: Graph, target: Graph, cat: Category, id: string)
    requires BothHave(base, target, cat, id) && JsonOk(env)
    ensures var b, t := Of(base, cat)[id], Of(target, cat)[id];
            && (ComponentEntry(env, base, target, cat, id).None? <==>
                (!T.Marshals(b) && !T.Marshals(t)) || (T.Marshals(b) && T.Marshals(t) && Alike(env, b, t)))
            && (NumbersDiffer(env) ==>
                (ComponentEntry(env, base, target, cat, id).None? <==> b == t || (!T.Marshals(b) && !T.Marshals(t))))
  {
    if NumbersDiffer(env) {
      AlikeIsEqual(env, Of(base, cat)[id], Of(target, cat)[id]);
    }
  }

  /** The comparison leaves out a component although the walk reports a change exactly when neither tree has a JSON
      text and they differ up to null-valued keys or hold a NaN, or they are alike and differ in the notation of a
      number. */
  lemma HiddenIff(env: Env, base: Graph, target: Graph, cat: Category, id: string)
    requires BothHave(base, target, cat, id) && JsonOk(env)
    ensures var b, t := Of(base, cat)[id], Of(target, cat)[id];
            ComponentEntry(env, base, target, cat, id).None? && !T.Silent(b, t) <==>
            || (!T.Marshals(b) && !T.Marshals(t) && (T.Strip(b) != T.Strip(t) || !T.NaNFree(b)))
            || (T.Marshals(b) && T.Marshals(t) && Alike(env, b, t) && T.Strip(b) != T.Strip(t))
  {
    var b, t := Of(base, cat)[id], Of(target, cat)[id];
    T.SilentIff(b, t);
    if T.Marshals(b) {
      T.MarshalsIsNaNFree(b);
    }
  }

  /** A component is reported as modified without any changed field exactly when its trees agree up to
      null-valued keys. */
  lemma ModifiedWithoutFieldsIff(env: Env, base: Graph, target: Graph, cat: Category, id: string)
    requires BothHave(base, target, cat, id) && ComponentEntry(env, base, target, cat, id).Some?
    ensures var b, t := Of(base, cat)[id], Of(target, cat)[id];
            ComponentEntry(env, base, target, cat, id).value.fields == {} <==> T.Strip(b) == T.Strip(t)
  {
    var b, t := Of(base, cat)[id], Of(target, cat)[id];
    var prefix := PathOf(Component(cat, id));
    T.SilentIff(b, t);
    NoFieldsIff(env, prefix, b, t);
    if T.Strip(b) == T.Strip(t) && !T.NaNFree(b) {
      T.StripKeepsNaN(b);
      T.StripKeepsNaN(t);
      if T.Marshals(b) {
        T.MarshalsIsNaNFree(b);
      }
      if T.Marshals(t) {
        T.MarshalsIsNaNFree(t);
      }
    }
  }

  lemma NoFieldsIff(env: Env, prefix: string, b: T.Value, t: T.Value)
    ensures FieldsOf(env, prefix, b, t) == {} <==> T.Silent(b, t)
  {
    forall p ensures p in T.Paths(b, t) <==> T.Reported(p, b, t) {
      T.PathsAreReported(p, b, t);
    }
    if p :| T.Reported(p, b, t) {
      assert FieldAt(env, prefix, b, t, p) in FieldsOf(env, prefix, b, t);
    }
  }

  function OneExporter(v: T.Value): Graph {
    Graph(map[Exporters := map["otlp" := v]], map[])
  }

  function WithLimit(endpoint: string): T.Value {
    T.Map(map["endpoint" := T.Str(endpoint), "limit" := T.Infinite(true)])
  }

  /** Two exporters with an infinite limit and different endpoints: the walk reports the endpoint, the comparison
      reports nothing. */
  lemma InfiniteHidesChange(env: Env)
    ensures T.Reported(["endpoint"], WithLimit("a"), WithLimit("b"))
    ensures forall k :: EntryAt(env, OneExporter(WithLimit("a")), OneExporter(WithLimit("b")), k).None? || k.EndpointAt?
  {
    var b, t := WithLimit("a"), WithLimit("b");
    assert ["endpoint"][1..] == [] && "a"[0] != "b"[0];
    assert "limit" in b.entries && "limit" in t.entries;
    assert !T.Marshals(b.entries["limit"]) && !T.Marshals(t.entries["limit"]);
    assert !T.Marshals(b) && !T.Marshals(t);
  }

  /** A key that is null on one side and missing on the other: modified, and no field changed. */
  lemma NullKeyModifies(env: Env)
    requires env.json(T.Map(map["sampling" := T.Null])) != env.json(T.Map(map[]))
    ensures var b, t := OneExporter(T.Map(map["sampling" := T.Null])), OneExporter(T.Map(map[]));
            var e := ComponentEntry(env, b, t, Exporters, "otlp");
            e.Some? && e.value.kind == Modified && e.value.fields == {}
  {
    var b, t := T.Map(map["sampling" := T.Null]), T.Map(map[]);
    assert T.Strip(b) == T.Strip(t);
    ModifiedWithoutFieldsIff(env, OneExporter(b), OneExporter(t), Exporters, "otlp");
  }
}
