/**
 Which changes of a configuration make a comparison high, medium or low, and
 which rules they carry, said of the two configurations and not of the
 functions that rate a change.
 */
module ConfigRisk {
  import opened Basics
  import opened Text
  import opened ConfigDiff
  import T = TreeDiff

  // ----- names and fields -----

  /** The type of a component is its id up to the first slash. */
  lemma {:induction false} TypeIsBeforeSlash(id: string) returns (rest: string)
    ensures id == TypeOf(id) + rest && '/' !in TypeOf(id) && (rest == "" || rest[0] == '/')
  {
    if id == "" || id[0] == '/' {
      rest := id;
    } else {
      rest := TypeIsBeforeSlash(id[1..]);
      assert id == [id[0]] + id[1..];
    }
  }

  predicate Samples(id: string) {
    Contains(Lower(id), "sampling") || Contains(Lower(id), "probabilistic_sampler")
  }

  /** A processor that protects a pipeline: it batches, limits memory or samples. */
  predicate IsGuard(id: string) {
    TypeOf(id) == "batch" || TypeOf(id) == "memory_limiter" || Samples(id)
  }

  const SECRET_WORDS := {"auth", "bearer_token", "api_key", "client_secret", "password", "token", "headers"}

  /** The path names a credential, or transport security was switched off there. */
  ghost predicate Exposing(f: Field) {
    var l := Lower(f.path);
    || (exists word | word in SECRET_WORDS :: Contains(l, word))
    || ((HasSuffix(l, ".insecure") || HasSuffix(l, ".insecure_skip_verify") || Contains(l, "tls.insecure"))
        && f.after == T.Bool(true) && f.before != T.Bool(true))
  }

  /** A sampling percentage of a component that samples. */
  predicate SetsPercentage(id: string, f: Field) {
    Samples(id) && Contains(Lower(f.path), "sampling_percentage")
  }

  lemma ExposingIff(f: Field)
    ensures IsSensitive(f) || IsWeakened(f) <==> Exposing(f)
    ensures IsSensitive(f) <==> exists word | word in SECRET_WORDS :: Contains(Lower(f.path), word)
  {
    var l := Lower(f.path);
    if IsSensitive(f) {
      if Contains(l, "auth") {
        assert "auth" in SECRET_WORDS;
      } else if Contains(l, "bearer_token") {
        assert "bearer_token" in SECRET_WORDS;
      } else if Contains(l, "api_key") {
        assert "api_key" in SECRET_WORDS;
      } else if Contains(l, "client_secret") {
        assert "client_secret" in SECRET_WORDS;
      } else if Contains(l, "password") {
        assert "password" in SECRET_WORDS;
      } else if Contains(l, "token") {
        assert "token" in SECRET_WORDS;
      } else {
        assert "headers" in SECRET_WORDS;
      }
    }
  }

  /** For finite numbers a change is strong exactly when the new number is zero and the old one is not, at most half
      or at least twice the old one, or less than a hundred where it was a hundred; from zero nothing is. */
  lemma StrongIff(f: Field, x: real, y: real)
    requires Number(f.before) == Some(Finite(x)) && Number(f.after) == Some(Finite(y))
    ensures x > 0.0 ==> (IsStrong(f) <==> 2.0 * y <= x || y >= 2.0 * x || (x == 100.0 && y < 100.0))
    ensures x < 0.0 ==> (IsStrong(f) <==> 2.0 * y >= x || y <= 2.0 * x)
    ensures x == 0.0 ==> !IsStrong(f)
  {
    if x != 0.0 && y != 0.0 {
      QuotientOrder(x, y);
    }
  }

  lemma QuotientOrder(x: real, y: real)
    requires x != 0.0
    ensures x > 0.0 ==> (y / x <= 0.5 <==> 2.0 * y <= x) && (y / x >= 2.0 <==> y >= 2.0 * x)
    ensures x < 0.0 ==> (y / x <= 0.5 <==> 2.0 * y >= x) && (y / x >= 2.0 <==> y <= 2.0 * x)
  {
    var q := y / x;
    assert q * x == y;
    if x > 0.0 {
      assert q <= 0.5 ==> q * x <= 0.5 * x;
      assert q > 0.5 ==> q * x > 0.5 * x;
      assert q >= 2.0 ==> q * x >= 2.0 * x;
      assert q < 2.0 ==> q * x < 2.0 * x;
    } else {
      assert q <= 0.5 ==> q * x >= 0.5 * x;
      assert q > 0.5 ==> q * x < 0.5 * x;
      assert q >= 2.0 ==> q * x <= 2.0 * x;
      assert q < 2.0 ==> q * x > 2.0 * x;
    }
  }

  // ----- what differs, and how badly -----

  predicate Gone(b: seq<string>, t: seq<string>) {
    exists id | id in b :: id !in t
  }

  predicate GuardGone(b: seq<string>, t: seq<string>) {
    exists id | id in b :: id !in t && IsGuard(id)
  }

  predicate SameRefs(b: seq<string>, t: seq<string>) {
    (forall id | id in b :: id in t) && (forall id | id in t :: id in b)
  }

  predicate SameShape(b: Shape, t: Shape) {
    SameRefs(b.receivers, t.receivers) && SameRefs(b.processors, t.processors) && SameRefs(b.exporters, t.exporters)
  }

  ghost function FieldsAtKey(env: Env, base: Graph, target: Graph, cat: Category, id: string): set<Field>
    requires id in Of(base, cat) && id in Of(target, cat)
  {
    FieldsOf(env, PathOf(Component(cat, id)), Of(base, cat)[id], Of(target, cat)[id])
  }

  predicate Rewritten(env: Env, base: Graph, target: Graph, cat: Category, id: string) {
    id in Of(base, cat) && id in Of(target, cat) && Canon(env, Of(base, cat)[id]) != Canon(env, Of(target, cat)[id])
  }

  /** The thing is there on one side only, or on both and not the same. */
  predicate Differs(env: Env, base: Graph, target: Graph, key: Key) {
    match key
    case Component(cat, id) =>
      (id in Of(base, cat)) != (id in Of(target, cat)) || Rewritten(env, base, target, cat, id)
    case Pipeline(name) =>
      || (name in base.pipelines) != (name in target.pipelines)
      || (name in base.pipelines && !SameShape(base.pipelines[name], target.pipelines[name]))
    case EndpointAt(path) =>
      var bs, ts := env.endpointsOf(base), env.endpointsOf(target);
      || (path in bs) != (path in ts)
      || (path in bs && bs[path].normalized != ts[path].normalized)
  }

  /** An exporter or a guard is gone, a credential or transport security changed, or sampling changed strongly. */
  ghost predicate BadComponent(env: Env, base: Graph, target: Graph, cat: Category, id: string) {
    || (id in Of(base, cat) && id !in Of(target, cat) && (cat == Exporters || (cat == Processors && IsGuard(id))))
    || (Rewritten(env, base, target, cat, id)
        && exists f | f in FieldsAtKey(env, base, target, cat, id) ::
             Exposing(f) || (SetsPercentage(id, f) && IsStrong(f)))
  }

  /** The pipeline is gone, or it changed and has no exporter or no receiver left or lost a guard. */
  predicate BadPipeline(base: Graph, target: Graph, name: string) {
    && name in base.pipelines
    && (name !in target.pipelines
        || var b, t := base.pipelines[name], target.pipelines[name];
           && !SameShape(b, t)
           && (t.exporters == [] || t.receivers == [] || GuardGone(b.processors, t.processors)))
  }

  /** Exported data goes elsewhere, or something other than a receiver left TLS. */
  predicate BadEndpoint(b: Endpoint, t: Endpoint) {
    && b.normalized != t.normalized
    && ((b.cat == Exporters && "otlp" <= b.typ && (b.host != t.host || b.port != t.port || b.scheme != t.scheme))
        || (b.cat != Receivers && b.scheme == "https" && t.scheme == "http"))
  }

  ghost predicate IsBad(env: Env, base: Graph, target: Graph, key: Key) {
    match key
    case Component(cat, id) => BadComponent(env, base, target, cat, id)
    case Pipeline(name) => BadPipeline(base, target, name)
    case EndpointAt(path) =>
      var bs, ts := env.endpointsOf(base), env.endpointsOf(target);
      path in bs && path in ts && BadEndpoint(bs[path], ts[path])
  }

  /** Not bad, but something is gone, a sampling percentage or a receiver changed, or an endpoint moved. */
  ghost predicate IsDoubtful(env: Env, base: Graph, target: Graph, key: Key) {
    && Differs(env, base, target, key) && !IsBad(env, base, target, key)
    && match key
       case Component(cat, id) =>
         || id !in Of(target, cat)
         || (id in Of(base, cat) && exists f | f in FieldsAtKey(env, base, target, cat, id) :: SetsPercentage(id, f))
       case Pipeline(name) =>
         && name in base.pipelines && name in target.pipelines
         && var b, t := base.pipelines[name], target.pipelines[name];
            || Gone(b.receivers, t.receivers) || Gone(t.receivers, b.receivers)
            || Gone(b.processors, t.processors) || Gone(b.exporters, t.exporters)
       case EndpointAt(path) => path in env.endpointsOf(base)
  }

  /** Every lost and every gained reference is reported, and nothing else. */
  lemma RefsAre(section: Section, b: seq<string>, t: seq<string>)
    ensures forall r :: r in RefChanges(section, b, t) <==> IsRef(section, b, t, r)
    ensures forall id | id in b && id !in t :: RemovedRef(section, id, t == []) in RefChanges(section, b, t)
    ensures forall id | id in t && id !in b :: AddedRef(section, id) in RefChanges(section, b, t)
  {
    forall r ensures r in RefChanges(section, b, t) <==> IsRef(section, b, t, r) {
      RefChangesHas(section, b, t, r);
    }
  }

  lemma RefsHigh(section: Section, b: seq<string>, t: seq<string>)
    ensures (exists r | r in RefChanges(section, b, t) :: r.risk == High) <==>
            if section == InReceivers then false
            else if section == InProcessors then GuardGone(b, t) else t == [] && b != []
  {
    RefsAre(section, b, t);
    if t == [] && b != [] {
      assert b[0] in b && b[0] !in t;
    }
  }

  lemma RefsMedium(section: Section, b: seq<string>, t: seq<string>)
    ensures (exists r | r in RefChanges(section, b, t) :: r.risk == Medium) <==>
            if section == InReceivers then Gone(b, t) || Gone(t, b)
            else if section == InProcessors then exists id | id in b :: id !in t && !IsGuard(id)
            else t != [] && Gone(b, t)
  {
    RefsAre(section, b, t);
  }

  lemma RefsDiffer(section: Section, b: seq<string>, t: seq<string>)
    ensures RefChanges(section, b, t) == {} <==> SameRefs(b, t)
    ensures (exists r | r in RefChanges(section, b, t) :: r.risk == High) <==>
            if section == InReceivers then false
            else if section == InProcessors then GuardGone(b, t) else t == [] && b != []
    ensures (exists r | r in RefChanges(section, b, t) :: r.risk == Medium) <==>
            if section == InReceivers then Gone(b, t) || Gone(t, b)
            else if section == InProcessors then exists id | id in b :: id !in t && !IsGuard(id)
            else t != [] && Gone(b, t)
  {
    RefsAre(section, b, t);
    RefsHigh(section, b, t);
    RefsMedium(section, b, t);
  }

  lemma ShapesDiffer(b: Shape, t: Shape)
    ensures AllRefChanges(b, t) == {} <==> SameShape(b, t)
    ensures RefRisk(AllRefChanges(b, t)) == High <==>
            GuardGone(b.processors, t.processors) || (t.exporters == [] && b.exporters != [])
    ensures RefRisk(AllRefChanges(b, t)) != Low && !GuardGone(b.processors, t.processors) && t.exporters != [] <==>
            && !GuardGone(b.processors, t.processors) && t.exporters != []
            && (Gone(b.receivers, t.receivers) || Gone(t.receivers, b.receivers)
                || Gone(b.processors, t.processors) || Gone(b.exporters, t.exporters))
  {
    RefsDiffer(InReceivers, b.receivers, t.receivers);
    RefsDiffer(InProcessors, b.processors, t.processors);
    RefsDiffer(InExporters, b.exporters, t.exporters);
    var x, y, z := RefChanges(InReceivers, b.receivers, t.receivers),
        RefChanges(InProcessors, b.processors, t.processors), RefChanges(InExporters, b.exporters, t.exporters);
    assert AllRefChanges(b, t) == x + y + z;
    assert forall r :: r in AllRefChanges(b, t) <==> r in x || r in y || r in z;
  }

  /** A difference is rated high exactly when it is bad, medium exactly when it is doubtful, and low otherwise. */
  ghost predicate IsRated(env: Env, base: Graph, target: Graph, key: Key) {
    var e := EntryAt(env, base, target, key);
    && (e.Some? <==> Differs(env, base, target, key))
    && (e.Some? ==>
          && (e.value.risk == High <==> IsBad(env, base, target, key))
          && (e.value.risk == Medium <==> IsDoubtful(env, base, target, key))
          && e.value.risk != NoRisk)
  }

  lemma PipelineRated(env: Env, base: Graph, target: Graph, name: string)
    ensures IsRated(env, base, target, Pipeline(name))
  {
    if name in base.pipelines && name in target.pipelines {
      ShapesDiffer(base.pipelines[name], target.pipelines[name]);
    }
  }

  lemma EndpointRated(env: Env, base: Graph, target: Graph, path: string)
    ensures IsRated(env, base, target, EndpointAt(path))
  {
  }

  lemma RewrittenRated(env: Env, base: Graph, target: Graph, cat: Category, id: string)
    requires Rewritten(env, base, target, cat, id)
    ensures var risk := ModifiedRisk(id, FieldsAtKey(env, base, target, cat, id));
            && (risk == High <==> BadComponent(env, base, target, cat, id))
            && (risk == Medium <==>
                  !BadComponent(env, base, target, cat, id)
                  && exists f | f in FieldsAtKey(env, base, target, cat, id) :: SetsPercentage(id, f))
            && risk != NoRisk
  {
    var fields := FieldsAtKey(env, base, target, cat, id);
    forall f | f in fields
      ensures IsHighField(id, f) <==> Exposing(f) || (SetsPercentage(id, f) && IsStrong(f))
      ensures IsSamplingField(id, f) <==> SetsPercentage(id, f)
    {
      ExposingIff(f);
    }
  }

  lemma ComponentRated(env: Env, base: Graph, target: Graph, cat: Category, id: string)
    ensures IsRated(env, base, target, Component(cat, id))
  {
    if Rewritten(env, base, target, cat, id) {
      RewrittenRated(env, base, target, cat, id);
    }
  }

  lemma EveryDifferenceIsRated(env: Env, base: Graph, target: Graph, key: Key)
    ensures IsRated(env, base, target, key)
  {
    match key
    case Component(cat, id) => ComponentRated(env, base, target, cat, id);
    case Pipeline(name) => PipelineRated(env, base, target, name);
    case EndpointAt(path) => EndpointRated(env, base, target, path);
  }

  /** The overall risk of a comparison is high exactly when some difference is bad, at least medium exactly when
      some difference is bad or doubtful, and none exactly when nothing differs. */
  lemma OverallIff(env: Env, base: Graph, target: Graph, es: seq<Entry>, overall: Risk)
    requires Listing(env, base, target, AllKeys(env, base, target), es) && IsWorst(overall, es)
    ensures var keys := AllKeys(env, base, target);
            && (overall == High <==> exists k | k in keys :: IsBad(env, base, target, k))
            && (overall == High || overall == Medium <==>
                  exists k | k in keys :: IsBad(env, base, target, k) || IsDoubtful(env, base, target, k))
            && (overall == NoRisk <==> forall k | k in keys :: !Differs(env, base, target, k))
  {
    var keys := AllKeys(env, base, target);
    forall k | k in keys
      ensures IsBad(env, base, target, k) || IsDoubtful(env, base, target, k) ==> Differs(env, base, target, k)
      ensures Differs(env, base, target, k) <==>
              exists i | 0 <= i < |es| :: es[i].key == k && EntryAt(env, base, target, k) == Some(es[i])
      ensures IsRated(env, base, target, k)
    {
      EveryDifferenceIsRated(env, base, target, k);
      BadDiffers(env, base, target, k);
      if Differs(env, base, target, k) {
        var e := EntryAt(env, base, target, k).value;
        EntryKey(env, base, target, k);
        assert e in es;
      }
    }
    forall i | 0 <= i < |es| ensures es[i].key in keys && Differs(env, base, target, es[i].key) {
      EveryDifferenceIsRated(env, base, target, es[i].key);
    }
  }

  lemma BadDiffers(env: Env, base: Graph, target: Graph, key: Key)
    ensures IsBad(env, base, target, key) ==> Differs(env, base, target, key)
  {
  }

  // ----- rules -----

  /** A removed component carries the rule of what it was. */
  lemma RemovalRules(env: Env, base: Graph, target: Graph, cat: Category, id: string, rule: string)
    requires id in Of(base, cat) && id !in Of(target, cat)
    ensures rule in EntryAt(env, base, target, Component(cat, id)).value.rules <==>
            || (rule == "exporter_removed" && cat == Exporters)
            || (rule == "batch_processor_removed_from_pipeline" && cat == Processors && TypeOf(id) == "batch")
            || (rule == "memory_limiter_removed_from_pipeline" && cat == Processors && TypeOf(id) == "memory_limiter")
            || (rule == "sampling_guard_removed" && cat == Processors && Samples(id))
  {
  }

  /** A changed endpoint carries the rule of what happened to it, and is bad exactly when it is an exporter's that
      was rerouted or it left TLS and is no receiver's. */
  lemma EndpointChangeRules(env: Env, base: Graph, target: Graph, path: string, rule: string)
    requires path in env.endpointsOf(base) && path in env.endpointsOf(target)
    requires Differs(env, base, target, EndpointAt(path))
    ensures var b, t := env.endpointsOf(base)[path], env.endpointsOf(target)[path];
            rule in EntryAt(env, base, target, EndpointAt(path)).value.rules <==>
            || (rule == "otlp_endpoint_changed" && b.cat == Exporters && "otlp" <= b.typ
                && (b.host != t.host || b.port != t.port || b.scheme != t.scheme))
            || (rule == "receiver_endpoint_exposure_changed" && b.cat == Receivers)
            || (rule == "transport_security_weakened" && b.scheme == "https" && t.scheme == "http")
  {
  }

  /** A rewritten component carries the rules of its changed fields. */
  lemma ModificationRules(env: Env, base: Graph, target: Graph, cat: Category, id: string, rule: string)
    requires Rewritten(env, base, target, cat, id)
    ensures var fields := FieldsAtKey(env, base, target, cat, id);
            rule in EntryAt(env, base, target, Component(cat, id)).value.rules <==>
            || (rule == "auth_header_modified"
                && exists f, word | f in fields && word in SECRET_WORDS :: Contains(Lower(f.path), word))
            || (rule == "transport_security_weakened" && exists f | f in fields :: IsWeakened(f))
            || (rule == "sampling_rate_strongly_changed"
                && exists f | f in fields :: SetsPercentage(id, f) && IsStrong(f))
            || (rule == "sampling_policy_modified" && exists f | f in fields :: SetsPercentage(id, f) && !IsStrong(f))
  {
    var fields := FieldsAtKey(env, base, target, cat, id);
    forall f | f in fields
      ensures IsSensitive(f) <==> exists word | word in SECRET_WORDS :: Contains(Lower(f.path), word)
      ensures IsSamplingField(id, f) <==> SetsPercentage(id, f)
    {
      ExposingIff(f);
    }
  }

  /** A changed pipeline is called broken exactly when no exporter or no receiver is left, and carries the rule of
      every other exporter and guard it lost. */
  lemma PipelineRules(base: Graph, target: Graph, name: string, rule: string)
    requires name in base.pipelines && name in target.pipelines
    requires !SameShape(base.pipelines[name], target.pipelines[name])
    ensures var b, t := base.pipelines[name], target.pipelines[name];
            var e := PipelineEntry(base, target, name);
            && e.Some?
            && (rule in e.value.rules <==>
                || (rule == "pipeline_broken" && (t.exporters == [] || t.receivers == []))
                || (rule == "pipeline_exporter_set_changed" && t.exporters != [] && Gone(b.exporters, t.exporters))
                || exists id | id in b.processors :: id !in t.processors && rule == GuardRule(id) && rule != "")
  {
    var b, t := base.pipelines[name], target.pipelines[name];
    ShapesDiffer(b, t);
    RefsAre(InReceivers, b.receivers, t.receivers);
    RefsAre(InProcessors, b.processors, t.processors);
    RefsAre(InExporters, b.exporters, t.exporters);
    RuleOfRefs(b, t, rule);
  }

  /** Sampling counts before the memory limit, and that before batching. */
  function GuardRule(id: string): string {
    if Samples(id) then "sampling_guard_removed"
    else if TypeOf(id) == "memory_limiter" then "memory_limiter_removed_from_pipeline"
    else if TypeOf(id) == "batch" then "batch_processor_removed_from_pipeline" else ""
  }

  lemma RuleOfRefs(b: Shape, t: Shape, rule: string)
    ensures (exists r | r in AllRefChanges(b, t) :: r.reason == rule && rule != "") <==>
            || (rule == "pipeline_broken" && t.exporters == [] && b.exporters != [])
            || (rule == "pipeline_exporter_set_changed" && t.exporters != [] && Gone(b.exporters, t.exporters))
            || exists id | id in b.processors :: id !in t.processors && rule == GuardRule(id) && rule != ""
  {
    RefsAre(InReceivers, b.receivers, t.receivers);
    RefsAre(InProcessors, b.processors, t.processors);
    RefsAre(InExporters, b.exporters, t.exporters);
    if t.exporters == [] && b.exporters != [] {
      assert b.exporters[0] in b.exporters && b.exporters[0] !in t.exporters;
    }
  }
}
