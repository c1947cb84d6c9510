/**
 The in-memory index "who is connected to which workload": two maps that are
 updated together.  `Registry` is the value, `InstanceRegistry` the object.
 */
module Registry {
  import opened Basics

  datatype Instance = Instance(
    uid: string, podName: string, version: string, healthy: bool,
    connectedAt: int, lastMessageAt: int, effectiveConfigHash: string)

  type Bucket = map<string, Instance>

  datatype Registry = Registry(byWorkload: map<string, Bucket>, uidToWL: map<string, string>)

  predicate Listed(r: Registry, wl: string, uid: string) {
    wl in r.byWorkload && uid in r.byWorkload[wl]
  }

  predicate BoundTo(r: Registry, wl: string, uid: string) {
    uid in r.uidToWL && r.uidToWL[uid] == wl
  }

  /** `byWorkload` is exactly `uidToWL` regrouped by workload, with no empty bucket. */
  ghost predicate Regrouped(r: Registry) {
    && (forall wl, uid :: Listed(r, wl, uid) <==> BoundTo(r, wl, uid))
    && (forall wl | wl in r.byWorkload :: r.byWorkload[wl] != map[])
  }

  function BucketOf(m: map<string, Bucket>, wl: string): Bucket {
    if wl in m then m[wl] else map[]
  }

  function DropFrom(m: map<string, Bucket>, wl: string, uid: string): map<string, Bucket> {
    var rest := BucketOf(m, wl) - {uid};
    if rest == map[] then m - {wl} else m[wl := rest]
  }

  function Drop(r: Registry, uid: string): Registry
    requires uid in r.uidToWL
  {
    Registry(DropFrom(r.byWorkload, r.uidToWL[uid], uid), r.uidToWL - {uid})
  }

  function Put(r: Registry, uid: string, wl: string, ins: Instance): Registry {
    Registry(r.byWorkload[wl := BucketOf(r.byWorkload, wl)[uid := ins]], r.uidToWL[uid := wl])
  }

  function Bind(r: Registry, uid: string, wl: string, ins: Instance): Registry {
    Put(if uid in r.uidToWL && r.uidToWL[uid] != wl then Drop(r, uid) else r, uid, wl, ins)
  }

  function Unbind(r: Registry, uid: string): Registry {
    if uid !in r.uidToWL || r.uidToWL[uid] == "" then r else Drop(r, uid)
  }

  /** The instance that is live for a UID, read through both maps. */
  function Lookup(r: Registry, uid: string): Option<Instance> {
    if uid in r.uidToWL && uid in BucketOf(r.byWorkload, r.uidToWL[uid])
    then Some(BucketOf(r.byWorkload, r.uidToWL[uid])[uid])
    else None
  }

  predicate Unhealthy(r: Registry, uid: string) {
    Lookup(r, uid).Some? && !Lookup(r, uid).value.healthy
  }

  lemma DropKeeps(r: Registry, uid: string)
    requires Regrouped(r) && uid in r.uidToWL
    ensures Regrouped(Drop(r, uid))
    ensures forall u | u != uid :: Lookup(Drop(r, uid), u) == Lookup(r, u)
  {
    var n := Drop(r, uid);
    assert BoundTo(r, r.uidToWL[uid], uid);
    var rest := r.byWorkload[r.uidToWL[uid]] - {uid};
    forall w, u ensures Listed(n, w, u) <==> BoundTo(n, w, u) {
      assert Listed(r, w, u) <==> BoundTo(r, w, u);
      assert w == r.uidToWL[uid] ==> (Listed(n, w, u) <==> u in rest);
    }
  }

  lemma PutKeeps(r: Registry, uid: string, wl: string, ins: Instance)
    requires Regrouped(r) && (uid in r.uidToWL ==> r.uidToWL[uid] == wl)
    ensures Regrouped(Put(r, uid, wl, ins))
    ensures Lookup(Put(r, uid, wl, ins), uid) == Some(ins)
    ensures forall u | u != uid :: Lookup(Put(r, uid, wl, ins), u) == Lookup(r, u)
  {
    var n := Put(r, uid, wl, ins);
    forall w, u ensures Listed(n, w, u) <==> BoundTo(n, w, u) {
      assert Listed(r, w, u) <==> BoundTo(r, w, u);
    }
    assert uid in n.byWorkload[wl];
  }

  /** Binding keeps the two maps exact, moves the UID to its new workload and touches no other UID. */
  lemma BindKeeps(r: Registry, uid: string, wl: string, ins: Instance)
    requires Regrouped(r)
    ensures Regrouped(Bind(r, uid, wl, ins))
    ensures Bind(r, uid, wl, ins).uidToWL == r.uidToWL[uid := wl]
    ensures Lookup(Bind(r, uid, wl, ins), uid) == Some(ins)
    ensures forall u | u != uid :: Lookup(Bind(r, uid, wl, ins), u) == Lookup(r, u)
  {
    if uid in r.uidToWL && r.uidToWL[uid] != wl {
      DropKeeps(r, uid);
      PutKeeps(Drop(r, uid), uid, wl, ins);
    } else {
      PutKeeps(r, uid, wl, ins);
    }
  }

  /** Unbinding keeps the two maps exact and touches no other UID; it removes the UID if and only if
      the workload ID it was bound to is not the empty string. */
  lemma UnbindKeeps(r: Registry, uid: string)
    requires Regrouped(r)
    ensures Regrouped(Unbind(r, uid))
    ensures uid !in Unbind(r, uid).uidToWL <==> !(uid in r.uidToWL && r.uidToWL[uid] == "")
    ensures forall u | u != uid :: Lookup(Unbind(r, uid), u) == Lookup(r, u)
    ensures forall u | u != uid :: u in Unbind(r, uid).uidToWL <==> u in r.uidToWL
  {
    if uid in r.uidToWL && r.uidToWL[uid] != "" {
      DropKeeps(r, uid);
    }
  }

  /** A UID bound to the empty workload stays bound. */
  lemma EmptyWorkloadSticks(ins: Instance)
    ensures var r := Bind(Registry(map[], map[]), "a", "", ins);
            Regrouped(r) && "a" in r.uidToWL && Unbind(r, "a") == r
  {
    var empty := Registry(map[], map[]);
    assert forall wl, uid :: !Listed(empty, wl, uid) && !BoundTo(empty, wl, uid);
    BindKeeps(empty, "a", "", ins);
  }

  /** Unbinding right after a first binding restores the registry. */
  lemma BindThenUnbind(r: Registry, uid: string, wl: string, ins: Instance)
    requires Regrouped(r) && uid !in r.uidToWL && wl != ""
    ensures Unbind(Bind(r, uid, wl, ins), uid) == r
  {
    assert !BoundTo(r, wl, uid);
    var b := BucketOf(r.byWorkload, wl)[uid := ins];
    assert b - {uid} == BucketOf(r.byWorkload, wl);
  }

  lemma BucketIsRegrouping(r: Registry, wl: string)
    requires Regrouped(r)
    ensures BucketOf(r.byWorkload, wl).Keys == set uid | uid in r.uidToWL && r.uidToWL[uid] == wl
    ensures forall uid | uid in r.uidToWL :: r.uidToWL[uid] == wl <==> uid in BucketOf(r.byWorkload, wl)
  {
    forall uid ensures uid in BucketOf(r.byWorkload, wl) <==> uid in r.uidToWL && r.uidToWL[uid] == wl {
      assert Listed(r, wl, uid) <==> BoundTo(r, wl, uid);
    }
  }

  const ZERO_TIME := 0

  /** The instance as it is stored: it keeps the time it was connected at, if it has one. */
  function Stamped(ins: Instance, uid: string, connected: int, now: int): Instance {
    ins.(uid := uid, lastMessageAt := now,
         connectedAt := if ins.connectedAt == ZERO_TIME then connected else ins.connectedAt)
  }

  datatype Status = Disconnected | Degraded | Connected

  class InstanceRegistry {
    var byWorkload: map<string, Bucket>
    var uidToWL: map<string, string>

    ghost function Value(): Registry
      reads this
    {
      Registry(byWorkload, uidToWL)
    }

    ghost predicate Valid()
      reads this
    {
      Regrouped(Value())
    }

    constructor ()
      ensures Valid() && uidToWL == map[]
    {
      byWorkload, uidToWL := map[], map[];
    }

    /** delete(byWorkload[wl], uid), then delete the bucket when it became empty. */
    method DropEntry(wl: string, uid: string)
      requires wl in byWorkload
      modifies this`byWorkload
      ensures byWorkload == DropFrom(old(byWorkload), wl, uid)
    {
      var rest := byWorkload[wl] - {uid};
      byWorkload := byWorkload[wl := rest];
      if |rest| == 0 {
        byWorkload := byWorkload - {wl};
      }
    }

    /** Insert into the workload's bucket, which is created when missing. */
    method PutEntry(wl: string, uid: string, ins: Instance)
      modifies this`byWorkload
      ensures byWorkload == old(byWorkload)[wl := BucketOf(old(byWorkload), wl)[uid := ins]]
    {
      if wl !in byWorkload {
        byWorkload := byWorkload[wl := map[]];
      }
      byWorkload := byWorkload[wl := byWorkload[wl][uid := ins]];
    }

    /** `connected` and `now` are the two readings of the clock. */
    method BindInstance(uid: string, workloadID: string, ins: Instance, connected: int, now: int)
      returns (isFresh: bool)
      requires Valid()
      modifies this
      ensures Valid() && Value() == Bind(old(Value()), uid, workloadID, Stamped(ins, uid, connected, now))
      ensures isFresh <==> uid !in old(uidToWL)
      ensures uidToWL == old(uidToWL)[uid := workloadID]
      ensures Lookup(Value(), uid) ==
              Some(ins.(uid := uid, lastMessageAt := now,
                        connectedAt := if ins.connectedAt == 0 then connected else ins.connectedAt))
      ensures forall u | u != uid :: Lookup(Value(), u) == old(Lookup(Value(), u))
    {
      ghost var before := Value();
      isFresh := uid !in uidToWL;
      if !isFresh && uidToWL[uid] != workloadID {
        assert BoundTo(before, uidToWL[uid], uid);
        DropEntry(uidToWL[uid], uid);
      }
      var stored := ins.(uid := uid);
      if stored.connectedAt == ZERO_TIME {
        stored := stored.(connectedAt := connected);
      }
      stored := stored.(lastMessageAt := now);
      PutEntry(workloadID, uid, stored);
      uidToWL := uidToWL[uid := workloadID];
      BindKeeps(before, uid, workloadID, stored);
    }

    method UpdateInstance(uid: string, mutate: Instance -> Instance, now: int) returns (ok: bool)
      requires Valid()
      modifies this
      ensures Valid() && uidToWL == old(uidToWL)
      ensures ok <==> uid in old(uidToWL)
      ensures ok ==> && old(Lookup(Value(), uid)).Some?
                     && Lookup(Value(), uid) == Some(mutate(old(Lookup(Value(), uid)).value).(lastMessageAt := now))
      ensures forall u | u != uid || !ok :: Lookup(Value(), u) == old(Lookup(Value(), u))
    {
      if uid !in uidToWL {
        return false;
      }
      var wl := uidToWL[uid];
      assert BoundTo(Value(), wl, uid);
      var inst := mutate(byWorkload[wl][uid]).(lastMessageAt := now);
      PutKeeps(Value(), uid, wl, inst);
      PutEntry(wl, uid, inst);
      assert uidToWL == uidToWL[uid := wl];
      ok := true;
    }

    method UnbindInstance(uid: string) returns (workloadID: string)
      requires Valid()
      modifies this
      ensures Valid()
      ensures Value() == Unbind(old(Value()), uid)
      ensures workloadID == if uid in old(uidToWL) then old(uidToWL[uid]) else ""
    {
      ghost var before := Value();
      workloadID := if uid in uidToWL then uidToWL[uid] else "";
      if workloadID == "" {
        return;
      }
      assert BoundTo(before, workloadID, uid);
      DropEntry(workloadID, uid);
      uidToWL := uidToWL - {uid};
      UnbindKeeps(before, uid);
    }

    /** Count reads the bucket; by Valid it is the number of UIDs bound to the workload. */
    method Count(workloadID: string) returns (n: nat)
      requires Valid()
      ensures n == |set uid | uid in uidToWL && uidToWL[uid] == workloadID|
    {
      BucketIsRegrouping(Value(), workloadID);
      n := |BucketOf(byWorkload, workloadID)|;
    }

    /** The aggregate over the live instances of a workload, stated on the flat map. */
    method AggregatedStatus(workloadID: string) returns (status: Status)
      requires Valid()
      ensures status == Disconnected <==> forall uid | uid in uidToWL :: uidToWL[uid] != workloadID
      ensures status == Degraded <==>
              exists uid | uid in uidToWL :: uidToWL[uid] == workloadID && Unhealthy(Value(), uid)
    {
      var bucket := BucketOf(byWorkload, workloadID);
      BucketIsRegrouping(Value(), workloadID);
      if |bucket| == 0 {
        assert bucket.Keys == {};
        return Disconnected;
      }
      var todo := bucket.Keys;
      assert exists uid :: uid in bucket.Keys;
      while todo != {}
        invariant todo <= bucket.Keys
        invariant forall uid | uid in bucket && uid !in todo :: bucket[uid].healthy
        decreases |todo|
      {
        var uid :| uid in todo;
        if !bucket[uid].healthy {
          assert Unhealthy(Value(), uid);
          return Degraded;
        }
        todo := todo - {uid};
      }
      return Connected;
    }
  }
}
