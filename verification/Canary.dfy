/**
 A canary rollout: its record, the handlers that read a snapshot of it and write
 it back later, and the OpAMP status updates that change it in a transaction.
 The counters are not stored; every read and write recounts them.
 */
module Canary {
  import opened Basics

  datatype TargetStatus = Applied | Applying | Failed | OtherStatus(text: string)

  datatype StopReason = RemoteConfigFailed | CollectorDegraded | NoHeartbeat | AlertTriggered

  datatype Target = Target(uid: string, status: TargetStatus, stop: Option<StopReason>)

  datatype Status = Running | Succeeded | Promoted | Aborted | RollbackStarted | Stopped | FailedStatus

  datatype Record = Record(status: Status, targets: seq<Target>)

  datatype Counts = Counts(pending: nat, applying: nat, applied: nat, failed: nat)

  // ----- counting -----

  datatype Bucket = InPending | InApplying | InApplied | InFailed

  function BucketOf(s: TargetStatus): Bucket {
    match s
    case Applied => InApplied
    case Applying => InApplying
    case Failed => InFailed
    case OtherStatus(_) => InPending
  }

  function CountIn(ts: seq<Target>, b: Bucket): nat {
    if ts == [] then 0 else CountIn(ts[..|ts| - 1], b) + (if BucketOf(ts[|ts| - 1].status) == b then 1 else 0)
  }

  function CountsOf(ts: seq<Target>): Counts {
    Counts(CountIn(ts, InPending), CountIn(ts, InApplying), CountIn(ts, InApplied), CountIn(ts, InFailed))
  }

  function Reasons(ts: seq<Target>): set<StopReason> {
    set t | t in ts && t.stop.Some? :: t.stop.value
  }

  lemma ReasonsMore(ts: seq<Target>, t: Target)
    ensures Reasons(ts + [t]) == Reasons(ts) + (if t.stop.Some? then {t.stop.value} else {})
  {
    assert forall x :: x in ts + [t] <==> x in ts || x == t;
  }

  lemma NoReasons(ts: seq<Target>)
    ensures Reasons(ts) == {} <==> forall i | 0 <= i < |ts| :: ts[i].stop.None?
  {
    if i :| 0 <= i < |ts| && ts[i].stop.Some? {
      assert ts[i].stop.value in Reasons(ts);
    }
  }

  predicate AllApplied(ts: seq<Target>) {
    forall i | 0 <= i < |ts| :: ts[i].status == Applied
  }

  lemma {:induction false} CountsAddUp(ts: seq<Target>)
    ensures var c := CountsOf(ts); c.pending + c.applying + c.applied + c.failed == |ts|
  {
    if ts == [] {
    } else {
      CountsAddUp(ts[..|ts| - 1]);
    }
  }

  lemma {:induction false} AppliedCount(ts: seq<Target>)
    ensures CountsOf(ts).applied <= |ts| && (CountsOf(ts).applied == |ts| <==> AllApplied(ts))
    ensures CountsOf(ts).failed == 0 <==> forall i | 0 <= i < |ts| :: ts[i].status != Failed
  {
    if ts == [] {
    } else {
      var init := ts[..|ts| - 1];
      AppliedCount(init);
      assert forall i | 0 <= i < |init| :: ts[i] == init[i];
    }
  }

  // ----- what the handlers do to a record -----

  /** What the registry shows of an instance: its last message is recent, and it is healthy. */
  datatype Seen = Seen(recent: bool, healthy: bool)

  function CheckTarget(t: Target, view: map<string, Seen>): Target {
    var known := t.uid in view;
    if known && !view[t.uid].healthy then t.(stop := Some(CollectorDegraded))
    else if !known || !view[t.uid].recent then t.(stop := Some(NoHeartbeat))
    else t
  }

  function CheckTargets(ts: seq<Target>, view: map<string, Seen>): seq<Target> {
    seq(|ts|, i requires 0 <= i < |ts| => CheckTarget(ts[i], view))
  }

  /** loadCanaryWithHealth on a snapshot; an alert stops the canary although its reason is not kept. */
  function Poll(c: Record, view: map<string, Seen>, alert: bool): Record {
    var ts := CheckTargets(c.targets, view);
    var status := if alert then Stopped else c.status;
    Record(if Reasons(ts) != {} && status == Running then Stopped else status, ts)
  }

  predicate FailsCheck(t: Target, view: map<string, Seen>) {
    t.uid !in view || !view[t.uid].recent || !view[t.uid].healthy
  }

  /** Whether loadCanaryWithHealth stores the snapshot it checked. */
  predicate PollChanges(c: Record, view: map<string, Seen>, alert: bool) {
    || alert
    || (exists i | 0 <= i < |c.targets| :: FailsCheck(c.targets[i], view))
    || (c.status == Running && Reasons(c.targets) != {})
  }

  /** What is stored has a stop reason or is stopped; what is not stored was not changed. */
  lemma PollDecides(c: Record, view: map<string, Seen>, alert: bool)
    ensures var p := Poll(c, view, alert);
            if PollChanges(c, view, alert) then p.status == Stopped || Reasons(p.targets) != {} else p == c
  {
    var ts := CheckTargets(c.targets, view);
    if i :| 0 <= i < |c.targets| && FailsCheck(c.targets[i], view) {
      assert ts[i].stop.Some? && ts[i] in ts;
      assert ts[i].stop.value in Reasons(ts);
    } else {
      assert ts == c.targets;
    }
  }

  predicate Promotable(c: Record) {
    c.status == Succeeded && CountsOf(c.targets).failed == 0 && Reasons(c.targets) == {}
    && CountsOf(c.targets).applied == |c.targets|
  }

  /** The first target with the UID, if any. */
  function Find(ts: seq<Target>, uid: string): (i: nat)
    ensures i <= |ts| && (i < |ts| ==> ts[i].uid == uid) && forall j | 0 <= j < i :: ts[j].uid != uid
  {
    if ts == [] || ts[0].uid == uid then 0 else
      var k := Find(ts[1..], uid);
      assert forall j | 0 < j < 1 + k :: ts[j] == ts[1..][j - 1];
      1 + k
  }

  function StatusOf(ts: seq<Target>): Status {
    if CountsOf(ts).failed > 0 then Stopped
    else if |ts| > 0 && CountsOf(ts).applied == |ts| then Succeeded
    else Running
  }

  predicate IsActive(c: Record) {
    c.status == Running || c.status == Succeeded
  }

  /** UpdateCanaryTargetStatus on an active canary. */
  function Reconcile(c: Record, uid: string, s: TargetStatus): Record {
    var i := Find(c.targets, uid);
    if !IsActive(c) || i == |c.targets| then c
    else
      var ts := c.targets[i := Target(uid, s, if s == Failed then Some(RemoteConfigFailed) else None)];
      Record(StatusOf(ts), ts)
  }

  /** markCanaryTargetFailed: every target with the UID. */
  function FailTarget(c: Record, uid: string): Record {
    Record(Stopped, seq(|c.targets|, i requires 0 <= i < |c.targets| =>
                          if c.targets[i].uid == uid then Target(uid, Failed, Some(RemoteConfigFailed))
                          else c.targets[i]))
  }

  // ----- the object -----

  class CanaryStatus {
    var status: Status
    var targets: array<Target>
    var counts: Counts
    var stopReasons: seq<StopReason>

    ghost function Value(): Record
      reads this, targets
    {
      Record(status, targets[..])
    }

    /** The counters and reasons are those of the targets. */
    ghost predicate Counted()
      reads this, targets
    {
      && counts == CountsOf(targets[..])
      && (forall r :: r in stopReasons <==> r in Reasons(targets[..]))
      && (forall i, j | 0 <= i < j < |stopReasons| :: stopReasons[i] != stopReasons[j])
    }

    constructor (c: Record)
      ensures Value() == c && Counted() && fresh(targets)
    {
      status := c.status;
      targets := new Target[|c.targets|](i requires 0 <= i < |c.targets| => c.targets[i]);
      counts, stopReasons := Counts(0, 0, 0, 0), [];
      new;
      assert targets[..] == c.targets;
      Recount();
    }

    /** Recalculates the counters and the stop reasons. */
    method Recount()
      modifies `counts, `stopReasons
      ensures Counted() && Value() == old(Value())
    {
      counts := Counts(0, 0, 0, 0);
      var reasons: set<StopReason> := {};
      for i := 0 to targets.Length
        invariant counts == CountsOf(targets[..i]) && reasons == Reasons(targets[..i])
      {
        var t := targets[i];
        assert targets[..i + 1] == targets[..i] + [t];
        assert (targets[..i] + [t])[..i] == targets[..i];
        ReasonsMore(targets[..i], t);
        match t.status {
          case Applied => counts := counts.(applied := counts.applied + 1);
          case Applying => counts := counts.(applying := counts.applying + 1);
          case Failed => counts := counts.(failed := counts.failed + 1);
          case OtherStatus(_) => counts := counts.(pending := counts.pending + 1);
        }
        if t.stop.Some? {
          reasons := reasons + {t.stop.value};
        }
      }
      assert targets[..targets.Length] == targets[..];
      stopReasons := [];
      while reasons != {}
        invariant counts == CountsOf(targets[..])
        invariant forall r :: r in stopReasons || r in reasons <==> r in Reasons(targets[..])
        invariant forall r | r in stopReasons :: r !in reasons
        invariant forall i, j | 0 <= i < j < |stopReasons| :: stopReasons[i] != stopReasons[j]
        decreases reasons
      {
        var r :| r in reasons;
        reasons := reasons - {r};
        stopReasons := stopReasons + [r];
      }
    }

    /** The loop of loadCanaryWithHealth over the targets. */
    method CheckHealth(view: map<string, Seen>, alert: bool) returns (changed: bool)
      modifies this, targets
      ensures Value() == Poll(old(Value()), view, alert) && Counted()
      ensures changed <==> PollChanges(old(Value()), view, alert)
      ensures targets == old(targets)
    {
      ghost var c := Value();
      changed := false;
      for i := 0 to targets.Length
        invariant targets == old(targets) && status == c.status
        invariant targets[..i] == CheckTargets(c.targets, view)[..i] && targets[i..] == c.targets[i..]
        invariant changed <==> exists j | 0 <= j < i :: FailsCheck(c.targets[j], view)
      {
        var t := targets[i];
        assert t == c.targets[i];
        var known := t.uid in view;
        if !known || !view[t.uid].recent {
          targets[i] := t.(stop := Some(NoHeartbeat));
          changed := true;
        }
        if known && !view[t.uid].healthy {
          targets[i] := t.(stop := Some(CollectorDegraded));
          changed := true;
        }
        assert targets[i] == CheckTargets(c.targets, view)[i];
      }
      assert targets[..] == CheckTargets(c.targets, view);
      assert !changed ==> targets[..] == c.targets;
      if alert {
        status := Stopped;
        changed := true;
      }
      Recount();
      assert stopReasons != [] <==> Reasons(targets[..]) != {} by {
        if stopReasons != [] {
          assert stopReasons[0] in Reasons(targets[..]);
        }
        if r :| r in Reasons(targets[..]) {
          assert r in stopReasons;
        }
      }
      if |stopReasons| > 0 && status == Running {
        status := Stopped;
        changed := true;
      }
    }

    /** The body of UpdateCanaryTargetStatus for one active canary. */
    method Update(uid: string, s: TargetStatus) returns (changed: bool)
      requires IsActive(Value())
      modifies this, targets
      ensures Value() == Reconcile(old(Value()), uid, s) && targets == old(targets)
      ensures changed <==> exists i | 0 <= i < |old(targets[..])| :: old(targets[..])[i].uid == uid
      ensures changed ==> Counted()
      ensures changed ==> (status == Stopped <==> exists i | 0 <= i < targets.Length :: targets[i].status == Failed)
      ensures changed ==> (status == Succeeded <==> forall i | 0 <= i < targets.Length :: targets[i].status == Applied)
      ensures changed ==> status == Stopped || status == Succeeded || status == Running
      ensures !changed ==> Value() == old(Value())
    {
      ghost var c := Value();
      var i := 0;
      while i < targets.Length && targets[i].uid != uid
        invariant 0 <= i <= targets.Length
        invariant forall j | 0 <= j < i :: targets[j].uid != uid
      {
        i := i + 1;
      }
      assert i == Find(c.targets, uid);
      changed := i < targets.Length;
      if changed {
        assert c.targets[i].uid == uid;
        targets[i] := Target(uid, s, if s == Failed then Some(RemoteConfigFailed) else None);
        assert targets[..] == c.targets[i := targets[i]];
        Recount();
        AppliedCount(targets[..]);
        if counts.failed > 0 {
          status := Stopped;
        } else if targets.Length > 0 && counts.applied == targets.Length {
          status := Succeeded;
        } else {
          status := Running;
        }
      }
    }
  }

  // ----- handlers with possibly stale snapshots -----

  /** What a handler in flight has left to do with the record it read. */
  datatype Stage =
    | Pushing      // handleStartCanary, between recording the canary and its last push
    | Loaded       // an abort or a rollback
    | MustStore    // loadCanaryWithHealth has changed its snapshot and not stored it yet
    | Checked      // loadCanaryWithHealth has returned; only a promotion goes on

  datatype Handler = Handler(local: Record, stage: Stage)

  datatype State = State(record: Record, handlers: map<nat, Handler>)

  /** Every write may be lost: the handlers ignore its error. */
  datatype Event =
    | OpAMP(uid: string, s: TargetStatus)
    | Load(h: nat)
    | LoadWithHealth(h: nat, view: map<string, Seen>, alert: bool)
    | WriteBack(h: nat, stored: bool)
    | Promote(h: nat, pushed: bool, stored: bool)
    | Abort(h: nat, stored: bool)
    | Rollback(h: nat, pushed: bool, stored: bool)
    | PushFailed(h: nat, uid: string, stored: bool)

  predicate InStage(st: State, h: nat, stage: Stage) {
    h in st.handlers && st.handlers[h].stage == stage
  }

  predicate Enabled(st: State, e: Event) {
    match e
    case OpAMP(_, _) => true
    case Load(h) => h !in st.handlers
    case LoadWithHealth(h, _, _) => h !in st.handlers
    case WriteBack(h, _) => InStage(st, h, MustStore)
    case Promote(h, _, _) => InStage(st, h, Checked) && Promotable(st.handlers[h].local)
    case Abort(h, _) => InStage(st, h, Loaded)
    case Rollback(h, _, _) => InStage(st, h, Loaded)
    case PushFailed(h, uid, _) =>
      && InStage(st, h, Pushing)
      && exists i | 0 <= i < |st.handlers[h].local.targets| :: st.handlers[h].local.targets[i].uid == uid
  }

  /** The handler's last write: it stores `c`, unless the write is lost, and ends. */
  function Finish(st: State, h: nat, c: Record, stored: bool): State {
    State(if stored then c else st.record, st.handlers - {h})
  }

  function Apply(st: State, e: Event): State
    requires Enabled(st, e)
  {
    match e
    case OpAMP(uid, s) => st.(record := Reconcile(st.record, uid, s))
    case Load(h) => st.(handlers := st.handlers[h := Handler(st.record, Loaded)])
    case LoadWithHealth(h, view, alert) =>
      var stage := if PollChanges(st.record, view, alert) then MustStore else Checked;
      st.(handlers := st.handlers[h := Handler(Poll(st.record, view, alert), stage)])
    case WriteBack(h, stored) =>
      var c := st.handlers[h].local;
      State(if stored then c else st.record, st.handlers[h := Handler(c, Checked)])
    case Promote(h, pushed, stored) =>
      Finish(st, h, st.handlers[h].local.(status := if pushed then Promoted else Stopped), stored)
    case Abort(h, stored) => Finish(st, h, st.handlers[h].local.(status := Aborted), stored)
    case Rollback(h, pushed, stored) =>
      Finish(st, h, st.handlers[h].local.(status := if pushed then RollbackStarted else Stopped), stored)
    case PushFailed(h, uid, stored) => Finish(st, h, FailTarget(st.handlers[h].local, uid), stored)
  }

  predicate DistinctTargets(ts: seq<Target>) {
    forall i, j | 0 <= i < j < |ts| :: ts[i].uid != ts[j].uid
  }

  /** A started canary: its targets, no two the same, were sent the configuration. */
  predicate IsStart(c: Record) {
    && c.status == Running && DistinctTargets(c.targets)
    && forall i | 0 <= i < |c.targets| :: c.targets[i].status.OtherStatus? && c.targets[i].stop.None?
  }

  /** A canary that succeeded or was promoted has targets, and all of them applied the configuration. */
  predicate RecordOk(c: Record) {
    && DistinctTargets(c.targets)
    && (c.status == Succeeded || c.status == Promoted ==> c.targets != [] && AllApplied(c.targets))
  }

  predicate HandlerOk(h: Handler) {
    && RecordOk(h.local)
    && (h.stage == MustStore ==> h.local.status != Running)
  }

  predicate Inv(st: State) {
    RecordOk(st.record) && forall h | h in st.handlers :: HandlerOk(st.handlers[h])
  }

  lemma PollOk(c: Record, view: map<string, Seen>, alert: bool)
    requires RecordOk(c)
    ensures RecordOk(Poll(c, view, alert))
    ensures PollChanges(c, view, alert) ==> Poll(c, view, alert).status != Running
  {
    PollDecides(c, view, alert);
  }

  lemma ReconcileOk(c: Record, uid: string, s: TargetStatus)
    requires RecordOk(c)
    ensures RecordOk(Reconcile(c, uid, s))
  {
    var i := Find(c.targets, uid);
    if IsActive(c) && i < |c.targets| {
      AppliedCount(Reconcile(c, uid, s).targets);
    }
  }

  lemma StepKeeps(st: State, e: Event)
    requires Inv(st) && Enabled(st, e)
    ensures Inv(Apply(st, e))
  {
    match e
    case OpAMP(uid, s) => ReconcileOk(st.record, uid, s);
    case LoadWithHealth(_, view, alert) => PollOk(st.record, view, alert);
    case _ =>
  }

  /** The state in which the start handler has recorded the canary. */
  function Started(start: Record): State {
    State(start, map[0 := Handler(start, Pushing)])
  }

  /** The events one after another; none when one of them cannot happen. */
  function Exec(st: State, es: seq<Event>): Option<State>
    decreases |es|
  {
    if es == [] then Some(st)
    else if Enabled(st, es[0]) then Exec(Apply(st, es[0]), es[1..])
    else None
  }

  lemma {:induction false} RunKeeps(st: State, es: seq<Event>)
    requires Inv(st) && Exec(st, es).Some?
    ensures Inv(Exec(st, es).value)
    decreases |es|
  {
    if es == [] {
    } else {
      StepKeeps(st, es[0]);
      RunKeeps(Apply(st, es[0]), es[1..]);
    }
  }

  /** In every reachable state, stale snapshots written back or not, a succeeded or promoted canary
      has targets and every one of them is applied. */
  lemma AlwaysOk(start: Record, es: seq<Event>)
    requires IsStart(start) && Exec(Started(start), es).Some?
    ensures Inv(Exec(Started(start), es).value)
  {
    RunKeeps(Started(start), es);
  }

  /** Only a handler whose own snapshot is succeeded, complete and without a stop reason promotes. */
  lemma PromotionIsEarned(start: Record, es: seq<Event>, e: Event)
    requires IsStart(start) && Exec(Started(start), es).Some? && Enabled(Exec(Started(start), es).value, e)
    requires e.Promote? && e.pushed && e.stored
    ensures var c := Exec(Started(start), es).value.handlers[e.h].local;
            && c.status == Succeeded && c.targets != [] && AllApplied(c.targets)
            && (forall i | 0 <= i < |c.targets| :: c.targets[i].stop.None?)
    ensures Apply(Exec(Started(start), es).value, e).record.status == Promoted
  {
    AlwaysOk(start, es);
    var c := Exec(Started(start), es).value.handlers[e.h].local;
    NoReasons(c.targets);
    AppliedCount(c.targets);
  }

  /** The record becomes promoted only by that step, or by storing a poll of a promoted record. */
  lemma PromotedOnlyByPromote(st: State, e: Event)
    requires Inv(st) && Enabled(st, e) && Apply(st, e).record.status == Promoted && st.record.status != Promoted
    ensures e.stored
    ensures (e.Promote? && e.pushed) || (e.WriteBack? && st.handlers[e.h].local.status == Promoted)
  {
  }

  // ----- whether an abort is final -----

  /** The step stores a record over an aborted one: a promotion, a rollback or a start whose push failed
      always does, a poll when its result is not aborted: it read another status, or an alert was open. */
  predicate Overwrites(st: State, e: Event)
    requires Enabled(st, e)
  {
    match e
    case Promote(_, _, stored) => stored
    case Rollback(_, _, stored) => stored
    case PushFailed(_, _, stored) => stored
    case WriteBack(h, stored) => stored && st.handlers[h].local.status != Aborted
    case _ => false
  }

  lemma AbortedStays(st: State, e: Event)
    requires Enabled(st, e) && st.record.status == Aborted
    ensures Apply(st, e).record.status == Aborted <==> !Overwrites(st, e)
  {
  }

  /** A handler in flight that can bring an ended canary back: a promotion past its checks, or a poll about
      to store a record that had not ended, or had been promoted. */
  predicate Revives(h: Handler) {
    || (h.stage == Checked && Promotable(h.local))
    || (h.stage == MustStore && (IsActive(h.local) || h.local.status == Promoted))
  }

  /** The canary has ended without a promotion, and nothing in flight can change that. */
  predicate Settled(st: State) {
    && !IsActive(st.record) && st.record.status != Promoted
    && forall h | h in st.handlers :: !Revives(st.handlers[h])
  }

  lemma SettledStep(st: State, e: Event)
    requires Settled(st) && Enabled(st, e)
    ensures Settled(Apply(st, e))
  {
  }

  lemma {:induction false} SettledForGood(st: State, es: seq<Event>)
    requires Settled(st) && Exec(st, es).Some?
    ensures Settled(Exec(st, es).value)
    decreases |es|
  {
    if es == [] {
    } else {
      SettledStep(st, es[0]);
      SettledForGood(Apply(st, es[0]), es[1..]);
    }
  }

  lemma {:induction false} ExecConcat(st: State, es: seq<Event>, more: seq<Event>)
    requires Exec(st, es).Some?
    ensures Exec(st, es + more) == Exec(Exec(st, es).value, more)
    decreases |es|
  {
    if es == [] {
      assert es + more == more;
    } else {
      assert (es + more)[0] == es[0] && (es + more)[1..] == es[1..] + more;
      ExecConcat(Apply(st, es[0]), es[1..], more);
    }
  }

  /** Every target reports success once more. */
  function Reports(ts: seq<Target>): seq<Event> {
    seq(|ts|, i requires 0 <= i < |ts| => OpAMP(ts[i].uid, Applied))
  }

  predicate ClearedUpTo(c: Record, n: nat) {
    && c.status == Succeeded && n <= |c.targets| && RecordOk(c)
    && forall i | 0 <= i < n :: c.targets[i].stop.None?
  }

  lemma ReportClears(c: Record, n: nat)
    requires ClearedUpTo(c, n) && n < |c.targets|
    ensures var d := Reconcile(c, c.targets[n].uid, Applied);
            && ClearedUpTo(d, n + 1) && |d.targets| == |c.targets|
            && forall i | 0 <= i < |c.targets| :: d.targets[i].uid == c.targets[i].uid
  {
    assert Find(c.targets, c.targets[n].uid) == n;
    AppliedCount(Reconcile(c, c.targets[n].uid, Applied).targets);
  }

  /** Reports from the targets after the first `n` clear the remaining stop reasons. */
  lemma {:induction false} ReportsClear(st: State, n: nat)
    requires ClearedUpTo(st.record, n)
    ensures var nx := Exec(st, Reports(st.record.targets)[n..]);
            nx.Some? && nx.value.handlers == st.handlers && ClearedUpTo(nx.value.record, |nx.value.record.targets|)
    decreases |st.record.targets| - n
  {
    var es := Reports(st.record.targets)[n..];
    if n == |st.record.targets| {
      assert es == [];
    } else {
      ReportClears(st.record, n);
      var nx := Apply(st, es[0]);
      assert es[1..] == Reports(nx.record.targets)[n + 1..];
      ReportsClear(nx, n + 1);
    }
  }

  function AllSeen(ts: seq<Target>): map<string, Seen> {
    map t | t in ts :: t.uid := Seen(true, true)
  }

  /** A poll that sees every target of a cleared record healthy lets it be promoted. */
  lemma ClearedPromotes(st: State, h: nat)
    requires h !in st.handlers && ClearedUpTo(st.record, |st.record.targets|)
    ensures var es := [LoadWithHealth(h, AllSeen(st.record.targets), false), Promote(h, true, true)];
            Exec(st, es).Some? && Exec(st, es).value.record.status == Promoted
  {
    var view, c := AllSeen(st.record.targets), st.record;
    var es := [LoadWithHealth(h, view, false), Promote(h, true, true)];
    NoReasons(c.targets);
    AppliedCount(c.targets);
    forall i | 0 <= i < |c.targets| ensures !FailsCheck(c.targets[i], view) {
    }
    PollDecides(c, view, false);
    var mid := Apply(st, es[0]);
    assert es[1..] == [es[1]] && es[1..][1..] == [];
    assert Exec(mid, es[1..]) == Exec(Apply(mid, es[1]), []);
  }

  /** A stale poll brings an ended canary back: its snapshot is stored, the targets report once more, a new
      poll finds nothing wrong and the canary is promoted. */
  lemma StoredPollPromotes(st: State, h: nat) returns (es: seq<Event>)
    requires Inv(st) && InStage(st, h, MustStore) && IsActive(st.handlers[h].local)
    ensures Exec(st, es).Some? && Exec(st, es).value.record.status == Promoted
  {
    var write := WriteBack(h, true);
    var first := Apply(st, write);
    var reports := Reports(first.record.targets);
    assert reports[0..] == reports;
    ReportsClear(first, 0);
    var mid := Exec(first, reports).value;
    var unused := SomeUnused(mid.handlers.Keys);
    ClearedPromotes(mid, unused);
    var last := [LoadWithHealth(unused, AllSeen(mid.record.targets), false), Promote(unused, true, true)];
    ExecConcat(first, reports, last);
    es := [write] + (reports + last);
    assert es[0] == write && es[1..] == reports + last;
  }

  lemma RevivesPromotes(st: State, h: nat) returns (es: seq<Event>)
    requires Inv(st) && h in st.handlers && Revives(st.handlers[h])
    ensures Exec(st, es).Some? && Exec(st, es).value.record.status == Promoted
  {
    var c := st.handlers[h];
    if c.stage == MustStore && IsActive(c.local) {
      es := StoredPollPromotes(st, h);
    } else {
      var e := if c.stage == Checked then Promote(h, true, true) else WriteBack(h, true);
      es := [e];
      assert es[1..] == [] && Exec(st, es) == Exec(Apply(st, e), []);
    }
  }

  /** From a reachable state some run goes on to promote the canary. */
  ghost predicate CanBePromoted(st: State) {
    exists es :: Exec(st, es).Some? && Exec(st, es).value.record.status == Promoted
  }

  /** After an abort, a rollback or a stop the canary can still be promoted exactly when a handler in flight
      at that moment revives it. */
  lemma EndIsFinalIff(start: Record, es: seq<Event>)
    requires IsStart(start) && Exec(Started(start), es).Some?
    requires var c := Exec(Started(start), es).value.record; !IsActive(c) && c.status != Promoted
    ensures var st := Exec(Started(start), es).value;
            CanBePromoted(st) <==> exists h :: h in st.handlers && Revives(st.handlers[h])
  {
    var st := Exec(Started(start), es).value;
    AlwaysOk(start, es);
    if h :| h in st.handlers && Revives(st.handlers[h]) {
      var more := RevivesPromotes(st, h);
    } else if more :| Exec(st, more).Some? && Exec(st, more).value.record.status == Promoted {
      SettledForGood(st, more);
    }
  }

  const SENT := Target("a", OtherStatus("sent"), None)
  const DONE := Target("a", Applied, None)
  const VIEW := map["a" := Seen(true, true)]
  const UNTIL_ABORT := [OpAMP("a", Applied), Load(1), LoadWithHealth(2, VIEW, false), Abort(1, true)]

  /** An aborted canary is promoted by a handler that checked it before the abort. */
  lemma AbortIsNotFinal()
    ensures var start := Record(Running, [SENT]);
            && IsStart(start)
            && Exec(Started(start), UNTIL_ABORT).Some?
            && Exec(Started(start), UNTIL_ABORT).value.record.status == Aborted
            && Exec(Started(start), UNTIL_ABORT + [Promote(2, true, true)]).Some?
            && Exec(Started(start), UNTIL_ABORT + [Promote(2, true, true)]).value.record.status == Promoted
  {
    var start, done, aborted := Record(Running, [SENT]), Record(Succeeded, [DONE]), Record(Aborted, [DONE]);
    Succeeds();
    var s0 := Started(start);
    var s1 := State(done, s0.handlers);
    var s2 := State(done, s1.handlers[1 := Handler(done, Loaded)]);
    var s3 := State(done, s2.handlers[2 := Handler(done, Checked)]);
    var s4 := State(aborted, s3.handlers - {1});
    assert Apply(s0, UNTIL_ABORT[0]) == s1 && Apply(s1, UNTIL_ABORT[1]) == s2;
    assert Apply(s2, UNTIL_ABORT[2]) == s3 && Apply(s3, UNTIL_ABORT[3]) == s4;
    FourSteps(s0, UNTIL_ABORT, s1, s2, s3, s4);
    ExecConcat(s0, UNTIL_ABORT, [Promote(2, true, true)]);
    assert [Promote(2, true, true)][1..] == [];
    assert Exec(s4, [Promote(2, true, true)]) == Exec(Apply(s4, Promote(2, true, true)), []);
  }

  lemma FourSteps(s0: State, es: seq<Event>, s1: State, s2: State, s3: State, s4: State)
    requires |es| == 4
    requires Enabled(s0, es[0]) && Apply(s0, es[0]) == s1 && Enabled(s1, es[1]) && Apply(s1, es[1]) == s2
    requires Enabled(s2, es[2]) && Apply(s2, es[2]) == s3 && Enabled(s3, es[3]) && Apply(s3, es[3]) == s4
    ensures Exec(s0, es) == Some(s4)
  {
    assert es[1..][1..] == es[2..] && es[2..][1..] == es[3..] && es[3..][1..] == [];
    assert Exec(s3, es[3..]) == Exec(s4, []);
    assert Exec(s2, es[2..]) == Exec(s3, es[3..]);
    assert Exec(s1, es[1..]) == Exec(s2, es[2..]);
  }

  lemma Succeeds()
    ensures Reconcile(Record(Running, [SENT]), "a", Applied) == Record(Succeeded, [DONE])
    ensures Poll(Record(Succeeded, [DONE]), VIEW, false) == Record(Succeeded, [DONE])
    ensures !PollChanges(Record(Succeeded, [DONE]), VIEW, false) && Promotable(Record(Succeeded, [DONE]))
  {
    AppliedCount([DONE]);
    assert Reasons([DONE]) == {};
    assert [SENT][0 := DONE] == [DONE];
    PollDecides(Record(Succeeded, [DONE]), VIEW, false);
  }
}
