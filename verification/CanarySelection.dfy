/**
 Choosing the targets of a canary, and the instances that a promotion pushes
 to.  Every check uses one reading of the clock, `now`.
 */
module CanarySelection {
  import opened Basics
  import opened Text

  const FRESHNESS := 120

  /** `lastMessageAt` is absent for the zero time; `capability` when remote-config support is known. */
  datatype Instance = Instance(uid: string, healthy: bool, lastMessageAt: Option<int>, capability: Option<bool>)

  datatype Strategy =
    | One(uid: string)
    | Count(n: int)
    | Percentage(p: int)
    | LabelSelector(matches: bool)
    | Instances(uids: seq<string>)
    | Unsupported

  datatype Problem =
    | UidRequired | CrossWorkload(uid: string) | NotConnected(uid: string)
    | NotPositive | TooMany | Not100 | UnknownStrategy | EmptySet
    | Rejects(uid: string) | Degraded(uid: string) | Stale(uid: string) | NotSmaller

  predicate RejectsRemoteConfig(i: Instance) {
    i.capability == Some(false)
  }

  predicate IsStale(i: Instance, now: int) {
    i.lastMessageAt.None? || now - i.lastMessageAt.value > FRESHNESS
  }

  predicate IsEligible(i: Instance, now: int) {
    !RejectsRemoteConfig(i) && i.healthy && !IsStale(i, now)
  }

  function Eligible(all: seq<Instance>, now: int): (out: seq<Instance>)
    ensures |out| <= |all| && forall i | i in out :: i in all && IsEligible(i, now)
    ensures forall i | i in all && IsEligible(i, now) :: i in out
  {
    if all == [] then []
    else Eligible(all[..|all| - 1], now) + (if IsEligible(all[|all| - 1], now) then [all[|all| - 1]] else [])
  }

  /** UIDs are the keys of the registry: none is empty and no two connected instances share one. */
  predicate UniqueUids(all: seq<Instance>) {
    (forall i | 0 <= i < |all| :: all[i].uid != "") && forall i, j | 0 <= i < j < |all| :: all[i].uid != all[j].uid
  }

  predicate Connected(all: seq<Instance>, uid: string) {
    exists i :: i in all && i.uid == uid
  }

  function ByUid(all: seq<Instance>, uid: string): (i: Instance)
    requires Connected(all, uid)
    ensures i in all && i.uid == uid
  {
    if all[|all| - 1].uid == uid then all[|all| - 1]
    else
      assert all == all[..|all| - 1] + [all[|all| - 1]];
      ByUid(all[..|all| - 1], uid)
  }

  /** ceil(n * p / 100) */
  function Share(n: nat, p: nat): nat {
    (n * p + 99) / 100
  }

  /** Rounding up keeps a share of one to ninety-nine percent within 1..n. */
  lemma ShareInRange(n: nat, p: nat)
    requires 1 <= p <= 99 && n >= 1
    ensures 1 <= Share(n, p) <= n
    ensures 100 * (Share(n, p) - 1) < n * p <= 100 * Share(n, p)
  {
    assert n * p >= 1;
    assert n * p <= n * 99;
  }

  function NonEmpty(uids: seq<string>): seq<string> {
    if uids == [] then []
    else NonEmpty(uids[..|uids| - 1]) + (if uids[|uids| - 1] == "" then [] else [uids[|uids| - 1]])
  }

  predicate NoRepeats<K(==)>(s: seq<K>) {
    forall i, j | 0 <= i < j < |s| :: s[i] != s[j]
  }

  function Uids(all: seq<Instance>): seq<string> {
    seq(|all|, i requires 0 <= i < |all| => all[i].uid)
  }

  // ----- what each strategy picks, before the common checks -----

  /** The picked instances, or nothing when the strategy itself reports a problem. */
  ghost predicate Picks(all: seq<Instance>, now: int, st: Strategy, picked: seq<Instance>) {
    var e := Eligible(all, now);
    match st
    case One(uid) => !IsBlank(uid) && Connected(all, uid) && picked == [ByUid(all, uid)]
    case Count(n) => 0 < n < |e| && picked == e[..n]
    case Percentage(p) => 0 < p < 100 && picked == e[..if |e| == 0 then 0 else Least(Share(|e|, p), |e|)]
    case LabelSelector(matches) => picked == if matches then e else []
    case Instances(uids) =>
      Uids(picked) == NonEmpty(uids) && NoRepeats(Uids(picked)) && forall i | i in picked :: i in all
    case Unsupported => false
  }

  function Least(a: nat, b: nat): nat {
    if a <= b then a else b
  }

  /** A selection that may start a canary: picked, not empty, all eligible, and fewer than the eligible ones. */
  ghost predicate IsValid(all: seq<Instance>, now: int, st: Strategy, targets: seq<Instance>) {
    && Picks(all, now, st, targets) && targets != []
    && (forall i | i in targets :: IsEligible(i, now))
    && |targets| < |Eligible(all, now)|
  }

  /** The check of one selected instance. */
  function Complaints(i: Instance, now: int): seq<Problem> {
    (if RejectsRemoteConfig(i) then [Rejects(i.uid)] else [])
    + (if !i.healthy then [Degraded(i.uid)] else [])
    + (if IsStale(i, now) then [Stale(i.uid)] else [])
  }

  lemma ComplaintsIff(i: Instance, now: int)
    ensures Complaints(i, now) == [] <==> IsEligible(i, now)
  {
  }

  /** An instance may be a target exactly when it is healthy, does not refuse remote configuration, and was heard
      of within the last two minutes. */
  lemma EligibleIff(i: Instance, now: int)
    ensures IsEligible(i, now) <==>
            i.healthy && i.capability != Some(false) && i.lastMessageAt.Some? && i.lastMessageAt.value >= now - 120
  {
  }

  function AllComplaints(s: seq<Instance>, now: int): seq<Problem> {
    if s == [] then [] else AllComplaints(s[..|s| - 1], now) + Complaints(s[|s| - 1], now)
  }

  /** The instance has the fault that the complaint names. */
  predicate HasFault(i: Instance, now: int, x: Problem) {
    || (x == Rejects(i.uid) && i.capability == Some(false))
    || (x == Degraded(i.uid) && !i.healthy)
    || (x == Stale(i.uid) && (i.lastMessageAt.None? || i.lastMessageAt.value < now - 120))
  }

  lemma ComplaintsAre(i: Instance, now: int, x: Problem)
    ensures x in Complaints(i, now) <==> HasFault(i, now, x)
  {
  }

  /** Each complaint names a fault of a selected instance, and no fault is passed over. */
  lemma {:induction false} ComplaintsMean(s: seq<Instance>, now: int, x: Problem)
    ensures x in AllComplaints(s, now) <==> exists i | i in s :: HasFault(i, now, x)
  {
    if s == [] {
    } else {
      var init, last := s[..|s| - 1], s[|s| - 1];
      ComplaintsMean(init, now, x);
      ComplaintsAre(last, now, x);
      assert forall i :: i in s <==> i in init || i == last;
    }
  }

  lemma {:induction false} NoComplaintsIff(s: seq<Instance>, now: int)
    ensures AllComplaints(s, now) == [] <==> forall i | i in s :: IsEligible(i, now)
  {
    if s == [] {
    } else {
      var init, last := s[..|s| - 1], s[|s| - 1];
      NoComplaintsIff(init, now);
      ComplaintsIff(last, now);
      assert forall i :: i in s <==> i in init || i == last;
    }
  }

  /** Why a listed instance that is not connected, or listed before, is a problem. */
  function Missing(uid: string, elsewhere: set<string>): Problem {
    if uid in elsewhere then CrossWorkload(uid) else NotConnected(uid)
  }

  // ----- the program -----

  method CollectEligible(all: seq<Instance>, now: int) returns (out: seq<Instance>)
    ensures out == Eligible(all, now)
  {
    out := [];
    for k := 0 to |all|
      invariant out == Eligible(all[..k], now)
    {
      assert all[..k + 1][..k] == all[..k];
      if IsEligible(all[k], now) {
        out := out + [all[k]];
      }
    }
    assert all[..|all|] == all;
  }

  method Lookup(all: seq<Instance>, uid: string) returns (found: Option<Instance>)
    requires UniqueUids(all)
    ensures found.Some? <==> Connected(all, uid)
    ensures found.Some? ==> found.value == ByUid(all, uid) && found.value in all && found.value.uid == uid
  {
    found := None;
    for k := 0 to |all|
      invariant found.Some? <==> Connected(all[..k], uid)
      invariant found.Some? ==> found.value in all[..k] && found.value.uid == uid
    {
      assert all[..k + 1] == all[..k] + [all[k]];
      if all[k].uid == uid {
        found := Some(all[k]);
      }
    }
    assert all[..|all|] == all;
  }

  /** The strategy switch of selectCanaryTargets; `elsewhere` are the instances bound to other workloads. */
  method Pick(all: seq<Instance>, elsewhere: set<string>, now: int, st: Strategy)
    returns (picked: seq<Instance>, problems: seq<Problem>)
    requires UniqueUids(all)
    ensures problems == [] ==> Picks(all, now, st, picked)
    ensures problems != [] ==> forall s :: !Picks(all, now, st, s)
    ensures problems != [] ==>
              match st
              case One(uid) => problems == [if IsBlank(uid) then UidRequired else Missing(uid, elsewhere)]
              case Count(n) => problems == [if n <= 0 then NotPositive else TooMany]
              case Percentage(p) => problems == [if p <= 0 then NotPositive else Not100]
              case LabelSelector(_) => false
              case Instances(uids) => forall x | x in problems :: exists u :: u in uids && x == Missing(u, elsewhere)
              case Unsupported => problems == [UnknownStrategy]
  {
    picked, problems := [], [];
    var eligible := CollectEligible(all, now);
    match st
    case One(uid) =>
      if IsBlank(uid) {
        problems := [UidRequired];
        return;
      }
      var found := Lookup(all, uid);
      if found.Some? {
        picked := [found.value];
      } else {
        problems := [Missing(uid, elsewhere)];
      }
    case Count(n) =>
      if n <= 0 {
        problems := [NotPositive];
      } else if n >= |eligible| {
        problems := [TooMany];
      } else {
        picked := eligible[..n];
      }
    case Percentage(p) =>
      if p <= 0 {
        problems := [NotPositive];
      } else if p >= 100 {
        problems := [Not100];
      } else if |eligible| > 0 {
        ShareInRange(|eligible|, p);
        picked := eligible[..Share(|eligible|, p)];
      }
    case LabelSelector(matches) =>
      if matches {
        picked := eligible;
      }
    case Instances(uids) =>
      picked, problems := PickListed(all, elsewhere, uids);
    case Unsupported =>
      problems := [UnknownStrategy];
  }

  /** The loop over the listed UIDs: an unknown or repeated one is a problem. */
  method PickListed(all: seq<Instance>, elsewhere: set<string>, uids: seq<string>)
    returns (picked: seq<Instance>, problems: seq<Problem>)
    requires UniqueUids(all)
    ensures problems == [] <==> NoRepeats(NonEmpty(uids)) && forall u | u in NonEmpty(uids) :: Connected(all, u)
    ensures problems == [] ==> Uids(picked) == NonEmpty(uids) && forall i | i in picked :: i in all
    ensures forall x | x in problems :: exists u :: u in uids && x == Missing(u, elsewhere)
  {
    picked, problems := [], [];
    var seen: set<string> := {};
    for k := 0 to |uids|
      invariant problems == [] <==>
                NoRepeats(NonEmpty(uids[..k])) && forall u | u in NonEmpty(uids[..k]) :: Connected(all, u)
      invariant problems == [] ==> Uids(picked) == NonEmpty(uids[..k]) && forall i | i in picked :: i in all
      invariant problems == [] ==> forall u :: u in seen <==> u in NonEmpty(uids[..k])
      invariant forall x | x in problems :: exists u :: u in uids && x == Missing(u, elsewhere)
    {
      var uid := uids[k];
      ghost var before := NonEmpty(uids[..k]);
      assert uids[..k + 1][..k] == uids[..k];
      assert NonEmpty(uids[..k + 1]) == if uid == "" then before else before + [uid];
      var found := Lookup(all, uid);
      assert found.Some? ==> uid != "";
      NoRepeatsMore(before, uid);
      assert uid in before + [uid];
      if found.Some? && uid !in seen {
        assert Uids(picked + [found.value]) == Uids(picked) + [uid];
        picked := picked + [found.value];
        seen := seen + {uid};
      } else if uid != "" {
        assert uid in uids;
        problems := problems + [Missing(uid, elsewhere)];
      }
    }
    assert uids[..|uids|] == uids;
  }

  lemma NoRepeatsMore(s: seq<string>, u: string)
    ensures NoRepeats(s + [u]) <==> NoRepeats(s) && u !in s
    ensures forall x :: x in s + [u] <==> x in s || x == u
  {
    var t := s + [u];
    assert t[|s|] == u && forall i | 0 <= i < |s| :: t[i] == s[i];
    if NoRepeats(t) {
      forall i, j | 0 <= i < j < |s| ensures s[i] != s[j] {
        assert t[i] != t[j];
      }
      forall i | 0 <= i < |s| ensures s[i] != u {
        assert t[i] != t[|s|];
      }
    }
  }

  /** The loop over the selected instances. */
  method CheckPicked(picked: seq<Instance>, now: int) returns (problems: seq<Problem>)
    ensures problems == AllComplaints(picked, now)
    ensures problems == [] <==> forall i | i in picked :: IsEligible(i, now)
  {
    problems := [];
    for k := 0 to |picked|
      invariant problems == AllComplaints(picked[..k], now)
    {
      assert picked[..k + 1][..k] == picked[..k];
      problems := problems + Complaints(picked[k], now);
    }
    assert picked[..|picked|] == picked;
    NoComplaintsIff(picked, now);
  }

  /** selectCanaryTargets: the picked instances with every problem found. */
  method Select(all: seq<Instance>, elsewhere: set<string>, now: int, st: Strategy)
    returns (targets: seq<Instance>, problems: seq<Problem>)
    requires UniqueUids(all)
    ensures problems == [] ==> IsValid(all, now, st, targets)
    ensures problems != [] ==> forall s :: !IsValid(all, now, st, s)
    ensures problems != [] ==>
              forall s | Picks(all, now, st, s) ::
                problems == if s == [] then [EmptySet]
                            else if AllComplaints(s, now) == [] then [NotSmaller] else AllComplaints(s, now)
  {
    var picked, early := Pick(all, elsewhere, now, st);
    if early != [] {
      return [], early;
    }
    if picked == [] {
      PicksUnique(all, now, st, picked);
      return [], [EmptySet];
    }
    problems := CheckPicked(picked, now);
    PicksUnique(all, now, st, picked);
    var eligible := CollectEligible(all, now);
    if problems == [] && |picked| >= |eligible| {
      return [], [NotSmaller];
    }
    targets := picked;
  }

  /** A strategy picks at most one list of instances. */
  lemma PicksUnique(all: seq<Instance>, now: int, st: Strategy, picked: seq<Instance>)
    requires UniqueUids(all) && Picks(all, now, st, picked)
    ensures forall s | Picks(all, now, st, s) :: s == picked
  {
    if st.Instances? {
      forall s | Picks(all, now, st, s) ensures s == picked {
        SameUids(all, s, picked);
      }
    }
  }

  lemma SameUids(all: seq<Instance>, s: seq<Instance>, t: seq<Instance>)
    requires UniqueUids(all) && Uids(s) == Uids(t)
    requires (forall i | i in s :: i in all) && forall i | i in t :: i in all
    ensures s == t
  {
    assert |s| == |Uids(s)| == |Uids(t)| == |t|;
    forall k | 0 <= k < |s| ensures s[k] == t[k] {
      assert Uids(s)[k] == Uids(t)[k];
      assert s[k] in all && t[k] in all;
    }
  }

  // ----- what a valid selection is -----

  lemma {:induction false} EligibleUnique(all: seq<Instance>, now: int)
    requires UniqueUids(all)
    ensures UniqueUids(Eligible(all, now))
  {
    if all == [] {
    } else {
      var init, last := all[..|all| - 1], all[|all| - 1];
      EligibleUnique(init, now);
      forall i | i in Eligible(init, now) ensures i.uid != last.uid {
        assert i in init;
      }
    }
  }

  lemma PickedUnique(all: seq<Instance>, now: int, st: Strategy, picked: seq<Instance>)
    requires UniqueUids(all) && Picks(all, now, st, picked)
    ensures NoRepeats(Uids(picked))
  {
    EligibleUnique(all, now);
    if !st.Instances? {
      assert UniqueUids(picked) || |picked| <= 1;
    }
  }

  ghost function UidSet(s: seq<Instance>): set<string> {
    set i | i in s :: i.uid
  }

  /** A valid selection has no repeated target, is not empty, and leaves some eligible instance out. */
  lemma ValidIsStrictSubset(all: seq<Instance>, now: int, st: Strategy, targets: seq<Instance>)
    requires UniqueUids(all) && IsValid(all, now, st, targets)
    ensures targets != [] && NoRepeats(Uids(targets))
    ensures UidSet(targets) < UidSet(Eligible(all, now))
  {
    var e := Eligible(all, now);
    PickedUnique(all, now, st, targets);
    PickedInAll(all, now, st, targets);
    forall u | u in UidSet(targets) ensures u in UidSet(e) {
      var i :| i in targets && i.uid == u;
      assert i in e;
    }
    UidSetSize(targets);
    EligibleUnique(all, now);
    assert NoRepeats(Uids(e));
    UidSetSize(e);
    var a, b := UidSet(targets), UidSet(e);
    assert a <= b && |a| < |b|;
    assert b <= a ==> a == b;
  }

  /** Every target of a valid selection is connected, healthy, does not refuse remote configuration and was heard
      of within the last two minutes; some other instance is all that too. */
  lemma ValidTargetsAreFit(all: seq<Instance>, now: int, st: Strategy, targets: seq<Instance>)
    requires UniqueUids(all) && IsValid(all, now, st, targets)
    ensures forall t | t in targets ::
              && t in all && t.healthy && t.capability != Some(false)
              && t.lastMessageAt.Some? && t.lastMessageAt.value >= now - 120
    ensures exists i :: i in all && i !in targets && i.healthy && i.capability != Some(false)
                        && i.lastMessageAt.Some? && i.lastMessageAt.value >= now - 120
  {
    PickedInAll(all, now, st, targets);
    ValidIsStrictSubset(all, now, st, targets);
    var u :| u in UidSet(Eligible(all, now)) && u !in UidSet(targets);
    var i :| i in Eligible(all, now) && i.uid == u;
    EligibleIff(i, now);
  }

  lemma PickedInAll(all: seq<Instance>, now: int, st: Strategy, picked: seq<Instance>)
    requires Picks(all, now, st, picked)
    ensures forall i | i in picked :: i in all
  {
  }

  lemma {:induction false} UidSetSize(s: seq<Instance>)
    requires NoRepeats(Uids(s))
    ensures |UidSet(s)| == |s|
  {
    if s == [] {
      assert UidSet(s) == {};
    } else {
      var init, last := s[..|s| - 1], s[|s| - 1];
      forall i, j | 0 <= i < j < |init| ensures Uids(init)[i] != Uids(init)[j] {
        assert Uids(s)[i] != Uids(s)[j];
      }
      UidSetSize(init);
      assert s == init + [last];
      assert UidSet(s) == UidSet(init) + {last.uid};
      forall i | i in init ensures i.uid != last.uid {
        var k :| 0 <= k < |init| && init[k] == i;
        assert Uids(s)[k] != Uids(s)[|s| - 1];
      }
    }
  }

  /** Selecting by labels is never valid: it picks every eligible instance or none. */
  lemma LabelSelectorIsNeverValid(all: seq<Instance>, now: int, matches: bool, targets: seq<Instance>)
    ensures !IsValid(all, now, LabelSelector(matches), targets)
  {
  }

  /** A percentage is valid exactly when its rounded-up share leaves an eligible instance out. */
  lemma PercentageIsValidIff(all: seq<Instance>, now: int, p: int)
    ensures (exists s :: IsValid(all, now, Percentage(p), s)) <==>
            0 < p < 100 && Share(|Eligible(all, now)|, p) < |Eligible(all, now)|
  {
    var e := Eligible(all, now);
    if 0 < p < 100 && |e| > 0 {
      ShareInRange(|e|, p);
      if Share(|e|, p) < |e| {
        var s := e[..Share(|e|, p)];
        assert forall i | i in s :: i in e;
        assert IsValid(all, now, Percentage(p), s);
      }
    }
  }

  // ----- promotion -----

  /** eligibleRemainingTargets: the eligible instances outside the targets, each once. */
  method Remaining(all: seq<Instance>, targets: seq<string>, now: int) returns (out: seq<Instance>)
    requires UniqueUids(all)
    ensures forall i :: i in out <==> i in all && IsEligible(i, now) && i.uid !in targets
    ensures NoRepeats(Uids(out))
    ensures forall i | i in out :: i.healthy && i.capability != Some(false)
                                   && i.lastMessageAt.Some? && i.lastMessageAt.value >= now - 120
  {
    out := [];
    for k := 0 to |all|
      invariant forall i :: i in out <==> i in all[..k] && IsEligible(i, now) && i.uid !in targets
      invariant UniqueUids(out)
    {
      assert all[..k + 1] == all[..k] + [all[k]];
      if all[k].uid !in targets && IsEligible(all[k], now) {
        forall i | i in out ensures i.uid != all[k].uid {
          var j :| 0 <= j < k && all[j] == i;
        }
        out := out + [all[k]];
      }
    }
    assert all[..|all|] == all;
  }
}
