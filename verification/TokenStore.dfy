/**
 Managed OpAMP tokens and the audit events that their mutations enqueue.  Every
 mutation is one transaction over the token row and the outbox; its commit may
 fail without saying whether it took effect.  Times are numbers, with 0 for the
 zero time; strings are byte strings.
 */
module TokenStore {
  import opened Basics
  import opened Text

  const CREATE := "opamp.token.create"
  const REVOKE := "opamp.token.revoke"
  const RESOURCE := "opamp_token"
  const ACTIVITY_WINDOW := 30
  const DIGEST_SIZE := 32

  datatype Token = Token(createdAt: int, createdBy: string, expiresAt: Option<int>, hash: seq<int>,
                         lastUsedAt: Option<int>, revokedAt: Option<int>, revokedBy: string)

  datatype AuditEvent = AuditEvent(id: string, occurredAt: int, action: string, userID: string, email: string,
                                   resource: string, resourceID: string, detail: string)

  datatype Store = Store(tokens: map<string, Token>, events: map<string, AuditEvent>)

  // ----- validation -----

  /** The text form that a parsed UUID prints as. */
  predicate IsCanonicalUUID(s: string) {
    && |s| == 36
    && forall i | 0 <= i < 36 ::
         if i == 8 || i == 13 || i == 18 || i == 23 then s[i] == '-'
         else '0' <= s[i] <= '9' || 'a' <= s[i] <= 'f'
  }

  predicate FieldOk(s: string, max: nat) {
    |s| <= max && '\r' !in s && '\n' !in s
  }

  predicate ValidEvent(ev: AuditEvent, action: string, tokenID: string, actor: string, occurredAt: int) {
    && IsCanonicalUUID(ev.id)
    && ev.occurredAt != 0 && ev.occurredAt == occurredAt
    && ev.action == action && ev.resource == RESOURCE
    && ev.resourceID == tokenID && IsCanonicalUUID(ev.resourceID)
    && !IsBlank(actor) && ev.userID == actor
    && ev.detail == ""
    && FieldOk(ev.id, 128) && FieldOk(ev.action, 128) && FieldOk(ev.userID, 256) && FieldOk(ev.email, 320)
    && FieldOk(ev.resource, 128) && FieldOk(ev.resourceID, 256) && FieldOk(ev.detail, 4096)
  }

  predicate ValidNew(id: string, t: Token, ev: AuditEvent) {
    && IsCanonicalUUID(id) && t.createdAt != 0
    && ValidEvent(ev, CREATE, id, t.createdBy, t.createdAt)
    && (t.expiresAt.Some? ==> t.expiresAt.value != 0)
    && t.lastUsedAt.None? && t.revokedAt.None? && t.revokedBy == ""
  }

  // ----- transactions as steps of the store -----

  /** How a transaction ends: it commits, fails before the commit, or fails in the commit with or without effect. */
  datatype Fate = Commits | Aborts | Unknown(applied: bool)

  predicate TakesEffect(f: Fate) {
    f.Commits? || (f.Unknown? && f.applied)
  }

  datatype Outcome = Invalid | NotFound | Failed | CommitUnknown | Unchanged | Done

  function Report(f: Fate): Outcome {
    match f
    case Commits => Done
    case Aborts => Failed
    case Unknown(_) => CommitUnknown
  }

  predicate CanCreate(st: Store, id: string, t: Token, ev: AuditEvent) {
    ValidNew(id, t, ev) && id !in st.tokens && ev.id !in st.events
  }

  function AfterCreate(st: Store, id: string, t: Token, ev: AuditEvent, f: Fate): Store {
    if CanCreate(st, id, t, ev) && TakesEffect(f)
    then Store(st.tokens[id := t], st.events[ev.id := ev])
    else st
  }

  predicate CanRevoke(st: Store, id: string, actor: string, now: int, ev: AuditEvent) {
    && IsCanonicalUUID(id) && now != 0 && ValidEvent(ev, REVOKE, id, actor, now)
    && id in st.tokens && st.tokens[id].revokedAt.None? && ev.id !in st.events
  }

  function AfterRevoke(st: Store, id: string, actor: string, now: int, ev: AuditEvent, f: Fate): Store {
    if CanRevoke(st, id, actor, now, ev) && TakesEffect(f)
    then Store(st.tokens[id := st.tokens[id].(revokedAt := Some(now), revokedBy := actor)], st.events[ev.id := ev])
    else st
  }

  predicate Live(t: Token, now: int) {
    t.revokedAt.None? && (t.expiresAt.None? || t.expiresAt.value > now)
  }

  predicate WindowPassed(t: Token, now: int) {
    t.lastUsedAt.None? || t.lastUsedAt.value <= now - ACTIVITY_WINDOW
  }

  function AfterUse(st: Store, id: string, now: int, f: Fate): Store {
    if IsCanonicalUUID(id) && id in st.tokens && Live(st.tokens[id], now) && WindowPassed(st.tokens[id], now)
       && TakesEffect(f)
    then st.(tokens := st.tokens[id := st.tokens[id].(lastUsedAt := Some(now))])
    else st
  }

  /** What validation says: who the token is, that it is not valid, or that its stored digest is damaged. */
  datatype Validity = Principal(id: string, expiresAt: Option<int>) | NotValid | CorruptDigest

  // ----- the object -----

  class Tokens {
    var tokens: map<string, Token>
    var events: map<string, AuditEvent>

    ghost function Value(): Store
      reads this
    {
      Store(tokens, events)
    }

    constructor ()
      ensures Value() == Store(map[], map[])
    {
      tokens, events := map[], map[];
    }

    /** INSERT with event_id as primary key. */
    static method InsertEvent(events: map<string, AuditEvent>, ev: AuditEvent)
      returns (ok: bool, after: map<string, AuditEvent>)
      ensures ok <==> ev.id !in events
      ensures after == if ok then events[ev.id := ev] else events
    {
      ok := ev.id !in events;
      after := if ok then events[ev.id := ev] else events;
    }

    method Commit(f: Fate, tx: map<string, Token>, outbox: map<string, AuditEvent>) returns (res: Outcome)
      modifies this
      ensures res == Report(f)
      ensures Value() == if TakesEffect(f) then Store(tx, outbox) else old(Value())
    {
      if TakesEffect(f) {
        tokens, events := tx, outbox;
      }
      res := Report(f);
    }

    /** CreateOpAMPToken. */
    method Create(id: string, t: Token, ev: AuditEvent, f: Fate) returns (res: Outcome)
      modifies this
      ensures Value() == AfterCreate(old(Value()), id, t, ev, f)
      ensures res == if !ValidNew(id, t, ev) then Invalid
                     else if CanCreate(old(Value()), id, t, ev) then Report(f) else Failed
    {
      if !ValidNew(id, t, ev) {
        return Invalid;
      }
      if id in tokens {
        return Failed;
      }
      var tx := tokens[id := t];
      var ok, outbox := InsertEvent(events, ev);
      if !ok {
        return Failed;
      }
      res := Commit(f, tx, outbox);
    }

    /** RevokeOpAMPToken. */
    method Revoke(id: string, actor: string, now: int, ev: AuditEvent, f: Fate) returns (res: Outcome)
      modifies this
      ensures Value() == AfterRevoke(old(Value()), id, actor, now, ev, f)
      ensures !IsCanonicalUUID(id) ==> res == NotFound
      ensures IsCanonicalUUID(id) && !(now != 0 && ValidEvent(ev, REVOKE, id, actor, now)) ==> res == Invalid
      ensures CanRevoke(old(Value()), id, actor, now, ev) ==> res == Report(f)
      ensures res == Unchanged ==> id in tokens && tokens[id].revokedAt.Some?
      ensures res == Done ==> id in tokens && tokens[id].revokedAt == Some(now) && tokens[id].revokedBy == actor
    {
      if !IsCanonicalUUID(id) {
        return NotFound;
      }
      if now == 0 || !ValidEvent(ev, REVOKE, id, actor, now) {
        return Invalid;
      }
      if id !in tokens {
        return NotFound;
      }
      if tokens[id].revokedAt.Some? {
        return Unchanged;
      }
      var tx := tokens[id := tokens[id].(revokedAt := Some(now), revokedBy := actor)];
      var ok, outbox := InsertEvent(events, ev);
      if !ok {
        return Failed;
      }
      res := Commit(f, tx, outbox);
    }

    /** MarkOpAMPTokenUsed. */
    method MarkUsed(id: string, now: int, f: Fate) returns (res: Outcome)
      modifies this
      ensures Value() == AfterUse(old(Value()), id, now, f)
      ensures res == if IsCanonicalUUID(id) && id in old(tokens) && old(tokens)[id].revokedAt.None?
                        && (old(tokens)[id].expiresAt.None? || now < old(tokens)[id].expiresAt.value) then Report(f)
                     else Invalid
    {
      if !IsCanonicalUUID(id) || id !in tokens || !Live(tokens[id], now) {
        return Invalid;
      }
      var tx := tokens;
      if WindowPassed(tokens[id], now) {
        tx := tx[id := tx[id].(lastUsedAt := Some(now))];
      }
      res := Commit(f, tx, events);
    }

    /** ValidateOpAMPToken; an unknown token is compared with the dummy digest. */
    method Validate(id: string, hash: seq<int>, dummy: seq<int>, now: int) returns (res: Validity)
      requires |hash| == |dummy| == DIGEST_SIZE
      ensures res == CorruptDigest <==> IsCanonicalUUID(id) && id in tokens && |tokens[id].hash| != DIGEST_SIZE
      ensures res.Principal? <==>
              && IsCanonicalUUID(id) && id in tokens && tokens[id].hash == hash && tokens[id].revokedAt.None?
              && (tokens[id].expiresAt.None? || now < tokens[id].expiresAt.value)
      ensures res.Principal? ==> res == Principal(id, tokens[id].expiresAt)
    {
      if !IsCanonicalUUID(id) {
        return NotValid;
      }
      var comparison := dummy;
      var found := id in tokens;
      if found && |tokens[id].hash| != |comparison| {
        return CorruptDigest;
      }
      if found {
        comparison := tokens[id].hash;
      }
      var matches := hash == comparison;
      if !found || !matches || tokens[id].revokedAt.Some?
         || (tokens[id].expiresAt.Some? && !(tokens[id].expiresAt.value > now)) {
        return NotValid;
      }
      return Principal(id, tokens[id].expiresAt);
    }
  }

  // ----- runs -----

  datatype Step =
    | Create(id: string, t: Token, ev: AuditEvent, fate: Fate)
    | Revoke(id: string, actor: string, now: int, ev: AuditEvent, fate: Fate)
    | MarkUsed(id: string, now: int, fate: Fate)

  function Apply(st: Store, s: Step): Store {
    match s
    case Create(id, t, ev, f) => AfterCreate(st, id, t, ev, f)
    case Revoke(id, actor, now, ev, f) => AfterRevoke(st, id, actor, now, ev, f)
    case MarkUsed(id, now, f) => AfterUse(st, id, now, f)
  }

  function Exec(steps: seq<Step>): Store {
    if steps == [] then Store(map[], map[]) else Apply(Exec(steps[..|steps| - 1]), steps[|steps| - 1])
  }

  /** The events of one kind for one token. */
  ghost function EventsFor(events: map<string, AuditEvent>, action: string, id: string): set<string> {
    set e | e in events && events[e].action == action && events[e].resourceID == id
  }

  /** A token has exactly one create event, and exactly one revoke event when it is revoked and none otherwise;
      the events carry the time and actor of the mutation. */
  ghost predicate Audited(st: Store, id: string) {
    var created, revoked := EventsFor(st.events, CREATE, id), EventsFor(st.events, REVOKE, id);
    if id in st.tokens then
      var t := st.tokens[id];
      && (exists e :: created == {e} && st.events[e].occurredAt == t.createdAt && st.events[e].userID == t.createdBy)
      && (if t.revokedAt.Some?
          then exists e ::
                 && revoked == {e} && st.events[e].occurredAt == t.revokedAt.value
                 && st.events[e].userID == t.revokedBy
          else revoked == {})
    else created == {} && revoked == {}
  }

  lemma OtherEvents(events: map<string, AuditEvent>, ev: AuditEvent, action: string, id: string)
    requires ev.id !in events
    ensures EventsFor(events[ev.id := ev], action, id) ==
            if ev.action == action && ev.resourceID == id then EventsFor(events, action, id) + {ev.id}
            else EventsFor(events, action, id)
  {
  }

  lemma StepAudited(st: Store, s: Step, id: string)
    requires Audited(st, id)
    ensures Audited(Apply(st, s), id)
  {
    match s
    case Create(i, t, ev, f) =>
      if CanCreate(st, i, t, ev) && TakesEffect(f) {
        OtherEvents(st.events, ev, CREATE, id);
        OtherEvents(st.events, ev, REVOKE, id);
        if i == id {
          assert EventsFor(Apply(st, s).events, CREATE, id) == {ev.id};
        }
      }
    case Revoke(i, actor, now, ev, f) =>
      if CanRevoke(st, i, actor, now, ev) && TakesEffect(f) {
        OtherEvents(st.events, ev, CREATE, id);
        OtherEvents(st.events, ev, REVOKE, id);
        if i == id {
          assert EventsFor(Apply(st, s).events, REVOKE, id) == {ev.id};
        }
      }
    case MarkUsed(_, _, _) =>
  }

  /** In every reachable store every token is audited, whatever transactions aborted or committed unknown. */
  lemma {:induction false} AlwaysAudited(steps: seq<Step>, id: string)
    ensures Audited(Exec(steps), id)
  {
    if steps == [] {
    } else {
      AlwaysAudited(steps[..|steps| - 1], id);
      StepAudited(Exec(steps[..|steps| - 1]), steps[|steps| - 1], id);
    }
  }

  lemma StepKeepsEvents(st: Store, s: Step, e: string)
    requires e in st.events
    ensures e in Apply(st, s).events && Apply(st, s).events[e] == st.events[e]
  {
  }

  /** An event that was enqueued is never overwritten: its id is inserted once. */
  lemma {:induction false} EventsStay(steps: seq<Step>, more: seq<Step>, e: string)
    requires e in Exec(steps).events
    ensures e in Exec(steps + more).events && Exec(steps + more).events[e] == Exec(steps).events[e]
  {
    if more == [] {
      assert steps + more == steps;
    } else {
      var init := more[..|more| - 1];
      EventsStay(steps, init, e);
      assert (steps + more)[..|steps + more| - 1] == steps + init;
      StepKeepsEvents(Exec(steps + init), more[|more| - 1], e);
    }
  }

  /** Digests of the right size stay so: validation never finds a damaged one. */
  lemma {:induction false} DigestsStay(steps: seq<Step>, id: string)
    requires forall i | 0 <= i < |steps| && steps[i].Create? :: |steps[i].t.hash| == DIGEST_SIZE
    requires id in Exec(steps).tokens
    ensures |Exec(steps).tokens[id].hash| == DIGEST_SIZE
  {
    if steps == [] {
    } else {
      var init := steps[..|steps| - 1];
      if id in Exec(init).tokens {
        DigestsStay(init, id);
      }
    }
  }

  /** An unknown commit leaves both the row and its event, or neither. */
  lemma UnknownIsBothOrNeither(st: Store, s: Step)
    requires s.fate.Unknown?
    ensures Apply(st, s) == st || Apply(st, s) == Apply(st, s.(fate := Commits))
    ensures !s.MarkUsed? ==> (Apply(st, s).tokens != st.tokens <==> Apply(st, s).events != st.events)
  {
    match s
    case Create(i, t, ev, f) =>
      if CanCreate(st, i, t, ev) && TakesEffect(f) {
        assert i in Apply(st, s).tokens && ev.id in Apply(st, s).events;
      }
    case Revoke(i, actor, now, ev, f) =>
      if CanRevoke(st, i, actor, now, ev) && TakesEffect(f) {
        assert Apply(st, s).tokens[i].revokedAt.Some? && ev.id in Apply(st, s).events;
      }
    case MarkUsed(_, _, _) =>
  }

  /** A revoked token stays exactly as it is: later revokes change nothing and later uses are refused. */
  lemma RevokedStep(st: Store, s: Step, id: string)
    requires id in st.tokens && st.tokens[id].revokedAt.Some?
    ensures id in Apply(st, s).tokens && Apply(st, s).tokens[id] == st.tokens[id]
    ensures s.Revoke? && s.id == id ==> Apply(st, s) == st
    ensures s.MarkUsed? && s.id == id ==> Apply(st, s) == st
  {
  }

  lemma {:induction false} RevokedForGood(steps: seq<Step>, more: seq<Step>, id: string)
    requires id in Exec(steps).tokens && Exec(steps).tokens[id].revokedAt.Some?
    ensures id in Exec(steps + more).tokens && Exec(steps + more).tokens[id] == Exec(steps).tokens[id]
    ensures forall now :: !Live(Exec(steps + more).tokens[id], now)
  {
    if more == [] {
      assert steps + more == steps;
    } else {
      var init := more[..|more| - 1];
      RevokedForGood(steps, init, id);
      assert (steps + more)[..|steps + more| - 1] == steps + init;
      RevokedStep(Exec(steps + init), more[|more| - 1], id);
    }
  }

  // ----- from creation to expiry or revocation -----

  /** Step `i` brought the token into the store. */
  predicate CreatedAt(steps: seq<Step>, i: nat, id: string)
    requires i < |steps|
  {
    && steps[i].Create? && steps[i].id == id && TakesEffect(steps[i].fate)
    && id !in Exec(steps[..i]).tokens && id in Exec(steps[..i + 1]).tokens
  }

  /** Step `i` is a revocation of the token that took effect. */
  predicate RevokedAt(steps: seq<Step>, i: nat, id: string)
    requires i < |steps|
  {
    && steps[i].Revoke? && steps[i].id == id && TakesEffect(steps[i].fate)
    && id in Exec(steps[..i]).tokens && Exec(steps[..i]).tokens[id].revokedAt.None?
    && id in Exec(steps[..i + 1]).tokens
    && Exec(steps[..i + 1]).tokens[id] ==
       Exec(steps[..i]).tokens[id].(revokedAt := Some(steps[i].now), revokedBy := steps[i].actor)
  }

  lemma PrefixSteps(steps: seq<Step>, i: nat, id: string)
    requires i < |steps| - 1
    ensures CreatedAt(steps[..|steps| - 1], i, id) <==> CreatedAt(steps, i, id)
    ensures RevokedAt(steps[..|steps| - 1], i, id) <==> RevokedAt(steps, i, id)
  {
    assert steps[..|steps| - 1][..i] == steps[..i] && steps[..|steps| - 1][..i + 1] == steps[..i + 1];
  }

  lemma StepKeepsMaking(st: Store, s: Step, id: string)
    requires id in st.tokens
    ensures id in Apply(st, s).tokens
    ensures var t, c := Apply(st, s).tokens[id], st.tokens[id];
            t.hash == c.hash && t.expiresAt == c.expiresAt && t.createdAt == c.createdAt && t.createdBy == c.createdBy
  {
  }

  /** Every stored token was brought in by some step, and keeps its digest, its expiry and its maker. */
  lemma {:induction false} StoredWasCreated(steps: seq<Step>, id: string) returns (i: nat)
    requires id in Exec(steps).tokens
    ensures i < |steps| && CreatedAt(steps, i, id)
    ensures var t, c := Exec(steps).tokens[id], steps[i].t;
            t.hash == c.hash && t.expiresAt == c.expiresAt && t.createdAt == c.createdAt && t.createdBy == c.createdBy
  {
    assert steps != [];
    var n := |steps| - 1;
    assert steps[..n + 1] == steps;
    if id in Exec(steps[..n]).tokens {
      i := StoredWasCreated(steps[..n], id);
      PrefixSteps(steps, i, id);
      StepKeepsMaking(Exec(steps[..n]), steps[n], id);
    } else {
      i := n;
    }
  }

  /** A token is revoked exactly when some step revoked it. */
  lemma {:induction false} RevokedIff(steps: seq<Step>, id: string)
    ensures id in Exec(steps).tokens && Exec(steps).tokens[id].revokedAt.Some? <==>
            exists i: nat | i < |steps| :: RevokedAt(steps, i, id)
  {
    if steps == [] {
    } else {
      var n := |steps| - 1;
      var init := steps[..n];
      assert steps[..n + 1] == steps;
      RevokedIff(init, id);
      if i: nat :| i < |init| && RevokedAt(init, i, id) {
        PrefixSteps(steps, i, id);
        RevokedStep(Exec(init), steps[n], id);
      } else if i: nat :| i < |steps| && RevokedAt(steps, i, id) {
        if i < n {
          PrefixSteps(steps, i, id);
        }
      } else if id in Exec(steps).tokens && Exec(steps).tokens[id].revokedAt.Some? {
        assert RevokedAt(steps, n, id);
      }
    }
  }

  /** In every run a token admits a request exactly from the step that created it until a step revokes it or its
      expiry comes. */
  lemma LiveIff(steps: seq<Step>, id: string, now: int)
    ensures id in Exec(steps).tokens && Live(Exec(steps).tokens[id], now) <==>
            && (exists i: nat | i < |steps| ::
                  CreatedAt(steps, i, id) && (steps[i].t.expiresAt.None? || now < steps[i].t.expiresAt.value))
            && (forall i: nat | i < |steps| :: !RevokedAt(steps, i, id))
  {
    RevokedIff(steps, id);
    assert steps[..|steps|] == steps;
    if id in Exec(steps).tokens {
      var k := StoredWasCreated(steps, id);
      forall i: nat | i < |steps| && CreatedAt(steps, i, id) ensures i == k {
        CreatedOnce(steps, i, k, id);
        CreatedOnce(steps, k, i, id);
      }
    } else if i: nat :| i < |steps| && CreatedAt(steps, i, id) {
      TokensStay(steps, i + 1, |steps|, id);
    }
  }

  lemma {:induction false} TokensStay(steps: seq<Step>, i: nat, j: nat, id: string)
    requires i <= j <= |steps| && id in Exec(steps[..i]).tokens
    ensures id in Exec(steps[..j]).tokens
  {
    if i < j {
      TokensStay(steps, i, j - 1, id);
      assert steps[..j][..j - 1] == steps[..j - 1];
    }
  }

  lemma CreatedOnce(steps: seq<Step>, i: nat, j: nat, id: string)
    requires i < |steps| && j < |steps| && CreatedAt(steps, i, id) && CreatedAt(steps, j, id)
    ensures j <= i
  {
    if i < j {
      TokensStay(steps, i + 1, j, id);
    }
  }

  // ----- what the store holds -----

  /** In every reachable store an event is filed under its own UUID, is one of the two kinds, is about a stored
      token, and its fields are short and on one line. */
  lemma {:induction false} EventsAreWellFormed(steps: seq<Step>, e: string)
    requires e in Exec(steps).events
    ensures var ev := Exec(steps).events[e];
            && ev.id == e && |e| == 36 && ev.occurredAt != 0 && ev.resource == "opamp_token" && ev.detail == ""
            && (ev.action == "opamp.token.create" || ev.action == "opamp.token.revoke")
            && ev.resourceID in Exec(steps).tokens
            && |ev.userID| <= 256 && |ev.email| <= 320
            && (exists c :: c in ev.userID && !IsSpace(c))
            && (forall c | c in ev.userID || c in ev.email :: c != '\r' && c != '\n')
  {
    if steps == [] {
    } else {
      var init := steps[..|steps| - 1];
      if e in Exec(init).events {
        EventsAreWellFormed(init, e);
      }
    }
  }

  /** A new token with a canonical UUID and an event about it, both unused and well formed, is stored when the
      transaction commits; a token that carries usage or revocation state never is. */
  lemma CreateAnswers(st: Store, id: string, t: Token, ev: AuditEvent)
    requires IsCanonicalUUID(id) && IsCanonicalUUID(ev.id) && id !in st.tokens && ev.id !in st.events
    requires ev.action == "opamp.token.create" && ev.resource == "opamp_token" && ev.resourceID == id
    requires ev.detail == "" && ev.userID == t.createdBy && ev.occurredAt == t.createdAt
    requires t.createdAt != 0 && t.expiresAt != Some(0) && exists c :: c in t.createdBy && !IsSpace(c)
    requires |ev.userID| <= 256 && |ev.email| <= 320
    requires forall c | c in ev.userID || c in ev.email :: c != '\r' && c != '\n'
    ensures var nx := AfterCreate(st, id, t, ev, Commits);
            if t.lastUsedAt.None? && t.revokedAt.None? && t.revokedBy == ""
            then nx.tokens == st.tokens[id := t] && nx.events == st.events[ev.id := ev]
            else nx == st
  {
    UuidIsOneLine(id);
    UuidIsOneLine(ev.id);
  }

  lemma UuidIsOneLine(s: string)
    requires IsCanonicalUUID(s)
    ensures FieldOk(s, 36)
  {
    forall i | 0 <= i < |s| ensures s[i] != '\r' && s[i] != '\n' {
    }
  }

  /** Activity is recorded exactly when a window has passed since the last record. */
  lemma ActivityWindow(st: Store, id: string, now: int)
    requires IsCanonicalUUID(id) && id in st.tokens && st.tokens[id].revokedAt.None?
    requires st.tokens[id].expiresAt.None? || now < st.tokens[id].expiresAt.value
    ensures var was, nx := st.tokens[id], AfterUse(st, id, now, Commits);
            && id in nx.tokens && nx.events == st.events
            && (forall i | i != id :: i in nx.tokens <==> i in st.tokens)
            && nx.tokens[id].lastUsedAt.Some?
            && nx.tokens[id] == was.(lastUsedAt := nx.tokens[id].lastUsedAt)
            && (was.lastUsedAt.None? || now - was.lastUsedAt.value >= 30 ==> nx.tokens[id].lastUsedAt == Some(now))
            && (was.lastUsedAt.Some? && now - was.lastUsedAt.value < 30 ==> nx == st)
  {
  }
}
