/** Creating and revoking API keys: the order in which one request changes the keys, the
    operator count and the audit log, and what it leaves behind when a call fails. */
module KeyHandlers {
  import opened Common
  import opened OperatorSet
  import Guard = OperatorGuard
  import MintedFile

  datatype Key = Key(operator: bool, tenant: string)

  datatype AuditRecord = AuditRecord(tenant: string, actor: string, action: string, target: Id, detail: map<string, string>)

  datatype Answer = Created | NoContent | NotFound | Conflict | InternalError

  /** How the calls of one revocation end: reading the key, claiming it, the audit record,
      deleting the key; and after a failure the second record, the second look, and settling
      the claim. */
  datatype Fortune = Fortune(gets: bool, begins: Write, audit: Write, delete: Write, failureAudit: Write, looks: bool, settles: Write)

  function RoleName(key: Key): string {
    if key.operator then "operator" else "tenant"
  }

  function RevokeRecord(key: Key, actor: string, id: Id): AuditRecord {
    AuditRecord(key.tenant, actor, "apikey.revoke", id, map["role" := RoleName(key), "tenant" := key.tenant])
  }

  function FailureRecord(key: Key, actor: string, id: Id, error: string): AuditRecord {
    AuditRecord(key.tenant, actor, "apikey.revoke.failed", id, map["role" := RoleName(key), "tenant" := key.tenant, "error" := error])
  }

  /** Only live operator keys are counted, each once. */
  ghost predicate Counted(keys: map<Id, Key>, doc: OpSet) {
    NoDup(doc.ids) && forall id :: id in doc.ids ==> id in keys && keys[id].operator
  }

  ghost predicate OtherOperator(keys: map<Id, Key>, id: Id) {
    exists other :: other in keys && other != id && keys[other].operator
  }

  lemma ClaimLeavesAnother(keys: map<Id, Key>, doc: OpSet, id: Id, now: Time)
    requires Counted(keys, doc) && BeginRevoke(doc, id, now).Claimed?
    ensures OtherOperator(keys, id) && Counted(keys, BeginRevoke(doc, id, now).doc) && id !in BeginRevoke(doc, id, now).doc.ids
  {
    BeginSucceedsIffAnotherIsCounted(doc, id, now);
    var other :| other in doc.ids && other != id;
    assert other in keys && keys[other].operator;
  }

  /** No claim of the last five minutes stands in the way, and another operator is counted. */
  predicate MayRevoke(doc: OpSet, id: Id, now: Time) {
    !(id in doc.revoking && now - doc.revoking[id] < 300) && exists other :: other in doc.ids && other != id
  }

  lemma ClaimedIfAllowed(keys: map<Id, Key>, doc: OpSet, id: Id, now: Time)
    requires Counted(keys, doc)
    ensures BeginRevoke(doc, id, now).Claimed? <==> MayRevoke(doc, id, now)
  {
    BeginSucceedsIffAnotherIsCounted(doc, id, now);
  }

  class Server {
    const bolt: bool
    const doc: OperatorDocument
    var keys: map<Id, Key>
    var log: seq<AuditRecord>
    var bootstrapFile: bool

    ghost predicate Valid()
      reads this, doc
    {
      Counted(keys, doc.Value())
    }

    constructor (bolt: bool)
      ensures Valid() && fresh(doc) && keys == map[] && log == [] && this.bolt == bolt
    {
      this.bolt := bolt;
      doc := new OperatorDocument();
      keys, log, bootstrapFile := map[], [], false;
    }

    /** The key is stored before it is counted, so a failure leaves it live and uncounted. */
    method CreateKey(id: Id, key: Key, put: Write, counts: Write) returns (ok: bool)
      requires Valid() && id !in keys
      modifies this`keys, doc
      ensures Valid()
      ensures keys == if Reaches(put) then old(keys)[id := key] else old(keys)
      ensures doc.Value() == if put.Stored? && key.operator && Reaches(counts) then AddOperator(old(doc.Value()), id) else old(doc.Value())
      ensures ok <==> put.Stored? && (key.operator ==> counts.Stored?)
      ensures ok && key.operator ==> id in doc.Value().ids
    {
      assert id !in doc.Value().ids;
      if Reaches(put) {
        keys := keys[id := key];
      }
      if !put.Stored? {
        return false;
      }
      if key.operator {
        if Reaches(counts) {
          doc.Add(id);
        }
        if !counts.Stored? {
          return false;
        }
      }
      return true;
    }

    /** The count is restored only if the key is still there. */
    method Fail(id: Id, key: Key, rec: AuditRecord, error: string, audited: bool, f: Fortune)
      requires Counted(keys, doc.Value()) && (key.operator ==> id !in doc.Value().ids)
      requires id in keys ==> keys[id] == key
      modifies this`log, doc
      ensures Valid()
      ensures log == if audited && Reaches(f.failureAudit)
                     then old(log) + [rec.(action := "apikey.revoke.failed",
                                           detail := map["role" := RoleName(key), "tenant" := key.tenant, "error" := error])]
                     else old(log)
      ensures doc.Value() == if !key.operator || !f.looks || !Reaches(f.settles) then old(doc.Value())
                             else if id in keys then AddOperator(old(doc.Value()), id)
                             else FinishRevoke(old(doc.Value()), id)
    {
      var record := rec;
      if audited {
        record := record.(action := "apikey.revoke.failed");
        record := record.(detail := map["role" := RoleName(key), "tenant" := key.tenant, "error" := error]);
        if Reaches(f.failureAudit) {
          log := log + [record];
        }
      }
      if key.operator && f.looks && Reaches(f.settles) {
        if id in keys {
          doc.Add(id);
        } else {
          doc.Finish(id);
        }
      }
    }

    /** The revocation once nothing stands in its way: record, delete, settle the claim. */
    method AuditAndDelete(id: Id, target: Key, actor: string, error: string, f: Fortune) returns (answer: Answer)
      requires Valid() && id in keys && keys[id] == target && (target.operator ==> id !in doc.Value().ids && OtherOperator(keys, id))
      modifies this`keys, this`log, this`bootstrapFile, doc
      ensures Valid()
      ensures Proceeded(target, id, actor, error, f, old(keys), old(doc.Value()), old(log), keys, doc.Value(), log, answer)
      ensures target.operator ==> OtherOperator(keys, id)
      ensures bootstrapFile == (old(bootstrapFile) && !(answer.NoContent? && id == MintedFile.MINTED_ID && bolt))
    {
      var rec := AuditRecord(target.tenant, actor, "apikey.revoke", id, map["role" := RoleName(target), "tenant" := target.tenant]);
      if Reaches(f.audit) {
        log := log + [rec];
      }
      if !f.audit.Stored? {
        Fail(id, target, rec, error, false, f);
        return InternalError;
      }
      if Reaches(f.delete) {
        keys := keys - {id};
      }
      assert target.operator ==> OtherOperator(keys, id) by {
        if target.operator {
          var other :| other in old(keys) && other != id && old(keys)[other].operator;
          assert other in keys && keys[other].operator;
        }
      }
      if !f.delete.Stored? {
        Fail(id, target, rec, error, true, f);
        return InternalError;
      }
      if target.operator && Reaches(f.settles) {
        doc.Finish(id);
      }
      if id == MintedFile.MINTED_ID && bolt {
        bootstrapFile := false;
      }
      return NoContent;
    }

    method HandleRevoke(id: Id, actor: string, now: Time, error: string, f: Fortune) returns (answer: Answer)
      requires Valid()
      modifies this`keys, this`log, this`bootstrapFile, doc
      ensures Valid()
      ensures (old(keys), old(log), old(doc.Value())) == (keys, log, doc.Value()) || (id in old(keys) && f.gets)
      ensures answer.NotFound? <==> f.gets && id !in old(keys)
      ensures answer.Conflict? <==> f.gets && id in old(keys) && old(keys)[id].operator && Reaches(f.begins) && !MayRevoke(old(doc.Value()), id, now)
      ensures answer.NoContent? <==>
                && f.gets && id in old(keys) && f.audit.Stored? && f.delete.Stored?
                && (old(keys)[id].operator ==> f.begins.Stored? && MayRevoke(old(doc.Value()), id, now))
      ensures answer.NoContent? ==> keys == old(keys) - {id}
      ensures f.gets && id in old(keys) && old(keys)[id].operator && f.begins.FailedStored? && MayRevoke(old(doc.Value()), id, now) ==>
                && answer.InternalError? && keys == old(keys) && log == old(log)
                && id in doc.Value().revoking && doc.Value().revoking[id] == now && id !in doc.Value().ids
      ensures answer.NoContent? ==>
                var key := old(keys)[id];
                log == old(log) + [AuditRecord(key.tenant, actor, "apikey.revoke", id,
                                               map["role" := if key.operator then "operator" else "tenant", "tenant" := key.tenant])]
      ensures id in old(keys) && f.gets ==>
                Revoked(old(keys)[id], id, actor, now, error, f, old(keys), old(doc.Value()), old(log), keys, doc.Value(), log, answer)
      ensures id in old(keys) && id !in keys && old(keys)[id].operator ==> OtherOperator(keys, id)
      ensures bootstrapFile == (old(bootstrapFile) && !(answer.NoContent? && id == MintedFile.MINTED_ID && bolt))
    {
      if !f.gets {
        return InternalError;
      }
      if id !in keys {
        return NotFound;
      }
      var target := keys[id];
      if target.operator {
        if !Reaches(f.begins) {
          return InternalError;
        }
        ghost var counted := doc.Value();
        ClaimedIfAllowed(keys, counted, id, now);
        var outcome := doc.Begin(id, now);
        if !outcome.Ok? {
          return Conflict;
        }
        ClaimLeavesAnother(keys, counted, id, now);
        if !f.begins.Stored? {
          return InternalError;
        }
      }
      answer := AuditAndDelete(id, target, actor, error, f);
    }
  }

  /** What is done with a key whose count, if it is an operator's, is `claimed`. */
  ghost predicate Proceeded(key: Key, id: Id, actor: string, error: string, f: Fortune,
                            keys: map<Id, Key>, claimed: OpSet, log: seq<AuditRecord>,
                            keys': map<Id, Key>, doc': OpSet, log': seq<AuditRecord>, answer: Answer)
  {
    && (answer.NoContent? <==> f.audit.Stored? && f.delete.Stored?)
    && (answer.NoContent? || answer.InternalError?)
    // the key goes only after its revocation is on record
    && keys' == (if f.audit.Stored? && Reaches(f.delete) then keys - {id} else keys)
    && log' == log + (if Reaches(f.audit) then [RevokeRecord(key, actor, id)] else [])
                   + (if f.audit.Stored? && !f.delete.Stored? && Reaches(f.failureAudit) then [FailureRecord(key, actor, id, error)] else [])
    // the claim is settled by what really became of the key
    && doc' == (if !key.operator || !Reaches(f.settles) || (answer.InternalError? && !f.looks) then claimed
                else if id in keys' then AddOperator(claimed, id)
                else FinishRevoke(claimed, id))
  }

  /** What one revocation of an existing key does, by how its calls end. */
  ghost predicate Revoked(key: Key, id: Id, actor: string, now: Time, error: string, f: Fortune,
                          keys: map<Id, Key>, doc: OpSet, log: seq<AuditRecord>,
                          keys': map<Id, Key>, doc': OpSet, log': seq<AuditRecord>, answer: Answer)
  {
    var begun := BeginRevoke(doc, id, now);
    if key.operator && !Reaches(f.begins) then answer.InternalError? && (keys', doc', log') == (keys, doc, log)
    else if key.operator && !begun.Claimed? then answer.Conflict? && (keys', doc', log') == (keys, doc, log)
    else if key.operator && !f.begins.Stored? then answer.InternalError? && (keys', doc', log') == (keys, begun.doc, log)
    else Proceeded(key, id, actor, error, f, keys, if key.operator then begun.doc else doc, log, keys', doc', log', answer)
  }

  /** What a revocation and its failure put on record. */
  lemma WhatIsRecorded(key: Key, actor: string, id: Id, error: string)
    ensures var role := if key.operator then "operator" else "tenant";
            && RevokeRecord(key, actor, id) == AuditRecord(key.tenant, actor, "apikey.revoke", id, map["role" := role, "tenant" := key.tenant])
            && FailureRecord(key, actor, id, error)
               == AuditRecord(key.tenant, actor, "apikey.revoke.failed", id, map["role" := role, "tenant" := key.tenant, "error" := error])
  {
  }

  /** A settled revocation leaves no claim, and counts the ids counted before, and the revoked
      one if it was not, as far as their keys still exist. */
  lemma SettledRevocationCountsExactlyTheSurvivors(
      key: Key, id: Id, actor: string, now: Time, error: string, f: Fortune, keys: map<Id, Key>, doc: OpSet, log: seq<AuditRecord>,
      keys': map<Id, Key>, doc': OpSet, log': seq<AuditRecord>, answer: Answer)
    requires id in keys && keys[id] == key && key.operator && f.begins.Stored? && Reaches(f.settles) && f.looks && Counted(keys, doc)
    requires Revoked(key, id, actor, now, error, f, keys, doc, log, keys', doc', log', answer) && !answer.Conflict?
    ensures id !in doc'.revoking
    ensures forall x :: x in doc'.ids <==> (x in doc.ids || x == id) && x in keys'
  {
    var claimed := BeginRevoke(doc, id, now).doc;
    AbortUndoesBegin(doc, id, now);
    forall x ensures x in doc'.ids <==> (x in doc.ids || x == id) && x in keys' {
      assert x in claimed.ids <==> x in doc.ids && x != id;
    }
  }

  // ---------- the handler as a process of the guard ----------

  function Roles(keys: map<Id, Key>): map<Id, Guard.Role> {
    map id | id in keys :: if keys[id].operator then Guard.Operator else Guard.Tenant
  }

  /** Where the handler is in the protocol, the only process that runs. */
  predicate At(g: Guard.State, keys: map<Id, Key>, doc: OpSet, now: Time, procs: map<Guard.Pid, Guard.Proc>) {
    g.keys == Roles(keys) && g.doc == doc && g.now == now && g.procs == procs
  }

  function Here(id: Id, key: Key, pc: Guard.RevokePc, at: Time): map<Guard.Pid, Guard.Proc> {
    map[0 := Guard.Revoking(id, key.operator, pc, at)]
  }

  lemma Crashes(g: Guard.State, g0: Guard.State, keys: map<Id, Key>, doc: OpSet, now: Time) returns (g': Guard.State)
    requires Guard.Reaches(g0, g) && 0 in g.procs && g.procs == map[0 := g.procs[0]] && At(g, keys, doc, now, g.procs)
    ensures Guard.Reaches(g0, g') && At(g', keys, doc, now, map[])
  {
    Guard.ReachesNext(g0, g, Guard.Crash(0));
    g' := Guard.Apply(g, Guard.Crash(0));
    assert g'.procs == map[];
  }

  /** Settling the claim, or not getting that far. */
  lemma SettlesTheClaim(g0: Guard.State, g: Guard.State, id: Id, key: Key, keys: map<Id, Key>, doc: OpSet, now: Time, at: Time,
                        pc: Guard.RevokePc, settles: bool) returns (g': Guard.State)
    requires Guard.Reaches(g0, g) && At(g, keys, doc, now, Here(id, key, pc, at)) && (pc.Aborting? || pc.Finishing?)
    ensures Guard.Reaches(g0, g')
    ensures At(g', keys, if !settles then doc else if pc.Aborting? then AddOperator(doc, id) else FinishRevoke(doc, id), now, map[])
  {
    if !settles {
      g' := Crashes(g, g0, keys, doc, now);
    } else {
      var st := if pc.Aborting? then Guard.Abort(0) else Guard.Finish(0);
      Guard.ReachesNext(g0, g, st);
      g' := Guard.Apply(g, st);
      assert g'.procs == map[];
    }
  }

  /** The second look after a failure. */
  lemma FailsAsTheGuardDoes(g0: Guard.State, g: Guard.State, id: Id, key: Key, keys: map<Id, Key>, doc: OpSet, now: Time, at: Time, f: Fortune)
    returns (g': Guard.State)
    requires Guard.Reaches(g0, g) && At(g, keys, doc, now, Here(id, key, Guard.Failing, at))
    ensures Guard.Reaches(g0, g')
    ensures At(g', keys, if !key.operator || !f.looks || !Reaches(f.settles) then doc
                         else if id in keys then AddOperator(doc, id) else FinishRevoke(doc, id), now, map[])
  {
    if !key.operator || !f.looks {
      g' := Crashes(g, g0, keys, doc, now);
    } else {
      Guard.ReachesNext(g0, g, Guard.LookAgain(0));
      var next := Guard.Apply(g, Guard.LookAgain(0));
      var pc := if id in keys then Guard.Aborting else Guard.Finishing;
      assert next.procs == Here(id, key, pc, at);
      g' := SettlesTheClaim(g0, next, id, key, keys, doc, now, at, pc, Reaches(f.settles));
    }
  }

  lemma DeleteStep(g: Guard.State, id: Id, key: Key, keys: map<Id, Key>, doc: OpSet, now: Time, at: Time, delete: Write)
    requires At(g, keys, doc, now, Here(id, key, Guard.Audited, at))
    ensures Guard.Untimed(g, Guard.DeleteKey(0, delete.Stored?, Reaches(delete)))
    ensures At(Guard.Apply(g, Guard.DeleteKey(0, delete.Stored?, Reaches(delete))), if Reaches(delete) then keys - {id} else keys, doc, now,
               if !key.operator then map[] else Here(id, key, if delete.Stored? then Guard.Finishing else Guard.Failing, at))
  {
    assert Roles(keys - {id}) == Roles(keys) - {id};
    assert map[0 := g.procs[0]] - {0} == map[];
  }

  lemma AuditStep(g: Guard.State, id: Id, key: Key, keys: map<Id, Key>, doc: OpSet, now: Time, at: Time, ok: bool)
    requires At(g, keys, doc, now, Here(id, key, Guard.Begun, at))
    ensures Guard.Untimed(g, Guard.Audit(0, ok))
    ensures At(Guard.Apply(g, Guard.Audit(0, ok)), keys, doc, now, Here(id, key, if ok then Guard.Audited else Guard.Failing, at))
  {
  }

  lemma DeletesAsTheGuardDoes(g0: Guard.State, g: Guard.State, id: Id, key: Key, keys: map<Id, Key>, doc: OpSet, now: Time, at: Time, f: Fortune)
    returns (g': Guard.State)
    requires Guard.Reaches(g0, g) && At(g, keys, doc, now, Here(id, key, Guard.Audited, at))
    ensures Guard.Reaches(g0, g')
    ensures var keys' := if Reaches(f.delete) then keys - {id} else keys;
            At(g', keys', if !key.operator || !Reaches(f.settles) || (!f.delete.Stored? && !f.looks) then doc
                          else if id in keys' then AddOperator(doc, id) else FinishRevoke(doc, id), now, map[])
  {
    var st, keys' := Guard.DeleteKey(0, f.delete.Stored?, Reaches(f.delete)), if Reaches(f.delete) then keys - {id} else keys;
    DeleteStep(g, id, key, keys, doc, now, at, f.delete);
    Guard.ReachesNext(g0, g, st);
    var next := Guard.Apply(g, st);
    if !key.operator {
      g' := next;
    } else if f.delete.Stored? {
      g' := SettlesTheClaim(g0, next, id, key, keys', doc, now, at, Guard.Finishing, Reaches(f.settles));
    } else {
      g' := FailsAsTheGuardDoes(g0, next, id, key, keys', doc, now, at, f);
    }
  }

  lemma ProceedsAsTheGuardDoes(g0: Guard.State, g: Guard.State, id: Id, key: Key, actor: string, error: string, f: Fortune, keys: map<Id, Key>,
                               claimed: OpSet, log: seq<AuditRecord>, keys': map<Id, Key>, doc': OpSet, log': seq<AuditRecord>,
                               answer: Answer, now: Time, at: Time) returns (g': Guard.State)
    requires Guard.Reaches(g0, g) && At(g, keys, claimed, now, Here(id, key, Guard.Begun, at)) && id in keys
    requires Proceeded(key, id, actor, error, f, keys, claimed, log, keys', doc', log', answer)
    ensures Guard.Reaches(g0, g') && At(g', keys', doc', now, map[])
  {
    AuditStep(g, id, key, keys, claimed, now, at, f.audit.Stored?);
    Guard.ReachesNext(g0, g, Guard.Audit(0, f.audit.Stored?));
    var next := Guard.Apply(g, Guard.Audit(0, f.audit.Stored?));
    if f.audit.Stored? {
      g' := DeletesAsTheGuardDoes(g0, next, id, key, keys, claimed, now, at, f);
    } else {
      g' := FailsAsTheGuardDoes(g0, next, id, key, keys, claimed, now, at, f);
    }
  }

  /** Whatever a handler that runs alone does to keys and count, failures and lost answers
      included, is a run of one process of the guard's protocol. How handlers interleave is
      what the protocol's own steps say. */
  lemma EachRevocationIsARunOfTheGuard(g: Guard.State, key: Key, id: Id, actor: string, now: Time, error: string, f: Fortune,
                                       keys: map<Id, Key>, doc: OpSet, log: seq<AuditRecord>,
                                       keys': map<Id, Key>, doc': OpSet, log': seq<AuditRecord>, answer: Answer) returns (g': Guard.State)
    requires At(g, keys, doc, now, map[]) && id in keys && keys[id] == key
    requires Revoked(key, id, actor, now, error, f, keys, doc, log, keys', doc', log', answer)
    ensures Guard.Reaches(g, g') && At(g', keys', doc', now, map[])
  {
    Guard.ReachesItself(g);
    Guard.ReachesNext(g, g, Guard.StartRevoke(0, id));
    var started := Guard.Apply(g, Guard.StartRevoke(0, id));
    if !key.operator {
      assert started.procs == Here(id, key, Guard.Begun, 0);
      g' := ProceedsAsTheGuardDoes(g, started, id, key, actor, error, f, keys, doc, log, keys', doc', log', answer, now, 0);
    } else if !Reaches(f.begins) {
      g' := Crashes(started, g, keys, doc, now);
    } else {
      Guard.ReachesNext(g, started, Guard.Begin(0, now));
      var begun := Guard.Apply(started, Guard.Begin(0, now));
      if !BeginRevoke(doc, id, now).Claimed? {
        assert begun.procs == map[];
        g' := begun;
      } else {
        assert begun.procs == Here(id, key, Guard.Begun, now);
        if f.begins.Stored? {
          g' := ProceedsAsTheGuardDoes(g, begun, id, key, actor, error, f, keys, BeginRevoke(doc, id, now).doc, log, keys', doc', log', answer, now, now);
        } else {
          g' := Crashes(begun, g, keys, BeginRevoke(doc, id, now).doc, now);
        }
      }
    }
  }

  lemma StoresAsTheGuardDoes(g0: Guard.State, g: Guard.State, id: Id, key: Key, counts: Write, keys: map<Id, Key>, doc: OpSet, now: Time)
    returns (g': Guard.State)
    requires Guard.Reaches(g0, g) && At(g, keys, doc, now, map[0 := Guard.Creating(id, if key.operator then Guard.Operator else Guard.Tenant, false)])
    ensures Guard.Reaches(g0, g')
    ensures At(g', keys[id := key], if key.operator && Reaches(counts) then AddOperator(doc, id) else doc, now, map[])
  {
    Guard.ReachesNext(g0, g, Guard.StoreKey(0));
    var stored := Guard.Apply(g, Guard.StoreKey(0));
    assert stored.keys == Roles(keys[id := key]);
    if !key.operator {
      g' := stored;
      assert g'.procs == map[];
    } else {
      assert stored.procs == map[0 := Guard.Counting(id)];
      g' := CountsAsTheGuardDoes(g0, stored, id, counts, keys[id := key], doc, now);
    }
  }

  lemma CountsAsTheGuardDoes(g0: Guard.State, g: Guard.State, id: Id, counts: Write, keys: map<Id, Key>, doc: OpSet, now: Time)
    returns (g': Guard.State)
    requires Guard.Reaches(g0, g) && At(g, keys, doc, now, map[0 := Guard.Counting(id)])
    ensures Guard.Reaches(g0, g') && At(g', keys, if Reaches(counts) then AddOperator(doc, id) else doc, now, map[])
  {
    if Reaches(counts) {
      Guard.ReachesNext(g0, g, Guard.CountKey(0));
      g' := Guard.Apply(g, Guard.CountKey(0));
      assert g'.procs == map[];
    } else {
      g' := Crashes(g, g0, keys, doc, now);
    }
  }

  /** A creation that runs alone does what a run of one process of the guard does. */
  lemma EachCreationIsARunOfTheGuard(g: Guard.State, id: Id, key: Key, put: Write, counts: Write, keys: map<Id, Key>, doc: OpSet, now: Time)
    returns (g': Guard.State)
    requires At(g, keys, doc, now, map[]) && id !in g.used
    ensures Guard.Reaches(g, g')
    ensures At(g', if Reaches(put) then keys[id := key] else keys,
               if put.Stored? && key.operator && Reaches(counts) then AddOperator(doc, id) else doc, now, map[])
  {
    var role := if key.operator then Guard.Operator else Guard.Tenant;
    Guard.ReachesItself(g);
    Guard.ReachesNext(g, g, Guard.StartCreate(0, id, role));
    var started := Guard.Apply(g, Guard.StartCreate(0, id, role));
    assert started.procs == map[0 := Guard.Creating(id, role, false)];
    if Reaches(put) {
      g' := StoresAsTheGuardDoes(g, started, id, key, if put.Stored? then counts else FailedLost, keys, doc, now);
    } else {
      g' := Crashes(started, g, keys, doc, now);
    }
  }
}
