/** Issuing from one or more chains, with every store and audit write free to fail, and
    compensating for the certificates already stored when it does. */
module Issuance {
  import opened Common

  type Serial = string
  type Time = int

  datatype Chain = Primary | Pair

  datatype CertRecord = CertRecord(serial: Serial, chain: Chain, revoked: bool, revokedAt: Time, reason: int)

  datatype Entry =
    | IssueEntry(serial: Serial)
    | RevokeEntry(serial: Serial, reason: int)
    | AbandonEntry(serials: seq<Serial>, revoked: seq<Serial>, leftIssued: seq<Serial>)

  datatype World = World(certs: map<Serial, CertRecord>, audit: seq<Entry>)

  /** One pass of issueOne: its serial, and how signing, storing and auditing go. */
  datatype Attempt = Attempt(serial: Serial, signs: bool, put: Write, log: Write)

  datatype Mark = Mark(at: Time, reason: int)

  /** One compensating revocation: its time, and how storing and auditing go; and the marks of
      another request that revokes the same certificate before it or after it, if one does. */
  datatype Undo = Undo(at: Time, update: Write, log: Write, before: Option<Mark>, after: Option<Mark>)

  const CESSATION_OF_OPERATION := 5

  datatype One = Complete | NotStored | Withheld

  function Result(a: Attempt): One {
    if !a.signs || !a.put.Stored? then NotStored else if a.log.Stored? then Complete else Withheld
  }

  function Record(chain: Chain, serial: Serial): CertRecord {
    CertRecord(serial, chain, false, 0, 0)
  }

  function Logged(w: World, log: Write, e: Entry): World {
    if Reaches(log) then w.(audit := w.audit + [e]) else w
  }

  function AfterOne(w: World, chain: Chain, a: Attempt): World {
    if !a.signs || a.put.FailedLost? then w
    else
      var stored := w.(certs := w.certs[a.serial := Record(chain, a.serial)]);
      if a.put.Stored? then Logged(stored, a.log, IssueEntry(a.serial)) else stored
  }

  datatype RevokeReply = Revoked | ErrUnknown | ErrAlreadyRevoked | ErrStore | ErrAudit

  function AfterRevoke(w: World, serial: Serial, reason: int, u: Undo): (World, RevokeReply) {
    if serial !in w.certs then (w, ErrUnknown)
    else if w.certs[serial].revoked then (w, ErrAlreadyRevoked)
    else
      var marked := w.certs[serial].(revoked := true, revokedAt := u.at, reason := reason);
      var stored := if Reaches(u.update) then w.(certs := w.certs[serial := marked]) else w;
      if !u.update.Stored? then (stored, ErrStore)
      else (Logged(stored, u.log, RevokeEntry(serial, reason)), if u.log.Stored? then Revoked else ErrAudit)
  }

  /** Another request's revocation of the certificate. */
  function AfterRival(w: World, serial: Serial, mark: Option<Mark>): World {
    if mark.None? || serial !in w.certs || w.certs[serial].revoked then w
    else
      World(w.certs[serial := w.certs[serial].(revoked := true, revokedAt := mark.value.at, reason := mark.value.reason)],
            w.audit + [RevokeEntry(serial, mark.value.reason)])
  }

  /** One compensating revocation among the other requests. */
  function AfterTry(w: World, serial: Serial, u: Undo): (World, RevokeReply) {
    var (w', reply) := AfterRevoke(AfterRival(w, serial, u.before), serial, CESSATION_OF_OPERATION, u);
    (AfterRival(w', serial, u.after), reply)
  }

  datatype Abandoned = Abandoned(w: World, revoked: seq<Serial>, leftIssued: seq<Serial>)

  /** After the first `n` serials have been tried. */
  function AfterUndos(w: World, serials: seq<Serial>, undos: seq<Undo>, n: nat): Abandoned
    requires n <= |serials| == |undos|
  {
    if n == 0 then Abandoned(w, [], [])
    else
      var before := AfterUndos(w, serials, undos, n - 1);
      var (w', reply) := AfterTry(before.w, serials[n - 1], undos[n - 1]);
      if reply.Revoked? then Abandoned(w', before.revoked + [serials[n - 1]], before.leftIssued)
      else Abandoned(w', before.revoked, before.leftIssued + [serials[n - 1]])
  }

  datatype Reply =
    | Issued(serials: seq<Serial>)
    | Failed
    | FailedAfter(revoked: seq<Serial>, leftIssued: seq<Serial>)

  /** The error message ends in "no issued serial remains valid". */
  predicate SaysNoneValid(reply: Reply) {
    reply.FailedAfter? && reply.leftIssued == []
  }

  /** What one call is faced with. */
  datatype Plan = Plan(chains: seq<Chain>, attempts: seq<Attempt>, undos: seq<Undo>, log: Write)

  predicate WellFormed(p: Plan) {
    |p.chains| == |p.attempts| > 0 && |p.undos| == |Started(p)|
  }

  /** The passes that complete before the first one that does not. */
  function CompleteUpTo(attempts: seq<Attempt>): (n: nat)
    ensures n <= |attempts|
    ensures forall i :: 0 <= i < n ==> Result(attempts[i]).Complete?
    ensures n < |attempts| ==> !Result(attempts[n]).Complete?
  {
    if attempts == [] || !Result(attempts[0]).Complete? then 0 else 1 + CompleteUpTo(attempts[1..])
  }

  function Serials(attempts: seq<Attempt>): seq<Serial> {
    seq(|attempts|, i requires 0 <= i < |attempts| => attempts[i].serial)
  }

  /** The serials the call knows to be stored when a pass fails. */
  function Started(p: Plan): seq<Serial> {
    var n := CompleteUpTo(p.attempts);
    if n < |p.attempts| && Result(p.attempts[n]).Withheld? then Serials(p.attempts[..n + 1]) else Serials(p.attempts[..n])
  }

  function AfterAttempts(w: World, p: Plan, n: nat): World
    requires WellFormed(p) && n <= |p.attempts|
  {
    if n == 0 then w else AfterOne(AfterAttempts(w, p, n - 1), p.chains[n - 1], p.attempts[n - 1])
  }

  function AfterIssue(w: World, p: Plan): (World, Reply)
    requires WellFormed(p)
  {
    var n := CompleteUpTo(p.attempts);
    if n == |p.attempts| then (AfterAttempts(w, p, n), Issued(Serials(p.attempts)))
    else
      var w' := AfterAttempts(w, p, n + 1);
      if Started(p) == [] then (w', Failed)
      else
        var ab := AfterUndos(w', Started(p), p.undos, |p.undos|);
        (Logged(ab.w, p.log, AbandonEntry(Started(p), ab.revoked, ab.leftIssued)), FailedAfter(ab.revoked, ab.leftIssued))
  }

  // ---------- what the answers mean ----------

  predicate IsValid(w: World, serial: Serial) {
    serial in w.certs && !w.certs[serial].revoked
  }

  /** A revocation is refused exactly for an unknown and for an already revoked certificate,
      and then changes nothing; and succeeds exactly if both writes do. It marks that record
      only, with the given time and reason, and is audited with that reason. */
  lemma RevokeAnswers(w: World, serial: Serial, reason: int, u: Undo)
    ensures var (w', reply) := AfterRevoke(w, serial, reason, u);
            && (reply.ErrUnknown? <==> serial !in w.certs)
            && (reply.ErrAlreadyRevoked? <==> serial in w.certs && w.certs[serial].revoked)
            && (reply.Revoked? <==> IsValid(w, serial) && u.update.Stored? && u.log.Stored?)
            && (reply.ErrStore? <==> IsValid(w, serial) && !u.update.Stored?)
            && (reply.ErrAudit? <==> IsValid(w, serial) && u.update.Stored? && !u.log.Stored?)
            && (!IsValid(w, serial) ==> w' == w)
            && w'.certs.Keys == w.certs.Keys && (forall x :: x in w.certs && x != serial ==> w'.certs[x] == w.certs[x])
            && (IsValid(w, serial) ==>
                  w'.certs[serial] == if u.update.FailedLost? then w.certs[serial]
                                      else CertRecord(w.certs[serial].serial, w.certs[serial].chain, true, u.at, reason))
            && w'.audit == w.audit + if IsValid(w, serial) && u.update.Stored? && !u.log.FailedLost? then [RevokeEntry(serial, reason)] else []
  {
  }

  /** A pass is complete exactly if it signed, stored and audited; what it stores is a valid
      record of its chain, and what it audits is its serial. */
  lemma OneAnswers(w: World, chain: Chain, a: Attempt)
    ensures Result(a).Complete? <==> a.signs && a.put.Stored? && a.log.Stored?
    ensures Result(a).Withheld? <==> a.signs && a.put.Stored? && !a.log.Stored?
    ensures AfterOne(w, chain, a).certs
            == if a.signs && !a.put.FailedLost? then w.certs[a.serial := CertRecord(a.serial, chain, false, 0, 0)] else w.certs
    ensures AfterOne(w, chain, a).audit
            == w.audit + if a.signs && a.put.Stored? && !a.log.FailedLost? then [IssueEntry(a.serial)] else []
  {
  }

  // ---------- the CA engine ----------

  class Manager {
    var certs: map<Serial, CertRecord>
    var audit: seq<Entry>

    ghost function Value(): World
      reads this
    {
      World(certs, audit)
    }

    constructor ()
      ensures Value() == World(map[], [])
    {
      certs, audit := map[], [];
    }

    method Log(e: Entry, log: Write) returns (ok: bool)
      modifies this`audit
      ensures Value() == Logged(old(Value()), log, e) && ok == log.Stored?
    {
      if Reaches(log) {
        audit := audit + [e];
      }
      return log.Stored?;
    }

    method IssueOne(chain: Chain, a: Attempt) returns (one: One)
      modifies this
      ensures Value() == AfterOne(old(Value()), chain, a) && one == Result(a)
    {
      if !a.signs {
        return NotStored;
      }
      if Reaches(a.put) {
        certs := certs[a.serial := CertRecord(a.serial, chain, false, 0, 0)];
      }
      if !a.put.Stored? {
        return NotStored;
      }
      var ok := Log(IssueEntry(a.serial), a.log);
      return if ok then Complete else Withheld;
    }

    method Revoke(serial: Serial, reason: int, u: Undo) returns (reply: RevokeReply)
      modifies this
      ensures (Value(), reply) == AfterRevoke(old(Value()), serial, reason, u)
      ensures reply.ErrUnknown? <==> serial !in old(certs)
      ensures reply.ErrAlreadyRevoked? <==> serial in old(certs) && old(certs)[serial].revoked
      ensures reply.ErrUnknown? || reply.ErrAlreadyRevoked? ==> Value() == old(Value())
      ensures reply.Revoked? <==> IsValid(old(Value()), serial) && u.update.Stored? && u.log.Stored?
      ensures reply.Revoked? ==> certs == old(certs)[serial := old(certs)[serial].(revoked := true, revokedAt := u.at, reason := reason)]
      ensures reply.Revoked? ==> audit == old(audit) + [RevokeEntry(serial, reason)]
    {
      RevokeAnswers(Value(), serial, reason, u);
      if serial !in certs {
        return ErrUnknown;
      }
      var rec := certs[serial];
      if rec.revoked {
        return ErrAlreadyRevoked;
      }
      rec := rec.(revoked := true);
      rec := rec.(revokedAt := u.at);
      rec := rec.(reason := reason);
      if Reaches(u.update) {
        certs := certs[serial := rec];
      }
      if !u.update.Stored? {
        return ErrStore;
      }
      var ok := Log(RevokeEntry(serial, reason), u.log);
      return if ok then Revoked else ErrAudit;
    }

    /** What another request does. */
    method RivalRevokes(serial: Serial, mark: Option<Mark>)
      modifies this
      ensures Value() == AfterRival(old(Value()), serial, mark)
    {
      if mark.Some? && serial in certs && !certs[serial].revoked {
        certs := certs[serial := certs[serial].(revoked := true, revokedAt := mark.value.at, reason := mark.value.reason)];
        audit := audit + [RevokeEntry(serial, mark.value.reason)];
      }
    }

    method AbandonIssued(serials: seq<Serial>, undos: seq<Undo>, log: Write) returns (reply: Reply)
      requires |serials| == |undos|
      modifies this
      ensures serials == [] ==> reply.Failed? && Value() == old(Value())
      ensures serials != [] ==>
                var ab := AfterUndos(old(Value()), serials, undos, |undos|);
                && Value() == Logged(ab.w, log, AbandonEntry(serials, ab.revoked, ab.leftIssued))
                && reply == FailedAfter(ab.revoked, ab.leftIssued)
    {
      if |serials| == 0 {
        return Failed;
      }
      var revoked: seq<Serial>, stuck: seq<Serial> := [], [];
      for i := 0 to |serials|
        invariant AfterUndos(old(Value()), serials, undos, i) == Abandoned(Value(), revoked, stuck)
      {
        RivalRevokes(serials[i], undos[i].before);
        var answer := Revoke(serials[i], CESSATION_OF_OPERATION, undos[i]);
        RivalRevokes(serials[i], undos[i].after);
        if !answer.Revoked? {
          stuck := stuck + [serials[i]];
        } else {
          revoked := revoked + [serials[i]];
        }
      }
      var _ := Log(AbandonEntry(serials, revoked, stuck), log);
      return FailedAfter(revoked, stuck);
    }

    method Issue(p: Plan) returns (reply: Reply)
      requires WellFormed(p)
      modifies this
      ensures (Value(), reply) == AfterIssue(old(Value()), p)
    {
      var out: seq<Serial> := [];
      for i := 0 to |p.chains|
        invariant i <= CompleteUpTo(p.attempts)
        invariant Value() == AfterAttempts(old(Value()), p, i) && out == Serials(p.attempts[..i])
      {
        var one := IssueOne(p.chains[i], p.attempts[i]);
        if !one.Complete? {
          assert CompleteUpTo(p.attempts) == i;
          var serials := out;
          if one.Withheld? {
            serials := serials + [p.attempts[i].serial];
          }
          assert serials == Started(p);
          reply := AbandonIssued(serials, p.undos, p.log);
          return;
        }
        out := out + [p.attempts[i].serial];
      }
      assert p.attempts[..|p.chains|] == p.attempts;
      return Issued(out);
    }
  }

  // ---------- what a call may assume ----------

  /** Serials are random: distinct, and not in the store. */
  ghost predicate FreshSerials(w: World, p: Plan) {
    && (forall i :: 0 <= i < |p.attempts| ==> p.attempts[i].serial !in w.certs)
    && (forall i, j :: 0 <= i < j < |p.attempts| ==> p.attempts[i].serial != p.attempts[j].serial)
  }

  /** The pass that fails does so by a store write that is reported as failed although
      the record is in the store. */
  predicate AmbiguousPut(p: Plan) {
    var n := CompleteUpTo(p.attempts);
    n < |p.attempts| && p.attempts[n].signs && p.attempts[n].put.FailedStored?
  }

  // ---------- the passes ----------

  predicate IsStored(a: Attempt) {
    a.signs && Reaches(a.put)
  }

  lemma OneStores(w: World, chain: Chain, a: Attempt)
    ensures var w' := AfterOne(w, chain, a);
            if IsStored(a) then a.serial in w'.certs && w'.certs[a.serial] == Record(chain, a.serial) else w'.certs == w.certs
  {
  }

  lemma OneTouchesNoOther(w: World, chain: Chain, a: Attempt, other: Serial)
    requires other != a.serial
    ensures var w' := AfterOne(w, chain, a);
            (other in w'.certs <==> other in w.certs) && (other in w.certs ==> w'.certs[other] == w.certs[other])
  {
  }

  lemma {:induction false} AttemptsStore(w: World, p: Plan, n: nat, i: nat)
    requires WellFormed(p) && FreshSerials(w, p) && i < |p.attempts| && n <= |p.attempts|
    ensures var w' := AfterAttempts(w, p, n);
            if i < n && IsStored(p.attempts[i]) then
              p.attempts[i].serial in w'.certs && w'.certs[p.attempts[i].serial] == Record(p.chains[i], p.attempts[i].serial)
            else p.attempts[i].serial !in w'.certs
  {
    if n > 0 {
      AttemptsStore(w, p, n - 1, i);
      var before := AfterAttempts(w, p, n - 1);
      if i == n - 1 {
        OneStores(before, p.chains[n - 1], p.attempts[n - 1]);
      } else {
        OneTouchesNoOther(before, p.chains[n - 1], p.attempts[n - 1], p.attempts[i].serial);
      }
    }
  }

  lemma {:induction false} AttemptsStoreNothingElse(w: World, p: Plan, n: nat, serial: Serial)
    requires WellFormed(p) && n <= |p.attempts| && forall i :: 0 <= i < n ==> p.attempts[i].serial != serial
    ensures var w' := AfterAttempts(w, p, n);
            (serial in w'.certs <==> serial in w.certs) && (serial in w.certs ==> w'.certs[serial] == w.certs[serial])
  {
    if n > 0 {
      AttemptsStoreNothingElse(w, p, n - 1, serial);
    }
  }

  /** The audit log only grows, and by the issue record of every pass that completes. */
  lemma {:induction false} AttemptsAudit(w: World, p: Plan, n: nat, i: nat)
    requires WellFormed(p) && i < n <= |p.attempts| && Result(p.attempts[i]).Complete?
    ensures var w' := AfterAttempts(w, p, n);
            w.audit <= w'.audit && IssueEntry(p.attempts[i].serial) in w'.audit[|w.audit|..]
    decreases n
  {
    AuditGrows(w, p, n);
    if i < n - 1 {
      AttemptsAudit(w, p, n - 1, i);
      var before, after := AfterAttempts(w, p, n - 1), AfterAttempts(w, p, n);
      assert before.audit <= after.audit;
      assert before.audit[|w.audit|..] <= after.audit[|w.audit|..];
    } else {
      AuditGrows(w, p, n - 1);
      var before, after := AfterAttempts(w, p, n - 1), AfterAttempts(w, p, n);
      assert after.audit[|w.audit|..][|before.audit| - |w.audit|] == IssueEntry(p.attempts[i].serial);
    }
  }

  lemma {:induction false} AuditGrows(w: World, p: Plan, n: nat)
    requires WellFormed(p) && n <= |p.attempts|
    ensures w.audit <= AfterAttempts(w, p, n).audit
  {
    if n > 0 {
      AuditGrows(w, p, n - 1);
    }
  }

  // ---------- the compensation ----------

  /** Each serial that was tried is in exactly one list, and the lists have no others. */
  lemma {:induction false} UndosPartition(w: World, serials: seq<Serial>, undos: seq<Undo>, n: nat, serial: Serial)
    requires n <= |serials| == |undos| && NoDup(serials)
    ensures var ab := AfterUndos(w, serials, undos, n);
            && (serial in serials[..n] <==> serial in ab.revoked || serial in ab.leftIssued)
            && !(serial in ab.revoked && serial in ab.leftIssued)
            && |ab.revoked| + |ab.leftIssued| == n
  {
    if n > 0 {
      UndosPartition(w, serials, undos, n - 1, serial);
      assert serials[..n] == serials[..n - 1] + [serials[n - 1]];
      assert serials[n - 1] !in serials[..n - 1];
    }
  }

  lemma TryTouchesNoOther(w: World, serial: Serial, u: Undo, other: Serial)
    requires other != serial
    ensures var w' := AfterTry(w, serial, u).0;
            (other in w'.certs <==> other in w.certs) && (other in w.certs ==> w'.certs[other] == w.certs[other])
  {
  }

  /** A serial not tried keeps its record. */
  lemma {:induction false} UndosTouchOnlyListed(w: World, serials: seq<Serial>, undos: seq<Undo>, n: nat, serial: Serial)
    requires n <= |serials| == |undos| && forall i :: 0 <= i < n ==> serials[i] != serial
    ensures var w' := AfterUndos(w, serials, undos, n).w;
            (serial in w'.certs <==> serial in w.certs) && (serial in w.certs ==> w'.certs[serial] == w.certs[serial])
  {
    if n > 0 {
      UndosTouchOnlyListed(w, serials, undos, n - 1, serial);
      TryTouchesNoOther(AfterUndos(w, serials, undos, n - 1).w, serials[n - 1], undos[n - 1], serial);
    }
  }

  lemma TryOutcome(w: World, serial: Serial, u: Undo)
    requires serial in w.certs && !w.certs[serial].revoked
    ensures var (w', reply) := AfterTry(w, serial, u);
            && serial in w'.certs
            && (reply.Revoked? <==> u.before.None? && u.update.Stored? && u.log.Stored?)
            && (w'.certs[serial].revoked <==> u.before.Some? || Reaches(u.update) || u.after.Some?)
            && (reply.Revoked? ==> w'.certs[serial].reason == CESSATION_OF_OPERATION && w'.certs[serial].revokedAt == u.at)
  {
  }

  /** What became of the i-th serial, its record having been stored and valid: it is listed as
      revoked if nobody else had revoked it and its own revocation was stored and audited; it
      is revoked if that revocation reached the store, or somebody else revoked it. */
  lemma {:induction false} UndoOutcome(w: World, serials: seq<Serial>, undos: seq<Undo>, n: nat, i: nat)
    requires i < n <= |serials| == |undos| && NoDup(serials)
    requires serials[i] in w.certs && !w.certs[serials[i]].revoked
    ensures var ab, u := AfterUndos(w, serials, undos, n), undos[i];
            && serials[i] in ab.w.certs
            && (serials[i] in ab.revoked <==> u.before.None? && u.update.Stored? && u.log.Stored?)
            && (ab.w.certs[serials[i]].revoked <==> u.before.Some? || Reaches(u.update) || u.after.Some?)
            && (serials[i] in ab.revoked ==>
                  ab.w.certs[serials[i]].reason == CESSATION_OF_OPERATION && ab.w.certs[serials[i]].revokedAt == u.at)
    decreases n
  {
    if i < n - 1 {
      UndoOutcome(w, serials, undos, n - 1, i);
      TryTouchesNoOther(AfterUndos(w, serials, undos, n - 1).w, serials[n - 1], undos[n - 1], serials[i]);
    } else {
      UndosTouchOnlyListed(w, serials, undos, n - 1, serials[i]);
      UndosPartition(w, serials, undos, n - 1, serials[i]);
      TryOutcome(AfterUndos(w, serials, undos, n - 1).w, serials[i], undos[i]);
    }
  }

  // ---------- results ----------

  lemma StartedAreStored(w: World, p: Plan, i: nat)
    requires WellFormed(p) && FreshSerials(w, p) && CompleteUpTo(p.attempts) < |p.attempts| && i < |Started(p)|
    ensures Started(p)[i] == p.attempts[i].serial && NoDup(Started(p)) && |Started(p)| <= CompleteUpTo(p.attempts) + 1
    ensures var w' := AfterAttempts(w, p, CompleteUpTo(p.attempts) + 1);
            Started(p)[i] in w'.certs && w'.certs[Started(p)[i]] == Record(p.chains[i], Started(p)[i])
  {
    AttemptsStore(w, p, CompleteUpTo(p.attempts) + 1, i);
  }

  /** A call that succeeds answers with one certificate a chain, each stored and valid,
      and each issuance is already in the audit log. */
  lemma SuccessIsStoredAndAudited(w: World, p: Plan, i: nat)
    requires WellFormed(p) && FreshSerials(w, p) && AfterIssue(w, p).1.Issued? && i < |p.chains|
    ensures var (w', reply) := AfterIssue(w, p);
            && |reply.serials| == |p.chains|
            && reply.serials[i] in w'.certs && w'.certs[reply.serials[i]] == Record(p.chains[i], reply.serials[i])
            && w.audit <= w'.audit && IssueEntry(reply.serials[i]) in w'.audit[|w.audit|..]
  {
    AttemptsStore(w, p, |p.attempts|, i);
    AttemptsAudit(w, p, |p.attempts|, i);
  }

  /** No call touches a certificate of another call. */
  lemma OthersAreUntouched(w: World, p: Plan, serial: Serial)
    requires WellFormed(p) && FreshSerials(w, p) && serial in w.certs
    ensures serial in AfterIssue(w, p).0.certs && AfterIssue(w, p).0.certs[serial] == w.certs[serial]
  {
    var n := CompleteUpTo(p.attempts);
    if n == |p.attempts| {
      AttemptsStoreNothingElse(w, p, n, serial);
    } else {
      AttemptsStoreNothingElse(w, p, n + 1, serial);
      forall i | 0 <= i < |Started(p)| ensures Started(p)[i] != serial {
        StartedAreStored(w, p, i);
      }
      UndosTouchOnlyListed(AfterAttempts(w, p, n + 1), Started(p), p.undos, |p.undos|, serial);
    }
  }

  predicate Listed(reply: Reply, serial: Serial) {
    reply.FailedAfter? && (serial in reply.revoked || serial in reply.leftIssued)
  }

  /** The lists of a failed call partition the serials it knows to be stored. */
  lemma ListsPartitionTheAffected(w: World, p: Plan, serial: Serial)
    requires WellFormed(p) && FreshSerials(w, p) && !AfterIssue(w, p).1.Issued?
    ensures var reply := AfterIssue(w, p).1;
            && (Listed(reply, serial) <==> serial in Started(p))
            && (reply.FailedAfter? ==> !(serial in reply.revoked && serial in reply.leftIssued)
                                       && |reply.revoked| + |reply.leftIssued| == |Started(p)|)
  {
    var n := CompleteUpTo(p.attempts);
    if Started(p) != [] {
      StartedAreStored(w, p, 0);
      UndosPartition(AfterAttempts(w, p, n + 1), Started(p), p.undos, |p.undos|, serial);
      assert Started(p)[..|p.undos|] == Started(p);
    }
  }

  /** A certificate this call stored. */
  ghost predicate StoredBy(w: World, w': World, serial: Serial) {
    serial in w'.certs && serial !in w.certs
  }

  /** Every certificate that a failed call stored is listed, as revoked or as left issued,
      exactly when no store write committed while reporting a failure. */
  lemma CompensationIsCompleteIffNoAmbiguousPut(w: World, p: Plan)
    requires WellFormed(p) && FreshSerials(w, p) && !AfterIssue(w, p).1.Issued?
    ensures (forall serial :: StoredBy(w, AfterIssue(w, p).0, serial) ==> Listed(AfterIssue(w, p).1, serial)) <==> !AmbiguousPut(p)
  {
    var n := CompleteUpTo(p.attempts);
    if AmbiguousPut(p) {
      AmbiguousPutEscapes(w, p);
      assert StoredBy(w, AfterIssue(w, p).0, p.attempts[n].serial);
    } else {
      forall serial | StoredBy(w, AfterIssue(w, p).0, serial) ensures Listed(AfterIssue(w, p).1, serial) {
        if serial !in Started(p) {
          NotStartedNotStored(w, p, serial);
        }
        ListsPartitionTheAffected(w, p, serial);
      }
    }
  }

  lemma NotStartedNotAttempted(w: World, p: Plan, i: nat)
    requires WellFormed(p) && FreshSerials(w, p) && !AmbiguousPut(p)
    requires CompleteUpTo(p.attempts) < |p.attempts| && |Started(p)| <= i <= CompleteUpTo(p.attempts)
    ensures p.attempts[i].serial !in AfterAttempts(w, p, CompleteUpTo(p.attempts) + 1).certs
  {
    AttemptsStore(w, p, CompleteUpTo(p.attempts) + 1, i);
  }

  lemma AttemptsStoreOnlyStarted(w: World, p: Plan, serial: Serial)
    requires WellFormed(p) && FreshSerials(w, p) && !AmbiguousPut(p)
    requires CompleteUpTo(p.attempts) < |p.attempts| && serial !in Started(p)
    ensures !StoredBy(w, AfterAttempts(w, p, CompleteUpTo(p.attempts) + 1), serial)
  {
    var n := CompleteUpTo(p.attempts);
    forall i | 0 <= i < |Started(p)| ensures p.attempts[i].serial != serial {
      assert Started(p)[i] == p.attempts[i].serial;
    }
    if i :| |Started(p)| <= i <= n && p.attempts[i].serial == serial {
      NotStartedNotAttempted(w, p, i);
    } else {
      AttemptsStoreNothingElse(w, p, n + 1, serial);
    }
  }

  lemma NotStartedNotStored(w: World, p: Plan, serial: Serial)
    requires WellFormed(p) && FreshSerials(w, p) && !AfterIssue(w, p).1.Issued? && !AmbiguousPut(p)
    requires serial !in Started(p)
    ensures !StoredBy(w, AfterIssue(w, p).0, serial)
  {
    AttemptsStoreOnlyStarted(w, p, serial);
    UndosTouchOnlyListed(AfterAttempts(w, p, CompleteUpTo(p.attempts) + 1), Started(p), p.undos, |p.undos|, serial);
  }

  /** The certificate that an ambiguous write stored stays valid and is mentioned nowhere,
      even when the message says that none remains valid. */
  lemma AmbiguousPutEscapes(w: World, p: Plan)
    requires WellFormed(p) && FreshSerials(w, p) && AmbiguousPut(p)
    ensures var n, (w', reply) := CompleteUpTo(p.attempts), AfterIssue(w, p);
            && StoredBy(w, w', p.attempts[n].serial) && !w'.certs[p.attempts[n].serial].revoked
            && !Listed(reply, p.attempts[n].serial)
  {
    var n := CompleteUpTo(p.attempts);
    var serial := p.attempts[n].serial;
    AttemptsStore(w, p, n + 1, n);
    forall i | 0 <= i < |Started(p)| ensures Started(p)[i] != serial {
      StartedAreStored(w, p, i);
    }
    UndosTouchOnlyListed(AfterAttempts(w, p, n + 1), Started(p), p.undos, |p.undos|, serial);
    ListsPartitionTheAffected(w, p, serial);
  }

  lemma TryAudits(w: World, serial: Serial, u: Undo)
    ensures w.audit <= AfterTry(w, serial, u).0.audit
    ensures AfterTry(w, serial, u).1.Revoked? ==> RevokeEntry(serial, 5) in AfterTry(w, serial, u).0.audit[|w.audit|..]
  {
    var w1 := AfterRival(w, serial, u.before);
    RevokeAnswers(w1, serial, CESSATION_OF_OPERATION, u);
    var w2, w3 := AfterRevoke(w1, serial, CESSATION_OF_OPERATION, u).0, AfterTry(w, serial, u).0;
    assert w.audit <= w1.audit <= w2.audit <= w3.audit;
    if AfterTry(w, serial, u).1.Revoked? {
      assert w3.audit[|w.audit|..][|w1.audit| - |w.audit|] == RevokeEntry(serial, 5);
    }
  }

  /** Every compensating revocation that is listed is in the audit log, as cessation of
      operation. */
  lemma {:induction false} UndosAudit(w: World, serials: seq<Serial>, undos: seq<Undo>, n: nat, serial: Serial)
    requires n <= |serials| == |undos|
    ensures var ab := AfterUndos(w, serials, undos, n);
            w.audit <= ab.w.audit && (serial in ab.revoked ==> RevokeEntry(serial, 5) in ab.w.audit[|w.audit|..])
  {
    if n > 0 {
      UndosAudit(w, serials, undos, n - 1, serial);
      var before, after := AfterUndos(w, serials, undos, n - 1), AfterUndos(w, serials, undos, n);
      TryAudits(before.w, serials[n - 1], undos[n - 1]);
      assert before.w.audit[|w.audit|..] <= after.w.audit[|w.audit|..];
      assert after.w.audit[|before.w.audit|..] == after.w.audit[|w.audit|..][|before.w.audit| - |w.audit|..];
    }
  }

  /** A failed call audits each revocation that it lists, and, unless that record is lost,
      what it lists as revoked and as left issued. */
  lemma ListsAreAudited(w: World, p: Plan, serial: Serial)
    requires WellFormed(p) && AfterIssue(w, p).1.FailedAfter?
    ensures var (w', reply) := AfterIssue(w, p);
            && w.audit <= w'.audit
            && (serial in reply.revoked ==> RevokeEntry(serial, 5) in w'.audit[|w.audit|..])
            && (!p.log.FailedLost? ==> w'.audit != [] && w'.audit[|w'.audit| - 1] == AbandonEntry(Started(p), reply.revoked, reply.leftIssued))
  {
    var n := CompleteUpTo(p.attempts) + 1;
    AuditGrows(w, p, n);
    var mid := AfterAttempts(w, p, n);
    UndosAudit(mid, Started(p), p.undos, |p.undos|, serial);
    var ab, w' := AfterUndos(mid, Started(p), p.undos, |p.undos|), AfterIssue(w, p).0;
    if serial in ab.revoked {
      var k :| 0 <= k < |ab.w.audit[|mid.audit|..]| && ab.w.audit[|mid.audit|..][k] == RevokeEntry(serial, 5);
      assert w'.audit[|w.audit|..][|mid.audit| - |w.audit| + k] == RevokeEntry(serial, 5);
    }
  }

  /** The lists and the store: what is listed as revoked is revoked; what is listed as left
      issued is valid exactly if its revocation never reached the store and no other request
      revoked it. */
  lemma ListsTellTheTruth(w: World, p: Plan, i: nat)
    requires WellFormed(p) && FreshSerials(w, p) && AfterIssue(w, p).1.FailedAfter? && i < |Started(p)|
    ensures var (w', reply) := AfterIssue(w, p);
            var serial, u := Started(p)[i], p.undos[i];
            && serial in w'.certs
            && (serial in reply.revoked ==> w'.certs[serial].revoked && w'.certs[serial].reason == 5)
            && (serial in reply.leftIssued ==> (!w'.certs[serial].revoked <==> !Reaches(u.update) && u.before.None? && u.after.None?))
            && (serial in reply.revoked <==> u.before.None? && u.update.Stored? && u.log.Stored?)
  {
    StartedAreStored(w, p, i);
    UndoOutcome(AfterAttempts(w, p, CompleteUpTo(p.attempts) + 1), Started(p), p.undos, |p.undos|, i);
  }

  /** A failed call that says that no issued serial remains valid is right about every
      certificate it stored exactly when no store write was ambiguous. */
  lemma NoneValidIsTrueIffNoAmbiguousPut(w: World, p: Plan)
    requires WellFormed(p) && FreshSerials(w, p) && SaysNoneValid(AfterIssue(w, p).1)
    ensures (forall serial :: StoredBy(w, AfterIssue(w, p).0, serial) ==> AfterIssue(w, p).0.certs[serial].revoked) <==> !AmbiguousPut(p)
  {
    if AmbiguousPut(p) {
      AmbiguousPutEscapes(w, p);
      assert StoredBy(w, AfterIssue(w, p).0, p.attempts[CompleteUpTo(p.attempts)].serial);
    } else {
      forall serial | StoredBy(w, AfterIssue(w, p).0, serial) ensures AfterIssue(w, p).0.certs[serial].revoked {
        if serial !in Started(p) {
          NotStartedNotStored(w, p, serial);
        }
        ListsPartitionTheAffected(w, p, serial);
        var i :| 0 <= i < |Started(p)| && Started(p)[i] == serial;
        ListsTellTheTruth(w, p, i);
      }
    }
  }
}
