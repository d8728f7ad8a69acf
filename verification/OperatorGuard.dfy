/** Revocations, creations and startup reconciles of operator keys, interleaved step by
    step over one shared store. Any number of processes; each may crash at any step. */
module OperatorGuard {
  import opened Common
  import opened OperatorSet

  type Pid = nat
  datatype Role = Operator | Tenant

  datatype RevokePc =
    | Looked     // the target was found; nothing claimed yet
    | Begun      // claimed (operator keys only); about to write the audit record
    | Audited    // about to delete the key
    | Failing    // a step failed; about to see whether the key survived
    | Aborting   // it did; about to restore the count
    | Finishing  // the key is gone; about to drop the claim

  datatype Proc =
    | Creating(id: Id, role: Role, ifAbsent: bool)  // about to store a key record
    | Counting(id: Id)                              // stored; about to count it
    | Revoking(id: Id, operator: bool, pc: RevokePc, at: Time)
    | Scanning(actual: set<Id>)                     // reconcile: reading the keys
    | Snapshot(actual: set<Id>, ver: nat, doc: OpSet)
    | Checking(actual: set<Id>, ver: nat, claims: map<Id, Time>, todo: set<Id>, found: set<Id>)

  /** `ver` is the optimistic version of the operator document; `used` holds every id
      a key was ever created under. */
  datatype State = State(keys: map<Id, Role>, doc: OpSet, ver: nat, now: Time,
                         used: set<Id>, procs: map<Pid, Proc>)

  datatype Step =
    | StartCreate(p: Pid, id: Id, role: Role)
    | StartBootstrap(p: Pid, id: Id)
    | StoreKey(p: Pid)
    | CountKey(p: Pid)
    | StartRevoke(p: Pid, id: Id)
    | Begin(p: Pid, at: Time)
    | Audit(p: Pid, ok: bool)
    | DeleteKey(p: Pid, ok: bool, committed: bool)
    | LookAgain(p: Pid)
    | Abort(p: Pid)
    | Finish(p: Pid)
    | StartReconcile(p: Pid)
    | ScanKey(p: Pid, id: Id)
    | ReadDocument(p: Pid)
    | DropExpired(p: Pid)
    | CheckKey(p: Pid, id: Id)
    | CommitReconcile(p: Pid, ids: seq<Id>)
    | Conflict(p: Pid)
    | Crash(p: Pid)
    | Tick(now: Time)

  // ---------- the protocol ----------

  ghost predicate Enabled(s: State, st: Step) {
    match st
    case StartCreate(p, id, role) => p !in s.procs && id !in s.used
    case StartBootstrap(p, id) => p !in s.procs
    case StoreKey(p) => p in s.procs && s.procs[p].Creating?
    case CountKey(p) => p in s.procs && s.procs[p].Counting?
    case StartRevoke(p, id) => p !in s.procs && id in s.keys
    case Begin(p, at) =>
      p in s.procs && s.procs[p].Revoking? && s.procs[p].operator && s.procs[p].pc.Looked? && at <= s.now
    case Audit(p, ok) => p in s.procs && s.procs[p].Revoking? && s.procs[p].pc.Begun?
    case DeleteKey(p, ok, committed) =>
      p in s.procs && s.procs[p].Revoking? && s.procs[p].pc.Audited? && (ok ==> committed)
    case LookAgain(p) => p in s.procs && s.procs[p].Revoking? && s.procs[p].pc.Failing?
    case Abort(p) => p in s.procs && s.procs[p].Revoking? && s.procs[p].pc.Aborting?
    case Finish(p) => p in s.procs && s.procs[p].Revoking? && s.procs[p].pc.Finishing?
    case StartReconcile(p) => p !in s.procs
    case ScanKey(p, id) => p in s.procs && s.procs[p].Scanning? && id in s.keys && s.keys[id].Operator?
    case ReadDocument(p) => p in s.procs && s.procs[p].Scanning?
    case DropExpired(p) => p in s.procs && s.procs[p].Snapshot?
    case CheckKey(p, id) => p in s.procs && s.procs[p].Checking? && id in s.procs[p].todo
    case CommitReconcile(p, ids) =>
      p in s.procs && s.procs[p].Checking? && s.procs[p].todo == {} && s.procs[p].ver == s.ver
      && NoDup(ids) && (set id | id in ids) == s.procs[p].found
    case Conflict(p) => p in s.procs && s.procs[p].Checking? && s.procs[p].ver != s.ver
    case Crash(p) => p in s.procs
    case Tick(now) => s.now <= now
  }

  function WriteDoc(s: State, doc: OpSet): State {
    s.(doc := doc, ver := s.ver + 1)
  }

  function Goto(s: State, p: Pid, proc: Proc): State {
    s.(procs := s.procs[p := proc])
  }

  function End(s: State, p: Pid): State {
    s.(procs := s.procs - {p})
  }

  function Apply(s: State, st: Step): State
    requires Enabled(s, st)
  {
    match st
    case StartCreate(p, id, role) =>
      Goto(s, p, Creating(id, role, false)).(used := s.used + {id})
    case StartBootstrap(p, id) =>
      Goto(s, p, Creating(id, Operator, true)).(used := s.used + {id})
    case StoreKey(p) =>
      var c := s.procs[p];
      if c.ifAbsent && c.id in s.keys then End(s, p)
      else
        var stored := s.(keys := s.keys[c.id := c.role]);
        if c.role.Operator? then Goto(stored, p, Counting(c.id)) else End(stored, p)
    case CountKey(p) =>
      End(WriteDoc(s, AddOperator(s.doc, s.procs[p].id)), p)
    case StartRevoke(p, id) =>
      var operator := s.keys[id].Operator?;
      Goto(s, p, Revoking(id, operator, if operator then Looked else Begun, 0))
    case Begin(p, at) =>
      var r := s.procs[p];
      (match BeginRevoke(s.doc, r.id, at)
       case Claimed(doc) => Goto(WriteDoc(s, doc), p, r.(pc := Begun, at := at))
       case _ => End(s, p))
    case Audit(p, ok) =>
      Goto(s, p, s.procs[p].(pc := if ok then Audited else Failing))
    case DeleteKey(p, ok, committed) =>
      var r := s.procs[p];
      var s' := if committed then s.(keys := s.keys - {r.id}) else s;
      if !r.operator then End(s', p)
      else Goto(s', p, r.(pc := if ok then Finishing else Failing))
    case LookAgain(p) =>
      var r := s.procs[p];
      if !r.operator then End(s, p)
      else Goto(s, p, r.(pc := if r.id in s.keys then Aborting else Finishing))
    case Abort(p) =>
      End(WriteDoc(s, AddOperator(s.doc, s.procs[p].id)), p)
    case Finish(p) =>
      End(WriteDoc(s, FinishRevoke(s.doc, s.procs[p].id)), p)
    case StartReconcile(p) => Goto(s, p, Scanning({}))
    case ScanKey(p, id) => Goto(s, p, Scanning(s.procs[p].actual + {id}))
    case ReadDocument(p) => Goto(s, p, Snapshot(s.procs[p].actual, s.ver, s.doc))
    case DropExpired(p) =>
      var c := s.procs[p];
      var claims := Unexpired(c.doc.revoking, s.now);
      Goto(s, p, Checking(c.actual, c.ver, claims, c.actual - claims.Keys, {}))
    case CheckKey(p, id) =>
      var c := s.procs[p];
      Goto(s, p, c.(todo := c.todo - {id}, found := if id in s.keys then c.found + {id} else c.found))
    case CommitReconcile(p, ids) =>
      End(WriteDoc(s, OpSet(ids, s.procs[p].claims)), p)
    case Conflict(p) => Goto(s, p, Scanning(s.procs[p].actual))
    case Crash(p) => End(s, p)
    case Tick(now) => s.(now := now)
  }

  // ---------- what the protocol is entitled to ----------

  predicate Holds(pr: Proc) {
    pr.Revoking? && pr.operator && !pr.pc.Looked?
  }

  predicate Creates(pr: Proc, id: Id) {
    (pr.Creating? || pr.Counting?) && pr.id == id
  }

  predicate Revokes(pr: Proc, id: Id) {
    pr.Revoking? && pr.id == id
  }

  /** A running revocation ends before its claim expires; nobody can name a key for
      revocation while its creation, or its bootstrap insertion, is still running. */
  ghost predicate Assumed(s: State, st: Step) {
    match st
    case Tick(now) => forall p :: p in s.procs && Holds(s.procs[p]) ==> now - s.procs[p].at < REVOKE_CLAIM_TTL
    case Begin(p, at) => s.now - at < REVOKE_CLAIM_TTL
    case StartRevoke(p, id) => forall q :: q in s.procs ==> !Creates(s.procs[q], id)
    case StartBootstrap(p, id) =>
      forall q :: q in s.procs ==> !Revokes(s.procs[q], id) && !(s.procs[q].Creating? && !s.procs[q].ifAbsent && s.procs[q].id == id)
    case _ => true
  }

  ghost predicate Legal(s: State, st: Step) {
    Enabled(s, st) && Assumed(s, st)
  }

  /** Nothing running, no key counted that is not a live operator key, no claim held:
      a fresh store, or one from before the document existed. */
  predicate Init(s: State) {
    && s.procs == map[]
    && s.doc == OpSet([], map[])
    && s.keys.Keys <= s.used
  }

  // ---------- invariant ----------

  predicate LiveOperator(s: State, id: Id) {
    id in s.keys && s.keys[id].Operator?
  }

  ghost predicate Unclaimed(s: State, id: Id) {
    forall p :: p in s.procs ==> !(Holds(s.procs[p]) && s.procs[p].id == id)
  }

  /** No duplicates; every counted id is a live operator key that no running
      revocation has claimed. */
  ghost predicate NoGhosts(s: State) {
    && NoDup(s.doc.ids)
    && forall id :: id in s.doc.ids ==> LiveOperator(s, id) && Unclaimed(s, id)
  }

  ghost predicate HasOperator(s: State) {
    exists id :: LiveOperator(s, id)
  }

  ghost predicate SomeOperatorUnclaimed(s: State) {
    exists id :: LiveOperator(s, id) && Unclaimed(s, id)
  }

  function Seen(pr: Proc): set<Id> {
    if pr.Scanning? || pr.Snapshot? || pr.Checking? then pr.actual else {}
  }

  /** What one process may rely on. */
  ghost predicate Fits(s: State, pr: Proc) {
    && (forall id :: id in Seen(pr) ==> id in s.used && (id in s.keys ==> s.keys[id].Operator?))
    && match pr
       case Creating(id, role, ifAbsent) =>
         id in s.used && (if ifAbsent then role.Operator? else id !in s.keys)
       case Counting(id) => LiveOperator(s, id)
       case Revoking(id, operator, pc, at) =>
         && id in s.used
         && (id in s.keys ==> s.keys[id].Operator? == operator)
         && (pc.Aborting? ==> id in s.keys)
         && (pc.Aborting? || pc.Finishing? ==> operator)
         && (Holds(pr) ==> id in s.doc.revoking && s.doc.revoking[id] == at && s.now - at < REVOKE_CLAIM_TTL)
       case Scanning(actual) => true
       case Snapshot(actual, ver, doc) => ver <= s.ver && (ver == s.ver ==> doc == s.doc)
       case Checking(actual, ver, claims, todo, found) =>
         && ver <= s.ver && todo <= actual && found <= actual && todo !! claims.Keys && found !! claims.Keys
         && (ver == s.ver ==> forall id :: id in found ==> LiveOperator(s, id))
  }

  /** What two different processes may rely on of each other. */
  ghost predicate Agree(s: State, a: Proc, b: Proc) {
    && (Holds(a) && Holds(b) ==> a.id != b.id)
    && (b.Revoking? ==> !Creates(a, b.id))
    && (a.Creating? && !a.ifAbsent ==> !Creates(b, a.id) && a.id !in Seen(b))
    && (a.Checking? && a.ver == s.ver && Holds(b) ==> b.id in a.claims && a.claims[b.id] == b.at)
  }

  ghost predicate AllFit(s: State) {
    forall p :: p in s.procs ==> Fits(s, s.procs[p])
  }

  ghost predicate AllAgree(s: State) {
    forall p, q :: p in s.procs && q in s.procs && p != q ==> Agree(s, s.procs[p], s.procs[q])
  }

  ghost predicate Bookkeeping(s: State) {
    s.keys.Keys <= s.used && NoGhosts(s) && AllFit(s) && AllAgree(s)
  }

  ghost predicate Inv(s: State) {
    Bookkeeping(s) && (HasOperator(s) ==> SomeOperatorUnclaimed(s))
  }

  /** The process a step moves; a clock tick moves none. */
  predicate Moves(st: Step, p: Pid) {
    !st.Tick? && st.p == p
  }

  /** What a step by `st.p` may rely on of the process `q`, and `q` of it. */
  ghost predicate Neighbours(s: State, st: Step, q: Pid) {
    && q in s.procs && Fits(s, s.procs[q])
    && (!st.Tick? && st.p in s.procs ==>
          && Fits(s, s.procs[st.p])
          && Agree(s, s.procs[st.p], s.procs[q])
          && Agree(s, s.procs[q], s.procs[st.p]))
  }

  lemma AreNeighbours(s: State, st: Step, q: Pid)
    requires Bookkeeping(s) && q in s.procs && !Moves(st, q)
    ensures Neighbours(s, st, q)
  {
  }

  predicate WritesDocument(st: Step) {
    st.CountKey? || st.Begin? || st.Abort? || st.Finish? || st.CommitReconcile?
  }

  lemma OthersFitAfterDocumentWrite(s: State, st: Step, q: Pid)
    requires Legal(s, st) && !Moves(st, q) && Neighbours(s, st, q)
    requires WritesDocument(st)
    ensures Fits(Apply(s, st), s.procs[q])
  {
  }

  lemma OthersFitAfterOtherStep(s: State, st: Step, q: Pid)
    requires Legal(s, st) && !Moves(st, q) && Neighbours(s, st, q)
    requires s.keys.Keys <= s.used
    requires !WritesDocument(st)
    ensures Fits(Apply(s, st), s.procs[q])
  {
  }

  lemma OthersStay(s: State, st: Step, q: Pid)
    requires Enabled(s, st) && !Moves(st, q)
    ensures q in Apply(s, st).procs <==> q in s.procs
    ensures q in s.procs ==> Apply(s, st).procs[q] == s.procs[q]
  {
  }

  lemma OthersStillFit(s: State, st: Step, q: Pid)
    requires Bookkeeping(s) && Legal(s, st) && !Moves(st, q) && q in s.procs
    ensures Fits(Apply(s, st), s.procs[q])
  {
    AreNeighbours(s, st, q);
    if WritesDocument(st) {
      OthersFitAfterDocumentWrite(s, st, q);
    } else {
      OthersFitAfterOtherStep(s, st, q);
    }
  }

  lemma MoverFits(s: State, st: Step)
    requires Legal(s, st) && !st.Tick?
    requires s.keys.Keys <= s.used
    requires st.p in s.procs ==> Fits(s, s.procs[st.p])
    ensures st.p in Apply(s, st).procs ==> Fits(Apply(s, st), Apply(s, st).procs[st.p])
  {
  }

  lemma NewcomerAgrees(s: State, st: Step, q: Pid)
    requires Legal(s, st) && !st.Tick? && q != st.p && Neighbours(s, st, q) && st.p !in s.procs
    requires s.keys.Keys <= s.used
    ensures st.p in Apply(s, st).procs ==>
              && Agree(Apply(s, st), Apply(s, st).procs[st.p], s.procs[q])
              && Agree(Apply(s, st), s.procs[q], Apply(s, st).procs[st.p])
  {
  }

  lemma MoverAgrees(s: State, st: Step, q: Pid)
    requires Legal(s, st) && !st.Tick? && q != st.p && Neighbours(s, st, q) && st.p in s.procs
    ensures st.p in Apply(s, st).procs ==>
              && Agree(Apply(s, st), Apply(s, st).procs[st.p], s.procs[q])
              && Agree(Apply(s, st), s.procs[q], Apply(s, st).procs[st.p])
  {
  }

  lemma OthersStillAgree(s: State, st: Step, a: Proc, b: Proc)
    requires Legal(s, st) && Agree(s, a, b) && Fits(s, a)
    ensures Agree(Apply(s, st), a, b)
  {
  }

  lemma StepKeepsFit(s: State, st: Step)
    requires Bookkeeping(s) && Legal(s, st)
    ensures AllFit(Apply(s, st))
  {
    var s' := Apply(s, st);
    forall p | p in s'.procs ensures Fits(s', s'.procs[p]) {
      if Moves(st, p) {
        MoverFits(s, st);
      } else {
        OthersStay(s, st, p);
        OthersStillFit(s, st, p);
      }
    }
  }

  lemma PairStillAgrees(s: State, st: Step, p: Pid, q: Pid)
    requires Bookkeeping(s) && Legal(s, st)
    requires p != q && p in Apply(s, st).procs && q in Apply(s, st).procs
    ensures Agree(Apply(s, st), Apply(s, st).procs[p], Apply(s, st).procs[q])
  {
    if Moves(st, p) || Moves(st, q) {
      var other := if Moves(st, p) then q else p;
      OthersStay(s, st, other);
      AreNeighbours(s, st, other);
      if st.p in s.procs {
        MoverAgrees(s, st, other);
      } else {
        NewcomerAgrees(s, st, other);
      }
    } else {
      OthersStay(s, st, p);
      OthersStay(s, st, q);
      OthersStillAgree(s, st, s.procs[p], s.procs[q]);
    }
  }

  lemma StepKeepsAgreement(s: State, st: Step)
    requires Bookkeeping(s) && Legal(s, st)
    ensures AllAgree(Apply(s, st))
  {
    var s' := Apply(s, st);
    forall p, q | p in s'.procs && q in s'.procs && p != q ensures Agree(s', s'.procs[p], s'.procs[q]) {
      PairStillAgrees(s, st, p, q);
    }
  }

  lemma CountedStaysLive(s: State, st: Step, id: Id)
    requires Legal(s, st) && NoGhosts(s) && id in Apply(s, st).doc.ids
    requires s.keys.Keys <= s.used
    requires !st.Tick? && st.p in s.procs ==> Fits(s, s.procs[st.p])
    ensures LiveOperator(Apply(s, st), id)
  {
    match st
    case DeleteKey(p, _, _) =>
      assert id in s.doc.ids && LiveOperator(s, id) && Unclaimed(s, id);
      assert s.procs[p].id != id;
    case CommitReconcile(p, _) => assert id in s.procs[p].found;
    case StoreKey(_) => assert LiveOperator(s, id);
    case CountKey(p) => assert id in s.doc.ids || id == s.procs[p].id;
    case Abort(p) => assert id in s.doc.ids || id == s.procs[p].id;
    case _ => assert LiveOperator(s, id);
  }

  lemma CountedStaysUnclaimed(s: State, st: Step, id: Id, q: Pid)
    requires Legal(s, st) && id in Apply(s, st).doc.ids && q in Apply(s, st).procs
    requires id in s.doc.ids ==> Unclaimed(s, id)
    requires q in s.procs && !Moves(st, q) ==> Neighbours(s, st, q)
    ensures !(Holds(Apply(s, st).procs[q]) && Apply(s, st).procs[q].id == id)
  {
    var s', pr := Apply(s, st), Apply(s, st).procs[q];
    if Holds(pr) && pr.id == id {
      match st
      case CountKey(_) => assert false;
      case Begin(_, _) => assert false;
      case Abort(_) => assert false;
      case Finish(_) => assert false;
      case CommitReconcile(_, _) => assert false;
      case _ => assert false;
    }
  }

  lemma StepKeepsNoGhosts(s: State, st: Step)
    requires Bookkeeping(s) && Legal(s, st)
    ensures NoGhosts(Apply(s, st))
  {
    var s' := Apply(s, st);
    assert NoDup(s'.doc.ids);
    forall id | id in s'.doc.ids ensures LiveOperator(s', id) && Unclaimed(s', id) {
      CountedStaysLive(s, st, id);
      forall q | q in s'.procs ensures !(Holds(s'.procs[q]) && s'.procs[q].id == id) {
        if q in s.procs && !Moves(st, q) {
          AreNeighbours(s, st, q);
        }
        CountedStaysUnclaimed(s, st, id, q);
      }
    }
  }

  lemma StepKeepsBookkeeping(s: State, st: Step)
    requires Bookkeeping(s) && Legal(s, st)
    ensures Bookkeeping(Apply(s, st))
  {
    StepKeepsNoGhosts(s, st);
    StepKeepsFit(s, st);
    StepKeepsAgreement(s, st);
  }

  ghost predicate Claims(s: State, st: Step) {
    st.Begin? && Enabled(s, st) && BeginRevoke(s.doc, s.procs[st.p].id, st.at).Claimed?
  }

  lemma SafeKeyStaysSafe(s: State, st: Step, id: Id)
    requires Legal(s, st) && !Claims(s, st)
    requires LiveOperator(s, id) && Unclaimed(s, id)
    requires !st.Tick? && st.p in s.procs ==> Fits(s, s.procs[st.p])
    requires st.StoreKey? ==> forall q :: q in s.procs && q != st.p ==> Agree(s, s.procs[st.p], s.procs[q])
    ensures LiveOperator(Apply(s, st), id) && Unclaimed(Apply(s, st), id)
  {
    var s' := Apply(s, st);
    forall q | q in s'.procs ensures !(Holds(s'.procs[q]) && s'.procs[q].id == id) {
      if !Moves(st, q) {
        OthersStay(s, st, q);
      }
    }
  }

  lemma ClaimLeavesAnotherSafe(s: State, st: Step)
    requires NoGhosts(s) && Legal(s, st) && Claims(s, st)
    ensures SomeOperatorUnclaimed(Apply(s, st))
  {
    var s' := Apply(s, st);
    BeginSucceedsIffAnotherIsCounted(s.doc, s.procs[st.p].id, st.at);
    var other :| other in s.doc.ids && other != s.procs[st.p].id;
    assert LiveOperator(s', other) && Unclaimed(s', other);
  }

  lemma FirstOperatorIsUnclaimed(s: State, st: Step)
    requires Bookkeeping(s) && Legal(s, st) && !HasOperator(s) && HasOperator(Apply(s, st))
    ensures SomeOperatorUnclaimed(Apply(s, st))
  {
    var s' := Apply(s, st);
    var id :| LiveOperator(s', id);
    assert !LiveOperator(s, id);
    assert st.StoreKey? && id == s.procs[st.p].id;
    forall q | q in s'.procs ensures !(Holds(s'.procs[q]) && s'.procs[q].id == id) {
      if q != st.p {
        OthersStay(s, st, q);
        assert Agree(s, s.procs[st.p], s.procs[q]);
      }
    }
    assert Unclaimed(s', id);
  }

  /** A revocation claims a key only while another unclaimed operator key is counted,
      and it deletes only the key it claimed. */
  lemma StepKeepsAnOperatorUnclaimed(s: State, st: Step)
    requires Inv(s) && Legal(s, st)
    ensures HasOperator(Apply(s, st)) ==> SomeOperatorUnclaimed(Apply(s, st))
    ensures Claims(s, st) ==>
              exists other :: other in s.doc.ids && other != s.procs[st.p].id && LiveOperator(s, other) && Unclaimed(s, other)
    ensures forall id :: LiveOperator(s, id) && !LiveOperator(Apply(s, st), id) ==>
              st.DeleteKey? && s.procs[st.p].id == id && Holds(s.procs[st.p])
  {
    assert !st.Tick? && st.p in s.procs ==> Fits(s, s.procs[st.p]);
    if Claims(s, st) {
      BeginSucceedsIffAnotherIsCounted(s.doc, s.procs[st.p].id, st.at);
      ClaimLeavesAnotherSafe(s, st);
    } else if HasOperator(s) {
      var safe :| LiveOperator(s, safe) && Unclaimed(s, safe);
      SafeKeyStaysSafe(s, st, safe);
    } else if HasOperator(Apply(s, st)) {
      FirstOperatorIsUnclaimed(s, st);
    }
  }

  lemma StepKeepsInv(s: State, st: Step)
    requires Inv(s) && Legal(s, st)
    ensures Inv(Apply(s, st))
  {
    StepKeepsBookkeeping(s, st);
    StepKeepsAnOperatorUnclaimed(s, st);
  }

  lemma InitInv(s: State)
    requires Init(s)
    ensures Inv(s)
  {
    if HasOperator(s) {
      var id :| LiveOperator(s, id);
      assert Unclaimed(s, id);
    }
  }

  // ---------- whole runs ----------

  ghost predicate Behaviour(tr: seq<State>, steps: seq<Step>) {
    && |tr| == |steps| + 1
    && forall i :: 0 <= i < |steps| ==> Legal(tr[i], steps[i]) && tr[i + 1] == Apply(tr[i], steps[i])
  }

  lemma {:induction false} BehaviourKeepsInv(tr: seq<State>, steps: seq<Step>, i: nat)
    requires Behaviour(tr, steps) && Init(tr[0]) && i < |tr|
    ensures Inv(tr[i])
  {
    if i == 0 {
      InitInv(tr[0]);
    } else {
      BehaviourKeepsInv(tr, steps, i - 1);
      StepKeepsInv(tr[i - 1], steps[i - 1]);
    }
  }

  /** In every interleaving of any number of revocations, creations, reconciles, crashes
      and clock ticks, once a live operator key exists the store is never without one. */
  lemma {:induction false} LastOperatorSafety(tr: seq<State>, steps: seq<Step>, i: nat, j: nat)
    requires Behaviour(tr, steps) && Init(tr[0]) && i <= j < |tr|
    requires HasOperator(tr[i])
    ensures HasOperator(tr[j])
  {
    if i < j {
      LastOperatorSafety(tr, steps, i, j - 1);
      BehaviourKeepsInv(tr, steps, j - 1);
      var s, st := tr[j - 1], steps[j - 1];
      var safe :| LiveOperator(s, safe) && Unclaimed(s, safe);
      StepSparesUnclaimed(s, st, safe);
      assert LiveOperator(tr[j], safe);
    }
  }

  lemma StepSparesUnclaimed(s: State, st: Step, id: Id)
    requires Bookkeeping(s) && Legal(s, st) && LiveOperator(s, id) && Unclaimed(s, id)
    ensures LiveOperator(Apply(s, st), id)
  {
    assert !st.Tick? && st.p in s.procs ==> Fits(s, s.procs[st.p]);
  }

  /** The stored count never holds a duplicate, a dead key, or a key that a running
      revocation has claimed. */
  lemma CountNeverHoldsGhosts(tr: seq<State>, steps: seq<Step>, i: nat)
    requires Behaviour(tr, steps) && Init(tr[0]) && i < |tr|
    ensures NoDup(tr[i].doc.ids)
    ensures forall id :: id in tr[i].doc.ids ==> id in tr[i].keys && tr[i].keys[id] == Operator
    ensures forall id, p :: id in tr[i].doc.ids && p in tr[i].procs && Holds(tr[i].procs[p]) ==> tr[i].procs[p].id != id
  {
    BehaviourKeepsInv(tr, steps, i);
  }

  // ---------- when the count becomes empty ----------

  /** The count becomes empty exactly when a reconcile commits that found nothing to count:
      no revocation, however it interleaves, takes the last counted key. */
  lemma CountEmptiesExactlyByReconcile(s: State, st: Step)
    requires Inv(s) && Legal(s, st) && s.doc.ids != []
    ensures Apply(s, st).doc.ids == [] <==> st.CommitReconcile? && s.procs[st.p].found == {}
  {
    match st
    case Begin(p, at) =>
      BeginSucceedsIffAnotherIsCounted(s.doc, s.procs[p].id, at);
      if Claims(s, st) {
        var other :| other in s.doc.ids && other != s.procs[p].id;
        assert other in Apply(s, st).doc.ids;
      }
    case Finish(p) =>
      assert s.doc.ids[0] in s.doc.ids && Unclaimed(s, s.doc.ids[0]);
      assert s.doc.ids[0] in Apply(s, st).doc.ids;
    case CommitReconcile(p, ids) =>
      if ids != [] {
        assert ids[0] in s.procs[p].found;
      }
    case CountKey(p) => assert s.procs[p].id in Apply(s, st).doc.ids;
    case Abort(p) => assert s.procs[p].id in Apply(s, st).doc.ids;
    case _ =>
  }

  /** Step `d` starts the re-checks of the reconcile that process p is in at `n`. */
  predicate Rechecks(steps: seq<Step>, p: Pid, d: nat, n: nat) {
    d < n <= |steps| && steps[d] == DropExpired(p) && forall k :: d < k < n && Moves(steps[k], p) ==> steps[k].CheckKey?
  }

  /** The key was still in the store when it was re-checked, or was not. */
  predicate Rechecked(tr: seq<State>, steps: seq<Step>, p: Pid, d: nat, n: nat, id: Id, present: bool) {
    exists k :: d < k < n <= |steps| < |tr| && steps[k] == CheckKey(p, id) && (id in tr[k].keys <==> present)
  }

  /** What a running re-check has established so far. */
  ghost predicate Establishes(tr: seq<State>, steps: seq<Step>, p: Pid, d: nat, n: nat)
    requires Behaviour(tr, steps)
  {
    && n < |tr| && Rechecks(steps, p, d, n) && p in tr[d].procs && tr[d].procs[p].Snapshot? && p in tr[n].procs && tr[n].procs[p].Checking?
    && tr[n].procs[p].actual == tr[d].procs[p].actual
    && tr[n].procs[p].claims == Unexpired(tr[d].procs[p].doc.revoking, tr[d].now)
    && tr[n].procs[p].found !! tr[n].procs[p].todo
    && forall id :: id in tr[n].procs[p].actual && id !in tr[n].procs[p].claims && id !in tr[n].procs[p].todo ==>
         Rechecked(tr, steps, p, d, n, id, id in tr[n].procs[p].found)
  }

  lemma RecheckedStays(tr: seq<State>, steps: seq<Step>, p: Pid, d: nat, n: nat, id: Id, present: bool)
    requires Rechecked(tr, steps, p, d, n, id, present) && n < |steps|
    ensures Rechecked(tr, steps, p, d, n + 1, id, present)
  {
    var k :| d < k < n <= |steps| < |tr| && steps[k] == CheckKey(p, id) && (id in tr[k].keys <==> present);
    assert d < k < n + 1 && steps[k] == CheckKey(p, id);
  }

  lemma NextEstablishes(tr: seq<State>, steps: seq<Step>, p: Pid, d: nat, n: nat)
    requires Behaviour(tr, steps) && n < |steps| && Establishes(tr, steps, p, d, n)
    requires p in tr[n + 1].procs && tr[n + 1].procs[p].Checking?
    ensures Establishes(tr, steps, p, d, n + 1)
  {
    var st := steps[n];
    assert Legal(tr[n], st) && tr[n + 1] == Apply(tr[n], st);
    var before, after := tr[n].procs[p], tr[n + 1].procs[p];
    if !Moves(st, p) {
      OthersStay(tr[n], st, p);
    }
    assert Moves(st, p) ==> st.CheckKey?;
    forall id | id in after.actual && id !in after.claims && id !in after.todo
      ensures Rechecked(tr, steps, p, d, n + 1, id, id in after.found)
    {
      if st == CheckKey(p, id) {
        assert d < n < n + 1 && steps[n] == CheckKey(p, id);
      } else {
        RecheckedStays(tr, steps, p, d, n, id, id in before.found);
      }
    }
  }

  lemma {:induction false} CheckingEstablishes(tr: seq<State>, steps: seq<Step>, p: Pid, n: nat) returns (d: nat)
    requires Behaviour(tr, steps) && Init(tr[0]) && n < |tr| && p in tr[n].procs && tr[n].procs[p].Checking?
    ensures Establishes(tr, steps, p, d, n)
  {
    var s, st := tr[n - 1], steps[n - 1];
    assert Legal(s, st) && tr[n] == Apply(s, st);
    if !Moves(st, p) {
      OthersStay(s, st, p);
    }
    if p in s.procs && s.procs[p].Checking? {
      d := CheckingEstablishes(tr, steps, p, n - 1);
      NextEstablishes(tr, steps, p, d, n - 1);
    } else {
      d := n - 1;
    }
  }

  /** No scanned key was both still stored at its own re-check and free of an unexpired claim. */
  ghost predicate NothingToCount(tr: seq<State>, steps: seq<Step>, p: Pid, d: nat, n: nat) {
    && n < |tr| && Rechecks(steps, p, d, n) && p in tr[d].procs && tr[d].procs[p].Snapshot?
    && forall id :: id in tr[d].procs[p].actual ==>
         ClaimIsLive(tr[d].procs[p].doc, id, tr[d].now) || Rechecked(tr, steps, p, d, n, id, false)
  }

  lemma {:induction false} CheckedStaysChecked(tr: seq<State>, steps: seq<Step>, p: Pid, d: nat, n: nat, id: Id, j: nat, k: nat)
    requires Behaviour(tr, steps) && Rechecks(steps, p, d, n) && d < j < k < n && steps[j] == CheckKey(p, id)
    ensures p in tr[k].procs && tr[k].procs[p].Checking? && id !in tr[k].procs[p].todo
    decreases k
  {
    assert Legal(tr[k - 1], steps[k - 1]) && tr[k] == Apply(tr[k - 1], steps[k - 1]);
    if j < k - 1 {
      CheckedStaysChecked(tr, steps, p, d, n, id, j, k - 1);
      if !Moves(steps[k - 1], p) {
        OthersStay(tr[k - 1], steps[k - 1], p);
      }
    }
  }

  lemma CheckedOnce(tr: seq<State>, steps: seq<Step>, p: Pid, d: nat, n: nat, id: Id, j: nat, k: nat)
    requires Behaviour(tr, steps) && Rechecks(steps, p, d, n)
    requires d < j < n && steps[j] == CheckKey(p, id) && d < k < n && steps[k] == CheckKey(p, id)
    ensures j == k
  {
    assert Legal(tr[j], steps[j]) && Legal(tr[k], steps[k]);
    if j < k {
      CheckedStaysChecked(tr, steps, p, d, n, id, j, k);
    } else if k < j {
      CheckedStaysChecked(tr, steps, p, d, n, id, k, j);
    }
  }

  /** A key is re-checked once, so it is found or it is not. */
  lemma RecheckedOneWay(tr: seq<State>, steps: seq<Step>, p: Pid, d: nat, n: nat, id: Id)
    requires Behaviour(tr, steps) && Rechecks(steps, p, d, n)
    ensures !(Rechecked(tr, steps, p, d, n, id, true) && Rechecked(tr, steps, p, d, n, id, false))
  {
    if Rechecked(tr, steps, p, d, n, id, true) && Rechecked(tr, steps, p, d, n, id, false) {
      var j :| d < j < n <= |steps| < |tr| && steps[j] == CheckKey(p, id) && (id in tr[j].keys <==> true);
      var k :| d < k < n <= |steps| < |tr| && steps[k] == CheckKey(p, id) && (id in tr[k].keys <==> false);
      CheckedOnce(tr, steps, p, d, n, id, j, k);
    }
  }

  lemma FoundNothingMeansNothingToCount(tr: seq<State>, steps: seq<Step>, p: Pid, d: nat, n: nat)
    requires Behaviour(tr, steps) && Establishes(tr, steps, p, d, n) && tr[n].procs[p].todo == {} && Fits(tr[n], tr[n].procs[p])
    ensures tr[n].procs[p].found == {} <==> NothingToCount(tr, steps, p, d, n)
  {
    var pr := tr[n].procs[p];
    forall id | id in pr.actual ensures id in pr.claims <==> ClaimIsLive(tr[d].procs[p].doc, id, tr[d].now) {
    }
    if pr.found != {} {
      var id :| id in pr.found;
      assert id in pr.actual && id !in pr.claims && Rechecked(tr, steps, p, d, n, id, true);
      RecheckedOneWay(tr, steps, p, d, n, id);
    }
  }

  /** Over any run: the count becomes empty exactly when a reconcile commits after whose
      scan no scanned key was both still stored at its own re-check and free of an unexpired
      claim. So an operator stays counted unless the scan is stale. */
  lemma CountEmptiesExactlyAfterStaleScan(tr: seq<State>, steps: seq<Step>, n: nat)
    requires Behaviour(tr, steps) && Init(tr[0]) && n < |steps| && tr[n].doc.ids != []
    ensures tr[n + 1].doc.ids == []
            <==> steps[n].CommitReconcile? && exists d :: NothingToCount(tr, steps, steps[n].p, d, n)
  {
    BehaviourKeepsInv(tr, steps, n);
    CountEmptiesExactlyByReconcile(tr[n], steps[n]);
    if steps[n].CommitReconcile? {
      var p := steps[n].p;
      assert Fits(tr[n], tr[n].procs[p]);
      var d := CheckingEstablishes(tr, steps, p, n);
      FoundNothingMeansNothingToCount(tr, steps, p, d, n);
      if d' :| NothingToCount(tr, steps, p, d', n) {
        assert d' == d;
      }
    }
  }

  // ---------- what a step may do when revocations are not timed ----------

  /** Steps the code can take when a running revocation may outlive its claim. */
  ghost predicate Untimed(s: State, st: Step) {
    Enabled(s, st) && (st.Tick? || Assumed(s, st))
  }

  ghost predicate UntimedBehaviour(tr: seq<State>, steps: seq<Step>) {
    && |tr| == |steps| + 1
    && forall i :: 0 <= i < |steps| ==> Untimed(tr[i], steps[i]) && tr[i + 1] == Apply(tr[i], steps[i])
  }

  ghost predicate Connects(tr: seq<State>, steps: seq<Step>, s: State, s': State) {
    UntimedBehaviour(tr, steps) && tr[0] == s && tr[|steps|] == s'
  }

  ghost predicate Reaches(s: State, s': State) {
    exists tr, steps :: Connects(tr, steps, s, s')
  }

  lemma ReachesItself(s: State)
    ensures Reaches(s, s)
  {
    assert Connects([s], [], s, s);
  }

  lemma ReachesNext(s: State, m: State, st: Step)
    requires Reaches(s, m) && Untimed(m, st)
    ensures Reaches(s, Apply(m, st))
  {
    var tr, steps :| Connects(tr, steps, s, m);
    assert Connects(tr + [Apply(m, st)], steps + [st], s, Apply(m, st));
  }

  lemma ReachesOn(s: State, m: State, s': State)
    requires Reaches(s, m) && Reaches(m, s')
    ensures Reaches(s, s')
  {
    var tr, steps :| Connects(tr, steps, s, m);
    var tr', steps' :| Connects(tr', steps', m, s');
    var all, path := tr + tr'[1..], steps + steps';
    forall i | 0 <= i < |path| ensures Untimed(all[i], path[i]) && all[i + 1] == Apply(all[i], path[i]) {
      if i < |steps| {
        assert Untimed(tr[i], steps[i]) && tr[i + 1] == Apply(tr[i], steps[i]);
      } else {
        assert Untimed(tr'[i - |steps|], steps'[i - |steps|]);
        assert all[i] == tr'[i - |steps|] && all[i + 1] == tr'[i - |steps| + 1];
      }
    }
    assert Connects(all, path, s, s');
  }

  // ---------- a reconcile that nothing disturbs recounts every operator ----------

  function Operators(keys: map<Id, Role>): set<Id> {
    set id | id in keys && keys[id].Operator?
  }

  ghost predicate Recounted(s: State, s': State) {
    && s' == s.(now := s'.now, doc := s'.doc, ver := s'.ver)
    && s'.doc.revoking == map[] && NoDup(s'.doc.ids) && (set id | id in s'.doc.ids) == Operators(s.keys)
  }

  lemma {:induction false} ScanTheRest(s: State, q: Pid, actual: set<Id>)
    requires q in s.procs && s.procs[q] == Scanning(actual) && actual <= Operators(s.keys)
    ensures Reaches(s, Goto(s, q, Scanning(Operators(s.keys))))
    decreases |Operators(s.keys) - actual|
  {
    ReachesItself(s);
    if actual == Operators(s.keys) {
      assert Goto(s, q, Scanning(Operators(s.keys))) == s;
    } else {
      var all := Operators(s.keys);
      assert !(all <= actual);
      var id :| id in all && id !in actual;
      var next := Apply(s, ScanKey(q, id));
      ReachesNext(s, s, ScanKey(q, id));
      assert Operators(s.keys) - (actual + {id}) < Operators(s.keys) - actual;
      SmallerSet(Operators(s.keys) - (actual + {id}), Operators(s.keys) - actual);
      ScanTheRest(next, q, actual + {id});
      assert Goto(next, q, Scanning(Operators(s.keys))) == Goto(s, q, Scanning(Operators(s.keys)));
      ReachesOn(s, next, Goto(s, q, Scanning(Operators(s.keys))));
    }
  }

  lemma SmallerSet<T>(a: set<T>, b: set<T>)
    requires a < b
    ensures |a| < |b|
  {
    assert b == a + (b - a);
  }

  lemma {:induction false} CheckTheRest(s: State, q: Pid, todo: set<Id>, found: set<Id>)
    requires q in s.procs && s.procs[q] == Checking(Operators(s.keys), s.ver, map[], todo, found)
    requires todo + found == Operators(s.keys)
    ensures Reaches(s, Goto(s, q, Checking(Operators(s.keys), s.ver, map[], {}, Operators(s.keys))))
    decreases |todo|
  {
    var done := Goto(s, q, Checking(Operators(s.keys), s.ver, map[], {}, Operators(s.keys)));
    ReachesItself(s);
    if todo == {} {
      assert done == s;
    } else {
      var id :| id in todo;
      var next := Apply(s, CheckKey(q, id));
      ReachesNext(s, s, CheckKey(q, id));
      SmallerSet(todo - {id}, todo);
      CheckTheRest(next, q, todo - {id}, found + {id});
      assert Goto(next, q, Checking(Operators(s.keys), s.ver, map[], {}, Operators(s.keys))) == done;
      ReachesOn(s, next, done);
    }
  }

  lemma {:induction false} Enumerated(ids: set<Id>) returns (list: seq<Id>)
    ensures NoDup(list) && (set id | id in list) == ids
    decreases |ids|
  {
    if ids == {} {
      list := [];
    } else {
      var id :| id in ids;
      SmallerSet(ids - {id}, ids);
      var rest := Enumerated(ids - {id});
      assert id in (set x | x in rest) <==> id in rest;
      list := rest + [id];
      assert (set x | x in list) == (set x | x in rest) + {id};
    }
  }

  lemma {:induction false} AllClaimsExpire(claims: map<Id, Time>, now: Time) returns (later: Time)
    ensures now <= later && forall id :: id in claims ==> later - claims[id] >= REVOKE_CLAIM_TTL
    decreases |claims.Keys|
  {
    if claims == map[] {
      later := now;
    } else {
      var id :| id in claims;
      SmallerSet((claims - {id}).Keys, claims.Keys);
      later := AllClaimsExpire(claims - {id}, now);
      later := if later < claims[id] + REVOKE_CLAIM_TTL then claims[id] + REVOKE_CLAIM_TTL else later;
      assert forall x :: x in claims && x != id ==> x in claims - {id};
    }
  }

  /** Time passes until every claim has expired. */
  lemma ClaimsExpire(s: State) returns (m: State)
    ensures Reaches(s, m) && m == s.(now := m.now) && Unexpired(m.doc.revoking, m.now) == map[]
  {
    ReachesItself(s);
    var later := AllClaimsExpire(s.doc.revoking, s.now);
    m := Apply(s, Tick(later));
    ReachesNext(s, s, Tick(later));
  }

  lemma ScanAll(s: State, q: Pid) returns (m: State)
    requires q !in s.procs
    ensures Reaches(s, m) && m == Goto(s, q, Snapshot(Operators(s.keys), s.ver, s.doc))
  {
    ReachesItself(s);
    var s2 := Apply(s, StartReconcile(q));
    ReachesNext(s, s, StartReconcile(q));
    ScanTheRest(s2, q, {});
    var s3 := Goto(s2, q, Scanning(Operators(s.keys)));
    ReachesOn(s, s2, s3);
    m := Apply(s3, ReadDocument(q));
    ReachesNext(s, s3, ReadDocument(q));
    assert m.procs == Goto(s, q, Snapshot(Operators(s.keys), s.ver, s.doc)).procs;
  }

  /** Then a reconcile scans. */
  lemma ScanAfterExpiry(s: State, q: Pid) returns (m: State)
    requires q !in s.procs
    ensures Reaches(s, m) && m == Goto(s.(now := m.now), q, Snapshot(Operators(s.keys), s.ver, s.doc))
    ensures Unexpired(s.doc.revoking, m.now) == map[]
  {
    var s1 := ClaimsExpire(s);
    m := ScanAll(s1, q);
    ReachesOn(s, s1, m);
  }

  lemma CheckAndCommit(s: State, m: State, q: Pid) returns (s': State)
    requires q !in s.procs && m == Goto(s.(now := m.now), q, Snapshot(Operators(s.keys), s.ver, s.doc))
    requires Unexpired(s.doc.revoking, m.now) == map[]
    ensures Reaches(m, s') && Recounted(s, s')
  {
    ReachesItself(m);
    var s4 := Apply(m, DropExpired(q));
    ReachesNext(m, m, DropExpired(q));
    assert Operators(s.keys) - Unexpired(s.doc.revoking, m.now).Keys == Operators(s.keys);
    CheckTheRest(s4, q, Operators(s.keys), {});
    var s5 := Goto(s4, q, Checking(Operators(s.keys), s.ver, map[], {}, Operators(s.keys)));
    ReachesOn(m, s4, s5);
    var ids := Enumerated(Operators(s.keys));
    s' := Apply(s5, CommitReconcile(q, ids));
    ReachesNext(m, s5, CommitReconcile(q, ids));
    assert s'.procs == s.procs;
  }

  lemma Recount(s: State, q: Pid) returns (s': State)
    requires q !in s.procs
    ensures Reaches(s, s') && Recounted(s, s')
  {
    var m := ScanAfterExpiry(s, q);
    s' := CheckAndCommit(s, m, q);
    ReachesOn(s, m, s');
  }

  /** A reconcile of process `p` starts at `i` and commits at `n`; while it runs nobody else
      changes a key or the document. */
  ghost predicate Undisturbed(tr: seq<State>, steps: seq<Step>, p: Pid, i: nat, n: nat) {
    && UntimedBehaviour(tr, steps) && i < n < |steps|
    && steps[i] == StartReconcile(p) && steps[n].CommitReconcile? && steps[n].p == p
    && (forall k :: i < k <= n ==> p in tr[k].procs)
    && forall k :: i <= k <= n ==> (tr[k].keys, tr[k].doc, tr[k].ver) == (tr[i].keys, tr[i].doc, tr[i].ver)
  }

  /** The scan has seen every operator key. */
  ghost predicate CompleteScan(tr: seq<State>, steps: seq<Step>, p: Pid, i: nat, n: nat)
    requires Undisturbed(tr, steps, p, i, n)
  {
    forall k :: i < k < n && steps[k] == ReadDocument(p) ==> tr[k].procs[p] == Scanning(Operators(tr[k].keys))
  }

  /** The reconcile looked at the claims at `d`, and has found or has yet to check every
      operator key that was not claimed then. */
  ghost predicate Recounting(tr: seq<State>, steps: seq<Step>, p: Pid, d: nat, k: nat) {
    && d < k < |tr| && |steps| + 1 == |tr| && steps[d] == DropExpired(p) && p in tr[k].procs && tr[k].procs[p].Checking?
    && var claims := Unexpired(tr[d].doc.revoking, tr[d].now);
       && tr[k].procs[p].claims == claims
       && tr[k].procs[p].found + tr[k].procs[p].todo == Operators(tr[k].keys) - claims.Keys
  }

  /** One step of the reconcile itself. */
  lemma ReconcileMoves(s: State, st: Step, p: Pid)
    requires Enabled(s, st) && Moves(st, p) && p in Apply(s, st).procs && p in s.procs
    requires var pr := s.procs[p]; pr.Scanning? || pr.Snapshot? || (pr.Checking? && pr.ver == s.ver)
    ensures var pr, pr' := s.procs[p], Apply(s, st).procs[p];
            match st
            case ScanKey(_, _) => pr'.Scanning?
            case ReadDocument(_) => pr.Scanning? && pr' == Snapshot(pr.actual, s.ver, s.doc)
            case DropExpired(_) =>
              var claims := Unexpired(pr.doc.revoking, s.now);
              pr.Snapshot? && pr' == Checking(pr.actual, pr.ver, claims, pr.actual - claims.Keys, {})
            case CheckKey(_, id) => pr' == pr.(todo := pr.todo - {id}, found := if id in s.keys then pr.found + {id} else pr.found) && id in pr.todo
            case _ => false
  {
  }

  ghost predicate Progress(tr: seq<State>, steps: seq<Step>, p: Pid, d: nat, k: nat)
    requires k < |tr| && p in tr[k].procs
  {
    var pr := tr[k].procs[p];
    || pr.Scanning?
    || pr == Snapshot(Operators(tr[k].keys), tr[k].ver, tr[k].doc)
    || (pr.Checking? && pr.ver == tr[k].ver && Recounting(tr, steps, p, d, k))
  }

  lemma NextProgress(tr: seq<State>, steps: seq<Step>, p: Pid, d: nat, k: nat)
    requires |tr| == |steps| + 1 && k < |steps| && Enabled(tr[k], steps[k]) && tr[k + 1] == Apply(tr[k], steps[k])
    requires p in tr[k].procs && p in tr[k + 1].procs && Progress(tr, steps, p, d, k)
    requires (tr[k + 1].keys, tr[k + 1].doc, tr[k + 1].ver) == (tr[k].keys, tr[k].doc, tr[k].ver)
    requires steps[k] == ReadDocument(p) ==> tr[k].procs[p] == Scanning(Operators(tr[k].keys))
    ensures Progress(tr, steps, p, if steps[k] == DropExpired(p) then k else d, k + 1)
  {
    if Moves(steps[k], p) {
      ReconcileMoves(tr[k], steps[k], p);
    } else {
      OthersStay(tr[k], steps[k], p);
    }
  }

  lemma NextOfReconcile(tr: seq<State>, steps: seq<Step>, p: Pid, i: nat, n: nat, d: nat, k: nat)
    requires Undisturbed(tr, steps, p, i, n) && CompleteScan(tr, steps, p, i, n) && i < k < n && Progress(tr, steps, p, d, k)
    ensures Progress(tr, steps, p, if steps[k] == DropExpired(p) then k else d, k + 1)
  {
    assert Untimed(tr[k], steps[k]) && tr[k + 1] == Apply(tr[k], steps[k]);
    NextProgress(tr, steps, p, d, k);
  }

  lemma {:induction false} ReconcileProgress(tr: seq<State>, steps: seq<Step>, p: Pid, i: nat, n: nat, k: nat) returns (d: nat)
    requires Undisturbed(tr, steps, p, i, n) && CompleteScan(tr, steps, p, i, n) && i < k <= n
    ensures i <= d && Progress(tr, steps, p, d, k)
    decreases k
  {
    d := i;
    if k > i + 1 {
      d := ReconcileProgress(tr, steps, p, i, n, k - 1);
      NextOfReconcile(tr, steps, p, i, n, d, k - 1);
      d := if steps[k - 1] == DropExpired(p) then k - 1 else d;
    } else {
      assert Untimed(tr[i], steps[i]) && tr[k] == Apply(tr[i], steps[i]);
    }
  }

  /** Every reconcile with a complete scan that nobody disturbs counts exactly the operators
      without a claim that was unexpired when it looked; all operators, if the claims had
      expired before it started. */
  lemma EveryUndisturbedReconcileRecounts(tr: seq<State>, steps: seq<Step>, p: Pid, i: nat, n: nat) returns (d: nat)
    requires Undisturbed(tr, steps, p, i, n) && CompleteScan(tr, steps, p, i, n)
    ensures i < d < n && NoDup(tr[n + 1].doc.ids) && tr[n + 1].keys == tr[i].keys
    ensures tr[n + 1].doc.revoking == Unexpired(tr[i].doc.revoking, tr[d].now)
    ensures forall id :: id in tr[n + 1].doc.ids <==> LiveOperator(tr[i], id) && !ClaimIsLive(tr[i].doc, id, tr[d].now)
    ensures Unexpired(tr[i].doc.revoking, tr[i].now) == map[] ==>
              tr[n + 1].doc.revoking == map[] && forall id :: id in tr[n + 1].doc.ids <==> LiveOperator(tr[i], id)
  {
    d := ReconcileProgress(tr, steps, p, i, n, n);
    assert Untimed(tr[n], steps[n]) && tr[n + 1] == Apply(tr[n], steps[n]);
    var ids, claims := steps[n].ids, Unexpired(tr[d].doc.revoking, tr[d].now);
    assert tr[d].doc == tr[i].doc && (set x | x in ids) == Operators(tr[n].keys) - claims.Keys;
    forall id ensures id in ids <==> LiveOperator(tr[i], id) && !ClaimIsLive(tr[i].doc, id, tr[d].now) {
      assert id in ids <==> id in Operators(tr[n].keys) - claims.Keys by {
        assert id in ids <==> id in (set x | x in ids);
      }
      assert tr[n].keys == tr[i].keys && (id in Operators(tr[n].keys) <==> LiveOperator(tr[i], id));
      assert id in claims.Keys <==> id in claims;
      assert id in claims <==> ClaimIsLive(tr[d].doc, id, tr[d].now);
    }
    TimeOnlyPasses(tr, steps, i, d);
    if Unexpired(tr[i].doc.revoking, tr[i].now) == map[] {
      forall id | id in tr[i].doc.revoking ensures !ClaimIsLive(tr[i].doc, id, tr[d].now) {
        assert id !in Unexpired(tr[i].doc.revoking, tr[i].now);
      }
    }
  }

  lemma {:induction false} TimeOnlyPasses(tr: seq<State>, steps: seq<Step>, i: nat, j: nat)
    requires UntimedBehaviour(tr, steps) && i <= j < |tr|
    ensures tr[i].now <= tr[j].now
    decreases j
  {
    if i < j {
      TimeOnlyPasses(tr, steps, i, j - 1);
      assert Untimed(tr[j - 1], steps[j - 1]) && tr[j] == Apply(tr[j - 1], steps[j - 1]);
    }
  }

  // ---------- the converse of last-operator safety ----------

  /** Everything is counted, nothing claimed, and nobody is creating a key. */
  ghost predicate Settled(s: State) {
    && s.doc.revoking == map[] && NoDup(s.doc.ids) && (set id | id in s.doc.ids) == Operators(s.keys)
    && forall p, id :: p in s.procs ==> !Creates(s.procs[p], id)
  }

  lemma ClaimIsGranted(s: State, id: Id, other: Id)
    requires Settled(s) && LiveOperator(s, id) && LiveOperator(s, other) && id != other
    ensures BeginRevoke(s.doc, id, s.now) == Claimed(OpSet(Without(s.doc.ids, id), map[id := s.now]))
  {
    assert id in Operators(s.keys) && other in Operators(s.keys);
    assert id in (set x | x in s.doc.ids) && other in (set x | x in s.doc.ids);
    BeginSucceedsIffAnotherIsCounted(s.doc, id, s.now);
    assert s.doc.revoking[id := s.now] == map[id := s.now];
  }

  /** The claim on `id` while another operator is counted. */
  lemma ClaimIt(s: State, q: Pid, id: Id, other: Id) returns (m: State)
    requires Settled(s) && q !in s.procs && LiveOperator(s, id) && LiveOperator(s, other) && id != other
    ensures Reaches(s, m)
    ensures m == WriteDoc(Goto(s, q, Revoking(id, true, Audited, s.now)), OpSet(Without(s.doc.ids, id), map[id := s.now]))
  {
    ReachesItself(s);
    var s1 := Goto(s, q, Revoking(id, true, Looked, 0));
    StartsRevoking(s, q, id);
    ReachesNext(s, s, StartRevoke(q, id));
    ClaimIsGranted(s, id, other);
    var s2 := WriteDoc(Goto(s, q, Revoking(id, true, Begun, s.now)), OpSet(Without(s.doc.ids, id), map[id := s.now]));
    Begins(s1, q, s.now);
    assert s1.procs[q := Revoking(id, true, Begun, s.now)] == s2.procs;
    ReachesNext(s, s1, Begin(q, s.now));
    m := WriteDoc(Goto(s, q, Revoking(id, true, Audited, s.now)), OpSet(Without(s.doc.ids, id), map[id := s.now]));
    assert s2.procs[q := Revoking(id, true, Audited, s.now)] == m.procs;
    IsAudited(s2, q);
    ReachesNext(s, s2, Audit(q, true));
  }

  lemma StartsRevoking(s: State, q: Pid, id: Id)
    requires q !in s.procs && LiveOperator(s, id) && forall p :: p in s.procs ==> !Creates(s.procs[p], id)
    ensures Untimed(s, StartRevoke(q, id)) && Apply(s, StartRevoke(q, id)) == Goto(s, q, Revoking(id, true, Looked, 0))
  {
  }

  lemma Begins(s: State, q: Pid, now: Time)
    requires q in s.procs && s.procs[q].Revoking? && s.procs[q].operator && s.procs[q].pc.Looked? && now == s.now
    ensures Untimed(s, Begin(q, now))
    ensures BeginRevoke(s.doc, s.procs[q].id, now).Claimed? ==>
              Apply(s, Begin(q, now)) == WriteDoc(Goto(s, q, s.procs[q].(pc := Begun, at := now)), BeginRevoke(s.doc, s.procs[q].id, now).doc)
  {
  }

  lemma IsAudited(s: State, q: Pid)
    requires q in s.procs && s.procs[q].Revoking? && s.procs[q].pc.Begun?
    ensures Untimed(s, Audit(q, true)) && Apply(s, Audit(q, true)) == Goto(s, q, s.procs[q].(pc := Audited))
  {
  }

  lemma RevokeIt(s: State, q: Pid, id: Id, other: Id) returns (s': State)
    requires Settled(s) && q !in s.procs && LiveOperator(s, id) && LiveOperator(s, other) && id != other
    ensures Reaches(s, s') && Settled(s') && s'.procs == s.procs && s'.keys == s.keys - {id}
  {
    var m := ClaimIt(s, q, id, other);
    var s1 := Apply(m, DeleteKey(q, true, true));
    ReachesNext(s, m, DeleteKey(q, true, true));
    s' := Apply(s1, Finish(q));
    ReachesNext(s, s1, Finish(q));
    assert s'.procs == s.procs && s'.doc.revoking == map[];
    assert Operators(s'.keys) == Operators(s.keys) - {id};
    forall x ensures x in s'.doc.ids <==> x in Operators(s'.keys) {
      assert x in s.doc.ids <==> x in (set y | y in s.doc.ids);
    }
  }

  /** One by one, while `last` is counted, every other operator is revoked. */
  lemma {:induction false} RevokeAllBut(s: State, q: Pid, last: Id) returns (s': State)
    requires Settled(s) && q !in s.procs && LiveOperator(s, last)
    ensures Reaches(s, s') && s'.procs == s.procs && Operators(s'.keys) == {last}
    decreases |Operators(s.keys)|
  {
    ReachesItself(s);
    if Operators(s.keys) == {last} {
      s' := s;
    } else {
      assert last in Operators(s.keys);
      var id :| id in Operators(s.keys) && id != last;
      var m := RevokeIt(s, q, id, last);
      assert Operators(m.keys) == Operators(s.keys) - {id};
      SmallerSet(Operators(m.keys), Operators(s.keys));
      s' := RevokeAllBut(m, q, last);
      ReachesOn(s, m, s');
    }
  }

  lemma {:induction false} CrashAllBut(s: State, p: Pid)
    requires p in s.procs
    ensures Reaches(s, s.(procs := map[p := s.procs[p]]))
    decreases |s.procs.Keys|
  {
    ReachesItself(s);
    var alone := s.(procs := map[p := s.procs[p]]);
    if s.procs.Keys == {p} {
      assert s.procs == alone.procs;
    } else {
      var q :| q in s.procs && q != p;
      var m := Apply(s, Crash(q));
      ReachesNext(s, s, Crash(q));
      assert m.procs.Keys < s.procs.Keys;
      SmallerSet(m.procs.Keys, s.procs.Keys);
      CrashAllBut(m, p);
      ReachesOn(s, m, alone);
    }
  }

  /** Wherever a revocation of a live operator key is about to delete it, and may outlive its
      claim, the guard can be defeated, however many operators there are: the others crash,
      the claim expires, a reconcile counts the key again, the other operators are revoked
      against that count, and then the overdue delete happens. */
  lemma OverdueRevocationDefeatsTheGuard(s: State, p: Pid) returns (s': State)
    requires p in s.procs && s.procs[p].Revoking? && s.procs[p].operator && s.procs[p].pc.Audited?
    requires LiveOperator(s, s.procs[p].id)
    ensures Reaches(s, s') && !HasOperator(s')
  {
    CrashAllBut(s, p);
    var alone, q := s.(procs := map[p := s.procs[p]]), p + 1;
    var counted := Recount(alone, q);
    ReachesOn(s, alone, counted);
    var lonely := RevokeAllBut(counted, q, s.procs[p].id);
    ReachesOn(s, counted, lonely);
    s' := Apply(lonely, DeleteKey(p, true, true));
    ReachesNext(s, lonely, DeleteKey(p, true, true));
    forall id ensures !LiveOperator(s', id) {
      assert LiveOperator(s', id) ==> id in Operators(lonely.keys);
    }
  }

  /** So without the time limit every resting store with two operators can lose all of them. */
  lemma UntimedGuardProtectsNoStore(s: State) returns (s': State)
    requires s.procs == map[] && exists a, b :: a != b && LiveOperator(s, a) && LiveOperator(s, b)
    ensures Reaches(s, s') && !HasOperator(s')
  {
    var a, b :| a != b && LiveOperator(s, a) && LiveOperator(s, b);
    var counted := Recount(s, 0);
    var claimed := ClaimIt(counted, 0, a, b);
    ReachesOn(s, counted, claimed);
    s' := OverdueRevocationDefeatsTheGuard(claimed, 0);
    ReachesOn(s, claimed, s');
  }

  // ---------- a run whose reconcile is stale ----------

  lemma Then(tr: seq<State>, steps: seq<Step>, st: Step, next: State) returns (tr': seq<State>, steps': seq<Step>)
    requires Behaviour(tr, steps) && Legal(tr[|steps|], st) && Apply(tr[|steps|], st) == next
    ensures Behaviour(tr', steps') && tr'[|steps'|] == next
    ensures tr' == tr + [next] && steps' == steps + [st]
  {
    tr', steps' := tr + [next], steps + [st];
  }

  /** A reconcile has scanned an empty store; since then the first key was stored and counted. */
  function FirstCounted(): State {
    State(map["a" := Operator], OpSet(["a"], map[]), 1, 0, {"a"}, map[1 := Scanning({})])
  }

  lemma FirstKeyIsStored() returns (tr: seq<State>, steps: seq<Step>)
    ensures Behaviour(tr, steps) && Init(tr[0])
    ensures tr[|steps|] == FirstCounted().(doc := OpSet([], map[]), ver := 0, procs := map[1 := Scanning({}), 2 := Counting("a")])
  {
    var s0 := State(map[], OpSet([], map[]), 0, 0, {}, map[]);
    var s1 := s0.(procs := map[1 := Scanning({})]);
    var s2 := s1.(used := {"a"}, procs := map[1 := Scanning({}), 2 := Creating("a", Operator, true)]);
    tr, steps := [s0], [];
    tr, steps := Then(tr, steps, StartReconcile(1), s1);
    tr, steps := Then(tr, steps, StartBootstrap(2, "a"), s2);
    tr, steps := Then(tr, steps, StoreKey(2), s2.(keys := map["a" := Operator], procs := map[1 := Scanning({}), 2 := Counting("a")]));
  }

  lemma FirstKeyIsCounted() returns (tr: seq<State>, steps: seq<Step>)
    ensures Behaviour(tr, steps) && Init(tr[0]) && tr[|steps|] == FirstCounted()
  {
    tr, steps := FirstKeyIsStored();
    var s := tr[|steps|];
    assert s.procs - {2} == FirstCounted().procs;
    assert AddOperator(s.doc, "a") == FirstCounted().doc by {
      assert s.doc.ids + ["a"] == ["a"];
      assert s.doc.revoking - {"a"} == map[];
    }
    tr, steps := Then(tr, steps, CountKey(2), FirstCounted());
  }

  function StaleSnapshot(): State {
    FirstCounted().(procs := map[1 := Snapshot({}, 1, FirstCounted().doc)])
  }

  lemma StaleScanIsRead() returns (tr: seq<State>, steps: seq<Step>)
    ensures Behaviour(tr, steps) && Init(tr[0])
    ensures tr[|steps|] == StaleSnapshot().(procs := map[1 := Checking({}, 1, map[], {}, {})])
  {
    tr, steps := FirstKeyIsCounted();
    tr, steps := Then(tr, steps, ReadDocument(1), StaleSnapshot());
    var s := StaleSnapshot();
    assert Unexpired(s.doc.revoking, s.now) == map[];
    assert s.procs[1].actual - Unexpired(s.doc.revoking, s.now).Keys == {};
    tr, steps := Then(tr, steps, DropExpired(1), s.(procs := map[1 := Checking({}, 1, map[], {}, {})]));
  }

  /** The count can become empty while an operator key lives. */
  lemma StaleReconcileMayEmptyTheCount() returns (tr: seq<State>, steps: seq<Step>)
    ensures Behaviour(tr, steps) && Init(tr[0]) && HasOperator(tr[|steps|]) && tr[|steps|].doc.ids == []
  {
    tr, steps := StaleScanIsRead();
    var s := tr[|steps|];
    var s' := s.(doc := OpSet([], map[]), ver := 2, procs := map[]);
    assert s.procs - {1} == map[];
    tr, steps := Then(tr, steps, CommitReconcile(1, []), s');
    assert LiveOperator(s', "a");
  }
}
