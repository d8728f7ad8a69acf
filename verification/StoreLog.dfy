/** The audit chain shared by all replicas: an append claims the next number by a
    compare-and-swap on the head document, then writes the record in a second step. */
module StoreLog {
  import opened Common
  import opened Text
  import opened AuditRecord

  type Pid = nat

  datatype Proc =
    | Logging(body: Body)                          // about to read the head
    | Sealed(body: Body, seen: Head, ver: nat, rec: Record)  // about to advance it
    | Writing(rec: Record)                         // number claimed; about to write the record

  /** `records` holds the record documents by number (stored under the padded key of that
      number); `chain` lists every record that ever claimed a number. */
  datatype State = State(head: Head, ver: nat, records: map<nat, Record>, chain: seq<Record>, procs: map<Pid, Proc>)

  datatype Step =
    | StartLog(p: Pid, body: Body)
    | StartCheckpoint(p: Pid, time: int)
    | ReadHead(p: Pid, nonce: nat)
    | AdvanceHead(p: Pid)
    | WriteRecord(p: Pid)
    | TouchHead(p: Pid)  // a replica opening the log rewrites the head unchanged
    | Crash(p: Pid)

  predicate Enabled(e: Env, s: State, st: Step) {
    match st
    case StartLog(p, body) => p !in s.procs && body.action != CHECKPOINT
    case StartCheckpoint(p, time) => p !in s.procs
    case ReadHead(p, nonce) => p in s.procs && s.procs[p].Logging? && s.head.number + 1 < UINT64_LIMIT
    case AdvanceHead(p) => p in s.procs && s.procs[p].Sealed?
    case WriteRecord(p) => p in s.procs && s.procs[p].Writing?
    case TouchHead(p) => true
    case Crash(p) => p in s.procs
  }

  function Apply(e: Env, s: State, st: Step): State
    requires Enabled(e, s, st)
  {
    match st
    case StartLog(p, body) => s.(procs := s.procs[p := Logging(body)])
    case StartCheckpoint(p, time) => s.(procs := s.procs[p := Logging(CheckpointBody(s.head, time))])
    case ReadHead(p, nonce) =>
      var body := s.procs[p].body;
      (match Seal(e.c, ContentOf(e, body, s.head), nonce)
       case None => s.(procs := s.procs - {p})
       case Some(rec) => s.(procs := s.procs[p := Sealed(body, s.head, s.ver, rec)]))
    case AdvanceHead(p) =>
      var f := s.procs[p];
      if f.ver == s.ver then
        State(Head(f.rec.content.number, f.rec.hash), s.ver + 1, s.records, s.chain + [f.rec], s.procs[p := Writing(f.rec)])
      else s.(procs := s.procs[p := Logging(f.body)])
    case WriteRecord(p) =>
      var rec := s.procs[p].rec;
      s.(records := s.records[rec.content.number := rec], procs := s.procs - {p})
    case TouchHead(p) => s.(ver := s.ver + 1)
    case Crash(p) => s.(procs := s.procs - {p})
  }

  /** A chain of one genesis record, whose document is written, or still being written. */
  ghost predicate Init(e: Env, s: State) {
    && |s.chain| == 1 && Verified(e.c, s.chain) && UsableHash(s.chain[0].hash)
    && s.chain[0].content.number == 1 && s.chain[0].content.action != CHECKPOINT
    && s.head == Head(1, s.chain[0].hash)
    && ((s.records == map[1 := s.chain[0]] && s.procs == map[])
        || (s.records == map[] && exists p :: s.procs == map[p := Writing(s.chain[0])]))
  }

  ghost predicate Behaviour(e: Env, tr: seq<State>, steps: seq<Step>) {
    && Sound(e.c) && |tr| == |steps| + 1 && Init(e, tr[0])
    && forall i :: 0 <= i < |steps| ==> Enabled(e, tr[i], steps[i]) && tr[i + 1] == Apply(e, tr[i], steps[i])
  }

  // ---------- invariant ----------

  /** One gapless linked chain, ending at the head. */
  ghost predicate ChainIsWhole(e: Env, s: State) {
    && 1 <= |s.chain| < UINT64_LIMIT
    && Verified(e.c, s.chain)
    && (forall i :: 0 <= i < |s.chain| ==> s.chain[i].content.number == i + 1 && UsableHash(s.chain[i].hash))
    && s.head == Head(|s.chain|, s.chain[|s.chain| - 1].hash)
  }

  predicate Claimed(s: State, n: nat) {
    1 <= n <= |s.chain|
  }

  /** Every stored record is the chain's own. */
  predicate RecordsAreChain(s: State) {
    forall n :: n in s.records ==> Claimed(s, n) && s.records[n] == s.chain[n - 1]
  }

  /** The detail names a position among the first `n` records, and that record's hash. */
  ghost predicate Binds(detail: map<string, string>, chain: seq<Record>, n: nat) {
    exists i :: 0 <= i < n && i < |chain| && detail == CheckpointDetail(Head(i + 1, chain[i].hash))
  }

  ghost predicate Fits(e: Env, s: State, f: Proc) {
    match f
    case Logging(body) => body.action == CHECKPOINT ==> Binds(body.detail, s.chain, |s.chain|)
    case Sealed(body, seen, ver, rec) =>
      && (body.action == CHECKPOINT ==> Binds(body.detail, s.chain, |s.chain|))
      && rec.content == ContentOf(e, body, seen) && (exists nonce: nat :: Seal(e.c, rec.content, nonce) == Some(rec))
      && ver <= s.ver && (ver == s.ver ==> seen == s.head) && seen.number + 1 < UINT64_LIMIT
    case Writing(rec) =>
      var n := rec.content.number;
      Claimed(s, n) && rec == s.chain[n - 1] && n !in s.records
  }

  ghost predicate Inv(e: Env, s: State) {
    && ChainIsWhole(e, s) && RecordsAreChain(s)
    && (forall p :: p in s.procs ==> Fits(e, s, s.procs[p]))
    && (forall p, q :: p in s.procs && q in s.procs && p != q && s.procs[p].Writing? && s.procs[q].Writing? ==>
          s.procs[p].rec.content.number != s.procs[q].rec.content.number)
    && (forall i :: 0 <= i < |s.chain| && s.chain[i].content.action == CHECKPOINT ==>
          Binds(s.chain[i].content.detail, s.chain, i))
  }

  lemma InitInv(e: Env, s: State)
    requires Init(e, s)
    ensures Inv(e, s)
  {
  }

  lemma AppendKeepsVerified(e: Env, s: State, rec: Record, nonce: nat)
    requires Sound(e.c) && ChainIsWhole(e, s) && s.head.number + 1 < UINT64_LIMIT
    requires rec.content.number == s.head.number + 1 && rec.content.prevHash == s.head.hash
    requires Seal(e.c, rec.content, nonce) == Some(rec)
    ensures Verified(e.c, s.chain + [rec]) && UsableHash(rec.hash)
  {
    var longer := s.chain + [rec];
    SealSucceedsAndVerifies(e.c, rec.content, nonce, s.head.hash);
    forall i | 0 <= i < |longer| ensures VerdictAt(e.c, longer, i).Accepted? {
      if i < |s.chain| {
        assert VerdictAt(e.c, longer, i) == VerdictAt(e.c, s.chain, i);
      }
    }
  }

  lemma BindsOn(detail: map<string, string>, chain: seq<Record>, n: nat, rec: Record, m: nat)
    requires Binds(detail, chain, n) && n <= m
    ensures Binds(detail, chain + [rec], m)
  {
    var i :| 0 <= i < n && i < |chain| && detail == CheckpointDetail(Head(i + 1, chain[i].hash));
    assert (chain + [rec])[i] == chain[i];
  }

  predicate Claims(e: Env, s: State, p: Pid) {
    Enabled(e, s, AdvanceHead(p)) && s.procs[p].ver == s.ver
  }

  lemma ClaimKeepsChain(e: Env, s: State, p: Pid)
    requires Sound(e.c) && ChainIsWhole(e, s) && RecordsAreChain(s) && Claims(e, s, p) && Fits(e, s, s.procs[p])
    ensures ChainIsWhole(e, Apply(e, s, AdvanceHead(p))) && RecordsAreChain(Apply(e, s, AdvanceHead(p)))
  {
    var rec := s.procs[p].rec;
    var nonce: nat :| Seal(e.c, rec.content, nonce) == Some(rec);
    AppendKeepsVerified(e, s, rec, nonce);
    var s' := Apply(e, s, AdvanceHead(p));
    assert s'.chain == s.chain + [rec];
    forall n | n in s'.records ensures Claimed(s', n) && s'.records[n] == s'.chain[n - 1] {
      assert Claimed(s, n) && s.records[n] == s.chain[n - 1];
    }
  }

  lemma OthersFitAfterClaim(e: Env, s: State, p: Pid, f: Proc)
    requires Claims(e, s, p) && Fits(e, s, f)
    ensures Fits(e, Apply(e, s, AdvanceHead(p)), f)
  {
    if !f.Writing? && f.body.action == CHECKPOINT {
      BindsOn(f.body.detail, s.chain, |s.chain|, s.procs[p].rec, |s.chain| + 1);
    }
  }

  lemma ClaimantFits(e: Env, s: State, p: Pid)
    requires ChainIsWhole(e, s) && RecordsAreChain(s) && Claims(e, s, p) && Fits(e, s, s.procs[p])
    ensures Fits(e, Apply(e, s, AdvanceHead(p)), Writing(s.procs[p].rec))
  {
    assert s.procs[p].rec.content.number == |s.chain| + 1;
  }

  lemma ClaimKeepsBindings(e: Env, s: State, p: Pid)
    requires Inv(e, s) && Claims(e, s, p)
    ensures var s' := Apply(e, s, AdvanceHead(p));
            forall i :: 0 <= i < |s'.chain| && s'.chain[i].content.action == CHECKPOINT ==> Binds(s'.chain[i].content.detail, s'.chain, i)
  {
    var rec, longer := s.procs[p].rec, s.chain + [s.procs[p].rec];
    assert Fits(e, s, s.procs[p]);
    forall i | 0 <= i < |longer| && longer[i].content.action == CHECKPOINT
      ensures Binds(longer[i].content.detail, longer, i)
    {
      BindsOn(longer[i].content.detail, s.chain, i, rec, i);
    }
  }

  lemma ClaimKeepsInv(e: Env, s: State, p: Pid)
    requires Sound(e.c) && Inv(e, s) && Claims(e, s, p)
    ensures Inv(e, Apply(e, s, AdvanceHead(p)))
  {
    var s' := Apply(e, s, AdvanceHead(p));
    ClaimKeepsChain(e, s, p);
    ClaimKeepsBindings(e, s, p);
    ClaimantFits(e, s, p);
    forall q | q in s'.procs ensures Fits(e, s', s'.procs[q]) {
      if q != p {
        OthersFitAfterClaim(e, s, p, s.procs[q]);
      }
    }
    forall q | q in s'.procs && q != p && s'.procs[q].Writing?
      ensures s'.procs[q].rec.content.number != s.procs[p].rec.content.number
    {
      assert Fits(e, s, s.procs[q]);
    }
  }

  lemma OtherFitsAfterWrite(e: Env, s: State, p: Pid, q: Pid)
    requires Enabled(e, s, WriteRecord(p)) && q in s.procs && q != p && Fits(e, s, s.procs[q])
    requires s.procs[q].Writing? ==> s.procs[q].rec.content.number != s.procs[p].rec.content.number
    ensures Fits(e, Apply(e, s, WriteRecord(p)), s.procs[q])
  {
  }

  lemma WriteKeepsInv(e: Env, s: State, p: Pid)
    requires Inv(e, s) && Enabled(e, s, WriteRecord(p))
    ensures Inv(e, Apply(e, s, WriteRecord(p)))
  {
    var s' := Apply(e, s, WriteRecord(p));
    assert Fits(e, s, s.procs[p]);
    forall q | q in s'.procs ensures Fits(e, s', s'.procs[q]) {
      assert Fits(e, s, s.procs[q]);
      OtherFitsAfterWrite(e, s, p, q);
    }
    WriteKeepsRecords(e, s, p);
  }

  lemma WriteKeepsRecords(e: Env, s: State, p: Pid)
    requires RecordsAreChain(s) && Enabled(e, s, WriteRecord(p)) && Fits(e, s, s.procs[p])
    ensures RecordsAreChain(Apply(e, s, WriteRecord(p)))
  {
    var s' := Apply(e, s, WriteRecord(p));
    forall n | n in s'.records ensures Claimed(s', n) && s'.records[n] == s'.chain[n - 1] {
      assert n in s.records ==> Claimed(s, n);
    }
  }

  lemma MoverFits(e: Env, s: State, st: Step)
    requires Inv(e, s) && Enabled(e, s, st)
    requires st.StartLog? || st.StartCheckpoint? || st.ReadHead? || (st.AdvanceHead? && s.procs[st.p].ver != s.ver)
    ensures st.p in Apply(e, s, st).procs ==> Fits(e, Apply(e, s, st), Apply(e, s, st).procs[st.p])
  {
    if st.StartCheckpoint? {
      assert s.chain[|s.chain| - 1].hash == s.head.hash;
      assert Binds(CheckpointDetail(s.head), s.chain, |s.chain|);
    } else if st.p in s.procs {
      assert Fits(e, s, s.procs[st.p]);
    }
  }

  predicate Private(s: State, st: Step) {
    !st.WriteRecord? && (st.AdvanceHead? ==> st.p in s.procs && s.procs[st.p].Sealed? && s.procs[st.p].ver != s.ver)
  }

  lemma PrivateStepMovesOne(e: Env, s: State, st: Step, q: Pid)
    requires Enabled(e, s, st) && Private(s, st) && q in Apply(e, s, st).procs
    ensures Apply(e, s, st).chain == s.chain && Apply(e, s, st).records == s.records && Apply(e, s, st).head == s.head
    ensures s.ver <= Apply(e, s, st).ver
    ensures (q in s.procs && Apply(e, s, st).procs[q] == s.procs[q]) || (q == st.p && !Apply(e, s, st).procs[q].Writing?)
  {
  }

  /** Steps that leave chain and records alone. */
  lemma PrivateStepKeepsInv(e: Env, s: State, st: Step)
    requires Inv(e, s) && Enabled(e, s, st) && Private(s, st)
    ensures Inv(e, Apply(e, s, st))
  {
    var s' := Apply(e, s, st);
    forall q | q in s'.procs
      ensures Fits(e, s', s'.procs[q])
      ensures s'.procs[q].Writing? ==> q in s.procs && s.procs[q] == s'.procs[q]
    {
      PrivateStepMovesOne(e, s, st, q);
      if q in s.procs && s'.procs[q] == s.procs[q] {
        assert Fits(e, s, s.procs[q]);
      } else {
        MoverFits(e, s, st);
      }
    }
  }

  lemma StepKeepsInv(e: Env, s: State, st: Step)
    requires Sound(e.c) && Inv(e, s) && Enabled(e, s, st)
    ensures Inv(e, Apply(e, s, st))
  {
    if st.WriteRecord? {
      WriteKeepsInv(e, s, st.p);
    } else if st.AdvanceHead? && s.procs[st.p].ver == s.ver {
      ClaimKeepsInv(e, s, st.p);
    } else {
      PrivateStepKeepsInv(e, s, st);
    }
  }

  lemma {:induction false} BehaviourKeepsInv(e: Env, tr: seq<State>, steps: seq<Step>, i: nat)
    requires Behaviour(e, tr, steps) && i < |tr|
    ensures Inv(e, tr[i])
  {
    if i == 0 {
      InitInv(e, tr[0]);
    } else {
      BehaviourKeepsInv(e, tr, steps, i - 1);
      StepKeepsInv(e, tr[i - 1], steps[i - 1]);
    }
  }

  // ---------- the chain over whole runs ----------

  lemma {:induction false} ChainOnlyGrows(e: Env, tr: seq<State>, steps: seq<Step>, i: nat, j: nat)
    requires Behaviour(e, tr, steps) && i <= j < |tr|
    ensures tr[i].chain <= tr[j].chain
  {
    if i < j {
      ChainOnlyGrows(e, tr, steps, i, j - 1);
    }
  }

  /** Under any number of concurrent loggers and crashes there is one gapless linked chain
      as long as the head says; a number once claimed belongs to the same record for ever,
      and a stored record is the chain's record of its number. */
  lemma StoreChainIsOneChain(e: Env, tr: seq<State>, steps: seq<Step>, i: nat, j: nat)
    requires Behaviour(e, tr, steps) && i <= j < |tr|
    ensures tr[i].chain != [] && Verified(e.c, tr[i].chain)
    ensures tr[i].head == Head(|tr[i].chain|, tr[i].chain[|tr[i].chain| - 1].hash)
    ensures forall k :: 0 <= k < |tr[i].chain| ==> tr[i].chain[k].content.number == k + 1
    ensures tr[i].chain <= tr[j].chain
    ensures forall n :: n in tr[j].records ==> 1 <= n <= |tr[j].chain| && tr[j].records[n] == tr[j].chain[n - 1]
  {
    BehaviourKeepsInv(e, tr, steps, i);
    BehaviourKeepsInv(e, tr, steps, j);
    ChainOnlyGrows(e, tr, steps, i, j);
  }

  /** Every checkpoint of every run carries an earlier position and exactly the hash of the
      chain's record there, and it can be read in no other way. */
  lemma CheckpointsBindRealPrefixes(e: Env, tr: seq<State>, steps: seq<Step>, i: nat, n: nat)
    requires Behaviour(e, tr, steps) && i < |tr| && n < |tr[i].chain| && tr[i].chain[n].content.action == CHECKPOINT
    ensures exists k :: 0 <= k < n && tr[i].chain[n].content.detail == CheckpointDetail(Head(k + 1, tr[i].chain[k].hash))
    ensures forall a, b :: tr[i].chain[n].content.detail == CheckpointDetail(a) == CheckpointDetail(b) ==> a == b
  {
    BehaviourKeepsInv(e, tr, steps, i);
    assert Binds(tr[i].chain[n].content.detail, tr[i].chain, n);
    forall a, b | tr[i].chain[n].content.detail == CheckpointDetail(a) == CheckpointDetail(b) ensures a == b {
      DetailFixesHead(a, b);
    }
  }

  lemma DetailFixesHead(a: Head, b: Head)
    ensures CheckpointDetail(a) == CheckpointDetail(b) ==> a == b
  {
    var x, y := CheckpointDetail(a), CheckpointDetail(b);
    assert x["checkpoint_seq"] == Decimal(a.number) && y["checkpoint_seq"] == Decimal(b.number);
    assert x["checkpoint_head"] == a.hash && y["checkpoint_head"] == b.hash;
    DecimalIsInjective(a.number, b.number);
  }

  // ---------- what the records say ----------

  /** The body was handed in by a step of the first `i`. */
  ghost predicate HandedIn(tr: seq<State>, steps: seq<Step>, i: nat, b: Body) {
    exists k :: 0 <= k < i && k < |steps| && k < |tr| && Starts(tr[k], steps[k], b)
  }

  predicate Starts(s: State, st: Step, b: Body) {
    || (st.StartLog? && st.body == b)
    || (st.StartCheckpoint? && IsCheckpointOf(b, s.head, st.time))
  }

  /** Every record after the first carries a body that was handed in. */
  ghost predicate RecordCarries(e: Env, tr: seq<State>, steps: seq<Step>, i: nat, chain: seq<Record>, n: nat) {
    && 0 < n < |chain|
    && exists b :: HandedIn(tr, steps, i, b) && Carries(chain[n].content, b, Head(n, chain[n - 1].hash), e.keyId)
  }

  ghost predicate AllHandedIn(e: Env, tr: seq<State>, steps: seq<Step>, i: nat) {
    && i < |tr|
    && (forall p :: p in tr[i].procs && !tr[i].procs[p].Writing? ==> HandedIn(tr, steps, i, tr[i].procs[p].body))
    && forall n :: 0 < n < |tr[i].chain| ==> RecordCarries(e, tr, steps, i, tr[i].chain, n)
  }

  lemma HandedInStays(tr: seq<State>, steps: seq<Step>, i: nat, b: Body)
    ensures HandedIn(tr, steps, i, b) ==> HandedIn(tr, steps, i + 1, b)
    ensures i < |steps| && i < |tr| && Starts(tr[i], steps[i], b) ==> HandedIn(tr, steps, i + 1, b)
  {
    if HandedIn(tr, steps, i, b) {
      var k :| 0 <= k < i && k < |steps| && k < |tr| && Starts(tr[k], steps[k], b);
      assert k < i + 1;
    }
  }

  lemma BodyWasHandedIn(e: Env, tr: seq<State>, steps: seq<Step>, i: nat, p: Pid)
    requires Behaviour(e, tr, steps) && i < |steps| && AllHandedIn(e, tr, steps, i)
    requires p in tr[i + 1].procs && !tr[i + 1].procs[p].Writing?
    ensures HandedIn(tr, steps, i + 1, tr[i + 1].procs[p].body)
  {
    assert Enabled(e, tr[i], steps[i]) && tr[i + 1] == Apply(e, tr[i], steps[i]);
    HandedInStays(tr, steps, i, tr[i + 1].procs[p].body);
    if steps[i].StartCheckpoint? && steps[i].p == p {
      WhatIsLogged(e, tr[i + 1].procs[p].body, tr[i].head, steps[i].time);
    }
  }

  lemma RecordStillCarries(e: Env, tr: seq<State>, steps: seq<Step>, i: nat, chain: seq<Record>, longer: seq<Record>, n: nat)
    requires chain <= longer && RecordCarries(e, tr, steps, i, chain, n)
    ensures RecordCarries(e, tr, steps, i + 1, longer, n)
  {
    var b :| HandedIn(tr, steps, i, b) && Carries(chain[n].content, b, Head(n, chain[n - 1].hash), e.keyId);
    HandedInStays(tr, steps, i, b);
  }

  lemma ClaimCarries(e: Env, tr: seq<State>, steps: seq<Step>, i: nat)
    requires Behaviour(e, tr, steps) && i < |steps| && AllHandedIn(e, tr, steps, i) && Inv(e, tr[i])
    requires steps[i].AdvanceHead? && Claims(e, tr[i], steps[i].p)
    ensures tr[i + 1].chain == tr[i].chain + [tr[i].procs[steps[i].p].rec]
    ensures RecordCarries(e, tr, steps, i + 1, tr[i + 1].chain, |tr[i].chain|)
  {
    assert Enabled(e, tr[i], steps[i]) && tr[i + 1] == Apply(e, tr[i], steps[i]);
    var f := tr[i].procs[steps[i].p];
    assert Fits(e, tr[i], f);
    WhatIsLogged(e, f.body, f.seen, 0);
    HandedInStays(tr, steps, i, f.body);
  }

  lemma {:induction false} EveryBodyWasHandedIn(e: Env, tr: seq<State>, steps: seq<Step>, i: nat)
    requires Behaviour(e, tr, steps) && i < |tr|
    ensures AllHandedIn(e, tr, steps, i)
  {
    if i > 0 {
      EveryBodyWasHandedIn(e, tr, steps, i - 1);
      BehaviourKeepsInv(e, tr, steps, i - 1);
      NextBodiesWereHandedIn(e, tr, steps, i - 1);
    } else {
      BehaviourKeepsInv(e, tr, steps, 0);
    }
  }

  lemma NextBodiesWereHandedIn(e: Env, tr: seq<State>, steps: seq<Step>, i: nat)
    requires Behaviour(e, tr, steps) && i < |steps| && AllHandedIn(e, tr, steps, i) && Inv(e, tr[i])
    ensures AllHandedIn(e, tr, steps, i + 1)
  {
    assert Enabled(e, tr[i], steps[i]) && tr[i + 1] == Apply(e, tr[i], steps[i]);
    var st, j, s' := steps[i], i + 1, tr[i + 1];
    forall p | p in s'.procs && !s'.procs[p].Writing? ensures HandedIn(tr, steps, j, s'.procs[p].body) {
      BodyWasHandedIn(e, tr, steps, i, p);
    }
    if st.AdvanceHead? && Claims(e, tr[i], st.p) {
      ClaimCarries(e, tr, steps, i);
    }
    forall n | 0 < n < |s'.chain| ensures RecordCarries(e, tr, steps, j, s'.chain, n) {
      if n < |tr[i].chain| {
        RecordStillCarries(e, tr, steps, i, tr[i].chain, s'.chain, n);
      }
    }
  }

  /** In every run each record after the genesis carries, field by field, what an earlier call
      handed in, or the checkpoint of the head that an earlier call had read; and it follows the
      record before it. */
  lemma RecordsSayWhatWasLogged(e: Env, tr: seq<State>, steps: seq<Step>, i: nat, n: nat)
    requires Behaviour(e, tr, steps) && i < |tr| && 0 < n < |tr[i].chain|
    ensures RecordCarries(e, tr, steps, i, tr[i].chain, n)
    ensures tr[i].chain[n].content.number == n + 1 && tr[i].chain[n].content.prevHash == tr[i].chain[n - 1].hash
  {
    EveryBodyWasHandedIn(e, tr, steps, i);
    BehaviourKeepsInv(e, tr, steps, i);
    assert RecordCarries(e, tr, steps, i, tr[i].chain, n);
  }

  // ---------- what verification reports ----------

  /** `RecordsAreChain`, to be applied one number at a time. */
  predicate StoredIsClaimed(s: State) {
    forall n {:trigger Claimed(s, n)} :: n in s.records ==> Claimed(s, n) && s.records[n] == s.chain[n - 1]
  }

  predicate Written(s: State, n: nat) {
    n in s.records
  }

  predicate Complete(s: State) {
    forall n: nat :: 1 <= n <= |s.chain| ==> Written(s, n)
  }

  /** The numbers of the stored records, in the order the store lists their keys. */
  ghost predicate Listing(s: State, ns: seq<nat>) {
    && (forall i :: 0 <= i < |ns| ==> ns[i] < UINT64_LIMIT)
    && (forall i, j :: 0 <= i < j < |ns| ==> Before(SeqKey(ns[i]), SeqKey(ns[j])))
    && (forall n :: n in ns <==> n in s.records)
  }

  predicate InOrder(s: State, ns: seq<nat>) {
    && (forall i :: 0 <= i < |ns| ==> ns[i] in s.records)
    && (forall i, j :: 0 <= i < j < |ns| ==> ns[i] < ns[j])
  }

  ghost predicate Covers(s: State, ns: seq<nat>) {
    forall n: nat {:trigger Written(s, n)} :: Written(s, n) ==> n in ns
  }

  /** Key order is chain order. */
  lemma ListingIsInOrder(s: State, ns: seq<nat>)
    requires Listing(s, ns)
    ensures InOrder(s, ns) && Covers(s, ns)
  {
    forall i | 0 <= i < |ns| ensures ns[i] in s.records {
      assert ns[i] in ns;
    }
    forall i, j | 0 <= i < j < |ns| ensures ns[i] < ns[j] {
      SeqKeysSortAsNumbers(ns[i], ns[j]);
    }
  }

  lemma {:induction false} ListedIsAtLeast(s: State, ns: seq<nat>, i: nat)
    requires StoredIsClaimed(s) && InOrder(s, ns) && i < |ns|
    ensures i + 1 <= ns[i] <= |s.chain|
  {
    assert Claimed(s, ns[i]);
    if i > 0 {
      ListedIsAtLeast(s, ns, i - 1);
    }
  }

  /** Up to the first unwritten number the listing is the chain. */
  lemma {:induction false} ListingStartsAsChain(s: State, ns: seq<nat>, g: nat)
    requires StoredIsClaimed(s) && InOrder(s, ns) && Covers(s, ns) && g >= 1
    requires forall n: nat :: 1 <= n < g ==> Written(s, n)
    ensures |ns| >= g - 1 && forall i :: 0 <= i < g - 1 ==> ns[i] == i + 1
  {
    if g > 1 {
      ListingStartsAsChain(s, ns, g - 1);
      assert Written(s, g - 1) && g - 1 in ns;
      var t :| 0 <= t < |ns| && ns[t] == g - 1;
      assert t >= g - 2;
      ListedIsAtLeast(s, ns, g - 2);
      assert ns[g - 2] <= ns[t];
    }
  }

  function Listed(s: State, ns: seq<nat>): (recs: seq<Record>)
    requires InOrder(s, ns)
    ensures |recs| == |ns| && forall i :: 0 <= i < |ns| ==> recs[i] == s.records[ns[i]]
  {
    seq(|ns|, i requires 0 <= i < |ns| => s.records[ns[i]])
  }

  ghost predicate FirstGap(s: State, g: nat) {
    1 <= g <= |s.chain| && !Written(s, g) && forall n: nat :: 1 <= n < g ==> Written(s, n)
  }

  lemma CompleteListingIsChain(s: State, ns: seq<nat>)
    requires StoredIsClaimed(s) && InOrder(s, ns) && Complete(s) && Covers(s, ns)
    ensures Listed(s, ns) == s.chain
  {
    ListingStartsAsChain(s, ns, |s.chain| + 1);
    if ns != [] {
      ListedIsAtLeast(s, ns, |ns| - 1);
    }
    assert |ns| == |s.chain|;
    forall i | 0 <= i < |ns| ensures Listed(s, ns)[i] == s.chain[i] {
      assert ns[i] == i + 1 && Claimed(s, ns[i]);
    }
  }

  predicate Numbered(chain: seq<Record>) {
    forall i :: 0 <= i < |chain| ==> chain[i].content.number == i + 1
  }

  lemma ListedRecordHasItsNumber(s: State, ns: seq<nat>, i: nat)
    requires StoredIsClaimed(s) && InOrder(s, ns) && Numbered(s.chain) && i < |ns|
    ensures Claimed(s, ns[i]) && Listed(s, ns)[i] == s.chain[ns[i] - 1] && Listed(s, ns)[i].content.number == ns[i]
  {
    assert Claimed(s, ns[i]);
  }

  lemma SkippedNumberIsAGap(c: Crypto, recs: seq<Record>, i: nat)
    ensures i < |recs| && recs[i].content.number > NumberBefore(recs, i) + 1 ==> VerdictAt(c, recs, i) == SequenceGap
  {
  }

  lemma ListedMatchesChain(s: State, ns: seq<nat>, g: nat)
    requires StoredIsClaimed(s) && InOrder(s, ns)
    requires 1 <= g <= |ns| + 1 && g <= |s.chain| + 1 && forall i :: 0 <= i < g - 1 ==> ns[i] == i + 1
    ensures forall i {:trigger Listed(s, ns)[i]} :: 0 <= i < g - 1 ==> Listed(s, ns)[i] == s.chain[i]
  {
    forall i | 0 <= i < g - 1 ensures Listed(s, ns)[i] == s.chain[i] {
      assert ns[i] == i + 1 && Claimed(s, ns[i]);
    }
  }

  lemma ListedSkipsGap(s: State, ns: seq<nat>, g: nat)
    requires StoredIsClaimed(s) && InOrder(s, ns) && Numbered(s.chain) && FirstGap(s, g) && |ns| > g - 1
    ensures Listed(s, ns)[g - 1].content.number > g
  {
    ListedRecordHasItsNumber(s, ns, g - 1);
    ListedIsAtLeast(s, ns, g - 1);
  }

  lemma NumberAfterPrefix(recs: seq<Record>, chain: seq<Record>, n: nat)
    requires n <= |recs| && n <= |chain| && Numbered(chain)
    requires forall i {:trigger recs[i]} :: 0 <= i < n ==> recs[i] == chain[i]
    ensures NumberBefore(recs, n) == n
  {
  }

  /** The listing follows the chain up to `g`, which it skips. */
  ghost predicate BreaksAt(c: Crypto, recs: seq<Record>, chain: seq<Record>, g: nat) {
    && 1 <= g <= |recs| + 1 && g <= |chain|
    && (forall i {:trigger recs[i]} :: 0 <= i < g - 1 ==> recs[i] == chain[i])
    && (|recs| > g - 1 ==> VerdictAt(c, recs, g - 1) == SequenceGap)
    && NumberBefore(recs, g - 1) == g - 1
  }

  lemma ListingBreaksAtGap(c: Crypto, s: State, ns: seq<nat>, g: nat)
    requires StoredIsClaimed(s) && InOrder(s, ns) && FirstGap(s, g) && Numbered(s.chain)
    requires Covers(s, ns)
    ensures BreaksAt(c, Listed(s, ns), s.chain, g)
  {
    ListingStartsAsChain(s, ns, g);
    ListedMatchesChain(s, ns, g);
    NumberAfterPrefix(Listed(s, ns), s.chain, g - 1);
    if |ns| > g - 1 {
      ListedSkipsGap(s, ns, g);
    }
    SkippedNumberIsAGap(c, Listed(s, ns), g - 1);
  }

  lemma PrefixVerdict(c: Crypto, recs: seq<Record>, n: nat, i: nat)
    requires i < n <= |recs|
    ensures VerdictAt(c, recs[..n], i) == VerdictAt(c, recs, i)
  {
  }

  lemma CountAtGap(c: Crypto, recs: seq<Record>, chain: seq<Record>, head: Head, g: nat, count: nat)
    requires BreaksAt(c, recs, chain, g) && Verified(c, chain) && head.number == |chain|
    requires count <= |recs| && Verified(c, recs[..count])
    requires count < |recs| ==> VerdictAt(c, recs, count) != Accepted
    ensures count == g - 1 && !StoreVerifies(c, recs, Some(head))
  {
    forall i | 0 <= i < g - 1 ensures VerdictAt(c, recs, i) == Accepted {
      assert VerdictAt(c, chain, i).Accepted?;
    }
    if count > g - 1 {
      PrefixVerdict(c, recs, count, g - 1);
    }
  }

  /** Verification of any snapshot of a reachable store succeeds exactly when no claimed
      record is unwritten; otherwise it stops right before the first one. */
  method VerifySnapshot(e: Env, s: State, ns: seq<nat>) returns (count: nat, verdict: StoreVerdict)
    requires Sound(e.c) && Inv(e, s) && Listing(s, ns)
    ensures verdict.Ok? <==> Complete(s)
    ensures verdict.Ok? ==> count == |s.chain|
    ensures !verdict.Ok? ==> FirstGap(s, count + 1)
  {
    ListingIsInOrder(s, ns);
    var recs := Listed(s, ns);
    count, verdict := VerifyStore(e.c, recs, Some(s.head));
    assert StoredIsClaimed(s);
    SnapshotReport(e, s, ns, count);
  }

  /** Whatever verified prefix a replay of the listing finds is the one the gaps dictate. */
  lemma SnapshotReport(e: Env, s: State, ns: seq<nat>, count: nat)
    requires Sound(e.c) && ChainIsWhole(e, s) && StoredIsClaimed(s) && InOrder(s, ns) && Covers(s, ns)
    requires count <= |ns| && Verified(e.c, Listed(s, ns)[..count])
    requires count < |ns| ==> VerdictAt(e.c, Listed(s, ns), count) != Accepted
    ensures StoreVerifies(e.c, Listed(s, ns), Some(s.head)) <==> Complete(s)
    ensures if Complete(s) then count == |s.chain| else FirstGap(s, count + 1)
  {
    if Complete(s) {
      CompleteListingIsChain(s, ns);
      WholeChainVerifies(e.c, Listed(s, ns), s.chain, s.head, count);
    } else {
      var g := GapBreaksListing(e.c, s, ns);
      CountAtGap(e.c, Listed(s, ns), s.chain, s.head, g, count);
    }
  }

  lemma {:induction false} LongestVerifiedPrefix(c: Crypto, recs: seq<Record>, n: nat) returns (count: nat)
    requires n <= |recs| && forall i :: 0 <= i < n ==> VerdictAt(c, recs, i).Accepted?
    ensures count <= |recs| && Verified(c, recs[..count])
    ensures count < |recs| ==> VerdictAt(c, recs, count) != Accepted
    decreases |recs| - n
  {
    if n < |recs| && VerdictAt(c, recs, n).Accepted? {
      count := LongestVerifiedPrefix(c, recs, n + 1);
    } else {
      count := n;
      forall i | 0 <= i < n ensures VerdictAt(c, recs[..n], i).Accepted? {
        PrefixVerdict(c, recs, n, i);
      }
    }
  }

  lemma VerifiesIffComplete(e: Env, s: State, ns: seq<nat>)
    requires Sound(e.c) && ChainIsWhole(e, s) && StoredIsClaimed(s) && InOrder(s, ns) && Covers(s, ns)
    ensures StoreVerifies(e.c, Listed(s, ns), Some(s.head)) <==> Complete(s)
  {
    var count := LongestVerifiedPrefix(e.c, Listed(s, ns), 0);
    SnapshotReport(e, s, ns, count);
  }

  lemma GapBreaksListing(c: Crypto, s: State, ns: seq<nat>) returns (g: nat)
    requires StoredIsClaimed(s) && InOrder(s, ns) && Covers(s, ns) && Numbered(s.chain) && !Complete(s) && s.chain != []
    ensures FirstGap(s, g) && BreaksAt(c, Listed(s, ns), s.chain, g)
  {
    g := SomeFirstGap(s, 1);
    ListingBreaksAtGap(c, s, ns, g);
  }

  lemma WholeChainVerifies(c: Crypto, recs: seq<Record>, chain: seq<Record>, head: Head, count: nat)
    requires recs == chain && chain != [] && Verified(c, chain)
    requires head == Head(NumberBefore(chain, |chain|), HashBefore(chain, |chain|))
    requires count <= |recs| && (count < |recs| ==> VerdictAt(c, recs, count) != Accepted)
    ensures StoreVerifies(c, recs, Some(head)) && count == |chain|
  {
  }

  lemma SomeFirstGap(s: State, from: nat) returns (g: nat)
    requires 1 <= from <= |s.chain| + 1 && !Complete(s) && forall n: nat :: 1 <= n < from ==> Written(s, n)
    ensures FirstGap(s, g)
    decreases |s.chain| + 1 - from
  {
    if Written(s, from) {
      g := SomeFirstGap(s, from + 1);
    } else {
      g := from;
    }
  }

  // ---------- a lost record stays lost ----------

  /** Claimed, unwritten, and nobody left to write it. */
  ghost predicate Lost(s: State, n: nat) {
    && 1 <= n <= |s.chain| && n !in s.records
    && forall p :: p in s.procs && s.procs[p].Writing? ==> s.procs[p].rec.content.number != n
  }

  /** A crash between the head advance and the record write loses that record. */
  lemma CrashLosesTheRecord(e: Env, s: State, p: Pid)
    requires Inv(e, s) && Enabled(e, s, Crash(p)) && s.procs[p].Writing?
    ensures Lost(Apply(e, s, Crash(p)), s.procs[p].rec.content.number)
  {
    assert Fits(e, s, s.procs[p]);
  }

  lemma LostStaysLost(e: Env, s: State, st: Step, n: nat)
    requires Inv(e, s) && Enabled(e, s, st) && Lost(s, n)
    ensures Lost(Apply(e, s, st), n)
  {
    if st.AdvanceHead? {
      assert Fits(e, s, s.procs[st.p]);
    }
  }

  lemma NextStepKeepsLost(e: Env, tr: seq<State>, steps: seq<Step>, j: nat, n: nat)
    requires Behaviour(e, tr, steps) && j < |steps| && Lost(tr[j], n)
    ensures Lost(tr[j + 1], n)
  {
    BehaviourKeepsInv(e, tr, steps, j);
    LostStaysLost(e, tr[j], steps[j], n);
  }

  lemma {:induction false} LossIsPermanent(e: Env, tr: seq<State>, steps: seq<Step>, i: nat, j: nat, n: nat)
    requires Behaviour(e, tr, steps) && i <= j < |tr| && Lost(tr[i], n)
    ensures Lost(tr[j], n) && !Written(tr[j], n)
  {
    if i < j {
      LossIsPermanent(e, tr, steps, i, j - 1, n);
      NextStepKeepsLost(e, tr, steps, j - 1, n);
    }
  }

  /** However many appends follow, verification keeps failing at or before a lost record. */
  lemma LossIsReportedForEver(e: Env, tr: seq<State>, steps: seq<Step>, i: nat, j: nat, n: nat)
    requires Behaviour(e, tr, steps) && i <= j < |tr| && Lost(tr[i], n)
    ensures !Complete(tr[j]) && forall g: nat :: FirstGap(tr[j], g) ==> g <= n
  {
    LossIsPermanent(e, tr, steps, i, j, n);
  }

  // ---------- one replica appending ----------

  datatype Docs = Docs(head: Option<Head>, records: map<nat, Record>)

  /** The documents after an append; `advance` and `put` are how its two writes end. */
  function Appended(e: Env, d: Docs, body: Body, nonce: nat, advance: Write, put: Write): Docs {
    if d.head.None? then d
    else
      match Seal(e.c, ContentOf(e, body, d.head.value), nonce)
      case None => d
      case Some(rec) =>
        if !Reaches(advance) then d
        else
          Docs(Some(Head(rec.content.number, rec.hash)),
               if advance.Stored? && Reaches(put) then d.records[rec.content.number := rec] else d.records)
  }

  /** The documents hold exactly this chain. */
  ghost predicate Holds(c: Crypto, d: Docs, chain: seq<Record>) {
    && chain != [] && StoreVerifies(c, chain, d.head) && UsableHash(chain[|chain| - 1].hash)
    && forall n :: if 1 <= n <= |chain| then n in d.records && d.records[n] == chain[n - 1] else n !in d.records
  }

  /** An append whose head update does not take effect changes nothing; otherwise it extends
      the chain by one record that verifies, or, if no record is written, leaves a head that
      the remaining records do not reach. */
  lemma AppendExtendsUnlessLost(e: Env, d: Docs, chain: seq<Record>, body: Body, nonce: nat, advance: Write, put: Write)
    requires Sound(e.c) && Holds(e.c, d, chain)
    ensures var rec, d' := Seal(e.c, ContentOf(e, body, d.head.value), nonce), Appended(e, d, body, nonce, advance, put);
            && rec.Some? && rec.value.content.number == |chain| + 1
            && if !Reaches(advance) then d' == d
               else if advance.Stored? && Reaches(put) then Holds(e.c, d', chain + [rec.value])
               else !StoreVerifies(e.c, chain, d'.head) && |chain| + 1 !in d'.records
  {
    NumbersCountUp(e.c, chain, |chain|);
    var x := ContentOf(e, body, d.head.value);
    SealSucceedsAndVerifies(e.c, x, nonce, d.head.value.hash);
    var rec := Seal(e.c, x, nonce).value;
    var longer := chain + [rec];
    forall i | 0 <= i < |longer| ensures VerdictAt(e.c, longer, i).Accepted? {
      if i < |chain| {
        assert VerdictAt(e.c, longer, i) == VerdictAt(e.c, chain, i);
      }
    }
  }

  datatype LogReply = Logged | ErrNotInitialized | ErrSeal | ErrAdvance | ErrAppend

  /** The answer to an append, by what stops it. */
  function ReplyTo(e: Env, d: Docs, body: Body, nonce: nat, advance: Write, put: Write): LogReply {
    if d.head.None? then ErrNotInitialized
    else if Seal(e.c, ContentOf(e, body, d.head.value), nonce).None? then ErrSeal
    else if !advance.Stored? then ErrAdvance
    else if !put.Stored? then ErrAppend
    else Logged
  }

  /** The steps from `s` to `s'`. */
  ghost predicate Leads(e: Env, s: State, steps: seq<Step>, s': State)
    decreases |steps|
  {
    if steps == [] then s' == s else Enabled(e, s, steps[0]) && Leads(e, Apply(e, s, steps[0]), steps[1..], s')
  }

  /** The steps of an append that runs alone, by how its two writes end; a call that fails, or
      whose answer is lost, makes no further step. */
  function AppendSteps(e: Env, s: State, p: Pid, body: Body, nonce: nat, advance: Write, put: Write): seq<Step> {
    var start := StartStep(p, body);
    if Seal(e.c, ContentOf(e, body, s.head), nonce).None? then [start, ReadHead(p, nonce)]
    else if advance.FailedLost? then [start, ReadHead(p, nonce), Crash(p)]
    else if advance.FailedStored? || put.FailedLost? then [start, ReadHead(p, nonce), AdvanceHead(p), Crash(p)]
    else [start, ReadHead(p, nonce), AdvanceHead(p), WriteRecord(p)]
  }

  lemma {:induction false} LeadsOn(e: Env, s: State, steps: seq<Step>, m: State, st: Step)
    requires Leads(e, s, steps, m) && Enabled(e, m, st)
    ensures Leads(e, s, steps + [st], Apply(e, m, st))
    decreases |steps|
  {
    if steps == [] {
      assert steps + [st] == [st] && [st][1..] == [];
      assert Leads(e, Apply(e, s, st), [], Apply(e, m, st));
    } else {
      LeadsOn(e, Apply(e, s, steps[0]), steps[1..], m, st);
      assert (steps + [st])[1..] == steps[1..] + [st];
    }
  }

  function StartStep(p: Pid, body: Body): Step {
    if body.action == CHECKPOINT then StartCheckpoint(p, body.time) else StartLog(p, body)
  }

  lemma StartsAndReads(e: Env, s: State, p: Pid, body: Body, nonce: nat) returns (s2: State)
    requires p !in s.procs && s.head.number + 1 < UINT64_LIMIT
    requires body.action == CHECKPOINT ==> body == CheckpointBody(s.head, body.time)
    ensures Leads(e, s, [StartStep(p, body), ReadHead(p, nonce)], s2)
    ensures match Seal(e.c, ContentOf(e, body, s.head), nonce)
            case None => s2 == s
            case Some(rec) => s2 == s.(procs := s.procs[p := Sealed(body, s.head, s.ver, rec)])
  {
    var s1 := s.(procs := s.procs[p := Logging(body)]);
    LeadsOn(e, s, [], s, StartStep(p, body));
    assert Apply(e, s, StartStep(p, body)) == s1;
    LeadsOn(e, s, [StartStep(p, body)], s1, ReadHead(p, nonce));
    s2 := Apply(e, s1, ReadHead(p, nonce));
    assert [] + [StartStep(p, body)] == [StartStep(p, body)];
    assert [StartStep(p, body)] + [ReadHead(p, nonce)] == [StartStep(p, body), ReadHead(p, nonce)];
    assert s1.procs - {p} == s.procs;
  }

  lemma ClaimsAndEnds(e: Env, s: State, steps: seq<Step>, m: State, p: Pid, last: Step) returns (s': State)
    requires Leads(e, s, steps, m) && p in m.procs && m.procs[p].Sealed? && m.procs[p].ver == m.ver && last in {Crash(p), WriteRecord(p)}
    ensures Leads(e, s, steps + [AdvanceHead(p)] + [last], s')
    ensures var rec := m.procs[p].rec;
            && s'.head == Head(rec.content.number, rec.hash) && s'.procs == m.procs - {p}
            && s'.records == if last.WriteRecord? then m.records[rec.content.number := rec] else m.records
  {
    LeadsOn(e, s, steps, m, AdvanceHead(p));
    var claimed := Apply(e, m, AdvanceHead(p));
    LeadsOn(e, s, steps + [AdvanceHead(p)], claimed, last);
    s' := Apply(e, claimed, last);
    assert claimed.procs - {p} == m.procs - {p};
  }

  /** What one replica does on its own is what the protocol's steps do: the same head and the
      same records, and nobody left running. */
  lemma EachAppendIsARunOfTheLog(e: Env, s: State, p: Pid, body: Body, nonce: nat, advance: Write, put: Write) returns (s': State)
    requires p !in s.procs && s.head.number + 1 < UINT64_LIMIT
    requires body.action == CHECKPOINT ==> body == CheckpointBody(s.head, body.time)
    ensures Leads(e, s, AppendSteps(e, s, p, body, nonce, advance, put), s') && s'.procs == s.procs
    ensures Docs(Some(s'.head), s'.records) == Appended(e, Docs(Some(s.head), s.records), body, nonce, advance, put)
  {
    var first, sealed := [StartStep(p, body), ReadHead(p, nonce)], Seal(e.c, ContentOf(e, body, s.head), nonce);
    var s2 := StartsAndReads(e, s, p, body, nonce);
    if sealed.None? {
      s' := s2;
    } else if advance.FailedLost? {
      LeadsOn(e, s, first, s2, Crash(p));
      s' := Apply(e, s2, Crash(p));
      assert first + [Crash(p)] == AppendSteps(e, s, p, body, nonce, advance, put);
    } else {
      var last := if advance.FailedStored? || put.FailedLost? then Crash(p) else WriteRecord(p);
      s' := ClaimsAndEnds(e, s, first, s2, p, last);
      assert first + [AdvanceHead(p)] + [last] == AppendSteps(e, s, p, body, nonce, advance, put);
      assert s'.procs == s.procs;
    }
  }

  class Replica {
    const env: Env
    var head: Option<Head>
    var records: map<nat, Record>

    ghost function Value(): Docs
      reads this
    {
      Docs(head, records)
    }

    constructor (env: Env)
      ensures this.env == env && Value() == Docs(None, map[])
    {
      this.env := env;
      head, records := None, map[];
    }

    method Log(body: Body, nonce: nat, advance: Write, put: Write) returns (reply: LogReply)
      modifies this
      ensures Value() == Appended(env, old(Value()), body, nonce, advance, put)
      ensures reply == ReplyTo(env, old(Value()), body, nonce, advance, put)
      ensures reply.Logged? <==> old(head).Some? && HexDecode(old(head).value.hash).Some? && advance.Stored? && put.Stored?
      ensures reply.ErrNotInitialized? <==> old(head).None?
      ensures reply.ErrSeal? <==> old(head).Some? && HexDecode(old(head).value.hash).None?
      ensures reply.ErrAppend? <==> old(head).Some? && HexDecode(old(head).value.hash).Some? && advance.Stored? && !put.Stored?
      ensures reply.Logged? ==>
                && head.Some? && head.value.number == old(head).value.number + 1 && head.value.number in records
                && Carries(records[head.value.number].content, body, old(head).value, env.keyId)
                && records[head.value.number].hash == head.value.hash
                && forall n :: n != head.value.number ==> (n in records <==> n in old(records)) && (n in records ==> records[n] == old(records)[n])
    {
      if head.None? {
        return ErrNotInitialized;
      }
      var h := head.value;
      var content := Content(h.number + 1, body.time, body.tenant, body.actor, body.action, body.target, body.detail, h.hash, env.keyId);
      var sealed := Seal(env.c, content, nonce);
      if sealed.None? {
        return ErrSeal;
      }
      h := h.(number := sealed.value.content.number);
      h := h.(hash := sealed.value.hash);
      if Reaches(advance) {
        head := Some(h);
      }
      if !advance.Stored? {
        return ErrAdvance;
      }
      if Reaches(put) {
        records := records[sealed.value.content.number := sealed.value];
      }
      return if put.Stored? then Logged else ErrAppend;
    }

    method Checkpoint(time: int, nonce: nat, advance: Write, put: Write) returns (reply: LogReply)
      modifies this
      ensures old(head).None? ==> reply.ErrNotInitialized? && Value() == old(Value())
      ensures old(head).Some? ==>
                var body := CheckpointBody(old(head).value, time);
                && Value() == Appended(env, old(Value()), body, nonce, advance, put)
                && reply == ReplyTo(env, old(Value()), body, nonce, advance, put)
      ensures reply.Logged? ==>
                && old(head).Some? && head.Some? && head.value.number in records
                && exists b :: IsCheckpointOf(b, old(head).value, time) && Carries(records[head.value.number].content, b, old(head).value, env.keyId)
    {
      if head.None? {
        return ErrNotInitialized;
      }
      WhatIsLogged(env, CheckpointBody(head.value, time), head.value, time);
      reply := Log(Body(time, "", Actor("system", "mnemoca", ""), CHECKPOINT, Object("audit", "checkpoint"),
                        map["checkpoint_seq" := Decimal(head.value.number), "checkpoint_head" := head.value.hash]), nonce, advance, put);
    }
  }
}
