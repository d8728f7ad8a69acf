/** Initialising the store chain. The record to write is kept in a variable outside the
    update function, so it survives a retry of that function. */
module Genesis {
  import opened Common
  import opened Text
  import opened AuditRecord
  import StoreLog

  /** The chain's documents while only the genesis record exists. */
  datatype Docs = Docs(head: Option<Head>, first: Option<Record>)

  /** A stored genesis record is the one that the head vouches for. */
  predicate Agrees(d: Docs) {
    d.first.Some? ==> d.head == Some(Head(1, d.first.value.hash))
  }

  // ---------- any number of replicas opening the log ----------

  type Pid = nat

  /** `genesis` is the variable outside the update function. */
  datatype Opener =
    | Reading(genesis: Option<Record>)
    | Creating(own: Record)
    | Rewriting(genesis: Option<Record>)
    | Putting(own: Record)

  /** `anchored` are the hashes of all genesis records sealed so far. */
  datatype State = State(docs: Docs, anchored: set<string>, openers: map<Pid, Opener>)

  datatype Step =
    | Open(p: Pid)
    | ReadHead(p: Pid, sealed: Record)       // read the head; seal a record if there is none
    | CreateHead(p: Pid)
    | RewriteHead(p: Pid, conflict: bool)    // write the head back unchanged
    | PutRecord(p: Pid)
    | Crash(p: Pid)

  /** Sealed onto a random anchor. */
  ghost predicate IsGenesis(e: Env, rec: Record) {
    exists anchor: Bytes, time: int, nonce: nat :: IsSealedOn(e, rec, anchor, time, nonce)
  }

  predicate IsSealedOn(e: Env, rec: Record, anchor: Bytes, time: int, nonce: nat) {
    Seal(e.c, ContentOf(e, GenesisBody(time), Head(0, HexEncode(anchor))), nonce) == Some(rec)
  }

  ghost predicate Enabled(e: Env, s: State, st: Step) {
    match st
    case Open(p) => p !in s.openers
    case ReadHead(p, sealed) =>
      p in s.openers && s.openers[p].Reading? && (s.docs.head.None? ==> IsGenesis(e, sealed) && sealed.hash !in s.anchored)
    case CreateHead(p) => p in s.openers && s.openers[p].Creating?
    case RewriteHead(p, _) => p in s.openers && s.openers[p].Rewriting?
    case PutRecord(p) => p in s.openers && s.openers[p].Putting?
    case Crash(p) => p in s.openers
  }

  function Goto(s: State, p: Pid, o: Opener): State {
    s.(openers := s.openers[p := o])
  }

  ghost function Apply(e: Env, s: State, st: Step): State
    requires Enabled(e, s, st)
  {
    match st
    case Open(p) => Goto(s, p, Reading(None))
    case ReadHead(p, sealed) =>
      if s.docs.head.None? then Goto(s.(anchored := s.anchored + {sealed.hash}), p, Creating(sealed))
      else Goto(s, p, Rewriting(s.openers[p].genesis))
    case CreateHead(p) =>
      var rec := s.openers[p].own;
      if s.docs.head.None? then Goto(s.(docs := s.docs.(head := Some(Head(1, rec.hash)))), p, Putting(rec))
      else Goto(s, p, Reading(Some(rec)))
    case RewriteHead(p, conflict) =>
      var genesis := s.openers[p].genesis;
      if conflict then Goto(s, p, Reading(genesis))
      else if genesis.Some? then Goto(s, p, Putting(genesis.value))
      else s.(openers := s.openers - {p})
    case PutRecord(p) => s.(docs := s.docs.(first := Some(s.openers[p].own)), openers := s.openers - {p})
    case Crash(p) => s.(openers := s.openers - {p})
  }

  predicate Init(s: State) {
    s.docs == Docs(None, None) && s.openers == map[]
  }

  ghost predicate Behaviour(e: Env, tr: seq<State>, steps: seq<Step>) {
    && |tr| == |steps| + 1 && Init(tr[0])
    && forall i :: 0 <= i < |steps| ==> Enabled(e, tr[i], steps[i]) && tr[i + 1] == Apply(e, tr[i], steps[i])
  }

  /** The creation of the head succeeds, or reports a duplicate. */
  predicate WinsTheRace(s: State, st: Step) {
    st.CreateHead? && s.docs.head.None?
  }

  predicate LosesTheRace(s: State, st: Step) {
    st.CreateHead? && s.docs.head.Some?
  }

  /** The record an opener would write, if any. */
  function Carried(o: Opener): Option<Record> {
    match o
    case Reading(genesis) => genesis
    case Rewriting(genesis) => genesis
    case Creating(own) => Some(own)
    case Putting(own) => Some(own)
  }

  predicate Carries(o: Opener, hash: string) {
    Carried(o).Some? && Carried(o).value.hash == hash
  }

  /** A record kept from a lost race is not the head's. */
  ghost predicate Fits(e: Env, s: State, o: Opener) {
    && (Carried(o).Some? ==> IsGenesis(e, Carried(o).value) && Carried(o).value.hash in s.anchored)
    && (o.Putting? ==> s.docs.head.Some?)
    && ((o.Reading? || o.Rewriting?) && o.genesis.Some? ==> s.docs.head.Some?)
    && (!o.Putting? && s.docs.head.Some? ==> !Carries(o, s.docs.head.value.hash))
  }

  ghost predicate Inv(e: Env, s: State) {
    && (s.docs.head.Some? ==> s.docs.head.value.number == 1 && s.docs.head.value.hash in s.anchored)
    && (s.docs.first.Some? ==> s.docs.head.Some? && IsGenesis(e, s.docs.first.value))
    && (forall p :: p in s.openers ==> Fits(e, s, s.openers[p]))
    && (forall p, q, hash :: p in s.openers && q in s.openers && p != q && Carries(s.openers[p], hash) ==> !Carries(s.openers[q], hash))
  }

  lemma OtherStillFits(e: Env, s: State, st: Step, q: Pid)
    requires Inv(e, s) && Enabled(e, s, st) && q in s.openers && q != st.p
    ensures Fits(e, Apply(e, s, st), s.openers[q])
  {
    assert Fits(e, s, s.openers[q]);
    if st.CreateHead? {
      assert Carries(s.openers[st.p], s.openers[st.p].own.hash);
      assert !Carries(s.openers[q], s.openers[st.p].own.hash);
    }
  }

  lemma ActorFits(e: Env, s: State, st: Step)
    requires Inv(e, s) && Enabled(e, s, st) && st.p in Apply(e, s, st).openers
    ensures Fits(e, Apply(e, s, st), Apply(e, s, st).openers[st.p])
  {
    if st.p in s.openers {
      assert Fits(e, s, s.openers[st.p]);
    }
  }

  /** A record never changes hands, and a new one is like no other. */
  lemma CarriedIsOldOrNew(e: Env, s: State, st: Step, q: Pid, hash: string)
    requires Enabled(e, s, st) && q in Apply(e, s, st).openers && Carries(Apply(e, s, st).openers[q], hash)
    ensures (q in s.openers && Carries(s.openers[q], hash)) || (q == st.p && hash !in s.anchored)
  {
  }

  lemma StepKeepsInv(e: Env, s: State, st: Step)
    requires Inv(e, s) && Enabled(e, s, st)
    ensures Inv(e, Apply(e, s, st))
  {
    var s' := Apply(e, s, st);
    forall q | q in s'.openers ensures Fits(e, s', s'.openers[q]) {
      if q == st.p {
        ActorFits(e, s, st);
      } else {
        OtherStillFits(e, s, st, q);
      }
    }
    forall p, q, hash | p in s'.openers && q in s'.openers && p != q && Carries(s'.openers[p], hash)
      ensures !Carries(s'.openers[q], hash)
    {
      NobodyElseCarries(e, s, st, p, q, hash);
    }
    if st.PutRecord? {
      assert Fits(e, s, s.openers[st.p]);
    }
  }

  lemma NobodyElseCarries(e: Env, s: State, st: Step, p: Pid, q: Pid, hash: string)
    requires Inv(e, s) && Enabled(e, s, st) && p != q
    requires p in Apply(e, s, st).openers && q in Apply(e, s, st).openers && Carries(Apply(e, s, st).openers[p], hash)
    ensures !Carries(Apply(e, s, st).openers[q], hash)
  {
    CarriedIsOldOrNew(e, s, st, p, hash);
    if p in s.openers && Carries(s.openers[p], hash) {
      assert Fits(e, s, s.openers[p]);
      if Carries(Apply(e, s, st).openers[q], hash) {
        CarriedIsOldOrNew(e, s, st, q, hash);
      }
    } else if q in s.openers {
      assert Fits(e, s, s.openers[q]);
    }
  }

  lemma {:induction false} BehaviourKeepsInv(e: Env, tr: seq<State>, steps: seq<Step>, i: nat)
    requires Behaviour(e, tr, steps) && i < |tr|
    ensures Inv(e, tr[i])
  {
    if i > 0 {
      BehaviourKeepsInv(e, tr, steps, i - 1);
      StepKeepsInv(e, tr[i - 1], steps[i - 1]);
    }
  }

  // ---------- who must write last ----------

  lemma {:induction false} HeadStays(e: Env, tr: seq<State>, steps: seq<Step>, i: nat, j: nat)
    requires Behaviour(e, tr, steps) && i <= j < |tr| && tr[i].docs.head.Some?
    ensures tr[j].docs.head == tr[i].docs.head
    decreases j
  {
    if i < j {
      HeadStays(e, tr, steps, i, j - 1);
      assert tr[j] == Apply(e, tr[j - 1], steps[j - 1]);
    }
  }

  /** The winner carries the head's record until it has written it, and nobody else does. */
  predicate OnlyWinnerCarries(s: State, winner: Pid, hash: string) {
    && s.docs.head == Some(Head(1, hash))
    && (forall p :: p in s.openers && p != winner ==> !Carries(s.openers[p], hash))
    && (winner in s.openers ==> Carried(s.openers[winner]).None? || (s.openers[winner].Putting? && Carries(s.openers[winner], hash)))
  }

  lemma {:induction false} AfterTheWin(e: Env, tr: seq<State>, steps: seq<Step>, w: nat, n: nat)
    requires Behaviour(e, tr, steps) && w < n < |tr| && WinsTheRace(tr[w], steps[w])
    ensures Enabled(e, tr[w], steps[w]) && OnlyWinnerCarries(tr[n], steps[w].p, tr[w].openers[steps[w].p].own.hash)
    decreases n
  {
    assert Enabled(e, tr[n - 1], steps[n - 1]) && tr[n] == Apply(e, tr[n - 1], steps[n - 1]);
    if n == w + 1 {
      BehaviourKeepsInv(e, tr, steps, w);
      assert Carries(tr[w].openers[steps[w].p], tr[w].openers[steps[w].p].own.hash);
    } else {
      AfterTheWin(e, tr, steps, w, n - 1);
    }
  }

  /** Step `l` is the last before `n` that writes a genesis record. */
  predicate WritesLast(steps: seq<Step>, l: nat, n: nat) {
    l < n <= |steps| && steps[l].PutRecord? && forall k :: l < k < n ==> !steps[k].PutRecord?
  }

  lemma {:induction false} LastWrittenStands(e: Env, tr: seq<State>, steps: seq<Step>, l: nat, n: nat)
    requires Behaviour(e, tr, steps) && WritesLast(steps, l, n)
    ensures Enabled(e, tr[l], steps[l]) && tr[n].docs.first == Some(tr[l].openers[steps[l].p].own)
    decreases n
  {
    assert Enabled(e, tr[n - 1], steps[n - 1]) && tr[n] == Apply(e, tr[n - 1], steps[n - 1]);
    if l < n - 1 {
      LastWrittenStands(e, tr, steps, l, n - 1);
    }
  }

  lemma {:induction false} SomeoneWon(e: Env, tr: seq<State>, steps: seq<Step>, n: nat) returns (w: nat)
    requires Behaviour(e, tr, steps) && n < |tr| && tr[n].docs.head.Some?
    ensures w < n && WinsTheRace(tr[w], steps[w])
  {
    assert tr[n] == Apply(e, tr[n - 1], steps[n - 1]);
    if tr[n - 1].docs.head.Some? {
      w := SomeoneWon(e, tr, steps, n - 1);
    } else {
      w := n - 1;
    }
  }

  lemma {:induction false} SomeoneWroteLast(e: Env, tr: seq<State>, steps: seq<Step>, n: nat) returns (l: nat)
    requires Behaviour(e, tr, steps) && n < |tr| && tr[n].docs.first.Some?
    ensures WritesLast(steps, l, n)
  {
    assert tr[n] == Apply(e, tr[n - 1], steps[n - 1]);
    if steps[n - 1].PutRecord? {
      l := n - 1;
    } else {
      l := SomeoneWroteLast(e, tr, steps, n - 1);
    }
  }

  /** In every state of every run that has a genesis record, that record is the one the
      head vouches for exactly when the last to write it was the replica that created the
      head. */
  lemma RecordAgreesIffWinnerWroteLast(e: Env, tr: seq<State>, steps: seq<Step>, n: nat) returns (w: nat, l: nat)
    requires Behaviour(e, tr, steps) && n < |tr| && tr[n].docs.first.Some?
    ensures w < l < |steps| && WinsTheRace(tr[w], steps[w]) && WritesLast(steps, l, n)
    ensures Agrees(tr[n].docs) <==> steps[l].p == steps[w].p
  {
    l := SomeoneWroteLast(e, tr, steps, n);
    LastWrittenStands(e, tr, steps, l, n);
    BehaviourKeepsInv(e, tr, steps, l);
    assert Fits(e, tr[l], tr[l].openers[steps[l].p]);
    w := SomeoneWon(e, tr, steps, l);
    AfterTheWin(e, tr, steps, w, l);
    HeadStays(e, tr, steps, l, n);
  }

  /** Nobody carries a record that is not the head's. */
  predicate Clean(s: State) {
    && Agrees(s.docs)
    && forall p :: p in s.openers ==>
         match s.openers[p]
         case Reading(genesis) => genesis.None?
         case Rewriting(genesis) => genesis.None?
         case Creating(_) => true
         case Putting(own) => s.docs.head == Some(Head(1, own.hash))
  }

  /** So nothing is to be feared while no replica loses the creation race. */
  lemma {:induction false} UnlostRacesKeepAgreement(e: Env, tr: seq<State>, steps: seq<Step>, i: nat)
    requires Behaviour(e, tr, steps) && i < |tr| && forall k :: 0 <= k < i ==> !LosesTheRace(tr[k], steps[k])
    ensures Clean(tr[i])
  {
    if i > 0 {
      UnlostRacesKeepAgreement(e, tr, steps, i - 1);
      assert Enabled(e, tr[i - 1], steps[i - 1]) && !LosesTheRace(tr[i - 1], steps[i - 1]);
      assert tr[i] == Apply(e, tr[i - 1], steps[i - 1]);
    }
  }

  /** The rest of an opening that nothing disturbs, from its creation of the head. */
  ghost function Finished(e: Env, s: State, p: Pid): State
    requires p in s.openers && s.openers[p].Creating?
  {
    var s1 := Apply(e, s, CreateHead(p));
    if s.docs.head.None? then Apply(e, s1, PutRecord(p))
    else Apply(e, Apply(e, Apply(e, s1, ReadHead(p, s.openers[p].own)), RewriteHead(p, false)), PutRecord(p))
  }

  /** A replica about to create the head that nothing disturbs any more leaves documents
      that agree exactly when it still wins. */
  lemma UndisturbedOpeningAgreesIffItWins(e: Env, tr: seq<State>, steps: seq<Step>, i: nat, p: Pid)
    requires Behaviour(e, tr, steps) && i < |tr| && p in tr[i].openers && tr[i].openers[p].Creating?
    ensures Agrees(Finished(e, tr[i], p).docs) <==> WinsTheRace(tr[i], CreateHead(p))
  {
    BehaviourKeepsInv(e, tr, steps, i);
    assert Fits(e, tr[i], tr[i].openers[p]);
  }

  // ---------- what becomes of the chain ----------

  /** The shared log once all openings are over. */
  function Started(d: Docs): StoreLog.State
    requires d.head.Some? && d.first.Some?
  {
    StoreLog.State(d.head.value, 0, map[1 := d.first.value], [d.first.value], map[])
  }

  lemma GenesisVerifies(e: Env, rec: Record)
    requires Sound(e.c) && IsGenesis(e, rec)
    ensures rec.content.number == 1 && rec.content.action == GENESIS && UsableHash(rec.hash) && Verified(e.c, [rec])
  {
    var anchor: Bytes, time: int, nonce: nat :| IsSealedOn(e, rec, anchor, time, nonce);
    var x := ContentOf(e, GenesisBody(time), Head(0, HexEncode(anchor)));
    DecodeOfEncode(anchor);
    SealSucceedsAndVerifies(e.c, x, nonce, "");
    assert VerdictAt(e.c, [rec], 0) == VerifyRecord(e.c, rec, "", 0);
  }

  /** Once all openings are over the chain is initialised, as the shared log needs it,
      exactly when the winner wrote last. */
  lemma ChainIsInitialisedIffWinnerWroteLast(e: Env, tr: seq<State>, steps: seq<Step>, n: nat) returns (w: nat, l: nat)
    requires Sound(e.c) && Behaviour(e, tr, steps) && n < |tr| && tr[n].openers == map[] && tr[n].docs.first.Some?
    ensures w < l < |steps| && WinsTheRace(tr[w], steps[w]) && WritesLast(steps, l, n) && tr[n].docs.head.Some?
    ensures StoreLog.Init(e, Started(tr[n].docs)) <==> steps[l].p == steps[w].p
  {
    BehaviourKeepsInv(e, tr, steps, n);
    GenesisVerifies(e, tr[n].docs.first.value);
    w, l := RecordAgreesIffWinnerWroteLast(e, tr, steps, n);
  }

  // ---------- openings interleaved with appends ----------

  /** The shared log from the creation of the head on, with the replicas that still open it;
      the log's own state includes the genesis record that the head was created with. */
  datatype Shared = Shared(log: StoreLog.State, anchored: set<string>, openers: map<Pid, Opener>)

  datatype Event = Opens(step: Step) | Logs(append: StoreLog.Step)

  /** The documents as an opening replica sees them. */
  function View(m: Shared): State {
    State(Docs(Some(m.log.head), if 1 in m.log.records then Some(m.log.records[1]) else None), m.anchored, m.openers)
  }

  ghost predicate Happens(e: Env, m: Shared, ev: Event) {
    match ev
    case Opens(step) => Enabled(e, View(m), step)
    case Logs(append) => StoreLog.Enabled(e, m.log, append)
  }

  ghost function After(e: Env, m: Shared, ev: Event): Shared
    requires Happens(e, m, ev)
  {
    match ev
    case Opens(step) =>
      var s := Apply(e, View(m), step);
      var records := if s.docs.first.Some? then m.log.records[1 := s.docs.first.value] else m.log.records;
      Shared(m.log.(records := records, ver := if step.RewriteHead? && !step.conflict then m.log.ver + 1 else m.log.ver), s.anchored, s.openers)
    case Logs(append) => m.(log := StoreLog.Apply(e, m.log, append))
  }

  /** Step `w` of the openings creates the head. */
  ghost predicate Wins(e: Env, tr: seq<State>, steps: seq<Step>, w: nat) {
    Behaviour(e, tr, steps) && w < |steps| && WinsTheRace(tr[w], steps[w])
  }

  ghost function HeadsRecord(e: Env, tr: seq<State>, steps: seq<Step>, w: nat): Record
    requires Wins(e, tr, steps, w)
  {
    assert Enabled(e, tr[w], steps[w]);
    tr[w].openers[steps[w].p].own
  }

  /** From then on openers and loggers interleave in any way. */
  ghost predicate Continues(e: Env, tr: seq<State>, steps: seq<Step>, w: nat, run: seq<Shared>, events: seq<Event>) {
    && Wins(e, tr, steps, w) && |run| == |events| + 1
    && (var own := HeadsRecord(e, tr, steps, w);
        run[0] == Shared(StoreLog.State(Head(1, own.hash), 0, map[], [own], map[]), tr[w + 1].anchored, tr[w + 1].openers))
    && forall i :: 0 <= i < |events| ==> Happens(e, run[i], events[i]) && run[i + 1] == After(e, run[i], events[i])
  }

  function WithGenesis(log: StoreLog.State, own: Record): StoreLog.State {
    log.(records := log.records[1 := own])
  }

  /** Only the winner may still write the head's record. */
  predicate MayWrite(p: Pid, o: Opener, winner: Pid, own: Record) {
    if p == winner then Carried(o).None? || o == Putting(own) else !Carries(o, own.hash)
  }

  /** With the head's record in place the log is sound. */
  ghost predicate SharedInv(e: Env, m: Shared, winner: Pid, own: Record) {
    && StoreLog.Inv(e, WithGenesis(m.log, own)) && m.log.chain[0] == own
    && (1 in m.log.records ==> m.log.records[1] == own || m.log.records[1].hash != own.hash)
    && forall p :: p in m.openers ==> MayWrite(p, m.openers[p], winner, own)
  }

  predicate Puts(ev: Event) {
    ev.Opens? && ev.step.PutRecord?
  }

  /** An append never touches number one. */
  lemma AppendLeavesNumberOne(e: Env, log: StoreLog.State, st: StoreLog.Step, own: Record)
    requires StoreLog.Inv(e, WithGenesis(log, own)) && StoreLog.Enabled(e, log, st)
    ensures st.WriteRecord? ==> log.procs[st.p].rec.content.number != 1
    ensures var log' := StoreLog.Apply(e, log, st);
            && (1 in log'.records <==> 1 in log.records) && (1 in log.records ==> log'.records[1] == log.records[1])
            && log.chain <= log'.chain
  {
    if st.WriteRecord? {
      var whole := WithGenesis(log, own);
      assert StoreLog.Fits(e, whole, whole.procs[st.p]);
    }
  }

  /** So it does the same with the head's record in place. */
  lemma AppendCommutes(e: Env, log: StoreLog.State, st: StoreLog.Step, own: Record)
    requires StoreLog.Enabled(e, log, st) && (st.WriteRecord? ==> log.procs[st.p].rec.content.number != 1)
    ensures StoreLog.Enabled(e, WithGenesis(log, own), st)
    ensures WithGenesis(StoreLog.Apply(e, log, st), own) == StoreLog.Apply(e, WithGenesis(log, own), st)
  {
    if st.WriteRecord? {
      assert WithGenesis(StoreLog.Apply(e, log, st), own).records == StoreLog.Apply(e, WithGenesis(log, own), st).records;
    }
  }

  lemma AppendKeepsSharedInv(e: Env, m: Shared, st: StoreLog.Step, winner: Pid, own: Record)
    requires Sound(e.c) && SharedInv(e, m, winner, own) && StoreLog.Enabled(e, m.log, st)
    ensures SharedInv(e, After(e, m, Logs(st)), winner, own)
    ensures var log := StoreLog.Apply(e, m.log, st); (1 in log.records <==> 1 in m.log.records) && (1 in log.records ==> log.records[1] == m.log.records[1])
  {
    AppendLeavesNumberOne(e, m.log, st, own);
    AppendCommutes(e, m.log, st, own);
    StoreLog.StepKeepsInv(e, WithGenesis(m.log, own), st);
  }

  /** What an opener's step leaves of the log. */
  lemma OpenerTouches(e: Env, m: Shared, st: Step)
    requires Enabled(e, View(m), st)
    ensures var m' := After(e, m, Opens(st));
            && m'.log == m.log.(records := m'.log.records, ver := m'.log.ver)
            && m'.log.ver == (if st.RewriteHead? && !st.conflict then m.log.ver + 1 else m.log.ver)
            && m'.log.records == if st.PutRecord? then m.log.records[1 := m.openers[st.p].own] else m.log.records
  {
    if 1 in m.log.records {
      assert m.log.records[1 := m.log.records[1]] == m.log.records;
    }
  }

  lemma OpenersMayWrite(e: Env, m: Shared, st: Step, q: Pid, winner: Pid, own: Record)
    requires Enabled(e, View(m), st) && q in After(e, m, Opens(st)).openers
    requires q in m.openers ==> MayWrite(q, m.openers[q], winner, own)
    ensures MayWrite(q, After(e, m, Opens(st)).openers[q], winner, own)
  {
  }

  lemma OpenerKeepsLog(e: Env, m: Shared, st: Step, own: Record)
    requires Sound(e.c) && StoreLog.Inv(e, WithGenesis(m.log, own)) && Enabled(e, View(m), st)
    ensures StoreLog.Inv(e, WithGenesis(After(e, m, Opens(st)).log, own))
  {
    OpenerTouches(e, m, st);
    var log', whole := After(e, m, Opens(st)).log, WithGenesis(m.log, own);
    assert WithGenesis(log', own).records == whole.records;
    if st.RewriteHead? && !st.conflict {
      assert WithGenesis(log', own) == StoreLog.Apply(e, whole, StoreLog.TouchHead(0));
      StoreLog.StepKeepsInv(e, whole, StoreLog.TouchHead(0));
    } else {
      assert WithGenesis(log', own) == whole;
    }
  }

  lemma OpenerKeepsSharedInv(e: Env, m: Shared, st: Step, winner: Pid, own: Record)
    requires Sound(e.c) && SharedInv(e, m, winner, own) && Enabled(e, View(m), st)
    ensures var m' := After(e, m, Opens(st));
            && SharedInv(e, m', winner, own)
            && if st.PutRecord? then 1 in m'.log.records && (m'.log.records[1] == own <==> st.p == winner)
               else m'.log.records == m.log.records
  {
    var m' := After(e, m, Opens(st));
    OpenerKeepsLog(e, m, st, own);
    OpenerTouches(e, m, st);
    forall q | q in m'.openers ensures MayWrite(q, m'.openers[q], winner, own) {
      OpenersMayWrite(e, m, st, q, winner, own);
    }
    if st.PutRecord? {
      assert MayWrite(st.p, m.openers[st.p], winner, own);
    }
  }

  lemma WinStartsSound(e: Env, tr: seq<State>, steps: seq<Step>, w: nat, run: seq<Shared>, events: seq<Event>)
    requires Sound(e.c) && Continues(e, tr, steps, w, run, events)
    ensures SharedInv(e, run[0], steps[w].p, HeadsRecord(e, tr, steps, w))
  {
    var own := HeadsRecord(e, tr, steps, w);
    BehaviourKeepsInv(e, tr, steps, w);
    assert Enabled(e, tr[w], steps[w]) && tr[w + 1] == Apply(e, tr[w], steps[w]);
    assert Fits(e, tr[w], tr[w].openers[steps[w].p]);
    GenesisVerifies(e, own);
    StoreLog.InitInv(e, WithGenesis(run[0].log, own));
    assert Carries(tr[w].openers[steps[w].p], own.hash);
  }

  lemma {:induction false} RunKeepsSharedInv(e: Env, tr: seq<State>, steps: seq<Step>, w: nat, run: seq<Shared>, events: seq<Event>, n: nat)
    requires Sound(e.c) && Continues(e, tr, steps, w, run, events) && n < |run|
    ensures SharedInv(e, run[n], steps[w].p, HeadsRecord(e, tr, steps, w))
  {
    if n == 0 {
      WinStartsSound(e, tr, steps, w, run, events);
    } else {
      RunKeepsSharedInv(e, tr, steps, w, run, events, n - 1);
      assert Happens(e, run[n - 1], events[n - 1]) && run[n] == After(e, run[n - 1], events[n - 1]);
      match events[n - 1]
      case Opens(st) => OpenerKeepsSharedInv(e, run[n - 1], st, steps[w].p, HeadsRecord(e, tr, steps, w));
      case Logs(st) => AppendKeepsSharedInv(e, run[n - 1], st, steps[w].p, HeadsRecord(e, tr, steps, w));
    }
  }

  // ---------- when such a chain verifies ----------

  /** Event `l` is the last before `n` that writes a genesis record, and is by `p`. */
  predicate PutLast(events: seq<Event>, l: nat, n: nat, p: Pid) {
    l < n <= |events| && Puts(events[l]) && events[l].step.p == p && forall k :: l < k < n ==> !Puts(events[k])
  }

  ghost predicate WinnerPutLast(events: seq<Event>, n: nat, winner: Pid) {
    exists l: nat :: PutLast(events, l, n, winner)
  }

  /** The record of number one is that of the last to write it. */
  lemma {:induction false} FirstRecordIsTheLastPut(e: Env, tr: seq<State>, steps: seq<Step>, w: nat, run: seq<Shared>, events: seq<Event>, n: nat)
    requires Sound(e.c) && Continues(e, tr, steps, w, run, events) && n < |run|
    ensures 1 in run[n].log.records && run[n].log.records[1] == HeadsRecord(e, tr, steps, w) <==> WinnerPutLast(events, n, steps[w].p)
  {
    if n > 0 {
      var own, winner, ev := HeadsRecord(e, tr, steps, w), steps[w].p, events[n - 1];
      FirstRecordIsTheLastPut(e, tr, steps, w, run, events, n - 1);
      RunKeepsSharedInv(e, tr, steps, w, run, events, n - 1);
      assert Happens(e, run[n - 1], ev) && run[n] == After(e, run[n - 1], ev);
      match ev {
        case Opens(st) => OpenerKeepsSharedInv(e, run[n - 1], st, winner, own);
        case Logs(st) => AppendKeepsSharedInv(e, run[n - 1], st, winner, own);
      }
      NextPutLast(events, n - 1, winner);
    }
  }

  lemma NextPutLast(events: seq<Event>, n: nat, winner: Pid)
    requires n < |events|
    ensures WinnerPutLast(events, n + 1, winner)
            <==> if Puts(events[n]) then events[n].step.p == winner else WinnerPutLast(events, n, winner)
  {
    if Puts(events[n]) && events[n].step.p == winner {
      assert PutLast(events, n, n + 1, winner);
    }
    if WinnerPutLast(events, n, winner) && !Puts(events[n]) {
      var l: nat :| PutLast(events, l, n, winner);
      assert PutLast(events, l, n + 1, winner);
    }
    if WinnerPutLast(events, n + 1, winner) {
      var l: nat :| PutLast(events, l, n + 1, winner);
      assert l < n ==> PutLast(events, l, n, winner);
    }
  }

  lemma FewerRecordsAreSound(e: Env, log: StoreLog.State, own: Record)
    requires StoreLog.Inv(e, WithGenesis(log, own)) && (1 in log.records ==> log.records[1] == own)
    ensures StoreLog.Inv(e, log)
  {
    var whole := WithGenesis(log, own);
    forall n | n in log.records ensures StoreLog.Claimed(log, n) && log.records[n] == log.chain[n - 1] {
      assert StoreLog.Claimed(whole, n);
    }
    forall p | p in log.procs ensures StoreLog.Fits(e, log, log.procs[p]) {
      assert StoreLog.Fits(e, whole, whole.procs[p]);
    }
  }

  /** Number one is listed first, and what is listed next continues the head's record. */
  lemma ListedAfterGenesis(e: Env, log: StoreLog.State, own: Record, ns: seq<nat>)
    requires StoreLog.Inv(e, WithGenesis(log, own)) && 1 in log.records && StoreLog.Covers(log, ns) && StoreLog.InOrder(log, ns)
    ensures ns != [] && ns[0] == 1
    ensures |ns| > 1 ==> 1 < ns[1] <= |log.chain| && StoreLog.Listed(log, ns)[1] == log.chain[ns[1] - 1]
    ensures |ns| > 1 ==> log.chain[ns[1] - 1].content.number == ns[1]
  {
    var whole := WithGenesis(log, own);
    assert StoreLog.Written(log, 1);
    var k :| 0 <= k < |ns| && ns[k] == 1;
    assert ns[0] in log.records && StoreLog.Claimed(whole, ns[0]);
    if |ns| > 1 {
      assert ns[1] in log.records && StoreLog.Claimed(whole, ns[1]);
    }
  }

  /** A chain does not verify while another replica's genesis record stands at number one. */
  lemma ForeignGenesisBreaks(e: Env, log: StoreLog.State, own: Record, ns: seq<nat>)
    requires Sound(e.c) && StoreLog.Inv(e, WithGenesis(log, own)) && log.chain[0] == own
    requires 1 in log.records && log.records[1].hash != own.hash && StoreLog.Covers(log, ns) && StoreLog.InOrder(log, ns)
    ensures !StoreVerifies(e.c, StoreLog.Listed(log, ns), Some(log.head))
  {
    var recs := StoreLog.Listed(log, ns);
    ListedAfterGenesis(e, log, own, ns);
    if StoreVerifies(e.c, recs, Some(log.head)) {
      NumbersCountUp(e.c, recs, 1);
      if |ns| > 1 {
        NumbersCountUp(e.c, recs, 2);
        AcceptedLinks(e.c, recs, 1);
        AcceptedLinks(e.c, log.chain, 1);
      }
    }
  }

  /** At any time of any run in which openers and loggers interleave, the stored chain verifies
      exactly when every number claimed so far is written and the replica that created the head
      was the last to write a genesis record. */
  lemma ChainVerifiesIffCompleteAndWinnerWroteLast(e: Env, tr: seq<State>, steps: seq<Step>, w: nat,
                                                   run: seq<Shared>, events: seq<Event>, n: nat, ns: seq<nat>)
    requires Sound(e.c) && Continues(e, tr, steps, w, run, events) && n < |run| && StoreLog.Listing(run[n].log, ns)
    ensures StoreLog.InOrder(run[n].log, ns)
    ensures StoreVerifies(e.c, StoreLog.Listed(run[n].log, ns), Some(run[n].log.head))
            <==> StoreLog.Complete(run[n].log) && WinnerPutLast(events, n, steps[w].p)
  {
    var log, own := run[n].log, HeadsRecord(e, tr, steps, w);
    RunKeepsSharedInv(e, tr, steps, w, run, events, n);
    FirstRecordIsTheLastPut(e, tr, steps, w, run, events, n);
    StoreLog.ListingIsInOrder(log, ns);
    if 1 in log.records && log.records[1] != own {
      ForeignGenesisBreaks(e, log, own, ns);
    } else {
      FewerRecordsAreSound(e, log, own);
      assert StoreLog.StoredIsClaimed(log);
      StoreLog.VerifiesIffComplete(e, log, ns);
      assert StoreLog.Complete(log) ==> StoreLog.Written(log, 1);
    }
  }

  /** The winner has written its record, or never will. */
  predicate WinnerIsDone(m: Shared, winner: Pid) {
    winner in m.openers ==> Carried(m.openers[winner]).None?
  }

  lemma DoneStaysDone(e: Env, m: Shared, ev: Event, winner: Pid)
    requires Happens(e, m, ev) && WinnerIsDone(m, winner)
    ensures WinnerIsDone(After(e, m, ev), winner) && !(Puts(ev) && ev.step.p == winner)
  {
  }

  lemma {:induction false} DoneForGood(e: Env, tr: seq<State>, steps: seq<Step>, w: nat, run: seq<Shared>, events: seq<Event>, j: nat, n: nat)
    requires Sound(e.c) && Continues(e, tr, steps, w, run, events) && j <= n < |run|
    requires WinnerIsDone(run[j], steps[w].p) && !WinnerPutLast(events, j, steps[w].p)
    ensures WinnerIsDone(run[n], steps[w].p) && !WinnerPutLast(events, n, steps[w].p)
    decreases n
  {
    if j < n {
      DoneForGood(e, tr, steps, w, run, events, j, n - 1);
      assert Happens(e, run[n - 1], events[n - 1]) && run[n] == After(e, run[n - 1], events[n - 1]);
      DoneStaysDone(e, run[n - 1], events[n - 1], steps[w].p);
      NextPutLast(events, n - 1, steps[w].p);
    }
  }

  /** Once another replica was the last to write a genesis record and the winner has none left
      to write, the chain never verifies again, whoever opens it or appends to it, and however
      they interleave. */
  lemma LostRaceIsNeverRepaired(e: Env, tr: seq<State>, steps: seq<Step>, w: nat, run: seq<Shared>, events: seq<Event>,
                                j: nat, n: nat, ns: seq<nat>)
    requires Sound(e.c) && Continues(e, tr, steps, w, run, events) && j <= n < |run|
    requires WinnerIsDone(run[j], steps[w].p) && !WinnerPutLast(events, j, steps[w].p)
    requires StoreLog.Listing(run[n].log, ns)
    ensures StoreLog.InOrder(run[n].log, ns) && !StoreVerifies(e.c, StoreLog.Listed(run[n].log, ns), Some(run[n].log.head))
  {
    DoneForGood(e, tr, steps, w, run, events, j, n);
    ChainVerifiesIffCompleteAndWinnerWroteLast(e, tr, steps, w, run, events, n, ns);
  }

  // ---------- one opening ----------

  /** How the calls of an opening end: reading the head, creating it, reading it again after
      a lost race, writing it back unchanged, and writing the genesis record. */
  datatype Fortune = Fortune(gets: bool, create: Write, regets: bool, rewrite: Write, put: Write)

  function AfterPut(d: Docs, own: Record, put: Write): Docs {
    if Reaches(put) then d.(first := Some(own)) else d
  }

  /** The documents after an opening replica whose own genesis record would be `own`, and
      whether it succeeds; `rival` is the genesis of a replica that creates the head in
      between, if one does, and that has written its record by then if `rivalWrites`. */
  function Opened(d: Docs, own: Record, rival: Option<Record>, rivalWrites: bool, f: Fortune): (Docs, bool) {
    if !f.gets then (d, false)
    else if d.head.Some? then (d, f.rewrite.Stored?)
    else if rival.Some? then
      var lost := Docs(Some(Head(1, rival.value.hash)), if rivalWrites then rival else d.first);
      if f.regets && f.rewrite.Stored? then (AfterPut(lost, own, f.put), f.put.Stored?) else (lost, false)
    else if f.create.Stored? then (AfterPut(d.(head := Some(Head(1, own.hash))), own, f.put), f.put.Stored?)
    else (if Reaches(f.create) then d.(head := Some(Head(1, own.hash))) else d, false)
  }

  /** An opening spoils the documents exactly if it loses the race and then gets as far as
      writing its own record; one that succeeds leaves a chain with a head. */
  lemma OpeningSpoilsIffItLosesAndWrites(d: Docs, own: Record, rival: Option<Record>, rivalWrites: bool, f: Fortune)
    requires Agrees(d) && (rival.Some? ==> rival.value.hash != own.hash)
    ensures Agrees(Opened(d, own, rival, rivalWrites, f).0)
            <==> !(d.head.None? && rival.Some? && f.gets && f.regets && f.rewrite.Stored? && Reaches(f.put))
    ensures Opened(d, own, rival, rivalWrites, f).1 ==> Opened(d, own, rival, rivalWrites, f).0.head.Some?
  {
  }

  /** When an opening succeeds, and what head and record it then leaves: an existing chain
      untouched, its own genesis, or, after a lost race, the rival's head beside its own record. */
  lemma OpeningSucceedsExactly(d: Docs, own: Record, rival: Option<Record>, rivalWrites: bool, f: Fortune)
    ensures var (d', ok) := Opened(d, own, rival, rivalWrites, f);
            && (d.head.Some? ==> d' == d && (ok <==> f.gets && f.rewrite.Stored?))
            && (d.head.None? && rival.None? ==> (ok <==> f.gets && f.create.Stored? && f.put.Stored?))
            && (d.head.None? && rival.None? && ok ==> d'.head == Some(Head(1, own.hash)) && d'.first == Some(own))
            && (d.head.None? && rival.Some? ==> (ok <==> f.gets && f.regets && f.rewrite.Stored? && f.put.Stored?))
            && (d.head.None? && rival.Some? && ok ==> d'.head == Some(Head(1, rival.value.hash)) && d'.first == Some(own))
  {
  }

  class ChainDocuments {
    var head: Option<Head>
    var ver: nat
    var first: Option<Record>

    ghost function Value(): Docs
      reads this
    {
      Docs(head, first)
    }

    constructor ()
      ensures Value() == Docs(None, None)
    {
      head, ver, first := None, 0, None;
    }

    /** What the rival does: create the head, then write its record, or not yet. */
    method Initialise(rival: Record, writes: bool)
      requires head.None?
      modifies this
      ensures head == Some(Head(1, rival.hash)) && ver == old(ver) + 1
      ensures first == if writes then Some(rival) else old(first)
    {
      head, ver := Some(Head(1, rival.hash)), ver + 1;
      if writes {
        first := Some(rival);
      }
    }

    method EnsureGenesis(own: Record, rival: Option<Record>, rivalWrites: bool, f: Fortune) returns (ok: bool)
      modifies this
      ensures (Value(), ok) == Opened(old(Value()), own, rival, rivalWrites, f)
    {
      var genesis: Option<Record> := None;
      var coming := rival;
      var settled := false;
      while !settled
        invariant head.None? ==> Value() == old(Value()) && coming == rival && genesis.None? && !settled
        invariant genesis.None? ==> Value() == old(Value())
        invariant genesis.None? && settled ==> f.gets && old(head).Some? && f.rewrite.Stored?
        invariant genesis.Some? ==> f.gets && old(head).None? && genesis == Some(own) && head.Some?
        invariant genesis.Some? && rival.None? ==> settled && f.create.Stored? && Value() == old(Value()).(head := Some(Head(1, own.hash)))
        invariant genesis.Some? && rival.Some? ==>
                    Value() == Docs(Some(Head(1, rival.value.hash)), if rivalWrites then rival else old(first))
        invariant genesis.Some? && rival.Some? && settled ==> f.regets && f.rewrite.Stored?
        decreases if settled then 0 else if head.None? then 2 else 1
      {
        if !(if genesis.None? then f.gets else f.regets) {
          return false;
        }
        if head.Some? {
          // the chain exists: the update rewrites the head unchanged
          if Reaches(f.rewrite) {
            ver := ver + 1;
          }
          if !f.rewrite.Stored? {
            return false;
          }
          settled := true;
        } else {
          genesis := Some(own);
          if coming.Some? {
            Initialise(coming.value, rivalWrites);
            coming := None;
          }
          if head.None? {
            if Reaches(f.create) {
              head, ver := Some(Head(1, own.hash)), ver + 1;
            }
            if !f.create.Stored? {
              return false;
            }
            settled := true;
          }
        }
      }
      ok := true;
      if genesis.Some? {
        if Reaches(f.put) {
          first := genesis;
        }
        ok := f.put.Stored?;
      }
    }
  }
}
