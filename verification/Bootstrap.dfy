/** Making sure that an operator key exists at start-up, and that its creation is audited. */
module Bootstrap {
  import opened Common
  import opened Text
  import MintedFile

  type Id = string
  type Pid = nat

  const MINTED_ID := MintedFile.MINTED_ID

  datatype Key = Key(operator: bool, bootstrap: bool, audited: bool, recovery: bool)
  datatype Entry = KeyCreated(id: Id) | KeyRecovered(id: Id)
  datatype Store = Store(keys: map<Id, Key>, log: seq<Entry>)

  predicate Recorded(log: seq<Entry>, id: Id) {
    KeyCreated(id) in log || KeyRecovered(id) in log
  }

  function EntryFor(id: Id, recovery: bool): Entry {
    if recovery then KeyRecovered(id) else KeyCreated(id)
  }

  /** A first key is recorded as created, one that replaces lost ones as recovered. */
  lemma EntriesTellTheTwoApart(id: Id, recovery: bool)
    ensures EntryFor(id, recovery) == if recovery then KeyRecovered(id) else KeyCreated(id)
    ensures EntryFor(id, true) != EntryFor(id, false) && Recorded([EntryFor(id, recovery)], id)
  {
  }

  predicate SomeOperator(keys: map<Id, Key>) {
    exists id :: id in keys && keys[id].operator
  }

  predicate KeyGood(log: seq<Entry>, id: Id, key: Key) {
    && (key.bootstrap ==> key.operator)
    && (key.audited ==> key.bootstrap && Recorded(log, id))
    && (id == MINTED_ID ==> key.operator)
  }

  /** A key flagged as audited has an audit record. */
  predicate Good(st: Store) {
    forall id :: id in st.keys ==> KeyGood(st.log, id, st.keys[id])
  }

  function WithEntry(st: Store, e: Entry, write: Write): Store {
    if Reaches(write) then st.(log := st.log + [e]) else st
  }

  function Flagged(st: Store, id: Id, write: Write): Store {
    if Reaches(write) && id in st.keys then st.(keys := st.keys[id := st.keys[id].(audited := true)]) else st
  }

  lemma EntryKeepsGood(st: Store, e: Entry, write: Write)
    requires Good(st)
    ensures Good(WithEntry(st, e, write)) && st.log <= WithEntry(st, e, write).log
    ensures Reaches(write) ==> Recorded(WithEntry(st, e, write).log, e.id)
  {
    var st' := WithEntry(st, e, write);
    forall id | id in st'.keys ensures KeyGood(st'.log, id, st'.keys[id]) {
      assert KeyGood(st.log, id, st.keys[id]);
    }
  }

  /** No key is lost, and none changes but by being flagged. */
  predicate Kept(before: map<Id, Key>, after: map<Id, Key>) {
    forall id :: id in before ==> id in after && after[id] == before[id].(audited := after[id].audited)
                                  && (before[id].audited ==> after[id].audited)
  }

  lemma KeptIsTransitive(a: map<Id, Key>, b: map<Id, Key>, c: map<Id, Key>)
    requires Kept(a, b) && Kept(b, c)
    ensures Kept(a, c)
  {
  }

  // ---------- starts interleaved with each other and with key management ----------

  /** An unaudited key as the scan saw it. */
  datatype Pending = Pending(id: Id, recovery: bool)

  datatype Proc =
    | Starting(supplied: Option<Id>)
    | Inserting(id: Id, adopts: bool, recovery: bool)
    | Comparing(id: Id)
    | Auditing(id: Id, recovery: bool, todo: seq<Pending>)
    | Flagging(id: Id, todo: seq<Pending>)
    | Done

  /** `used` are the ids that keys have had so far; random ids never repeat one. */
  datatype State = State(store: Store, used: set<Id>, procs: map<Pid, Proc>)

  datatype Step =
    | Start(p: Pid, supplied: Option<Id>)
    | Scan(p: Pid, unaudited: seq<Pending>, recovery: bool)
    | Insert(p: Pid, write: Write)
    | LookAtExisting(p: Pid)
    | Log(p: Pid, write: Write)
    | Flag(p: Pid, write: Write)
    | Return(p: Pid)  // without an error
    | End(p: Pid)     // an error or a crash
    | CreateKey(id: Id, operator: bool)
    | DeleteKey(id: Id)

  predicate At(s: State, p: Pid) {
    p in s.procs
  }

  predicate Unaudited(st: Store, id: Id) {
    id in st.keys && st.keys[id].bootstrap && !st.keys[id].audited
  }

  ghost predicate Enabled(s: State, st: Step) {
    match st
    case Start(p, _) => !At(s, p)
    case Scan(p, unaudited, recovery) =>
      && At(s, p) && s.procs[p].Starting? && (recovery <==> s.store.keys != map[])
      && forall x :: x in unaudited <==> Unaudited(s.store, x.id) && x.recovery == s.store.keys[x.id].recovery
    case Insert(p, _) => At(s, p) && s.procs[p].Inserting?
    case LookAtExisting(p) => At(s, p) && s.procs[p].Comparing?
    case Log(p, _) => At(s, p) && s.procs[p].Auditing?
    case Flag(p, _) => At(s, p) && s.procs[p].Flagging?
    case Return(p) => At(s, p) && s.procs[p].Done?
    case End(p) => At(s, p)
    case CreateKey(id, _) => id !in s.used && id != MINTED_ID
    case DeleteKey(id) => true
  }

  function Goto(s: State, p: Pid, pr: Proc): State {
    s.(procs := s.procs[p := pr])
  }

  function Ended(s: State, p: Pid): State {
    s.(procs := s.procs - {p})
  }

  function NextToAudit(todo: seq<Pending>): Proc {
    if todo == [] then Done else Auditing(todo[0].id, todo[0].recovery, todo[1..])
  }

  ghost function Apply(s: State, st: Step): State
    requires Enabled(s, st)
  {
    match st
    case Start(p, supplied) => Goto(s, p, Starting(supplied))
    case Scan(p, unaudited, recovery) =>
      if SomeOperator(s.store.keys) then Goto(s, p, NextToAudit(unaudited))
      else
        var supplied := s.procs[p].supplied;
        Goto(s, p, if supplied.Some? then Inserting(supplied.value, true, recovery) else Inserting(MINTED_ID, false, recovery))
    case Insert(p, write) =>
      var pr := s.procs[p];
      var absent := pr.id !in s.store.keys;
      var s' := if absent && Reaches(write) then
                  s.(store := s.store.(keys := s.store.keys[pr.id := Key(true, true, false, pr.recovery)]), used := s.used + {pr.id})
                else s;
      if !write.Stored? then Ended(s', p)
      else Goto(s', p, if absent then Auditing(pr.id, pr.recovery, []) else if pr.adopts then Comparing(pr.id) else Done)
    case LookAtExisting(p) =>
      var id := s.procs[p].id;
      if id in s.store.keys && s.store.keys[id].operator then Goto(s, p, Done) else Ended(s, p)
    case Log(p, write) =>
      var pr := s.procs[p];
      var s' := s.(store := WithEntry(s.store, EntryFor(pr.id, pr.recovery), write));
      if write.Stored? then Goto(s', p, Flagging(pr.id, pr.todo)) else Ended(s', p)
    case Flag(p, write) =>
      var pr := s.procs[p];
      var s' := s.(store := Flagged(s.store, pr.id, write));
      if write.Stored? then Goto(s', p, NextToAudit(pr.todo)) else Ended(s', p)
    case Return(p) => Ended(s, p)
    case End(p) => Ended(s, p)
    case CreateKey(id, operator) =>
      s.(store := s.store.(keys := s.store.keys[id := Key(operator, false, false, false)]), used := s.used + {id})
    case DeleteKey(id) => s.(store := s.store.(keys := s.store.keys - {id}))
  }

  ghost predicate Behaviour(tr: seq<State>, steps: seq<Step>) {
    && |tr| == |steps| + 1 && tr[0] == State(Store(map[], []), {}, map[])
    && forall i :: 0 <= i < |steps| ==> Enabled(tr[i], steps[i]) && tr[i + 1] == Apply(tr[i], steps[i])
  }

  /** The id had a bootstrap key, and can have no other kind of key since. */
  predicate WasBootstrap(s: State, id: Id) {
    id in s.used && (id in s.store.keys ==> s.store.keys[id].bootstrap)
  }

  /** Only bootstrap keys are audited, and one is flagged only after its record; what is
      not adopted from a file gets the minted id. */
  predicate ProcOk(s: State, pr: Proc) {
    match pr
    case Inserting(id, adopts, _) => adopts || id == MINTED_ID
    case Auditing(id, _, todo) => WasBootstrap(s, id) && forall i :: 0 <= i < |todo| ==> WasBootstrap(s, todo[i].id)
    case Flagging(id, todo) =>
      Recorded(s.store.log, id) && WasBootstrap(s, id) && forall i :: 0 <= i < |todo| ==> WasBootstrap(s, todo[i].id)
    case _ => true
  }

  predicate Inv(s: State) {
    Good(s.store) && s.store.keys.Keys <= s.used && forall p :: p in s.procs ==> ProcOk(s, s.procs[p])
  }

  /** Ids stay used, and those of bootstrap keys stay theirs; the log only grows. */
  predicate Grows(s: State, s': State) {
    && s.used <= s'.used && s.store.log <= s'.store.log
    && forall id :: id in s.used && id in s'.store.keys ==>
         s'.store.keys[id].bootstrap || (id in s.store.keys && !s.store.keys[id].bootstrap)
  }

  lemma StepGrows(s: State, st: Step)
    requires Inv(s) && Enabled(s, st)
    ensures Grows(s, Apply(s, st)) && Good(Apply(s, st).store) && Apply(s, st).store.keys.Keys <= Apply(s, st).used
  {
    if st.Log? {
      EntryKeepsGood(s.store, EntryFor(s.procs[st.p].id, s.procs[st.p].recovery), st.write);
    } else if st.Flag? {
      assert ProcOk(s, s.procs[st.p]);
    }
  }

  lemma ProcStaysOk(s: State, s': State, pr: Proc)
    requires Grows(s, s') && ProcOk(s, pr)
    ensures ProcOk(s', pr)
  {
  }

  lemma ActorStaysOk(s: State, st: Step, p: Pid)
    requires Inv(s) && Enabled(s, st) && p in Apply(s, st).procs && !(p in s.procs && Apply(s, st).procs[p] == s.procs[p])
    ensures ProcOk(Apply(s, st), Apply(s, st).procs[p])
  {
    StepGrows(s, st);
    if p in s.procs {
      assert ProcOk(s, s.procs[p]);
    }
    if st.Scan? {
      assert forall i :: 0 <= i < |st.unaudited| ==> st.unaudited[i] in st.unaudited;
    }
  }

  lemma StepKeepsInv(s: State, st: Step)
    requires Inv(s) && Enabled(s, st)
    ensures Inv(Apply(s, st))
  {
    StepGrows(s, st);
    var s' := Apply(s, st);
    forall p | p in s'.procs ensures ProcOk(s', s'.procs[p]) {
      if p in s.procs && s'.procs[p] == s.procs[p] {
        ProcStaysOk(s, s', s.procs[p]);
      } else {
        ActorStaysOk(s, st, p);
      }
    }
  }

  lemma {:induction false} BehaviourKeepsInv(tr: seq<State>, steps: seq<Step>, i: nat)
    requires Behaviour(tr, steps) && i < |tr|
    ensures Inv(tr[i])
  {
    if i > 0 {
      BehaviourKeepsInv(tr, steps, i - 1);
      StepKeepsInv(tr[i - 1], steps[i - 1]);
    }
  }

  // ---------- results about interleaved starts ----------

  /** Whatever crashes and interleavings, a key flagged as audited has its record. */
  lemma FlaggedKeysAreRecorded(tr: seq<State>, steps: seq<Step>, i: nat, id: Id)
    requires Behaviour(tr, steps) && i < |tr| && id in tr[i].store.keys && tr[i].store.keys[id].audited
    ensures Recorded(tr[i].store.log, id) && tr[i].store.keys[id].operator
  {
    BehaviourKeepsInv(tr, steps, i);
  }

  predicate PastDeciding(pr: Proc) {
    pr.Auditing? || pr.Flagging? || pr.Done?
  }

  /** Process p has been running since `from`, when the store had an operator key. */
  predicate SawOperator(tr: seq<State>, p: Pid, from: nat, n: nat) {
    from <= n < |tr| && SomeOperator(tr[from].store.keys) && forall k :: from <= k <= n ==> p in tr[k].procs
  }

  lemma {:induction false} DecidedOnAnOperator(tr: seq<State>, steps: seq<Step>, p: Pid, n: nat)
    requires Behaviour(tr, steps) && n < |tr| && p in tr[n].procs && PastDeciding(tr[n].procs[p])
    ensures exists from :: SawOperator(tr, p, from, n)
  {
    if n > 0 {
      var s, st := tr[n - 1], steps[n - 1];
      if p in s.procs && PastDeciding(s.procs[p]) {
        DecidedOnAnOperator(tr, steps, p, n - 1);
        var from :| SawOperator(tr, p, from, n - 1);
        assert SawOperator(tr, p, from, n);
      } else {
        BehaviourKeepsInv(tr, steps, n - 1);
        BecomesDecided(s, st, p);
        if SomeOperator(s.store.keys) {
          assert SawOperator(tr, p, n - 1, n);
        } else {
          assert SawOperator(tr, p, n, n);
        }
      }
    }
  }

  /** A start gets past its decision only on an operator key that it found or has just left. */
  lemma BecomesDecided(s: State, st: Step, p: Pid)
    requires Inv(s) && Enabled(s, st) && p in Apply(s, st).procs && PastDeciding(Apply(s, st).procs[p])
    requires p in s.procs ==> !PastDeciding(s.procs[p])
    ensures p in s.procs && (SomeOperator(s.store.keys) || SomeOperator(Apply(s, st).store.keys))
  {
    if st.Insert? {
      var id := s.procs[p].id;
      assert ProcOk(s, s.procs[p]);
      if id in s.store.keys {
        assert KeyGood(s.store.log, id, s.store.keys[id]);
      } else {
        assert Apply(s, st).store.keys[id].operator;
      }
    }
  }

  /** A start that returns without an error found or left an operator key: at some instant
      of its run the store had one. */
  lemma SuccessfulStartSawAnOperator(tr: seq<State>, steps: seq<Step>, n: nat)
    requires Behaviour(tr, steps) && n < |steps| && steps[n].Return?
    ensures exists from :: SawOperator(tr, steps[n].p, from, n)
  {
    DecidedOnAnOperator(tr, steps, steps[n].p, n);
  }

  // ---------- a start that nothing disturbs ----------

  /** The step is one of the start that process `p` runs. */
  predicate Acts(st: Step, p: Pid) {
    !st.CreateKey? && !st.DeleteKey? && st.p == p
  }

  /** From step `i` to `n` only process `p` moves, and it starts there. */
  predicate Solitary(steps: seq<Step>, p: Pid, i: nat, n: nat) {
    && i < n <= |steps| && steps[i].Start? && forall k :: i <= k < n ==> Acts(steps[k], p)
  }

  predicate AllAudited(st: Store) {
    forall id :: id in st.keys ==> !Unaudited(st, id)
  }

  /** Only these keys still lack their record or their flag. */
  predicate AllAuditedBut(st: Store, ids: set<Id>) {
    forall id :: id in st.keys ==> Unaudited(st, id) ==> id in ids
  }

  function Ids(todo: seq<Pending>): set<Id> {
    set x | x in todo :: x.id
  }

  /** There is an operator key, or one can be made: none is supplied, or one with a new id. */
  predicate CanHaveOperator(keys: map<Id, Key>, supplied: Option<Id>) {
    SomeOperator(keys) || supplied.None? || supplied.value !in keys
  }

  /** Where a start can be that found the keys `keys` and has not been disturbed. */
  predicate OnTheWay(st: Store, keys: map<Id, Key>, supplied: Option<Id>, pr: Proc) {
    match pr
    case Starting(x) => x == supplied && st.keys == keys
    case Inserting(id, adopts, _) =>
      !SomeOperator(keys) && st.keys == keys && adopts == supplied.Some? && id == if adopts then supplied.value else MINTED_ID
    case Comparing(id) => !SomeOperator(keys) && st.keys == keys && supplied == Some(id) && id in keys
    case Auditing(id, _, todo) => CanHaveOperator(keys, supplied) && SomeOperator(st.keys) && AllAuditedBut(st, {id} + Ids(todo))
    case Flagging(id, todo) => CanHaveOperator(keys, supplied) && SomeOperator(st.keys) && AllAuditedBut(st, {id} + Ids(todo))
    case Done => CanHaveOperator(keys, supplied) && SomeOperator(st.keys) && AllAudited(st)
  }

  lemma NextToAuditIsOnTheWay(st: Store, keys: map<Id, Key>, supplied: Option<Id>, todo: seq<Pending>)
    requires CanHaveOperator(keys, supplied) && SomeOperator(st.keys) && AllAuditedBut(st, Ids(todo))
    ensures OnTheWay(st, keys, supplied, NextToAudit(todo))
  {
    if todo != [] {
      assert todo == [todo[0]] + todo[1..];
      assert Ids(todo) == {todo[0].id} + Ids(todo[1..]);
    }
  }

  lemma FlaggingLeavesOperators(st: Store, id: Id, write: Write)
    ensures SomeOperator(Flagged(st, id, write).keys) <==> SomeOperator(st.keys)
    ensures forall x :: Unaudited(Flagged(st, id, write), x) <==> Unaudited(st, x) && !(Reaches(write) && x == id)
  {
    var st' := Flagged(st, id, write);
    assert forall x :: x in st'.keys <==> x in st.keys;
    assert forall x :: x in st.keys ==> st'.keys[x].operator == st.keys[x].operator;
  }

  lemma ScanIsOnTheWay(s: State, st: Step, keys: map<Id, Key>, supplied: Option<Id>)
    requires Enabled(s, st) && st.Scan? && OnTheWay(s.store, keys, supplied, s.procs[st.p])
    ensures OnTheWay(Apply(s, st).store, keys, supplied, Apply(s, st).procs[st.p])
  {
    if SomeOperator(keys) {
      forall id | Unaudited(s.store, id) ensures id in Ids(st.unaudited) {
        assert Pending(id, s.store.keys[id].recovery) in st.unaudited;
      }
      NextToAuditIsOnTheWay(s.store, keys, supplied, st.unaudited);
    }
  }

  lemma InsertIsOnTheWay(s: State, st: Step, keys: map<Id, Key>, supplied: Option<Id>)
    requires Inv(s) && Enabled(s, st) && st.Insert? && st.write.Stored? && OnTheWay(s.store, keys, supplied, s.procs[st.p])
    ensures OnTheWay(Apply(s, st).store, keys, supplied, Apply(s, st).procs[st.p])
  {
    var id, s' := s.procs[st.p].id, Apply(s, st);
    assert forall x :: x in keys ==> KeyGood(s.store.log, x, keys[x]) && !keys[x].operator;
    if id !in keys {
      assert s'.store.keys[id].operator;
      assert forall x :: Unaudited(s'.store, x) ==> x == id;
    }
  }

  lemma NextIsOnTheWay(s: State, st: Step, keys: map<Id, Key>, supplied: Option<Id>)
    requires Inv(s) && Enabled(s, st) && !st.CreateKey? && !st.DeleteKey? && st.p in s.procs && st.p in Apply(s, st).procs
    requires OnTheWay(s.store, keys, supplied, s.procs[st.p])
    ensures OnTheWay(Apply(s, st).store, keys, supplied, Apply(s, st).procs[st.p])
  {
    match st
    case Scan(_, _, _) => ScanIsOnTheWay(s, st, keys, supplied);
    case Insert(_, _) => InsertIsOnTheWay(s, st, keys, supplied);
    case Flag(p, write) =>
      FlaggingLeavesOperators(s.store, s.procs[p].id, write);
      NextToAuditIsOnTheWay(Apply(s, st).store, keys, supplied, s.procs[p].todo);
    case LookAtExisting(_) => assert false;
    case _ =>
  }

  lemma NextOfRun(tr: seq<State>, steps: seq<Step>, p: Pid, keys: map<Id, Key>, supplied: Option<Id>, n: nat)
    requires Behaviour(tr, steps) && n < |steps| && Acts(steps[n], p) && p in tr[n + 1].procs
    requires if steps[n].Start? then steps[n].supplied == supplied && tr[n].store.keys == keys
             else p in tr[n].procs && OnTheWay(tr[n].store, keys, supplied, tr[n].procs[p])
    ensures OnTheWay(tr[n + 1].store, keys, supplied, tr[n + 1].procs[p])
  {
    assert Enabled(tr[n], steps[n]) && tr[n + 1] == Apply(tr[n], steps[n]);
    if !steps[n].Start? {
      BehaviourKeepsInv(tr, steps, n);
      NextIsOnTheWay(tr[n], steps[n], keys, supplied);
    }
  }

  lemma {:induction false} SolitaryIsOnTheWay(tr: seq<State>, steps: seq<Step>, p: Pid, i: nat, n: nat)
    requires Behaviour(tr, steps) && Solitary(steps, p, i, n) && forall k :: i < k <= n ==> p in tr[k].procs
    ensures OnTheWay(tr[n].store, tr[i].store.keys, steps[i].supplied, tr[n].procs[p])
    decreases n
  {
    if i < n - 1 {
      SolitaryIsOnTheWay(tr, steps, p, i, n - 1);
      OnlyOneStart(tr, steps, p, n - 1);
    }
    NextOfRun(tr, steps, p, tr[i].store.keys, steps[i].supplied, n - 1);
  }

  lemma OnlyOneStart(tr: seq<State>, steps: seq<Step>, p: Pid, n: nat)
    requires Behaviour(tr, steps) && n < |steps| && Acts(steps[n], p) && p in tr[n].procs
    ensures !steps[n].Start?
  {
    assert Enabled(tr[n], steps[n]);
  }

  /** A step that an outside failure ends or may have ended: a crash, an error, a failed write. */
  predicate Fails(st: Step) {
    st.End? || ((st.Insert? || st.Log? || st.Flag?) && !st.write.Stored?)
  }

  /** From any reachable state: a start that runs alone to its end, and that no failure ends,
      returns without an error exactly if there was an operator key or one could be made; and
      then there is one, and every bootstrap key is audited. */
  lemma SolitaryStartConverges(tr: seq<State>, steps: seq<Step>, p: Pid, i: nat, n: nat)
    requires Behaviour(tr, steps) && Solitary(steps, p, i, n)
    requires (forall k :: i < k < n ==> p in tr[k].procs) && p !in tr[n].procs && !Fails(steps[n - 1])
    ensures steps[n - 1].Return? <==> CanHaveOperator(tr[i].store.keys, steps[i].supplied)
    ensures steps[n - 1].Return? ==> SomeOperator(tr[n].store.keys) && AllAudited(tr[n].store)
  {
    assert Enabled(tr[n - 1], steps[n - 1]) && tr[n] == Apply(tr[n - 1], steps[n - 1]);
    SolitaryIsOnTheWay(tr, steps, p, i, n - 1);
  }

  // ---------- one start running alone ----------

  datatype KeyFile = Unset | Unusable | Holds(id: Id)

  /** How the calls of one start end; audit writes and flags by their turn. `looks` is the
      look at the supplied key, `recovers` the recovery of the minted key's file. */
  datatype Fortune = Fortune(reconciles: bool, scans: bool, insert: Write, writesTemp: bool, renames: bool, counts: bool,
                             looks: bool, recovers: bool, log: nat -> Write, flag: nat -> Write)

  predicate Faultless(f: Fortune) {
    && f.reconciles && f.scans && f.insert.Stored? && f.writesTemp && f.renames && f.counts && f.looks && f.recovers
  }

  ghost predicate AuditsWell(f: Fortune) {
    forall i: nat :: f.log(i).Stored? && f.flag(i).Stored?
  }

  class Server {
    const bolt: bool
    var keys: map<Id, Key>
    var log: seq<Entry>

    ghost function Value(): Store
      reads this
    {
      Store(keys, log)
    }

    constructor (bolt: bool)
      ensures this.bolt == bolt && Value() == Store(map[], [])
    {
      this.bolt := bolt;
      keys, log := map[], [];
    }

    method AuditBootstrap(id: Id, recovery: bool, write: Write, flag: Write) returns (ok: bool)
      requires Good(Value()) && (id in keys ==> keys[id].bootstrap)
      modifies this`keys, this`log
      ensures log == old(log) + if write.FailedLost? then [] else if recovery then [KeyRecovered(id)] else [KeyCreated(id)]
      ensures keys == if write.Stored? && Reaches(flag) && id in old(keys) then old(keys)[id := old(keys)[id].(audited := true)] else old(keys)
      ensures Good(Value())
      ensures ok <==> write.Stored? && (flag.Stored? || id !in old(keys))
      ensures ok && id in old(keys) ==> keys[id].audited
      ensures keys.Keys == old(keys.Keys) && old(log) <= log && Kept(old(keys), keys)
    {
      EntryKeepsGood(Value(), EntryFor(id, recovery), write);
      if Reaches(write) {
        log := log + [if recovery then KeyRecovered(id) else KeyCreated(id)];
      }
      if !write.Stored? {
        return false;
      }
      if id !in keys {
        return true;
      }
      if Reaches(flag) {
        keys := keys[id := keys[id].(audited := true)];
      }
      return flag.Stored?;
    }

    method InsertKey(id: Id, key: Key, write: Write) returns (created: bool, ok: bool)
      modifies this`keys
      ensures keys == if id !in old(keys) && Reaches(write) then old(keys)[id := key] else old(keys)
      ensures ok == write.Stored? && created == (ok && id !in old(keys))
    {
      if id in keys {
        return false, write.Stored?;
      }
      if Reaches(write) {
        keys := keys[id := key];
      }
      return write.Stored?, write.Stored?;
    }

    /** One scan of the bucket. */
    method ScanKeys(order: seq<Id>) returns (anyKey: bool, operatorExists: bool, unaudited: seq<Id>)
      requires forall id :: id in order <==> id in keys
      ensures anyKey <==> keys != map[]
      ensures operatorExists <==> SomeOperator(keys)
      ensures forall id :: id in unaudited <==> id in keys && Unaudited(Value(), id)
    {
      anyKey, operatorExists, unaudited := false, false, [];
      for i := 0 to |order|
        invariant anyKey <==> i > 0
        invariant operatorExists <==> exists k :: 0 <= k < i && order[k] in keys && keys[order[k]].operator
        invariant forall id :: id in unaudited <==> id in order[..i] && Unaudited(Value(), id)
      {
        anyKey := true;
        if keys[order[i]].operator {
          operatorExists := true;
        }
        if keys[order[i]].bootstrap && !keys[order[i]].audited {
          unaudited := unaudited + [order[i]];
        }
        assert order[..i + 1] == order[..i] + [order[i]];
      }
      assert order[..|order|] == order;
      assert |order| > 0 ==> order[0] in keys;
      if SomeOperator(keys) {
        var id :| id in keys && keys[id].operator;
        assert id in order;
      }
    }

    /** Writes and flags the missing records. */
    method AuditAll(unaudited: seq<Id>, f: Fortune) returns (ok: bool)
      requires Good(Value()) && forall id :: id in unaudited ==> id in keys && keys[id].bootstrap
      modifies this`keys, this`log
      ensures Good(Value()) && keys.Keys == old(keys.Keys) && old(log) <= log && Kept(old(keys), keys)
      ensures ok ==> forall id :: id in unaudited ==> id in keys && keys[id].audited
      ensures AuditsWell(f) ==> ok
    {
      for i := 0 to |unaudited|
        invariant Good(Value()) && keys.Keys == old(keys.Keys) && old(log) <= log && Kept(old(keys), keys)
        invariant forall k :: 0 <= k < i ==> unaudited[k] in keys && keys[unaudited[k]].audited
      {
        var id := unaudited[i];
        assert id in unaudited && id in old(keys);
        ghost var before := keys;
        var audited := AuditBootstrap(id, keys[id].recovery, f.log(i), f.flag(i));
        KeptIsTransitive(old(keys), before, keys);
        forall k | 0 <= k < i ensures unaudited[k] in keys && keys[unaudited[k]].audited {
          assert unaudited[k] in before && before[unaudited[k]].audited;
        }
        if !audited {
          return false;
        }
      }
      return true;
    }

    /** The key every starter without a file tries to insert; the file itself is MintedFile's. */
    method MintBootstrapKey(recovery: bool, f: Fortune) returns (created: bool, ok: bool)
      modifies this`keys
      ensures keys == if f.writesTemp && MINTED_ID !in old(keys) && Reaches(f.insert) then old(keys)[MINTED_ID := Key(true, true, false, recovery)]
                      else old(keys)
      ensures created ==> ok && MINTED_ID !in old(keys) && MINTED_ID in keys
      ensures Faultless(f) ==> ok && (created <==> MINTED_ID !in old(keys))
      ensures ok && !created ==> MINTED_ID in old(keys)
    {
      if !f.writesTemp {
        return false, false;
      }
      created, ok := InsertKey(MINTED_ID, Key(true, true, false, recovery), f.insert);
      if created && !f.renames {
        return false, false;
      }
    }

    /** Without an operator key in the store: adopt the supplied key, or mint one. */
    method InsertOperator(file: KeyFile, recovery: bool, f: Fortune) returns (id: Id, created: bool, ok: bool)
      requires Good(Value()) && !SomeOperator(keys) && !file.Unusable?
      modifies this`keys
      ensures Good(Value())
      ensures id == if file.Holds? then file.id else MINTED_ID
      ensures keys == old(keys) || (id !in old(keys) && keys == old(keys)[id := Key(true, true, false, recovery)])
      ensures created ==> ok && id !in old(keys) && id in keys
      ensures ok ==> created
      ensures Faultless(f) ==> (created <==> if file.Holds? then file.id !in old(keys) else bolt)
    {
      assert forall x :: x in keys ==> KeyGood(log, x, keys[x]) && !keys[x].operator && x != MINTED_ID;
      if file.Holds? {
        id := file.id;
        created, ok := InsertKey(id, Key(true, true, false, recovery), f.insert);
        if ok && !created {
          ok := f.looks && keys[id].operator;
        }
      } else if !bolt {
        return MINTED_ID, false, false;
      } else {
        id := MINTED_ID;
        created, ok := MintBootstrapKey(recovery, f);
      }
      assert forall x :: x in keys ==> KeyGood(log, x, keys[x]);
    }

    method CreateOperator(file: KeyFile, recovery: bool, f: Fortune) returns (ok: bool)
      requires Good(Value()) && !SomeOperator(keys) && !file.Unusable?
      modifies this`keys, this`log
      ensures Good(Value())
      ensures ok ==> SomeOperator(keys) && forall id :: id in keys && keys[id].bootstrap ==> keys[id].audited
      ensures Kept(old(keys), keys)
      ensures forall id :: id in keys && id !in old(keys) ==>
                keys[id] == Key(true, true, keys[id].audited, recovery) && id == if file.Holds? then file.id else MINTED_ID
      ensures Faultless(f) && AuditsWell(f) ==> (ok <==> if file.Holds? then file.id !in old(keys) else bolt)
      ensures ok ==> var id := if file.Holds? then file.id else MINTED_ID;
                     log == old(log) + [if recovery then KeyRecovered(id) else KeyCreated(id)] && id in keys && id !in old(keys)
    {
      assert forall x :: x in keys ==> KeyGood(log, x, keys[x]) && !keys[x].bootstrap;
      var id, created, inserted := InsertOperator(file, recovery, f);
      if !inserted || !created || !f.counts {
        return false;
      }
      ghost var before := keys;
      ok := AuditBootstrap(id, recovery, f.log(0), f.flag(0));
      assert Kept(before, keys);
      assert keys[id].operator;
    }

    /** `order` is the store's listing of the keys. */
    method BootstrapKey(file: KeyFile, order: seq<Id>, f: Fortune) returns (ok: bool)
      requires Good(Value()) && forall id :: id in order <==> id in keys
      modifies this`keys, this`log
      ensures Good(Value())
      ensures ok ==> SomeOperator(keys)
      ensures ok ==> forall id :: id in keys && keys[id].bootstrap ==> keys[id].audited
      ensures old(SomeOperator(keys)) ==> keys.Keys == old(keys.Keys)
      ensures Kept(old(keys), keys)
      ensures forall id :: id in keys && id !in old(keys) ==>
                keys[id] == Key(true, true, keys[id].audited, old(keys) != map[]) && id == if file.Holds? then file.id else MINTED_ID
      ensures Faultless(f) && AuditsWell(f) ==>
                (ok <==> !file.Unusable? && (old(SomeOperator(keys)) || (if file.Holds? then file.id !in old(keys) else bolt)))
      ensures ok && !old(SomeOperator(keys)) ==>
                var id := if file.Holds? then file.id else MINTED_ID;
                log == old(log) + [if old(keys) == map[] then KeyCreated(id) else KeyRecovered(id)]
    {
      if file.Unusable? || !f.reconciles || !f.scans {
        return false;
      }
      var anyKey, operatorExists, unaudited := ScanKeys(order);
      if operatorExists {
        ghost var id :| id in keys && keys[id].operator;
        ok := AuditAll(unaudited, f);
        assert keys[id].operator;
        if (file.Holds? && !f.looks) || (bolt && !f.recovers) {
          ok := false;
        }
        return;
      }
      ok := CreateOperator(file, anyKey, f);
    }
  }
}
