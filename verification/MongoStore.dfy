/** The optimistic implementation: an update reads a versioned document, computes, and
    writes back only if the same document is still at the same version, else it retries. */
module MongoStore {
  import opened Common
  import opened StoreContract

  const UPDATE_MAX_ATTEMPTS: nat := 128

  datatype Doc = Doc(id: nat, ver: nat, data: Data)

  datatype Commit = Commit(who: Pid, key: Key)

  /** `tried` counts failed attempts; `since` and `seen` are positions in the commit log,
      at the invocation and at the read of the running attempt. */
  datatype Flight =
    | Start(op: Op, tried: nat, since: nat)
    | Replacing(op: Op, tried: nat, since: nat, seen: nat, doc: Doc, out: Data)
    | Inserting(op: Op, tried: nat, since: nat, seen: nat, out: Data)
    | Replied(op: Op, ret: Ret, since: nat)

  datatype Db = Db(docs: map<Key, Doc>, nextId: nat, log: seq<Commit>, flights: map<Pid, Flight>)

  datatype Step =
    | Call(p: Pid, op: Op)
    | FindOne(p: Pid, world: nat)      // read the document and run the update function
    | SaveDoc(p: Pid, heard: bool)     // `heard`: the reply reached the caller
    | CreateDoc(p: Pid, heard: bool)
    | OneShot(p: Pid, heard: bool)     // operations that are a single database command
    | OutOfAttempts(p: Pid)
    | Fail(p: Pid)                     // an error, or a cancelled context, before any effect
    | Reply(p: Pid)
    | Die(p: Pid)

  predicate InFlight(s: Db, p: Pid) {
    p in s.flights && !s.flights[p].Replied?
  }

  predicate Enabled(s: Db, st: Step) {
    match st
    case Call(p, op) => p !in s.flights
    case FindOne(p, world) =>
      p in s.flights && s.flights[p].Start? && s.flights[p].op.Update? && s.flights[p].tried < UPDATE_MAX_ATTEMPTS
    case SaveDoc(p, heard) => p in s.flights && s.flights[p].Replacing?
    case CreateDoc(p, heard) => p in s.flights && s.flights[p].Inserting?
    case OneShot(p, heard) => p in s.flights && s.flights[p].Start? && !s.flights[p].op.Update?
    case OutOfAttempts(p) =>
      p in s.flights && s.flights[p].Start? && s.flights[p].op.Update? && s.flights[p].tried >= UPDATE_MAX_ATTEMPTS
    case Fail(p) => InFlight(s, p)
    case Reply(p) => p in s.flights && s.flights[p].Replied?
    case Die(p) => p in s.flights
  }

  function Goto(s: Db, p: Pid, f: Flight): Db {
    s.(flights := s.flights[p := f])
  }

  function Answer(s: Db, p: Pid, ret: Ret): Db
    requires p in s.flights
  {
    Goto(s, p, Replied(s.flights[p].op, ret, s.flights[p].since))
  }

  function Store(s: Db, p: Pid, k: Key, doc: Doc): Db {
    s.(docs := s.docs[k := doc], log := s.log + [Commit(p, k)])
  }

  function Remove(s: Db, p: Pid, k: Key): Db {
    if k in s.docs then s.(docs := s.docs - {k}, log := s.log + [Commit(p, k)]) else s
  }

  function Insert(s: Db, p: Pid, k: Key, data: Data): Db {
    Store(s, p, k, Doc(s.nextId, 0, data)).(nextId := s.nextId + 1)
  }

  function RunFn(s: Db, p: Pid, world: nat): Db
    requires p in s.flights && s.flights[p].Start? && s.flights[p].op.Update?
  {
    var f := s.flights[p];
    var Update(k, create, fn) := f.op;
    if k !in s.docs && !create then Answer(s, p, NotFound)
    else if k !in s.docs then
      match fn(None, world)
      case Refuse(error) => Answer(s, p, Aborted(error))
      case Replace(out) => Goto(s, p, Inserting(f.op, f.tried, f.since, |s.log|, out))
    else
      match fn(Some(s.docs[k].data), world)
      case Refuse(error) => Answer(s, p, Aborted(error))
      case Replace(out) => Goto(s, p, Replacing(f.op, f.tried, f.since, |s.log|, s.docs[k], out))
  }

  function Retry(s: Db, p: Pid): Db
    requires InFlight(s, p)
  {
    var f := s.flights[p];
    Goto(s, p, Start(f.op, f.tried + 1, f.since))
  }

  function Single(s: Db, p: Pid, heard: bool): Db
    requires p in s.flights && s.flights[p].Start? && !s.flights[p].op.Update?
  {
    var op := s.flights[p].op;
    var (s', ret) :=
      match op
      case PutIfAbsent(k, data) => if k in s.docs then (s, Created(false)) else (Insert(s, p, k, data), Created(true))
      case Take(k) => if k in s.docs then (Remove(s, p, k), Found(s.docs[k].data)) else (s, NotFound)
      case Delete(k) => (Remove(s, p, k), Done)
      case Get(k) => (s, if k in s.docs then Found(s.docs[k].data) else NotFound)
      case Update(_, _, _) => (s, Fault);
    Answer(s', p, if heard then ret else Fault)
  }

  function Apply(s: Db, st: Step): Db
    requires Enabled(s, st)
  {
    match st
    case Call(p, op) => Goto(s, p, Start(op, 0, |s.log|))
    case FindOne(p, world) => RunFn(s, p, world)
    case SaveDoc(p, heard) =>
      var f := s.flights[p];
      var k := f.op.key;
      if k in s.docs && s.docs[k].id == f.doc.id && s.docs[k].ver == f.doc.ver then
        Answer(Store(s, p, k, Doc(f.doc.id, f.doc.ver + 1, f.out)), p, if heard then Done else Fault)
      else Retry(s, p)
    case CreateDoc(p, heard) =>
      var f := s.flights[p];
      if f.op.key in s.docs then Retry(s, p)
      else Answer(Insert(s, p, f.op.key, f.out), p, if heard then Done else Fault)
    case OneShot(p, heard) => Single(s, p, heard)
    case OutOfAttempts(p) => Answer(s, p, GaveUp)
    case Fail(p) => Answer(s, p, Fault)
    case Reply(p) => s.(flights := s.flights - {p})
    case Die(p) => s.(flights := s.flights - {p})
  }

  predicate Init(s: Db) {
    s.flights == map[] && s.log == [] && forall k :: k in s.docs ==> s.docs[k].id < s.nextId
  }

  ghost predicate Behaviour(tr: seq<Db>, steps: seq<Step>) {
    && |tr| == |steps| + 1
    && forall i :: 0 <= i < |steps| ==> Enabled(tr[i], steps[i]) && tr[i + 1] == Apply(tr[i], steps[i])
  }

  // ---------- invariant ----------

  /** Commits on `k` by writers other than `p`, from position `from` of the log on. */
  function Others(log: seq<Commit>, from: nat, k: Key, p: Pid): nat
    decreases |log|
  {
    if |log| <= from then 0
    else
      var last := log[|log| - 1];
      Others(log[..|log| - 1], from, k, p) + if last.key == k && last.who != p then 1 else 0
  }

  ghost predicate Sound(s: Db, p: Pid, f: Flight) {
    && f.since <= |s.log|
    && match f
       case Start(op, tried, since) =>
         if op.Update? then tried <= Others(s.log, since, op.key, p) else tried == 0
       case Replacing(op, tried, since, seen, doc, out) =>
         && op.Update? && since <= seen <= |s.log| && tried < UPDATE_MAX_ATTEMPTS
         && tried + Others(s.log, seen, op.key, p) <= Others(s.log, since, op.key, p)
         && (exists world: nat :: op.fn(Some(doc.data), world) == Replace(out))
         && doc.id < s.nextId
         && (op.key in s.docs && s.docs[op.key].id == doc.id ==>
               doc.ver <= s.docs[op.key].ver && (doc.ver == s.docs[op.key].ver ==> doc == s.docs[op.key]))
         && (Others(s.log, seen, op.key, p) == 0 ==> op.key in s.docs && s.docs[op.key] == doc)
       case Inserting(op, tried, since, seen, out) =>
         && op.Update? && op.create && since <= seen <= |s.log| && tried < UPDATE_MAX_ATTEMPTS
         && tried + Others(s.log, seen, op.key, p) <= Others(s.log, since, op.key, p)
         && (exists world: nat :: op.fn(None, world) == Replace(out))
         && (Others(s.log, seen, op.key, p) == 0 ==> op.key !in s.docs)
       case Replied(op, ret, since) =>
         ret.GaveUp? ==> op.Update? && Others(s.log, since, op.key, p) >= UPDATE_MAX_ATTEMPTS
  }

  ghost predicate Inv(s: Db) {
    && (forall k :: k in s.docs ==> s.docs[k].id < s.nextId)
    && (forall p :: p in s.flights ==> Sound(s, p, s.flights[p]))
  }

  lemma OneMoreCommit(log: seq<Commit>, e: Commit, from: nat, k: Key, p: Pid)
    ensures from <= |log| ==> Others(log + [e], from, k, p) == Others(log, from, k, p) + if e.key == k && e.who != p then 1 else 0
    ensures Others(log, |log|, k, p) == 0
  {
    assert (log + [e])[..|log|] == log;
  }

  /** A step by `p` leaves the documents alone, or logs one commit to the key it changes. */
  ghost predicate Effect(s: Db, s': Db, p: Pid) {
    || (s'.docs == s.docs && s'.nextId == s.nextId && s'.log == s.log)
    || exists k :: Writes(s, s', p, k)
  }

  ghost predicate Writes(s: Db, s': Db, p: Pid, k: Key) {
    && s'.log == s.log + [Commit(p, k)]
    && s.nextId <= s'.nextId
    && (forall x :: x != k ==> (x in s'.docs <==> x in s.docs) && (x in s.docs ==> s'.docs[x] == s.docs[x]))
    && (k in s'.docs ==>
          || (s'.docs[k].id == s.nextId < s'.nextId)
          || (k in s.docs && s'.docs[k].id == s.docs[k].id && s'.docs[k].ver == s.docs[k].ver + 1))
  }

  lemma StepHasEffect(s: Db, st: Step)
    requires Inv(s) && Enabled(s, st)
    ensures Effect(s, Apply(s, st), st.p)
    ensures forall q :: q != st.p ==> (q in Apply(s, st).flights <==> q in s.flights)
                                      && (q in s.flights ==> Apply(s, st).flights[q] == s.flights[q])
  {
    if st.SaveDoc? || st.CreateDoc? || st.OneShot? {
      var k := s.flights[st.p].op.key;
      assert Apply(s, st).log != s.log ==> Writes(s, Apply(s, st), st.p, k);
    }
  }

  lemma WriteLeavesSound(s: Db, s': Db, p: Pid, k: Key, q: Pid, f: Flight)
    requires Writes(s, s', p, k) && p != q && Sound(s, q, f)
    ensures Sound(s', q, f)
  {
    OneMoreCommit(s.log, Commit(p, k), f.since, f.op.key, q);
    if f.Replacing? || f.Inserting? {
      OneMoreCommit(s.log, Commit(p, k), f.seen, f.op.key, q);
    }
  }

  lemma ReaderStaysSound(s: Db, st: Step)
    requires Inv(s) && Enabled(s, st) && st.FindOne?
    ensures Sound(Apply(s, st), st.p, Apply(s, st).flights[st.p])
  {
    var f := s.flights[st.p];
    assert Sound(s, st.p, f);
    OneMoreCommit(s.log, Commit(st.p, f.op.key), 0, f.op.key, st.p);
  }

  lemma WriterStaysSound(s: Db, st: Step)
    requires Inv(s) && Enabled(s, st) && (st.SaveDoc? || st.CreateDoc?)
    ensures Sound(Apply(s, st), st.p, Apply(s, st).flights[st.p])
  {
    assert Sound(s, st.p, s.flights[st.p]);
  }

  lemma MoverStaysSound(s: Db, st: Step)
    requires Inv(s) && Enabled(s, st)
    ensures st.p in Apply(s, st).flights ==> Sound(Apply(s, st), st.p, Apply(s, st).flights[st.p])
  {
    match st
    case FindOne(_, _) => ReaderStaysSound(s, st);
    case SaveDoc(_, _) => WriterStaysSound(s, st);
    case CreateDoc(_, _) => WriterStaysSound(s, st);
    case Call(_, _) =>
    case OneShot(_, _) =>
    case OutOfAttempts(p) => assert Sound(s, p, s.flights[p]);
    case Fail(p) => assert Sound(s, p, s.flights[p]);
    case Reply(_) =>
    case Die(_) =>
  }

  lemma StepKeepsInv(s: Db, st: Step)
    requires Inv(s) && Enabled(s, st)
    ensures Inv(Apply(s, st))
  {
    var s' := Apply(s, st);
    StepHasEffect(s, st);
    forall q | q in s'.flights ensures Sound(s', q, s'.flights[q]) {
      if q == st.p {
        MoverStaysSound(s, st);
      } else if s'.log != s.log {
        var k :| Writes(s, s', st.p, k);
        WriteLeavesSound(s, s', st.p, k, q, s.flights[q]);
      }
    }
  }

  lemma {:induction false} BehaviourKeepsInv(tr: seq<Db>, steps: seq<Step>, i: nat)
    requires Behaviour(tr, steps) && Init(tr[0]) && i < |tr|
    ensures Inv(tr[i])
  {
    if i > 0 {
      BehaviourKeepsInv(tr, steps, i - 1);
      StepKeepsInv(tr[i - 1], steps[i - 1]);
    }
  }

  /** Giving up after 128 attempts means that at least 128 commits by other writers hit
      the same key within the call. */
  lemma GivingUpNeedsConflicts(tr: seq<Db>, steps: seq<Step>, i: nat, p: Pid)
    requires Behaviour(tr, steps) && Init(tr[0]) && i < |tr|
    requires p in tr[i].flights && tr[i].flights[p].Replied? && tr[i].flights[p].ret == GaveUp
    ensures tr[i].flights[p].op.Update?
    ensures Others(tr[i].log, tr[i].flights[p].since, tr[i].flights[p].op.key, p) >= 128
  {
    BehaviourKeepsInv(tr, steps, i);
    assert Sound(tr[i], p, tr[i].flights[p]);
  }

  /** A failed attempt is never counted without a commit of its own: at any moment of an
      update, the attempts lost so far are at most the other writers' commits to its key. */
  lemma EachRetryHasItsCommit(tr: seq<Db>, steps: seq<Step>, i: nat, p: Pid)
    requires Behaviour(tr, steps) && Init(tr[0]) && i < |tr|
    requires InFlight(tr[i], p) && tr[i].flights[p].op.Update?
    ensures tr[i].flights[p].tried <= Others(tr[i].log, tr[i].flights[p].since, tr[i].flights[p].op.key, p)
  {
    BehaviourKeepsInv(tr, steps, i);
    assert Sound(tr[i], p, tr[i].flights[p]);
  }

  // ---------- refinement of the atomic store ----------

  function Contents(s: Db): map<Key, Data> {
    map k | k in s.docs :: s.docs[k].data
  }

  function Seen(f: Flight): StoreContract.Call {
    if f.Replied? then Answered(f.op, f.ret) else Pending(f.op)
  }

  function Abs(s: Db): Atomic {
    Atomic(Contents(s), map p | p in s.flights :: Seen(s.flights[p]))
  }

  /** The atomic step a database step amounts to, if any: an operation acts at the
      database step that settles its reply. */
  function Lin(s: Db, st: Step): seq<AtomicStep>
    requires Enabled(s, st)
  {
    var s' := Apply(s, st);
    match st
    case Call(p, op) => [Invoke(p, op)]
    case Reply(p) => [Return(p)]
    case Die(p) => [Crash(p)]
    case _ =>
      if st.p in s'.flights && s'.flights[st.p].Replied? then [Act(st.p, Contents(s'), s'.flights[st.p].ret)] else []
  }

  function Happened(s: Db, st: Step): seq<Event>
    requires Enabled(s, st)
  {
    match st
    case Call(p, op) => [Invoked(p, op)]
    case Reply(p) => [Returned(p, s.flights[p].ret)]
    case Die(p) => [Crashed(p)]
    case _ => []
  }

  lemma SettledUpdateActs(s: Db, st: Step)
    requires Inv(s) && Enabled(s, st) && (st.SaveDoc? || st.CreateDoc?)
    requires Apply(s, st).flights[st.p].Replied?
    ensures Succeeds(s.flights[st.p].op, Contents(s), Contents(Apply(s, st)), Done)
  {
    var f := s.flights[st.p];
    var k := f.op.key;
    assert Sound(s, st.p, f);
    assert Contents(Apply(s, st)) == Contents(s)[k := f.out];
    if st.SaveDoc? {
      assert Lookup(Contents(s), k) == Some(f.doc.data);
      var world: nat :| f.op.fn(Some(f.doc.data), world) == Replace(f.out);
      assert f.op.fn(Lookup(Contents(s), k), world) == Replace(f.out);
    } else {
      assert Lookup(Contents(s), k) == None;
      var world: nat :| f.op.fn(None, world) == Replace(f.out);
      assert f.op.fn(Lookup(Contents(s), k), world) == Replace(f.out);
    }
  }

  lemma SingleCommandActs(s: Db, st: Step)
    requires Inv(s) && Enabled(s, st) && st.OneShot?
    ensures Acts(s.flights[st.p].op, Contents(s), Contents(Apply(s, st)), Apply(s, st).flights[st.p].ret)
  {
    var op := s.flights[st.p].op;
    var s' := Apply(s, st);
    match op
    case PutIfAbsent(k, data) =>
      assert Contents(s') == if k in s.docs then Contents(s) else Contents(s)[k := data];
      assert Succeeds(op, Contents(s), Contents(s'), Created(k !in Contents(s)));
    case Take(k) =>
      assert Contents(s') == Contents(s) - {k};
      assert k in s.docs ==> Succeeds(op, Contents(s), Contents(s'), Found(Contents(s)[k]));
    case Delete(k) =>
      assert Contents(s') == Contents(s) - {k};
      assert Succeeds(op, Contents(s), Contents(s'), Done);
    case Get(k) =>
    case Update(_, _, _) =>
  }

  lemma ReadSettlesOnly(s: Db, st: Step)
    requires Inv(s) && Enabled(s, st) && st.FindOne? && Apply(s, st).flights[st.p].Replied?
    ensures Acts(s.flights[st.p].op, Contents(s), Contents(Apply(s, st)), Apply(s, st).flights[st.p].ret)
  {
    var op := s.flights[st.p].op;
    if Apply(s, st).flights[st.p].ret.Aborted? {
      assert Lookup(Contents(s), op.key) == if op.key in s.docs then Some(s.docs[op.key].data) else None;
      assert op.fn(Lookup(Contents(s), op.key), st.world).Refuse?;
    }
  }

  predicate Heard(st: Step) {
    (st.SaveDoc? || st.CreateDoc? || st.OneShot?) ==> st.heard
  }

  /** A call is answered with a fault exactly if something failed, or the database's reply did
      not arrive; and with giving up exactly when it is out of attempts. */
  lemma FaultsNeedAFailure(s: Db, st: Step)
    requires Enabled(s, st) && InFlight(s, st.p) && st.p in Apply(s, st).flights && Apply(s, st).flights[st.p].Replied?
    ensures Apply(s, st).flights[st.p].ret.Fault? <==> st.Fail? || !Heard(st)
    ensures Apply(s, st).flights[st.p].ret.GaveUp? <==> st.OutOfAttempts?
  {
  }

  lemma SettlingStepActs(s: Db, st: Step)
    requires Inv(s) && Enabled(s, st) && Lin(s, st) != [] && Lin(s, st)[0].Act?
    ensures Acts(s.flights[st.p].op, Contents(s), Contents(Apply(s, st)), Apply(s, st).flights[st.p].ret)
    ensures InFlight(s, st.p) && Apply(s, st).flights[st.p].op == s.flights[st.p].op
  {
    match st
    case SaveDoc(_, _) => SettledUpdateActs(s, st);
    case CreateDoc(_, _) => SettledUpdateActs(s, st);
    case OneShot(_, _) => SingleCommandActs(s, st);
    case FindOne(_, _) => ReadSettlesOnly(s, st);
    case OutOfAttempts(_) =>
    case Fail(_) =>
  }

  lemma QuietStepIsInvisible(s: Db, st: Step)
    requires Inv(s) && Enabled(s, st) && Lin(s, st) == []
    ensures Abs(Apply(s, st)) == Abs(s) && Happened(s, st) == []
  {
    var s' := Apply(s, st);
    assert s' == Goto(s, st.p, s'.flights[st.p]);
    assert Seen(s'.flights[st.p]) == Seen(s.flights[st.p]);
    assert Abs(s').calls == Abs(s).calls;
  }

  lemma AnswersFollow(s: Db, s': Db, p: Pid, ret: Ret)
    requires InFlight(s, p) && p in s'.flights && s'.flights == s.flights[p := s'.flights[p]]
    requires s'.flights[p].Replied? && s'.flights[p].ret == ret && s'.flights[p].op == s.flights[p].op
    ensures p in Abs(s).calls && Abs(s).calls[p].Pending?
    ensures Abs(s').calls == Abs(s).calls[p := Answered(Abs(s).calls[p].op, ret)]
  {
  }

  lemma SettlingKeepsOtherFlights(s: Db, st: Step)
    requires Enabled(s, st) && Lin(s, st) != [] && Lin(s, st)[0].Act?
    ensures Apply(s, st).flights == s.flights[st.p := Apply(s, st).flights[st.p]]
  {
  }

  lemma VisibleStepFollows(s: Db, st: Step)
    requires Enabled(s, st) && (st.Call? || st.Reply? || st.Die?)
    ensures AtomicEnabled(Abs(s), Lin(s, st)[0]) && Abs(Apply(s, st)) == AtomicApply(Abs(s), Lin(s, st)[0])
  {
    var s' := Apply(s, st);
    assert Contents(s') == Contents(s);
    assert Abs(s').calls == AtomicApply(Abs(s), Lin(s, st)[0]).calls;
  }

  /** One database step is one atomic step, or none that anyone can see. */
  lemma StepSimulates(s: Db, st: Step)
    requires Inv(s) && Enabled(s, st)
    ensures Lin(s, st) == [] ==> Abs(Apply(s, st)) == Abs(s)
    ensures Lin(s, st) != [] ==> AtomicEnabled(Abs(s), Lin(s, st)[0]) && Abs(Apply(s, st)) == AtomicApply(Abs(s), Lin(s, st)[0])
    ensures Happened(s, st) == if Lin(s, st) == [] then [] else AtomicEvent(Abs(s), Lin(s, st)[0])
  {
    if Lin(s, st) == [] {
      QuietStepIsInvisible(s, st);
    } else if Lin(s, st)[0].Act? {
      SettlingStepActs(s, st);
      SettlingKeepsOtherFlights(s, st);
      AnswersFollow(s, Apply(s, st), st.p, Lin(s, st)[0].ret);
    } else {
      VisibleStepFollows(s, st);
    }
  }

  ghost function History(tr: seq<Db>, steps: seq<Step>): seq<Event>
    requires Behaviour(tr, steps)
    decreases |steps|
  {
    if steps == [] then []
    else
      var n := |steps| - 1;
      History(tr[..n + 1], steps[..n]) + Happened(tr[n], steps[n])
  }

  lemma ExtendAtomic(atr: seq<Atomic>, asteps: seq<AtomicStep>, st: AtomicStep)
    requires AtomicBehaviour(atr, asteps) && AtomicEnabled(atr[|asteps|], st)
    ensures AtomicBehaviour(atr + [AtomicApply(atr[|asteps|], st)], asteps + [st])
    ensures AtomicHistory(atr + [AtomicApply(atr[|asteps|], st)], asteps + [st])
            == AtomicHistory(atr, asteps) + AtomicEvent(atr[|asteps|], st)
  {
    var longer := atr + [AtomicApply(atr[|asteps|], st)];
    assert longer[..|asteps| + 1] == atr;
    assert (asteps + [st])[..|asteps|] == asteps;
  }

  lemma ShorterBehaviour(tr: seq<Db>, steps: seq<Step>)
    requires Behaviour(tr, steps) && steps != []
    ensures Behaviour(tr[..|steps|], steps[..|steps| - 1])
  {
  }

  /** Every concurrent run of the optimistic store looks, to its callers, like a run of
      the atomic store: the same calls, replies and crashes in the same order, ending in the
      same documents, each call acting in one instant between its invocation and its reply. */
  lemma {:induction false} Linearizable(tr: seq<Db>, steps: seq<Step>) returns (atr: seq<Atomic>, asteps: seq<AtomicStep>)
    requires Behaviour(tr, steps) && Init(tr[0])
    ensures AtomicBehaviour(atr, asteps)
    ensures atr[0] == Abs(tr[0]) && atr[|asteps|] == Abs(tr[|steps|])
    ensures AtomicHistory(atr, asteps) == History(tr, steps)
    decreases |steps|
  {
    if steps == [] {
      atr, asteps := [Abs(tr[0])], [];
    } else {
      var n := |steps| - 1;
      ShorterBehaviour(tr, steps);
      atr, asteps := Linearizable(tr[..n + 1], steps[..n]);
      BehaviourKeepsInv(tr, steps, n);
      StepSimulates(tr[n], steps[n]);
      var lin := Lin(tr[n], steps[n]);
      if lin != [] {
        ExtendAtomic(atr, asteps, lin[0]);
        atr, asteps := atr + [AtomicApply(atr[|asteps|], lin[0])], asteps + [lin[0]];
      }
    }
  }

  /** No update is lost: in every run of the optimistic store in which nothing shrinks the
      document, it grows at least once for every growing update of it that is reported done. */
  lemma EveryReportedUpdateCounts(tr: seq<Db>, steps: seq<Step>, k: Key, size: Measure)
    requires Behaviour(tr, steps) && Init(tr[0]) && OnlyGrow(History(tr, steps), k, size)
    ensures size(Lookup(Contents(tr[|steps|]), k)) >= size(Lookup(Contents(tr[0]), k)) + Reported(History(tr, steps), k, size)
  {
    var atr, asteps := Linearizable(tr, steps);
    assert Abs(tr[0]).calls == map[];
    ReportedUpdatesCount(atr, asteps, k, size);
  }

  // ---------- the retry loop ----------

  /** What another writer does to the document between a read and the write back. */
  datatype Rival = Idle | Overwrite(data: Data) | Removal

  /** What the database does to an attempt: a cancelled context, a failing read, or a write
      that is reported as failed, with or without effect. */
  datatype Trouble = Fine | Cancelled | ReadFails | WriteFails(reached: bool)

  /** One attempt: what the update function sees besides the document, and what befalls it. */
  datatype Turn = Turn(world: nat, rival: Rival, trouble: Trouble)

  predicate Conflicts(current: Option<Data>, r: Rival) {
    r.Overwrite? || (r.Removal? && current.Some?)
  }

  function After(current: Option<Data>, r: Rival): Option<Data> {
    match r
    case Idle => current
    case Overwrite(data) => Some(data)
    case Removal => None
  }

  /** The reply to an update, and the document it leaves, by what befalls its attempts. */
  function Fate(current: Option<Data>, create: bool, fn: Fn, turns: seq<Turn>): (Ret, Option<Data>)
    decreases |turns|
  {
    if turns == [] then (GaveUp, current)
    else if turns[0].trouble.Cancelled? || turns[0].trouble.ReadFails? then (Fault, current)
    else if current.None? && !create then (NotFound, current)
    else
      match fn(current, turns[0].world)
      case Refuse(error) => (Aborted(error), current)
      case Replace(out) =>
        var lost := Conflicts(current, turns[0].rival);
        if turns[0].trouble.WriteFails? then
          (Fault, if !lost && turns[0].trouble.reached then Some(out) else After(current, turns[0].rival))
        else if lost then Fate(After(current, turns[0].rival), create, fn, turns[1..])
        else (Done, Some(out))
  }

  /** The document as the rivals of the turns leave it. */
  function AfterAll(current: Option<Data>, turns: seq<Turn>): Option<Data>
    decreases |turns|
  {
    if turns == [] then current else AfterAll(After(current, turns[0].rival), turns[1..])
  }

  /** Turn `n` succeeds, all earlier ones having lost to a rival. */
  predicate SucceedsAt(current: Option<Data>, fn: Fn, turns: seq<Turn>, n: nat) {
    && n < |turns|
    && !Conflicts(AfterAll(current, turns[..n]), turns[n].rival)
    && (forall i :: 0 <= i < n ==> Conflicts(AfterAll(current, turns[..i]), turns[i].rival))
    && fn(AfterAll(current, turns[..n]), turns[n].world).Replace?
  }

  /** A successful update applies its function to what the last conflicting rival left:
      no rival's write is overwritten unread. */
  lemma {:induction false} DoneAppliesToLatest(current: Option<Data>, create: bool, fn: Fn, turns: seq<Turn>)
    requires Fate(current, create, fn, turns).0 == Done
    ensures exists n :: 0 <= n < |turns| && SucceedsAt(current, fn, turns, n)
              && Fate(current, create, fn, turns).1 == Some(fn(AfterAll(current, turns[..n]), turns[n].world).data)
    decreases |turns|
  {
    assert turns[..0] == [];
    if Conflicts(current, turns[0].rival) {
      var next, rest := After(current, turns[0].rival), turns[1..];
      DoneAppliesToLatest(next, create, fn, rest);
      var n :| 0 <= n < |rest| && SucceedsAt(next, fn, rest, n)
               && Fate(next, create, fn, rest).1 == Some(fn(AfterAll(next, rest[..n]), rest[n].world).data);
      forall i | 0 <= i <= n ensures AfterAll(current, turns[..i + 1]) == AfterAll(next, rest[..i]) {
        assert turns[..i + 1][1..] == rest[..i];
      }
      forall i | 0 <= i < n + 1 ensures Conflicts(AfterAll(current, turns[..i]), turns[i].rival) {
        if i > 0 {
          assert Conflicts(AfterAll(next, rest[..i - 1]), rest[i - 1].rival);
        }
      }
      assert SucceedsAt(current, fn, turns, n + 1);
    } else {
      assert SucceedsAt(current, fn, turns, 0);
    }
  }

  // ---------- when the loop gives which answer ----------

  /** The first `n` turns ran without trouble, the function replaced, and a rival won. */
  predicate LostSoFar(current: Option<Data>, create: bool, fn: Fn, turns: seq<Turn>, n: nat) {
    && n <= |turns|
    && forall i :: 0 <= i < n ==>
         && turns[i].trouble.Fine?
         && (AfterAll(current, turns[..i]).Some? || create)
         && fn(AfterAll(current, turns[..i]), turns[i].world).Replace?
         && Conflicts(AfterAll(current, turns[..i]), turns[i].rival)
  }

  /** Turn `n`, which finds `found`, ends the loop with this answer and this document. */
  predicate TurnEnds(found: Option<Data>, create: bool, fn: Fn, turn: Turn, ret: Ret, doc: Option<Data>) {
    if turn.trouble.Cancelled? || turn.trouble.ReadFails? then ret.Fault? && doc == found
    else if found.None? && !create then ret.NotFound? && doc == found
    else
      match fn(found, turn.world)
      case Refuse(error) => ret == Aborted(error) && doc == found
      case Replace(out) =>
        match turn.trouble
        case WriteFails(reached) =>
          ret.Fault? && doc == if reached && !Conflicts(found, turn.rival) then Some(out) else After(found, turn.rival)
        case _ => ret.Done? && !Conflicts(found, turn.rival) && doc == Some(out)
  }

  /** The loop ends at turn `n`, all earlier ones being lost; or after all of them. */
  predicate EndsAt(current: Option<Data>, create: bool, fn: Fn, turns: seq<Turn>, n: nat, ret: Ret, doc: Option<Data>) {
    && LostSoFar(current, create, fn, turns, n)
    && if n == |turns| then ret.GaveUp? && doc == AfterAll(current, turns)
       else TurnEnds(AfterAll(current, turns[..n]), create, fn, turns[n], ret, doc)
  }

  ghost predicate Ends(current: Option<Data>, create: bool, fn: Fn, turns: seq<Turn>, ret: Ret, doc: Option<Data>) {
    exists n :: EndsAt(current, create, fn, turns, n, ret, doc)
  }

  lemma ShiftedLoss(current: Option<Data>, create: bool, fn: Fn, turns: seq<Turn>, n: nat)
    requires turns != [] && LostSoFar(current, create, fn, turns, 1)
    requires LostSoFar(After(current, turns[0].rival), create, fn, turns[1..], n)
    ensures LostSoFar(current, create, fn, turns, n + 1)
    ensures AfterAll(current, turns[..n + 1]) == AfterAll(After(current, turns[0].rival), turns[1..][..n])
  {
    var next, rest := After(current, turns[0].rival), turns[1..];
    forall i | 0 <= i <= n ensures AfterAll(current, turns[..i + 1]) == AfterAll(next, rest[..i]) {
      assert turns[..i + 1][1..] == rest[..i];
    }
    forall i | 0 <= i < n + 1
      ensures turns[i].trouble.Fine? && (AfterAll(current, turns[..i]).Some? || create)
              && fn(AfterAll(current, turns[..i]), turns[i].world).Replace? && Conflicts(AfterAll(current, turns[..i]), turns[i].rival)
    {
      if i > 0 {
        assert rest[i - 1] == turns[i] && AfterAll(current, turns[..i]) == AfterAll(next, rest[..i - 1]);
      }
    }
  }

  lemma {:induction false} LoopEndsSomewhere(current: Option<Data>, create: bool, fn: Fn, turns: seq<Turn>) returns (n: nat)
    ensures EndsAt(current, create, fn, turns, n, Fate(current, create, fn, turns).0, Fate(current, create, fn, turns).1)
    decreases |turns|
  {
    assert turns[..0] == [] && LostSoFar(current, create, fn, turns, 0);
    if turns != [] && LostSoFar(current, create, fn, turns, 1) {
      var next, rest := After(current, turns[0].rival), turns[1..];
      var m := LoopEndsSomewhere(next, create, fn, rest);
      ShiftedLoss(current, create, fn, turns, m);
      n := m + 1;
      if n == |turns| {
        assert turns[..n] == turns && rest[..m] == rest;
      }
    } else {
      n := 0;
    }
  }

  /** Exactly one turn ends the loop, in exactly one way. */
  lemma LoopEndsOnce(current: Option<Data>, create: bool, fn: Fn, turns: seq<Turn>, n: nat, ret: Ret, doc: Option<Data>,
                     n': nat, ret': Ret, doc': Option<Data>)
    requires EndsAt(current, create, fn, turns, n, ret, doc) && EndsAt(current, create, fn, turns, n', ret', doc')
    ensures n == n' && ret == ret' && doc == doc'
  {
  }

  /** The answer and the document of an update are those of the turn that ends its loop:
      not found, where the document is missing and must not be created; aborted, where the
      function refuses; a fault, at a cancelled context, a failing read or a failing write;
      done, where the write is not lost; and giving up only when all turns were. */
  lemma FateIsThatOfTheLastTurn(current: Option<Data>, create: bool, fn: Fn, turns: seq<Turn>, ret: Ret, doc: Option<Data>)
    ensures Fate(current, create, fn, turns) == (ret, doc) <==> Ends(current, create, fn, turns, ret, doc)
  {
    var m := LoopEndsSomewhere(current, create, fn, turns);
    if n: nat :| EndsAt(current, create, fn, turns, n, ret, doc) {
      var (ret', doc') := Fate(current, create, fn, turns);
      LoopEndsOnce(current, create, fn, turns, n, ret, doc, m, ret', doc');
    }
  }

  lemma FateEnds(current: Option<Data>, create: bool, fn: Fn, turns: seq<Turn>)
    ensures Ends(current, create, fn, turns, Fate(current, create, fn, turns).0, Fate(current, create, fn, turns).1)
    ensures Fate(current, create, fn, turns).0.GaveUp? <==> LostSoFar(current, create, fn, turns, |turns|)
  {
    var n := LoopEndsSomewhere(current, create, fn, turns);
  }

  class Collection {
    var docs: map<Key, Doc>
    var nextId: nat

    ghost predicate Valid()
      reads this
    {
      forall k :: k in docs ==> docs[k].id < nextId
    }

    ghost function Value(): map<Key, Data>
      reads this
    {
      map k | k in docs :: docs[k].data
    }

    constructor ()
      ensures Valid() && Value() == map[]
    {
      docs, nextId := map[], 0;
    }

    /** Fails exactly on an existing key. */
    method Create(k: Key, data: Data) returns (duplicate: bool)
      requires Valid()
      modifies this
      ensures Valid()
      ensures duplicate == (k in old(docs))
      ensures if duplicate then docs == old(docs) else Value() == old(Value())[k := data]
    {
      if k in docs {
        return true;
      }
      docs := docs[k := Doc(nextId, 0, data)];
      nextId := nextId + 1;
      return false;
    }

    /** Writes back only if the same document is still at the same version. */
    method Replace(k: Key, read: Doc, data: Data) returns (conflict: bool)
      requires Valid() && read.id < nextId
      modifies this
      ensures Valid()
      ensures conflict <==> !(k in old(docs) && old(docs)[k].id == read.id && old(docs)[k].ver == read.ver)
      ensures if conflict then docs == old(docs) else Value() == old(Value())[k := data]
    {
      if k in docs && docs[k].id == read.id && docs[k].ver == read.ver {
        docs := docs[k := Doc(read.id, read.ver + 1, data)];
        return false;
      }
      return true;
    }

    method Strike(k: Key, r: Rival)
      requires Valid()
      modifies this
      ensures Valid()
      ensures Lookup(Value(), k) == After(Lookup(old(Value()), k), r)
      ensures forall x :: x != k ==> Lookup(Value(), x) == Lookup(old(Value()), x)
      ensures !Conflicts(Lookup(old(Value()), k), r) ==> docs == old(docs)
      ensures Conflicts(Lookup(old(Value()), k), r) && k in old(docs) && k in docs ==> docs[k].ver > old(docs)[k].ver
      ensures nextId >= old(nextId)
    {
      match r {
        case Idle =>
        case Removal => docs := docs - {k};
        case Overwrite(data) =>
          if k in docs {
            docs := docs[k := Doc(docs[k].id, docs[k].ver + 1, data)];
          } else {
            docs, nextId := docs[k := Doc(nextId, 0, data)], nextId + 1;
          }
      }
    }

    method Update(k: Key, create: bool, fn: Fn, turns: seq<Turn>) returns (ret: Ret)
      requires Valid() && |turns| == UPDATE_MAX_ATTEMPTS
      modifies this
      ensures Valid()
      ensures (ret, Lookup(Value(), k)) == Fate(Lookup(old(Value()), k), create, fn, turns)
      ensures Ends(Lookup(old(Value()), k), create, fn, turns, ret, Lookup(Value(), k))
      ensures ret.GaveUp? <==> LostSoFar(Lookup(old(Value()), k), create, fn, turns, 128)
      ensures forall x :: x != k ==> Lookup(Value(), x) == Lookup(old(Value()), x)
    {
      FateEnds(Lookup(Value(), k), create, fn, turns);
      var attempt := 0;
      while attempt < UPDATE_MAX_ATTEMPTS
        invariant attempt <= UPDATE_MAX_ATTEMPTS && Valid()
        invariant Fate(Lookup(Value(), k), create, fn, turns[attempt..]) == Fate(Lookup(old(Value()), k), create, fn, turns)
        invariant forall x :: x != k ==> Lookup(Value(), x) == Lookup(old(Value()), x)
      {
        var turn := turns[attempt];
        assert turns[attempt..][1..] == turns[attempt + 1..];
        if turn.trouble.Cancelled? || turn.trouble.ReadFails? {
          return Fault;
        }
        if k !in docs {
          if !create {
            return NotFound;
          }
          match fn(None, turn.world) {
            case Refuse(error) => return Aborted(error);
            case Replace(out) =>
              Strike(k, turn.rival);
              if turn.trouble == WriteFails(false) {
                return Fault;
              }
              var duplicate := Create(k, out);
              if turn.trouble.WriteFails? {
                return Fault;
              }
              if !duplicate {
                return Done;
              }
          }
        } else {
          var doc := docs[k];
          match fn(Some(doc.data), turn.world) {
            case Refuse(error) => return Aborted(error);
            case Replace(out) =>
              Strike(k, turn.rival);
              if turn.trouble == WriteFails(false) {
                return Fault;
              }
              var conflict := Replace(k, doc, out);
              if turn.trouble.WriteFails? {
                return Fault;
              }
              if !conflict {
                return Done;
              }
          }
        }
        attempt := attempt + 1;
      }
      return GaveUp;
    }

    /** Storing goes through the same loop, and can only store, give up or fail; if it does
        not store, the document is what other writers have made of it so far. */
    method Put(k: Key, data: Data, turns: seq<Turn>) returns (ret: Ret)
      requires Valid() && |turns| == UPDATE_MAX_ATTEMPTS
      modifies this
      ensures Valid()
      ensures ret == Done || ret == GaveUp || ret == Fault
      ensures ret == Done ==> Lookup(Value(), k) == Some(data)
      ensures ret == GaveUp ==> Lookup(Value(), k) == AfterAll(Lookup(old(Value()), k), turns)
      ensures ret == Fault ==> Lookup(Value(), k) == Some(data) || LeftByRivals(Lookup(old(Value()), k), turns, Lookup(Value(), k))
      ensures forall x :: x != k ==> Lookup(Value(), x) == Lookup(old(Value()), x)
    {
      var op := StoreContract.Put(k, data);
      PutEndsSimply(Lookup(Value(), k), op.fn, data, turns);
      ret := Update(k, true, op.fn, turns);
    }
  }

  /** The document after the rivals of the first turns. */
  predicate LeftByRivals(current: Option<Data>, turns: seq<Turn>, doc: Option<Data>) {
    exists n :: 0 <= n <= |turns| && doc == AfterAll(current, turns[..n])
  }

  lemma LeftByOneMore(current: Option<Data>, turns: seq<Turn>, doc: Option<Data>)
    requires turns != [] && LeftByRivals(After(current, turns[0].rival), turns[1..], doc)
    ensures LeftByRivals(current, turns, doc)
  {
    var n :| 0 <= n < |turns| && doc == AfterAll(After(current, turns[0].rival), turns[1..][..n]);
    assert turns[..n + 1][1..] == turns[1..][..n];
    assert doc == AfterAll(current, turns[..n + 1]);
  }

  lemma {:induction false} PutEndsSimply(current: Option<Data>, fn: Fn, data: Data, turns: seq<Turn>)
    requires forall c, seen :: fn(c, seen) == Replace(data)
    ensures var (ret, doc) := Fate(current, true, fn, turns);
            match ret
            case Done => doc == Some(data)
            case GaveUp => doc == AfterAll(current, turns)
            case Fault => doc == Some(data) || LeftByRivals(current, turns, doc)
            case _ => false
    decreases |turns|
  {
    if turns != [] {
      var next := After(current, turns[0].rival);
      PutEndsSimply(next, fn, data, turns[1..]);
      assert turns[..0] == [] && AfterAll(current, turns[..0]) == current;
      assert AfterAll(next, turns[1..][..0]) == next;
      LeftByOneMore(current, turns, next);
      if LeftByRivals(next, turns[1..], Fate(next, true, fn, turns[1..]).1) {
        LeftByOneMore(current, turns, Fate(next, true, fn, turns[1..]).1);
      }
    }
  }
}
