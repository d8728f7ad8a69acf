/** The store contract: a map from keys to documents on which every call acts in one
    instant between its invocation and its return. */
module StoreContract {
  import opened Common

  type Pid = nat
  type Data = string
  datatype Key = Key(path: string, key: string)

  /** What a caller's update function answers: a replacement, or an error that aborts. */
  datatype FnResult = Replace(data: Data) | Refuse(error: string)

  /** An update function sees the current document and, through the second argument,
      whatever else it consults when it is called: clocks, random bytes, other reads. */
  type Fn = (Option<Data>, nat) -> FnResult

  datatype Op =
    | Update(key: Key, create: bool, fn: Fn)
    | PutIfAbsent(key: Key, data: Data)
    | Take(key: Key)
    | Delete(key: Key)
    | Get(key: Key)

  function Put(key: Key, data: Data): Op {
    Update(key, true, (current, seen) => Replace(data))
  }

  datatype Ret =
    | Done
    | Created(won: bool)
    | Found(data: Data)
    | NotFound
    | Aborted(error: string)
    | GaveUp
    | Fault  // an I/O error: the caller cannot know whether the call took effect

  function Lookup<V>(m: map<Key, V>, k: Key): Option<V> {
    if k in m then Some(m[k]) else None
  }

  /** The effect of a call that succeeds. */
  ghost predicate Succeeds(op: Op, m: map<Key, Data>, m': map<Key, Data>, ret: Ret) {
    match op
    case Update(k, create, fn) =>
      ret.Done? && (k in m || create) && exists seen: nat ::
        fn(Lookup(m, k), seen).Replace? && m' == m[k := fn(Lookup(m, k), seen).data]
    case PutIfAbsent(k, data) =>
      ret == Created(k !in m) && m' == if k in m then m else m[k := data]
    case Take(k) => k in m && ret == Found(m[k]) && m' == m - {k}
    case Delete(k) => ret.Done? && m' == m - {k}
    case Get(k) => k in m && ret == Found(m[k]) && m' == m
  }

  /** Everything a call may do in its instant. */
  ghost predicate Acts(op: Op, m: map<Key, Data>, m': map<Key, Data>, ret: Ret) {
    match ret
    case NotFound => m' == m && op.key !in m && (op.Update? ==> !op.create) && (op.Update? || op.Take? || op.Get?)
    case Aborted(error) =>
      && m' == m && op.Update? && (op.key in m || op.create)
      && exists seen: nat :: op.fn(Lookup(m, op.key), seen) == Refuse(error)
    case GaveUp => m' == m && op.Update?
    case Fault => m' == m || exists answer :: Succeeds(op, m, m', answer)
    case _ => Succeeds(op, m, m', ret)
  }

  // ---------- the atomic store as a machine ----------

  datatype Call = Pending(op: Op) | Answered(op: Op, ret: Ret)
  datatype Atomic = Atomic(m: map<Key, Data>, calls: map<Pid, Call>)

  datatype AtomicStep =
    | Invoke(p: Pid, op: Op)
    | Act(p: Pid, m: map<Key, Data>, ret: Ret)
    | Return(p: Pid)
    | Crash(p: Pid)

  ghost predicate AtomicEnabled(a: Atomic, st: AtomicStep) {
    match st
    case Invoke(p, op) => p !in a.calls
    case Act(p, m, ret) => p in a.calls && a.calls[p].Pending? && Acts(a.calls[p].op, a.m, m, ret)
    case Return(p) => p in a.calls && a.calls[p].Answered?
    case Crash(p) => p in a.calls
  }

  function AtomicApply(a: Atomic, st: AtomicStep): Atomic
    requires st.Act? ==> st.p in a.calls
  {
    match st
    case Invoke(p, op) => a.(calls := a.calls[p := Pending(op)])
    case Act(p, m, ret) => Atomic(m, a.calls[p := Answered(a.calls[p].op, ret)])
    case Return(p) => a.(calls := a.calls - {p})
    case Crash(p) => a.(calls := a.calls - {p})
  }

  ghost predicate AtomicBehaviour(tr: seq<Atomic>, steps: seq<AtomicStep>) {
    && |tr| == |steps| + 1
    && forall i :: 0 <= i < |steps| ==> AtomicEnabled(tr[i], steps[i]) && tr[i + 1] == AtomicApply(tr[i], steps[i])
  }

  /** What callers can observe of a run. */
  datatype Event = Invoked(p: Pid, op: Op) | Returned(p: Pid, ret: Ret) | Crashed(p: Pid)

  function AtomicEvent(a: Atomic, st: AtomicStep): seq<Event>
    requires st.Return? ==> st.p in a.calls && a.calls[st.p].Answered?
  {
    match st
    case Invoke(p, op) => [Invoked(p, op)]
    case Act(_, _, _) => []
    case Return(p) => [Returned(p, a.calls[p].ret)]
    case Crash(p) => [Crashed(p)]
  }

  ghost function AtomicHistory(tr: seq<Atomic>, steps: seq<AtomicStep>): seq<Event>
    requires AtomicBehaviour(tr, steps)
    decreases |steps|
  {
    if steps == [] then []
    else
      var n := |steps| - 1;
      AtomicHistory(tr[..n + 1], steps[..n]) + AtomicEvent(tr[n], steps[n])
  }

  /** Storing without looking is an update, and overwrites. */
  lemma PutOverwrites(key: Key, data: Data, m: map<Key, Data>, m': map<Key, Data>)
    ensures Succeeds(Put(key, data), m, m', Done) <==> m' == m[key := data]
    ensures !Acts(Put(key, data), m, m', NotFound) && forall error :: !Acts(Put(key, data), m, m', Aborted(error))
  {
    var fn := Put(key, data).fn;
    assert forall seen: nat :: fn(Lookup(m, key), seen) == Replace(data);
    if m' == m[key := data] {
      assert fn(Lookup(m, key), 0).Replace? && m' == m[key := fn(Lookup(m, key), 0).data];
    }
  }

  // ---------- no update is lost ----------

  type Measure = Option<Data> -> nat

  ghost predicate NeverShrinks(op: Op, k: Key, size: Measure) {
    op.key == k ==>
      match op
      case Update(_, _, fn) => forall current, seen :: fn(current, seen).Replace? ==> size(Some(fn(current, seen).data)) >= size(current)
      case PutIfAbsent(_, data) => size(Some(data)) >= size(None)
      case Get(_) => true
      case _ => false
  }

  /** Every replacement the update's function gives is larger than what it saw. */
  ghost predicate Grows(op: Op, k: Key, size: Measure) {
    op.key == k && op.Update? && forall current, seen :: op.fn(current, seen).Replace? ==> size(Some(op.fn(current, seen).data)) > size(current)
  }

  /** The calls that run after these events. */
  function Running(events: seq<Event>): map<Pid, Op> {
    if events == [] then map[]
    else
      var before := Running(events[..|events| - 1]);
      match events[|events| - 1]
      case Invoked(p, op) => before[p := op]
      case Returned(p, _) => before - {p}
      case Crashed(p) => before - {p}
  }

  /** How many growing updates of `k` were reported done. */
  ghost function Reported(events: seq<Event>, k: Key, size: Measure): nat {
    if events == [] then 0
    else
      var before, last := events[..|events| - 1], events[|events| - 1];
      Reported(before, k, size)
      + if last.Returned? && last.ret.Done? && last.p in Running(before) && Grows(Running(before)[last.p], k, size) then 1 else 0
  }

  /** Growing updates that have acted and not yet returned. */
  ghost function Outstanding(a: Atomic, k: Key, size: Measure): set<Pid> {
    set p | p in a.calls && a.calls[p].Answered? && a.calls[p].ret.Done? && Grows(a.calls[p].op, k, size)
  }

  ghost predicate OnlyGrow(events: seq<Event>, k: Key, size: Measure) {
    forall i :: 0 <= i < |events| ==> events[i].Invoked? ==> NeverShrinks(events[i].op, k, size)
  }

  lemma ActNeverShrinks(op: Op, k: Key, size: Measure, m: map<Key, Data>, m': map<Key, Data>, ret: Ret)
    requires NeverShrinks(op, k, size) && Acts(op, m, m', ret)
    ensures size(Lookup(m', k)) >= size(Lookup(m, k)) + if ret.Done? && Grows(op, k, size) then 1 else 0
  {
    if ret.Fault? && m' != m {
      var answer :| Succeeds(op, m, m', answer);
      SuccessNeverShrinks(op, k, size, m, m', answer);
    } else if m' != m || ret.Done? {
      SuccessNeverShrinks(op, k, size, m, m', ret);
    }
  }

  lemma SuccessNeverShrinks(op: Op, k: Key, size: Measure, m: map<Key, Data>, m': map<Key, Data>, ret: Ret)
    requires NeverShrinks(op, k, size) && Succeeds(op, m, m', ret)
    ensures size(Lookup(m', k)) >= size(Lookup(m, k)) + if ret.Done? && Grows(op, k, size) then 1 else 0
  {
    if op.Update? {
      var seen: nat :| op.fn(Lookup(m, op.key), seen).Replace? && m' == m[op.key := op.fn(Lookup(m, op.key), seen).data];
      assert op.key == k ==> size(Some(op.fn(Lookup(m, k), seen).data)) >= size(Lookup(m, k));
    }
  }

  /** The machine's calls are those its history says are running. */
  ghost predicate MatchesHistory(a: Atomic, events: seq<Event>) {
    a.calls.Keys == Running(events).Keys && forall p :: p in a.calls ==> a.calls[p].op == Running(events)[p]
  }

  lemma {:induction false} RunningOnlyGrow(events: seq<Event>, k: Key, size: Measure, p: Pid)
    requires OnlyGrow(events, k, size) && p in Running(events)
    ensures NeverShrinks(Running(events)[p], k, size)
    decreases |events|
  {
    var n := |events| - 1;
    if events[n] != Invoked(p, Running(events)[p]) {
      RunningOnlyGrow(events[..n], k, size, p);
    }
  }

  lemma NextMatches(a: Atomic, st: AtomicStep, events: seq<Event>)
    requires AtomicEnabled(a, st) && MatchesHistory(a, events)
    ensures MatchesHistory(AtomicApply(a, st), events + AtomicEvent(a, st))
  {
    var next := events + AtomicEvent(a, st);
    if AtomicEvent(a, st) == [] {
      assert next == events;
    } else {
      assert next[..|next| - 1] == events;
    }
  }

  ghost function Score(a: Atomic, events: seq<Event>, k: Key, size: Measure): nat {
    Reported(events, k, size) + |Outstanding(a, k, size)|
  }

  lemma OutstandingAfter(a: Atomic, st: AtomicStep, k: Key, size: Measure)
    requires AtomicEnabled(a, st)
    ensures var before, after := Outstanding(a, k, size), Outstanding(AtomicApply(a, st), k, size);
            match st
            case Invoke(p, _) => after == before
            case Act(p, _, ret) => after == if ret.Done? && Grows(a.calls[p].op, k, size) then before + {p} else before
            case Return(p) => after == before - {p}
            case Crash(p) => after == before - {p}
  {
  }

  lemma ReportedAfter(a: Atomic, st: AtomicStep, events: seq<Event>, k: Key, size: Measure)
    requires AtomicEnabled(a, st) && MatchesHistory(a, events)
    ensures Reported(events + AtomicEvent(a, st), k, size)
            == Reported(events, k, size) + if st.Return? && st.p in Outstanding(a, k, size) then 1 else 0
  {
    var next := events + AtomicEvent(a, st);
    if AtomicEvent(a, st) == [] {
      assert next == events;
    } else {
      assert next[..|next| - 1] == events;
    }
  }

  lemma ScoreAfter(a: Atomic, st: AtomicStep, events: seq<Event>, k: Key, size: Measure)
    requires AtomicEnabled(a, st) && MatchesHistory(a, events)
    ensures Score(AtomicApply(a, st), events + AtomicEvent(a, st), k, size)
            <= Score(a, events, k, size) + if st.Act? && st.ret.Done? && Grows(a.calls[st.p].op, k, size) then 1 else 0
  {
    OutstandingAfter(a, st, k, size);
    ReportedAfter(a, st, events, k, size);
  }

  lemma {:induction false} ScoreIsCovered(tr: seq<Atomic>, steps: seq<AtomicStep>, k: Key, size: Measure)
    requires AtomicBehaviour(tr, steps) && tr[0].calls == map[] && OnlyGrow(AtomicHistory(tr, steps), k, size)
    ensures MatchesHistory(tr[|steps|], AtomicHistory(tr, steps))
    ensures size(Lookup(tr[|steps|].m, k)) >= size(Lookup(tr[0].m, k)) + Score(tr[|steps|], AtomicHistory(tr, steps), k, size)
    decreases |steps|
  {
    if steps != [] {
      var n := |steps| - 1;
      var a, st, h := tr[n], steps[n], AtomicHistory(tr[..n + 1], steps[..n]);
      assert AtomicHistory(tr, steps) == h + AtomicEvent(a, st);
      assert forall i :: 0 <= i < |h| ==> (h + AtomicEvent(a, st))[i] == h[i];
      ScoreIsCovered(tr[..n + 1], steps[..n], k, size);
      NextMatches(a, st, h);
      ScoreAfter(a, st, h, k, size);
      if st.Act? {
        RunningOnlyGrow(h, k, size, st.p);
        ActNeverShrinks(a.calls[st.p].op, k, size, a.m, st.m, st.ret);
      }
    }
  }

  /** Whatever other calls run beside them, growing updates that are reported done all take
      effect: the document has grown at least once for each. */
  lemma ReportedUpdatesCount(tr: seq<Atomic>, steps: seq<AtomicStep>, k: Key, size: Measure)
    requires AtomicBehaviour(tr, steps) && tr[0].calls == map[] && OnlyGrow(AtomicHistory(tr, steps), k, size)
    ensures size(Lookup(tr[|steps|].m, k)) >= size(Lookup(tr[0].m, k)) + Reported(AtomicHistory(tr, steps), k, size)
  {
    ScoreIsCovered(tr, steps, k, size);
  }
}
