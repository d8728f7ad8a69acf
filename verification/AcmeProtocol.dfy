/** ACME requests interleaved at the granularity of single store operations, by any number
    of processes on any number of replicas, with failing writes and crashes. */
module AcmeProtocol {
  import opened Common
  import opened AcmeObjects

  type Pid = nat

  datatype Proc =
    | Gone
    // creating an order: `authzs` are stored, `challenges` are those of the next one
    | Ordering(order: Order, drawn: Id, challenges: seq<Id>)
    | PickingAuthz(order: Order)
    // responding to a challenge
    | Responding(account: Id, challengeId: Id)
    | Challenged(account: Id, ch: Challenge)
    | Checking(account: Id, ch: Challenge, az: Authz)
    | StoringChallenge(ch: Challenge, az: Authz)
    | StoringAuthz(az: Authz)
    | LoadingOrder(orderId: Id)
    | Tallying(order: Order, seen: nat, allValid: bool)
    | StoringOrder(order: Order)
    // finalizing
    | Finalizing(account: Id, orderId: Id)
    | Exact(order: Order)
    | Issuing(order: Order, csr: Csr)
    | StoringCert(order: Order)

  /** What a random authorization id was drawn for. */
  datatype Purpose = Purpose(account: Id, identifier: Identifier)

  datatype State = State(
    accounts: map<Id, string>,  // thumbprints; an account's key never changes
    orders: map<Id, Order>,
    authzs: map<Id, Authz>,
    challenges: map<Id, Challenge>,
    drawn: map<Id, Purpose>,
    procs: map<Pid, Proc>)

  datatype Step =
    | Register(account: Id, thumbprint: string)
    | StartOrder(p: Pid, account: Id, identifiers: seq<Identifier>, id: Id)
    | DrawAuthz(p: Pid, id: Id)
    | PutNewChallenge(p: Pid, id: Id, token: string, write: Write)
    | PutNewAuthz(p: Pid, write: Write)
    | PutNewOrder(p: Pid, write: Write)
    | StartRespond(p: Pid, account: Id, id: Id)
    | LoadChallenge(p: Pid)
    | LoadAuthz(p: Pid)
    | Check(p: Pid, passed: bool)
    | PutChallenge(p: Pid, write: Write)
    | PutAuthz(p: Pid, write: Write)
    | LoadOrder(p: Pid)
    | LoadNextAuthz(p: Pid)
    | PutOrder(p: Pid, write: Write)
    | StartFinalize(p: Pid, account: Id, id: Id)
    | LoadReadyOrder(p: Pid)
    | AcceptCsr(p: Pid, csr: Csr)
    | Issue(p: Pid, ok: bool)
    | PutCert(p: Pid, id: Id, write: Write)
    | End(p: Pid)  // an error answer, a crash, or nothing left to do

  predicate At(s: State, p: Pid) {
    p in s.procs
  }

  function NextKinds(pr: Proc): seq<string>
    requires pr.Ordering? && |pr.order.authzs| < |pr.order.identifiers|
  {
    ChallengeKinds(pr.order.identifiers[|pr.order.authzs|].value)
  }

  ghost predicate Enabled(s: State, st: Step) {
    match st
    case Register(account, _) => account !in s.accounts
    case StartOrder(p, account, identifiers, _) => !At(s, p) && account in s.accounts && Acceptable(identifiers)
    case DrawAuthz(p, id) =>
      At(s, p) && s.procs[p].PickingAuthz? && |s.procs[p].order.authzs| < |s.procs[p].order.identifiers| && id !in s.drawn
    case PutNewChallenge(p, id, _, _) =>
      && At(s, p) && s.procs[p].Ordering? && |s.procs[p].order.authzs| < |s.procs[p].order.identifiers|
      && |s.procs[p].challenges| < |NextKinds(s.procs[p])|
    case PutNewAuthz(p, _) =>
      && At(s, p) && s.procs[p].Ordering? && |s.procs[p].order.authzs| < |s.procs[p].order.identifiers|
      && |s.procs[p].challenges| == |NextKinds(s.procs[p])|
    case PutNewOrder(p, _) =>
      At(s, p) && s.procs[p].PickingAuthz? && |s.procs[p].order.authzs| == |s.procs[p].order.identifiers|
    case StartRespond(p, account, _) => !At(s, p) && account in s.accounts
    case LoadChallenge(p) => At(s, p) && s.procs[p].Responding? && s.procs[p].challengeId in s.challenges
    case LoadAuthz(p) =>
      && At(s, p) && s.procs[p].Challenged? && s.procs[p].ch.authz in s.authzs
      && s.authzs[s.procs[p].ch.authz].account == s.procs[p].account && s.procs[p].ch.status.Pending?
    case Check(p, passed) => At(s, p) && s.procs[p].Checking? && (passed ==> s.procs[p].ch.kind in ["http-01", "dns-01"])
    case PutChallenge(p, _) => At(s, p) && s.procs[p].StoringChallenge?
    case PutAuthz(p, _) => At(s, p) && s.procs[p].StoringAuthz?
    case LoadOrder(p) =>
      && At(s, p) && s.procs[p].LoadingOrder? && s.procs[p].orderId in s.orders
      && s.orders[s.procs[p].orderId].status.Pending?
    case LoadNextAuthz(p) =>
      && At(s, p) && s.procs[p].Tallying? && s.procs[p].seen < |s.procs[p].order.authzs|
      && s.procs[p].order.authzs[s.procs[p].seen] in s.authzs
    case PutOrder(p, _) =>
      && At(s, p) && (s.procs[p].StoringOrder? || (s.procs[p].Tallying? && s.procs[p].allValid && s.procs[p].seen == |s.procs[p].order.authzs|))
    case StartFinalize(p, account, _) => !At(s, p) && account in s.accounts
    case LoadReadyOrder(p) =>
      && At(s, p) && s.procs[p].Finalizing? && s.procs[p].orderId in s.orders
      && s.orders[s.procs[p].orderId].account == s.procs[p].account && s.orders[s.procs[p].orderId].status.Ready?
    case AcceptCsr(p, csr) => At(s, p) && s.procs[p].Exact? && AsksExactlyFor(csr, s.procs[p].order.identifiers)
    case Issue(p, _) => At(s, p) && s.procs[p].Issuing?
    case PutCert(p, _, _) => At(s, p) && s.procs[p].StoringCert?
    case End(p) => At(s, p)
  }

  // ---------- what a step does ----------

  datatype Object = Nothing | AnOrder(order: Order) | AnAuthz(authz: Authz) | AChallenge(challenge: Challenge)

  function IfReached(write: Write, x: Object): Object {
    if write.FailedLost? then Nothing else x
  }

  /** A write that is reported as failed ends the request. */
  function IfReported(write: Write, next: Proc): Proc {
    if write.Stored? then next else Gone
  }

  /** What the step writes to the store. */
  function Written(pr: Proc, st: Step): Object {
    match st
    case PutNewChallenge(_, id, token, write) =>
      if pr.Ordering? && |pr.order.authzs| < |pr.order.identifiers| && |pr.challenges| < |NextKinds(pr)| then
        IfReached(write, AChallenge(Challenge(id, pr.drawn, NextKinds(pr)[|pr.challenges|], token, Pending)))
      else Nothing
    case PutNewAuthz(_, write) =>
      if pr.Ordering? && |pr.order.authzs| < |pr.order.identifiers| then
        IfReached(write, AnAuthz(Authz(pr.drawn, pr.order.id, pr.order.account, pr.order.identifiers[|pr.order.authzs|], Pending, pr.challenges)))
      else Nothing
    case PutNewOrder(_, write) => if pr.PickingAuthz? then IfReached(write, AnOrder(pr.order)) else Nothing
    case PutChallenge(_, write) => if pr.StoringChallenge? then IfReached(write, AChallenge(pr.ch)) else Nothing
    case PutAuthz(_, write) => if pr.StoringAuthz? then IfReached(write, AnAuthz(pr.az)) else Nothing
    case PutOrder(_, write) =>
      if pr.StoringOrder? then IfReached(write, AnOrder(pr.order))
      else if pr.Tallying? then IfReached(write, AnOrder(pr.order.(status := Ready)))
      else Nothing
    case _ => Nothing
  }

  /** What the process becomes. */
  ghost function Next(s: State, pr: Proc, st: Step): Proc
    requires st.StartOrder? || st.StartRespond? || st.StartFinalize? || (!st.Register? && st.p in s.procs && s.procs[st.p] == pr && Enabled(s, st))
  {
    match st
    case Register(_, _) => Gone
    case StartOrder(_, account, identifiers, id) => PickingAuthz(Order(id, account, Pending, identifiers, [], ""))
    case DrawAuthz(_, id) => Ordering(pr.order, id, [])
    case PutNewChallenge(_, id, _, write) => IfReported(write, pr.(challenges := pr.challenges + [id]))
    case PutNewAuthz(_, write) => IfReported(write, PickingAuthz(pr.order.(authzs := pr.order.authzs + [pr.drawn])))
    case PutNewOrder(_, _) => Gone
    case StartRespond(_, account, id) => Responding(account, id)
    case LoadChallenge(_) => Challenged(pr.account, s.challenges[pr.challengeId])
    case LoadAuthz(_) => Checking(pr.account, pr.ch, s.authzs[pr.ch.authz])
    case Check(_, passed) =>
      var status := if passed then Valid else Invalid;
      StoringChallenge(pr.ch.(status := status), pr.az.(status := status))
    case PutChallenge(_, write) => IfReported(write, StoringAuthz(pr.az))
    case PutAuthz(_, write) => IfReported(write, LoadingOrder(pr.az.order))
    case LoadOrder(_) => Tallying(s.orders[pr.orderId], 0, true)
    case LoadNextAuthz(_) =>
      (match s.authzs[pr.order.authzs[pr.seen]].status
       case Invalid => StoringOrder(pr.order.(status := Invalid))
       case Valid => pr.(seen := pr.seen + 1)
       case _ => pr.(seen := pr.seen + 1, allValid := false))
    case PutOrder(_, _) => Gone
    case StartFinalize(_, account, id) => Finalizing(account, id)
    case LoadReadyOrder(_) => Exact(s.orders[pr.orderId])
    case AcceptCsr(_, csr) => Issuing(pr.order, csr)
    case Issue(_, ok) => if ok then StoringCert(pr.order) else Gone
    case PutCert(_, id, write) => IfReported(write, StoringOrder(pr.order.(status := Valid, cert := id)))
    case End(_) => Gone
  }

  function Update(s: State, p: Pid, written: Object, next: Proc): State {
    s.(orders := if written.AnOrder? then s.orders[written.order.id := written.order] else s.orders,
       authzs := if written.AnAuthz? then s.authzs[written.authz.id := written.authz] else s.authzs,
       challenges := if written.AChallenge? then s.challenges[written.challenge.id := written.challenge] else s.challenges,
       procs := if next.Gone? then s.procs - {p} else s.procs[p := next])
  }

  function ProcAt(s: State, p: Pid): Proc {
    if p in s.procs then s.procs[p] else Gone
  }

  function Drawn(s: State, pr: Proc, id: Id): State {
    if pr.PickingAuthz? && |pr.order.authzs| < |pr.order.identifiers| then
      s.(drawn := s.drawn[id := Purpose(pr.order.account, pr.order.identifiers[|pr.order.authzs|])])
    else s
  }

  ghost function Apply(s: State, st: Step): State
    requires Enabled(s, st)
  {
    if st.Register? then s.(accounts := s.accounts[st.account := st.thumbprint])
    else
      var pr := ProcAt(s, st.p);
      Update(if st.DrawAuthz? then Drawn(s, pr, st.id) else s, st.p, Written(pr, st), Next(s, pr, st))
  }

  /** A check may pass for either kind of challenge, and fail for any; what is then stored is
      valid or invalid accordingly, for the challenge and for its authorization. */
  lemma EitherKindMayPass(s: State, p: Pid, passed: bool)
    requires p in s.procs && s.procs[p].Checking?
    ensures Enabled(s, Check(p, passed)) <==> !passed || s.procs[p].ch.kind == "http-01" || s.procs[p].ch.kind == "dns-01"
    ensures Enabled(s, Check(p, passed)) ==>
              var pr, pr' := s.procs[p], ProcAt(Apply(s, Check(p, passed)), p);
              && pr'.StoringChallenge? && (pr'.ch.status.Valid? <==> passed) && (pr'.ch.status.Invalid? <==> !passed)
              && pr'.ch == pr.ch.(status := pr'.ch.status) && pr'.az == pr.az.(status := pr'.ch.status)
  {
  }

  predicate Init(s: State) {
    s == State(map[], map[], map[], map[], map[], map[])
  }

  ghost predicate Behaviour(tr: seq<State>, steps: seq<Step>) {
    && |tr| == |steps| + 1 && Init(tr[0])
    && forall i :: 0 <= i < |steps| ==> Enabled(tr[i], steps[i]) && tr[i + 1] == Apply(tr[i], steps[i])
  }

  // ---------- the checks that have succeeded ----------

  /** A challenge of the authorization `authz`, which is for `name`, answered at `host` by the
      holder of the account key. */
  datatype Proof = Proof(authz: Id, name: string, kind: string, host: string, thumbprint: string)

  function ProofOf(s: State, st: Step): set<Proof>
    requires st.Check? ==> st.p in s.procs && s.procs[st.p].Checking?
  {
    if st.Check? && st.passed && s.procs[st.p].account in s.accounts then
      var pr := s.procs[st.p];
      {Proof(pr.az.id, pr.az.identifier.value, pr.ch.kind, CheckedHost(pr.ch.kind, pr.az.identifier.value), s.accounts[pr.account])}
    else {}
  }

  /** The checks that passed in the first `n` steps. */
  ghost function Proofs(tr: seq<State>, steps: seq<Step>, n: nat): set<Proof>
    requires Behaviour(tr, steps) && n <= |steps|
  {
    if n == 0 then {} else Proofs(tr, steps, n - 1) + ProofOf(tr[n - 1], steps[n - 1])
  }

  /** The authorization is for this very name, and was checked by http-01 or dns-01 at the name
      itself; for a wildcard only by dns-01, at the name below it. */
  predicate Authorised(proofs: set<Proof>, authz: Id, thumbprint: string, name: string) {
    || Proof(authz, name, "dns-01", CheckedHost("dns-01", name), thumbprint) in proofs
    || (!IsWildcard(name) && Proof(authz, name, "http-01", name, thumbprint) in proofs)
  }

  // ---------- invariant ----------

  predicate AllAuthorised(s: State, proofs: set<Proof>, o: Order)
    requires o.account in s.accounts && |o.authzs| == |o.identifiers|
  {
    forall i :: 0 <= i < |o.identifiers| ==> Authorised(proofs, o.authzs[i], s.accounts[o.account], o.identifiers[i].value)
  }

  /** The order's authorizations are stored and were drawn for its identifiers. */
  predicate Backed(s: State, o: Order, n: nat) {
    && o.account in s.accounts && n <= |o.authzs| <= |o.identifiers|
    && forall i :: 0 <= i < n ==> o.authzs[i] in s.authzs && o.authzs[i] in s.drawn
                                  && s.drawn[o.authzs[i]] == Purpose(o.account, o.identifiers[i])
  }

  predicate OrderOk(s: State, proofs: set<Proof>, o: Order) {
    && |o.authzs| == |o.identifiers| && Backed(s, o, |o.authzs|)
    && (o.status.Ready? || o.status.Valid? ==> AllAuthorised(s, proofs, o))
  }

  predicate AuthzOk(s: State, proofs: set<Proof>, az: Authz) {
    && az.account in s.accounts && az.id in s.drawn && s.drawn[az.id] == Purpose(az.account, az.identifier)
    && (az.status.Valid? ==> Authorised(proofs, az.id, s.accounts[az.account], az.identifier.value))
  }

  /** No http-01 challenge is ever made for a wildcard. */
  predicate ChallengeOk(s: State, ch: Challenge) {
    && ch.authz in s.drawn
    && (ch.kind == "http-01" ==> !IsWildcard(s.drawn[ch.authz].identifier.value))
  }

  /** The names a certificate made from this request carries. */
  predicate Certifies(csr: Csr, name: string) {
    name in csr.dnsNames || (name != "" && name == csr.commonName)
  }

  ghost predicate Ok(s: State, proofs: set<Proof>, pr: Proc) {
    match pr
    case Gone => true
    case PickingAuthz(o) => Backed(s, o, |o.authzs|) && o.status.Pending?
    case Ordering(o, drawn, _) =>
      && Backed(s, o, |o.authzs|) && o.status.Pending? && |o.authzs| < |o.identifiers|
      && drawn in s.drawn && s.drawn[drawn] == Purpose(o.account, o.identifiers[|o.authzs|])
    case Responding(account, _) => account in s.accounts
    case Challenged(account, ch) => account in s.accounts && ChallengeOk(s, ch)
    case Checking(account, ch, az) => ChallengeOk(s, ch) && AuthzOk(s, proofs, az) && az.account == account && az.id == ch.authz && az.id in s.authzs
    case StoringChallenge(ch, az) => ChallengeOk(s, ch) && AuthzOk(s, proofs, az) && az.id in s.authzs
    case StoringAuthz(az) => AuthzOk(s, proofs, az) && az.id in s.authzs
    case LoadingOrder(_) => true
    case Tallying(o, seen, allValid) =>
      && OrderOk(s, proofs, o) && seen <= |o.authzs|
      && (allValid ==> forall i :: 0 <= i < seen ==> Authorised(proofs, o.authzs[i], s.accounts[o.account], o.identifiers[i].value))
    case StoringOrder(o) => OrderOk(s, proofs, o)
    case Finalizing(account, _) => account in s.accounts
    case Exact(o) => OrderOk(s, proofs, o) && o.status.Ready?
    case Issuing(o, csr) => OrderOk(s, proofs, o) && o.status.Ready? && forall name :: Certifies(csr, name) ==> Names(o.identifiers, name)
    case StoringCert(o) => OrderOk(s, proofs, o) && o.status.Ready?
  }

  predicate OrdersOk(s: State, proofs: set<Proof>) {
    forall id :: id in s.orders ==> OrderOk(s, proofs, s.orders[id])
  }

  predicate AuthzsOk(s: State, proofs: set<Proof>) {
    forall id :: id in s.authzs ==> s.authzs[id].id == id && AuthzOk(s, proofs, s.authzs[id])
  }

  predicate ChallengesOk(s: State) {
    forall id :: id in s.challenges ==> ChallengeOk(s, s.challenges[id])
  }

  ghost predicate ProcsOk(s: State, proofs: set<Proof>) {
    forall p :: p in s.procs ==> Ok(s, proofs, s.procs[p])
  }

  ghost predicate Inv(s: State, proofs: set<Proof>) {
    OrdersOk(s, proofs) && AuthzsOk(s, proofs) && ChallengesOk(s) && ProcsOk(s, proofs)
  }

  // ---------- everything known stays known ----------

  predicate Grows(s: State, s': State) {
    && (forall a :: a in s.accounts ==> a in s'.accounts && s'.accounts[a] == s.accounts[a])
    && (forall id :: id in s.drawn ==> id in s'.drawn && s'.drawn[id] == s.drawn[id])
    && s.authzs.Keys <= s'.authzs.Keys
  }

  lemma OrderStaysOk(s: State, h: set<Proof>, s': State, h': set<Proof>, o: Order)
    requires Grows(s, s') && h <= h' && OrderOk(s, h, o)
    ensures OrderOk(s', h', o)
  {
  }

  lemma ProcStaysOk(s: State, h: set<Proof>, s': State, h': set<Proof>, pr: Proc)
    requires Grows(s, s') && h <= h' && Ok(s, h, pr)
    ensures Ok(s', h', pr)
  {
    if pr.Tallying? || pr.StoringOrder? || pr.Exact? || pr.Issuing? || pr.StoringCert? {
      OrderStaysOk(s, h, s', h', pr.order);
    }
  }

  predicate ObjectOk(s: State, h: set<Proof>, x: Object) {
    match x
    case Nothing => true
    case AnOrder(o) => OrderOk(s, h, o)
    case AnAuthz(az) => AuthzOk(s, h, az)
    case AChallenge(ch) => ChallengeOk(s, ch)
  }

  lemma ObjectStaysOk(s: State, h: set<Proof>, s': State, h': set<Proof>, x: Object)
    requires Grows(s, s') && h <= h' && ObjectOk(s, h, x)
    ensures ObjectOk(s', h', x)
  {
    if x.AnOrder? {
      OrderStaysOk(s, h, s', h', x.order);
    }
  }

  lemma UpdateGrows(s: State, p: Pid, x: Object, next: Proc)
    ensures Grows(s, Update(s, p, x, next))
  {
  }

  lemma UpdatedStoreIsOk(s: State, h: set<Proof>, p: Pid, x: Object, next: Proc)
    requires Inv(s, h) && ObjectOk(s, h, x)
    ensures var s' := Update(s, p, x, next); OrdersOk(s', h) && AuthzsOk(s', h) && ChallengesOk(s')
  {
    var s' := Update(s, p, x, next);
    UpdateGrows(s, p, x, next);
    forall id | id in s'.orders ensures OrderOk(s', h, s'.orders[id]) {
      OrderStaysOk(s, h, s', h, s'.orders[id]);
    }
  }

  lemma UpdateKeepsInv(s: State, h: set<Proof>, p: Pid, x: Object, next: Proc)
    requires Inv(s, h) && ObjectOk(s, h, x) && Ok(Update(s, p, x, next), h, next)
    ensures Inv(Update(s, p, x, next), h)
  {
    var s' := Update(s, p, x, next);
    UpdateGrows(s, p, x, next);
    UpdatedStoreIsOk(s, h, p, x, next);
    forall q | q in s'.procs ensures Ok(s', h, s'.procs[q]) {
      if q != p {
        ProcStaysOk(s, h, s', h, s.procs[q]);
      }
    }
  }

  lemma MoreKeepsInv(s: State, h: set<Proof>, s': State, h': set<Proof>)
    requires Inv(s, h) && Grows(s, s') && h <= h'
    requires s'.orders == s.orders && s'.authzs == s.authzs && s'.challenges == s.challenges && s'.procs == s.procs
    ensures Inv(s', h')
  {
    forall id | id in s'.orders ensures OrderOk(s', h', s'.orders[id]) {
      OrderStaysOk(s, h, s', h', s.orders[id]);
    }
    forall q | q in s'.procs ensures Ok(s', h', s'.procs[q]) {
      ProcStaysOk(s, h, s', h', s.procs[q]);
    }
  }

  // ---------- each step ----------

  /** What a process writes is in order. */
  lemma WrittenIsOk(s: State, h: set<Proof>, st: Step)
    requires Enabled(s, st) && !st.Register? && (st.p in s.procs ==> Ok(s, h, s.procs[st.p]))
    ensures ObjectOk(s, h, Written(ProcAt(s, st.p), st))
  {
  }

  lemma OrderingNextIsOk(s: State, h: set<Proof>, st: Step)
    requires Enabled(s, st) && (st.StartOrder? || st.DrawAuthz? || st.PutNewChallenge? || st.PutNewAuthz?)
    requires st.p in s.procs ==> Ok(s, h, s.procs[st.p])
    ensures var s' := Apply(s, st); Ok(s', h, Next(s, ProcAt(s, st.p), st))
  {
  }

  /** A check that passes authorises exactly the name its authorization is for. */
  lemma CheckAuthorises(s: State, h: set<Proof>, p: Pid, passed: bool)
    requires Enabled(s, Check(p, passed)) && Ok(s, h, s.procs[p])
    ensures Ok(s, h + ProofOf(s, Check(p, passed)), Next(s, ProcAt(s, p), Check(p, passed)))
  {
  }

  lemma RespondingNextIsOk(s: State, h: set<Proof>, st: Step)
    requires Inv(s, h) && Enabled(s, st) && (st.StartRespond? || st.LoadChallenge? || st.LoadAuthz? || st.PutChallenge? || st.PutAuthz?)
    requires st.p in s.procs ==> Ok(s, h, s.procs[st.p])
    ensures Ok(s, h, Next(s, ProcAt(s, st.p), st))
  {
  }

  lemma TallyingNextIsOk(s: State, h: set<Proof>, st: Step)
    requires Inv(s, h) && Enabled(s, st) && (st.LoadOrder? || st.LoadNextAuthz?) && Ok(s, h, s.procs[st.p])
    ensures Ok(s, h, Next(s, ProcAt(s, st.p), st))
  {
    if st.LoadNextAuthz? {
      var pr := s.procs[st.p];
      assert AuthzOk(s, h, s.authzs[pr.order.authzs[pr.seen]]);
    }
  }

  lemma FinalizingNextIsOk(s: State, h: set<Proof>, st: Step)
    requires st.StartFinalize? || st.LoadReadyOrder? || st.AcceptCsr? || st.Issue? || st.PutCert?
    requires OrdersOk(s, h) && Enabled(s, st) && (st.p in s.procs ==> Ok(s, h, s.procs[st.p]))
    ensures Ok(s, h, Next(s, ProcAt(s, st.p), st))
  {
  }

  lemma NextIsOk(s: State, h: set<Proof>, st: Step)
    requires Inv(s, h) && Enabled(s, st) && !st.Register? && (st.p in s.procs ==> Ok(s, h, s.procs[st.p]))
    requires !(st.StartOrder? || st.DrawAuthz? || st.PutNewChallenge? || st.PutNewAuthz? || st.Check?)
    ensures Ok(s, h, Next(s, ProcAt(s, st.p), st))
  {
    if st.StartRespond? || st.LoadChallenge? || st.LoadAuthz? || st.PutChallenge? || st.PutAuthz? {
      RespondingNextIsOk(s, h, st);
    } else if st.LoadOrder? || st.LoadNextAuthz? {
      TallyingNextIsOk(s, h, st);
    } else if st.StartFinalize? || st.LoadReadyOrder? || st.AcceptCsr? || st.Issue? || st.PutCert? {
      FinalizingNextIsOk(s, h, st);
    }
  }

  predicate StartsOrAdds(st: Step) {
    st.StartOrder? || st.DrawAuthz? || st.PutNewChallenge? || st.PutNewAuthz?
  }

  lemma OnlyChecksProve(s: State, st: Step)
    requires Enabled(s, st) && !st.Check?
    ensures ProofOf(s, st) == {}
  {
  }

  lemma OtherNextIsOk(s: State, h: set<Proof>, st: Step)
    requires Inv(s, h) && Enabled(s, st) && !st.Register? && !StartsOrAdds(st) && (st.p in s.procs ==> Ok(s, h, s.procs[st.p]))
    ensures Ok(s, h + ProofOf(s, st), Next(s, ProcAt(s, st.p), st))
  {
    if st.Check? {
      CheckAuthorises(s, h, st.p, st.passed);
    } else {
      OnlyChecksProve(s, st);
      assert h + {} == h;
      NextIsOk(s, h, st);
    }
  }

  lemma ActorKeepsInv(s: State, h: set<Proof>, st: Step)
    requires Inv(s, h) && Enabled(s, st) && !st.Register? && !StartsOrAdds(st)
    ensures Inv(Apply(s, st), h + ProofOf(s, st))
  {
    assert st.p in s.procs ==> Ok(s, h, s.procs[st.p]);
    var h', pr := h + ProofOf(s, st), ProcAt(s, st.p);
    var x, next := Written(pr, st), Next(s, pr, st);
    MoreKeepsInv(s, h, s, h');
    WrittenIsOk(s, h, st);
    ObjectStaysOk(s, h, s, h', x);
    OtherNextIsOk(s, h, st);
    UpdateGrows(s, st.p, x, next);
    ProcStaysOk(s, h', Update(s, st.p, x, next), h', next);
    UpdateKeepsInv(s, h', st.p, x, next);
  }

  lemma OrderingKeepsInv(s: State, h: set<Proof>, st: Step)
    requires Inv(s, h) && Enabled(s, st) && StartsOrAdds(st)
    ensures Inv(Apply(s, st), h)
  {
    assert st.p in s.procs ==> Ok(s, h, s.procs[st.p]);
    var pr := ProcAt(s, st.p);
    var s1 := if st.DrawAuthz? then Drawn(s, pr, st.id) else s;
    MoreKeepsInv(s, h, s1, h);
    WrittenIsOk(s, h, st);
    ObjectStaysOk(s, h, s1, h, Written(pr, st));
    OrderingNextIsOk(s, h, st);
    UpdateKeepsInv(s1, h, st.p, Written(pr, st), Next(s, pr, st));
  }

  lemma StepKeepsInv(s: State, h: set<Proof>, st: Step)
    requires Inv(s, h) && Enabled(s, st)
    ensures Inv(Apply(s, st), h + ProofOf(s, st))
  {
    if st.Register? {
      MoreKeepsInv(s, h, Apply(s, st), h + ProofOf(s, st));
    } else if StartsOrAdds(st) {
      OnlyChecksProve(s, st);
      assert h + {} == h;
      OrderingKeepsInv(s, h, st);
    } else {
      ActorKeepsInv(s, h, st);
    }
  }

  lemma {:induction false} BehaviourKeepsInv(tr: seq<State>, steps: seq<Step>, n: nat)
    requires Behaviour(tr, steps) && n <= |steps|
    ensures Inv(tr[n], Proofs(tr, steps, n))
  {
    if n > 0 {
      BehaviourKeepsInv(tr, steps, n - 1);
      StepKeepsInv(tr[n - 1], Proofs(tr, steps, n - 1), steps[n - 1]);
    }
  }

  // ---------- results ----------

  /** Step `i` is a check that passed and gave this proof. */
  ghost predicate Proves(tr: seq<State>, steps: seq<Step>, i: nat, proof: Proof)
    requires Behaviour(tr, steps)
  {
    i < |steps| && steps[i].Check? && steps[i].passed && ProofOf(tr[i], steps[i]) == {proof}
  }

  lemma {:induction false} ProofHasAStep(tr: seq<State>, steps: seq<Step>, n: nat, proof: Proof)
    requires Behaviour(tr, steps) && n <= |steps| && proof in Proofs(tr, steps, n)
    ensures exists i :: 0 <= i < n && Proves(tr, steps, i, proof)
  {
    if proof in ProofOf(tr[n - 1], steps[n - 1]) {
      assert Proves(tr, steps, n - 1, proof);
    } else {
      ProofHasAStep(tr, steps, n - 1, proof);
    }
  }

  /** A check of this kind of an authorization for this name, made for this account key at the
      host that the kind prescribes for the name. */
  ghost predicate CheckedAt(tr: seq<State>, steps: seq<Step>, i: nat, authz: Id, kind: string, thumbprint: string, name: string)
    requires Behaviour(tr, steps)
  {
    Proves(tr, steps, i, Proof(authz, name, kind, CheckedHost(kind, name), thumbprint))
  }

  ghost predicate Vouches(tr: seq<State>, steps: seq<Step>, i: nat, authz: Id, thumbprint: string, name: string)
    requires Behaviour(tr, steps)
  {
    || CheckedAt(tr, steps, i, authz, "dns-01", thumbprint, name)
    || (!IsWildcard(name) && CheckedAt(tr, steps, i, authz, "http-01", thumbprint, name))
  }

  /** Every name for which a certificate is ever requested from the CA has an earlier
      successful check, under the finalizing account's key, of an authorization that is one of
      the order's own and is for that very name: dns-01, or http-01 unless the name is a
      wildcard. Failing writes, crashes and any interleaving included. */
  lemma AuthorisedNamesOnly(tr: seq<State>, steps: seq<Step>, n: nat, name: string)
    requires Behaviour(tr, steps) && n < |steps| && steps[n].Issue?
    requires Certifies(tr[n].procs[steps[n].p].csr, name)
    ensures tr[n].procs[steps[n].p].order.account in tr[n].accounts
    ensures exists i, authz :: 0 <= i < n && authz in tr[n].procs[steps[n].p].order.authzs
                               && Vouches(tr, steps, i, authz, tr[n].accounts[tr[n].procs[steps[n].p].order.account], name)
  {
    BehaviourKeepsInv(tr, steps, n);
    var pr, proofs := tr[n].procs[steps[n].p], Proofs(tr, steps, n);
    assert Ok(tr[n], proofs, pr);
    var thumbprint := tr[n].accounts[pr.order.account];
    var k :| 0 <= k < |pr.order.identifiers| && pr.order.identifiers[k].value == name;
    var authz := pr.order.authzs[k];
    assert Authorised(proofs, authz, thumbprint, name);
    var dns := Proof(authz, name, "dns-01", CheckedHost("dns-01", name), thumbprint);
    var http := Proof(authz, name, "http-01", name, thumbprint);
    var proof := if dns in proofs then dns else http;
    ProofHasAStep(tr, steps, n, proof);
    var i :| 0 <= i < n && Proves(tr, steps, i, proof);
    assert Vouches(tr, steps, i, authz, thumbprint, name);
  }

  /** A check of an authorization for one name vouches for no other, not even for the wildcard
      that is looked for at the same host. */
  lemma CheckVouchesForOneNameOnly(tr: seq<State>, steps: seq<Step>, i: nat, authz: Id, thumbprint: string, name: string,
                                   authz': Id, thumbprint': string, name': string)
    requires Behaviour(tr, steps)
    requires Vouches(tr, steps, i, authz, thumbprint, name) && Vouches(tr, steps, i, authz', thumbprint', name')
    ensures (authz, thumbprint, name) == (authz', thumbprint', name')
  {
    var proof :| ProofOf(tr[i], steps[i]) == {proof};
    forall other | ProofOf(tr[i], steps[i]) == {other} ensures other == proof {
      assert other in {proof};
    }
  }

  // ---------- a run that certifies a wildcard ----------

  function ExampleOrder(status: Status, authzs: seq<Id>): Order {
    Order("o", "me", status, [Identifier("dns", "*.h")], authzs, "")
  }

  function ExampleAuthz(status: Status): Authz {
    Authz("z", "o", "me", Identifier("dns", "*.h"), status, ["c"])
  }

  function ExampleChallenge(status: Status): Challenge {
    Challenge("c", "z", "dns-01", "t", status)
  }

  /** What is stored while the process 0, if it runs, is `pr`. */
  function Example(orders: seq<Order>, authzs: seq<Authz>, challenges: seq<Challenge>, drawn: bool, pr: Proc): State {
    State(map["me" := "k"], if orders == [] then map[] else map["o" := orders[0]], if authzs == [] then map[] else map["z" := authzs[0]],
          if challenges == [] then map[] else map["c" := challenges[0]],
          if drawn then map["z" := Purpose("me", Identifier("dns", "*.h"))] else map[], if pr.Gone? then map[] else map[0 := pr])
  }

  ghost predicate Leads(s: State, st: Step, s': State) {
    Enabled(s, st) && Apply(s, st) == s'
  }

  function Ordered(): State { Example([ExampleOrder(Pending, ["z"])], [ExampleAuthz(Pending)], [ExampleChallenge(Pending)], true, Gone) }

  function Checked(): State {
    Example([ExampleOrder(Pending, ["z"])], [ExampleAuthz(Pending)], [ExampleChallenge(Pending)], true,
            StoringChallenge(ExampleChallenge(Valid), ExampleAuthz(Valid)))
  }

  /** While the outcome of the check is stored and the order recomputed. */
  function Settling(pr: Proc): State { Example([ExampleOrder(Pending, ["z"])], [ExampleAuthz(Valid)], [ExampleChallenge(Valid)], true, pr) }

  function Finishing(pr: Proc): State { Example([ExampleOrder(Ready, ["z"])], [ExampleAuthz(Valid)], [ExampleChallenge(Valid)], true, pr) }

  /** Runs of the steps between two states. */
  ghost predicate Connects(tr: seq<State>, steps: seq<Step>, s: State, s': State) {
    && |tr| == |steps| + 1 && tr[0] == s && tr[|steps|] == s'
    && forall i :: 0 <= i < |steps| ==> Leads(tr[i], steps[i], tr[i + 1])
  }

  lemma Then(tr: seq<State>, steps: seq<Step>, s: State, m: State, st: Step, s': State) returns (tr': seq<State>, steps': seq<Step>)
    requires Connects(tr, steps, s, m) && Leads(m, st, s')
    ensures Connects(tr', steps', s, s') && |steps'| == |steps| + 1 && steps'[|steps|] == st && tr'[|steps|] == m
  {
    tr', steps' := tr + [s'], steps + [st];
  }

  lemma FirstSteps(s0: State)
    requires s0 == State(map[], map[], map[], map[], map[], map[])
    ensures Leads(s0, Register("me", "k"), Example([], [], [], false, Gone))
    ensures Leads(Example([], [], [], false, Gone), StartOrder(0, "me", [Identifier("dns", "*.h")], "o"),
                  Example([], [], [], false, PickingAuthz(ExampleOrder(Pending, []))))
    ensures Leads(Example([], [], [], false, PickingAuthz(ExampleOrder(Pending, []))), DrawAuthz(0, "z"),
                  Example([], [], [], true, Ordering(ExampleOrder(Pending, []), "z", [])))
  {
  }

  lemma StoringTheChallenge()
    ensures Leads(Example([], [], [], true, Ordering(ExampleOrder(Pending, []), "z", [])), PutNewChallenge(0, "c", "t", Stored),
                  Example([], [], [ExampleChallenge(Pending)], true, Ordering(ExampleOrder(Pending, []), "z", ["c"])))
  {
    assert ChallengeKinds("*.h") == ["dns-01"];
    var pr := Ordering(ExampleOrder(Pending, []), "z", []);
    assert NextKinds(pr) == ["dns-01"];
    var s, st, next := Example([], [], [], true, pr), PutNewChallenge(0, "c", "t", Stored), Ordering(ExampleOrder(Pending, []), "z", ["c"]);
    assert Written(pr, st) == AChallenge(ExampleChallenge(Pending));
    assert Next(s, pr, st) == next;
    assert Update(s, 0, AChallenge(ExampleChallenge(Pending)), next) == Example([], [], [ExampleChallenge(Pending)], true, next);
  }

  lemma StoringTheAuthz()
    ensures Leads(Example([], [], [ExampleChallenge(Pending)], true, Ordering(ExampleOrder(Pending, []), "z", ["c"])), PutNewAuthz(0, Stored),
                  Example([], [ExampleAuthz(Pending)], [ExampleChallenge(Pending)], true, PickingAuthz(ExampleOrder(Pending, ["z"]))))
  {
    assert ChallengeKinds("*.h") == ["dns-01"];
    var pr := Ordering(ExampleOrder(Pending, []), "z", ["c"]);
    assert NextKinds(pr) == ["dns-01"];
    var s := Example([], [], [ExampleChallenge(Pending)], true, pr);
    var none: seq<Id> := [];
    assert none + ["z"] == ["z"];
    assert Written(pr, PutNewAuthz(0, Stored)) == AnAuthz(ExampleAuthz(Pending));
    var next := PickingAuthz(ExampleOrder(Pending, ["z"]));
    assert Next(s, pr, PutNewAuthz(0, Stored)) == next;
    assert Update(s, 0, AnAuthz(ExampleAuthz(Pending)), next) == Example([], [ExampleAuthz(Pending)], [ExampleChallenge(Pending)], true, next);
  }

  lemma StoringTheOrder()
    ensures Leads(Example([], [ExampleAuthz(Pending)], [ExampleChallenge(Pending)], true, PickingAuthz(ExampleOrder(Pending, ["z"]))),
                  PutNewOrder(0, Stored), Ordered())
  {
    var pr := PickingAuthz(ExampleOrder(Pending, ["z"]));
    assert map[0 := pr] - {0} == map[];
  }

  /** While the pending order's challenge is looked at. */
  function Looking(pr: Proc): State { Ordered().(procs := map[0 := pr]) }

  lemma Responds()
    ensures Leads(Ordered(), StartRespond(0, "me", "c"), Looking(Responding("me", "c")))
  {
  }

  lemma LoadsChallenge()
    ensures Leads(Looking(Responding("me", "c")), LoadChallenge(0), Looking(Challenged("me", ExampleChallenge(Pending))))
  {
  }

  lemma LoadsAuthz()
    ensures Leads(Looking(Challenged("me", ExampleChallenge(Pending))), LoadAuthz(0),
                  Looking(Checking("me", ExampleChallenge(Pending), ExampleAuthz(Pending))))
  {
  }

  lemma Checks()
    ensures Leads(Looking(Checking("me", ExampleChallenge(Pending), ExampleAuthz(Pending))), Check(0, true), Checked())
  {
  }

  /** The challenge is stored, its authorization not yet. */
  function HalfSettled(): State {
    Checked().(challenges := map["c" := ExampleChallenge(Valid)], procs := map[0 := StoringAuthz(ExampleAuthz(Valid))])
  }

  lemma StoresChallenge()
    ensures Leads(Checked(), PutChallenge(0, Stored), HalfSettled())
  {
  }

  lemma StoresAuthz()
    ensures Leads(HalfSettled(), PutAuthz(0, Stored), Settling(LoadingOrder("o")))
  {
  }

  lemma LoadsOrder()
    ensures Leads(Settling(LoadingOrder("o")), LoadOrder(0), Settling(Tallying(ExampleOrder(Pending, ["z"]), 0, true)))
  {
  }

  lemma TalliesAuthz()
    ensures Leads(Settling(Tallying(ExampleOrder(Pending, ["z"]), 0, true)), LoadNextAuthz(0),
                  Settling(Tallying(ExampleOrder(Pending, ["z"]), 1, true)))
  {
  }

  lemma BecomesReady()
    ensures Leads(Settling(Tallying(ExampleOrder(Pending, ["z"]), 1, true)), PutOrder(0, Stored), Finishing(Gone))
  {
  }

  lemma Finalizes()
    ensures Leads(Finishing(Gone), StartFinalize(0, "me", "o"), Finishing(Finalizing("me", "o")))
  {
  }

  lemma LoadsReadyOrder()
    ensures Leads(Finishing(Finalizing("me", "o")), LoadReadyOrder(0), Finishing(Exact(ExampleOrder(Ready, ["z"]))))
  {
  }

  lemma AcceptsCsr(csr: Csr)
    requires csr == Csr("", ["*.h"], [], [], [])
    ensures Leads(Finishing(Exact(ExampleOrder(Ready, ["z"]))), AcceptCsr(0, csr), Finishing(Issuing(ExampleOrder(Ready, ["z"]), csr)))
  {
    var ids := [Identifier("dns", "*.h")];
    assert ids[0].value == "*.h";
    assert forall name :: Names(ids, name) <==> name == "*.h";
    assert AsksExactlyFor(csr, ids);
  }

  lemma Issues(csr: Csr)
    ensures Leads(Finishing(Issuing(ExampleOrder(Ready, ["z"]), csr)), Issue(0, true), Finishing(StoringCert(ExampleOrder(Ready, ["z"]))))
  {
  }

  lemma ExampleIsOrdered(s0: State) returns (tr: seq<State>, steps: seq<Step>)
    requires s0 == State(map[], map[], map[], map[], map[], map[])
    ensures Connects(tr, steps, s0, Ordered())
  {
    FirstSteps(s0);
    StoringTheChallenge();
    StoringTheAuthz();
    StoringTheOrder();
    var o := ExampleOrder(Pending, []);
    tr, steps := [s0], [];
    tr, steps := Then(tr, steps, s0, s0, Register("me", "k"), Example([], [], [], false, Gone));
    tr, steps := Then(tr, steps, s0, Example([], [], [], false, Gone), StartOrder(0, "me", [Identifier("dns", "*.h")], "o"),
                      Example([], [], [], false, PickingAuthz(o)));
    tr, steps := Then(tr, steps, s0, Example([], [], [], false, PickingAuthz(o)), DrawAuthz(0, "z"),
                      Example([], [], [], true, Ordering(o, "z", [])));
    tr, steps := Then(tr, steps, s0, Example([], [], [], true, Ordering(o, "z", [])), PutNewChallenge(0, "c", "t", Stored),
                      Example([], [], [ExampleChallenge(Pending)], true, Ordering(o, "z", ["c"])));
    tr, steps := Then(tr, steps, s0, Example([], [], [ExampleChallenge(Pending)], true, Ordering(o, "z", ["c"])), PutNewAuthz(0, Stored),
                      Example([], [ExampleAuthz(Pending)], [ExampleChallenge(Pending)], true, PickingAuthz(ExampleOrder(Pending, ["z"]))));
    tr, steps := Then(tr, steps, s0,
                      Example([], [ExampleAuthz(Pending)], [ExampleChallenge(Pending)], true, PickingAuthz(ExampleOrder(Pending, ["z"]))),
                      PutNewOrder(0, Stored), Ordered());
  }

  lemma ExampleIsReady(s0: State) returns (tr: seq<State>, steps: seq<Step>)
    requires s0 == State(map[], map[], map[], map[], map[], map[])
    ensures Connects(tr, steps, s0, Finishing(Gone))
  {
    Responds();
    LoadsChallenge();
    LoadsAuthz();
    Checks();
    StoresChallenge();
    StoresAuthz();
    LoadsOrder();
    TalliesAuthz();
    BecomesReady();
    var o, c, z := ExampleOrder(Pending, ["z"]), ExampleChallenge(Pending), ExampleAuthz(Pending);
    var half := HalfSettled();
    tr, steps := ExampleIsOrdered(s0);
    tr, steps := Then(tr, steps, s0, Ordered(), StartRespond(0, "me", "c"), Looking(Responding("me", "c")));
    tr, steps := Then(tr, steps, s0, Looking(Responding("me", "c")), LoadChallenge(0), Looking(Challenged("me", c)));
    tr, steps := Then(tr, steps, s0, Looking(Challenged("me", c)), LoadAuthz(0), Looking(Checking("me", c, z)));
    tr, steps := Then(tr, steps, s0, Looking(Checking("me", c, z)), Check(0, true), Checked());
    tr, steps := Then(tr, steps, s0, Checked(), PutChallenge(0, Stored), half);
    tr, steps := Then(tr, steps, s0, half, PutAuthz(0, Stored), Settling(LoadingOrder("o")));
    tr, steps := Then(tr, steps, s0, Settling(LoadingOrder("o")), LoadOrder(0), Settling(Tallying(o, 0, true)));
    tr, steps := Then(tr, steps, s0, Settling(Tallying(o, 0, true)), LoadNextAuthz(0), Settling(Tallying(o, 1, true)));
    tr, steps := Then(tr, steps, s0, Settling(Tallying(o, 1, true)), PutOrder(0, Stored), Finishing(Gone));
  }

  /** From the empty store, an order for a wildcard, its dns-01 check, and the request of its
      certificate from the CA. */
  lemma WildcardIsCertified() returns (tr: seq<State>, steps: seq<Step>, n: nat)
    ensures Behaviour(tr, steps) && n < |steps| && steps[n].Issue?
    ensures steps[n].p in tr[n].procs && tr[n].procs[steps[n].p].Issuing? && Certifies(tr[n].procs[steps[n].p].csr, "*.h")
  {
    var s0, csr := State(map[], map[], map[], map[], map[], map[]), Csr("", ["*.h"], [], [], []);
    var o := ExampleOrder(Ready, ["z"]);
    tr, steps := ExampleIsIssuing(s0, csr);
    Issues(csr);
    n := |steps|;
    tr, steps := Then(tr, steps, s0, Finishing(Issuing(o, csr)), Issue(0, true), Finishing(StoringCert(o)));
    ConnectedIsBehaviour(tr, steps, s0, Finishing(StoringCert(o)));
  }

  lemma ExampleIsIssuing(s0: State, csr: Csr) returns (tr: seq<State>, steps: seq<Step>)
    requires s0 == State(map[], map[], map[], map[], map[], map[]) && csr == Csr("", ["*.h"], [], [], [])
    ensures Connects(tr, steps, s0, Finishing(Issuing(ExampleOrder(Ready, ["z"]), csr)))
  {
    var o := ExampleOrder(Ready, ["z"]);
    Finalizes();
    LoadsReadyOrder();
    AcceptsCsr(csr);
    tr, steps := ExampleIsReady(s0);
    tr, steps := Then(tr, steps, s0, Finishing(Gone), StartFinalize(0, "me", "o"), Finishing(Finalizing("me", "o")));
    tr, steps := Then(tr, steps, s0, Finishing(Finalizing("me", "o")), LoadReadyOrder(0), Finishing(Exact(o)));
    tr, steps := Then(tr, steps, s0, Finishing(Exact(o)), AcceptCsr(0, csr), Finishing(Issuing(o, csr)));
  }

  lemma ConnectedIsBehaviour(tr: seq<State>, steps: seq<Step>, s0: State, s: State)
    requires Connects(tr, steps, s0, s) && Init(s0)
    ensures Behaviour(tr, steps)
  {
    forall i | 0 <= i < |steps| ensures Enabled(tr[i], steps[i]) && tr[i + 1] == Apply(tr[i], steps[i]) {
      assert Leads(tr[i], steps[i], tr[i + 1]);
    }
  }
}
