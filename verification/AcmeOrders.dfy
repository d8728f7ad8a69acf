/** ACME objects and the rules that tie their states together (RFC 8555 section 7.1). */
module AcmeObjects {

  type Id = string

  datatype Status = Pending | Ready | Valid | Invalid

  datatype Identifier = Identifier(kind: string, value: string)
  datatype Account = Account(id: Id, thumbprint: string)
  datatype Order = Order(id: Id, account: Id, status: Status, identifiers: seq<Identifier>, authzs: seq<Id>, cert: Id)
  datatype Authz = Authz(id: Id, order: Id, account: Id, identifier: Identifier, status: Status, challenges: seq<Id>)
  datatype Challenge = Challenge(id: Id, authz: Id, kind: string, token: string, status: Status)
  datatype Csr = Csr(commonName: string, dnsNames: seq<string>, emails: seq<string>, ips: seq<string>, uris: seq<string>)

  predicate IsWildcard(name: string) {
    "*." <= name
  }

  /** Wildcards are offered dns-01 only (RFC 8555 section 7.4.1). */
  function ChallengeKinds(name: string): seq<string> {
    if IsWildcard(name) then ["dns-01"] else ["http-01", "dns-01"]
  }

  /** The host a challenge of this kind is checked at. */
  function CheckedHost(kind: string, name: string): string {
    if kind == "dns-01" && IsWildcard(name) then name[2..] else name
  }

  /** A wildcard is looked for by dns-01 at the name below it, every other check at the name. */
  lemma ChecksAreMadeBelowWildcards(kind: string, name: string)
    ensures CheckedHost("dns-01", "*." + name) == name
    ensures !("*." <= name) || kind != "dns-01" ==> CheckedHost(kind, name) == name
    ensures ChallengeKinds("*." + name) == ["dns-01"] && (!("*." <= name) ==> ChallengeKinds(name) == ["http-01", "dns-01"])
  {
    assert ("*." + name)[2..] == name;
  }

  predicate Acceptable(identifiers: seq<Identifier>) {
    identifiers != [] && forall i :: 0 <= i < |identifiers| ==> identifiers[i].kind == "dns" && identifiers[i].value != ""
  }

  predicate Names(identifiers: seq<Identifier>, name: string) {
    exists i :: 0 <= i < |identifiers| && identifiers[i].value == name
  }

  /** The request asks for exactly the order's names, and for nothing else. */
  ghost predicate AsksExactlyFor(csr: Csr, identifiers: seq<Identifier>) {
    && csr.emails == [] && csr.ips == [] && csr.uris == []
    && (csr.commonName == "" || Names(identifiers, csr.commonName))
    && forall name :: name in csr.dnsNames <==> Names(identifiers, name)
  }

  method CheckCsrIdentifiers(csr: Csr, identifiers: seq<Identifier>) returns (ok: bool)
    ensures ok <==> AsksExactlyFor(csr, identifiers)
  {
    if |csr.emails| > 0 || |csr.ips| > 0 || |csr.uris| > 0 {
      return false;
    }
    var want: set<string> := {};
    for i := 0 to |identifiers|
      invariant forall name :: name in want <==> Names(identifiers[..i], name)
    {
      assert forall name :: Names(identifiers[..i + 1], name) <==> Names(identifiers[..i], name) || identifiers[i].value == name by {
        assert identifiers[..i + 1] == identifiers[..i] + [identifiers[i]];
        forall name ensures Names(identifiers[..i + 1], name) <==> Names(identifiers[..i], name) || identifiers[i].value == name {
          NamesOfLonger(identifiers[..i], identifiers[i], name);
        }
      }
      want := want + {identifiers[i].value};
    }
    assert identifiers[..|identifiers|] == identifiers;
    var got: set<string> := {};
    for i := 0 to |csr.dnsNames|
      invariant forall name :: name in got <==> name in csr.dnsNames[..i]
    {
      got := got + {csr.dnsNames[i]};
    }
    if csr.commonName != "" && csr.commonName !in want {
      return false;
    }
    var todo := got;
    while todo != {}
      invariant todo <= got
      invariant forall name :: name in got && name !in todo ==> name in want
      decreases |todo|
    {
      var name :| name in todo;
      if name !in want {
        assert name in csr.dnsNames && !Names(identifiers, name);
        return false;
      }
      todo := todo - {name};
    }
    todo := want;
    while todo != {}
      invariant todo <= want
      invariant forall name :: name in want && name !in todo ==> name in got
      decreases |todo|
    {
      var name :| name in todo;
      if name !in got {
        assert name !in csr.dnsNames && Names(identifiers, name);
        return false;
      }
      todo := todo - {name};
    }
    return true;
  }

  lemma NamesOfLonger(identifiers: seq<Identifier>, last: Identifier, name: string)
    ensures Names(identifiers + [last], name) <==> Names(identifiers, name) || last.value == name
  {
    var longer := identifiers + [last];
    if i :| 0 <= i < |identifiers| && identifiers[i].value == name {
      assert longer[i].value == name;
    }
    assert longer[|identifiers|] == last;
  }

  /** What a pending order becomes when all its authorizations are at hand: one invalid
      authorization spoils it, and it is ready once every one is valid. */
  function Outcome(authzs: map<Id, Authz>, ids: seq<Id>): Status
    requires forall i :: 0 <= i < |ids| ==> ids[i] in authzs
  {
    if exists i :: 0 <= i < |ids| && authzs[ids[i]].status.Invalid? then Invalid
    else if forall i :: 0 <= i < |ids| ==> authzs[ids[i]].status.Valid? then Ready
    else Pending
  }

  datatype Tallied = Missing | Decided(status: Status)

  /** The same, looking the authorizations up one by one. */
  function Tally(authzs: map<Id, Authz>, ids: seq<Id>, allValid: bool): Tallied {
    if ids == [] then Decided(if allValid then Ready else Pending)
    else if ids[0] !in authzs then Missing
    else
      match authzs[ids[0]].status
      case Invalid => Decided(Invalid)
      case Valid => Tally(authzs, ids[1..], allValid)
      case _ => Tally(authzs, ids[1..], false)
  }

  lemma {:induction false} TallyDecidesOutcome(authzs: map<Id, Authz>, ids: seq<Id>)
    requires forall i :: 0 <= i < |ids| ==> ids[i] in authzs
    ensures Tally(authzs, ids, true) == Decided(Outcome(authzs, ids))
    ensures Tally(authzs, ids, false) == Decided(if Outcome(authzs, ids).Ready? then Pending else Outcome(authzs, ids))
  {
    if ids != [] {
      var rest := ids[1..];
      TallyDecidesOutcome(authzs, rest);
      if i :| 0 <= i < |rest| && authzs[rest[i]].status.Invalid? {
        assert authzs[ids[i + 1]].status.Invalid?;
      }
      if Outcome(authzs, ids).Invalid? && !authzs[ids[0]].status.Invalid? {
        var i :| 0 <= i < |ids| && authzs[ids[i]].status.Invalid?;
        assert authzs[rest[i - 1]].status.Invalid?;
      }
      if authzs[ids[0]].status.Valid? && Outcome(authzs, rest).Ready? {
        forall i | 0 <= i < |ids| ensures authzs[ids[i]].status.Valid? {
          assert i > 0 ==> ids[i] == rest[i - 1];
        }
      }
      if Outcome(authzs, ids).Ready? {
        forall i | 0 <= i < |rest| ensures authzs[rest[i]].status.Valid? {
          assert rest[i] == ids[i + 1];
        }
      }
    }
  }
}

/** The order life cycle, requests being served one at a time. What holds of them all is told
    apart from what needs a store without faults. */
module AcmeOrders {
  import opened AcmeObjects

  datatype StoredCert = StoredCert(account: Id, serial: string)
  datatype Objects = Objects(orders: map<Id, Order>, authzs: map<Id, Authz>, challenges: map<Id, Challenge>, certs: map<Id, StoredCert>)

  datatype Payload = Absent | Malformed | Present

  datatype Reply =
    | Created(order: Order)
    | Served
    | ErrMalformed
    | ErrUnsupportedIdentifier
    | ErrNotFound
    | ErrUnauthorized
    | ErrOrderNotReady
    | ErrBadCsr
    | ErrInternal

  /** The random names drawn while an order is created, by the place they are used at. */
  datatype Drawn = Drawn(order: Id, authzs: seq<Id>, challenges: seq<seq<Id>>, tokens: seq<seq<string>>)

  predicate Fits(d: Drawn, identifiers: seq<Identifier>) {
    && |d.authzs| == |d.challenges| == |d.tokens| == |identifiers|
    && forall i :: 0 <= i < |identifiers| ==> |d.challenges[i]| == |d.tokens[i]| == |ChallengeKinds(identifiers[i].value)|
  }

  /** Random names never repeat. */
  ghost predicate Fresh(st: Objects, d: Drawn) {
    && d.order !in st.orders
    && (forall i :: 0 <= i < |d.authzs| ==> d.authzs[i] !in st.authzs)
    && (forall i, j :: 0 <= i < j < |d.authzs| ==> d.authzs[i] != d.authzs[j])
    && (forall i, j :: 0 <= i < |d.challenges| && 0 <= j < |d.challenges[i]| ==> d.challenges[i][j] !in st.challenges)
  }

  /** The call that ends a request early, by its turn among the request's reads, writes or
      random draws, or the audit record at its end. A failed write has reached the store or not. */
  datatype Fault = NoFault | GetFails(turn: nat) | PutFails(turn: nat, reached: bool) | DrawFails(turn: nat) | AuditFails

  predicate FailsPut(f: Fault, turn: nat) {
    f.PutFails? && f.turn == turn
  }

  predicate ReachesStore(f: Fault, turn: nat) {
    !FailsPut(f, turn) || f.reached
  }

  // ---------- creating an order ----------

  function NewAuthz(account: Id, identifiers: seq<Identifier>, d: Drawn, i: nat): Authz
    requires Fits(d, identifiers) && i < |identifiers|
  {
    Authz(d.authzs[i], d.order, account, identifiers[i], Pending, d.challenges[i])
  }

  function NewChallenge(identifiers: seq<Identifier>, d: Drawn, i: nat, j: nat): Challenge
    requires Fits(d, identifiers) && i < |identifiers| && j < |d.challenges[i]|
  {
    Challenge(d.challenges[i][j], d.authzs[i], ChallengeKinds(identifiers[i].value)[j], d.tokens[i][j], Pending)
  }

  /** The first `n` authorizations stored. */
  function WithAuthzs(m: map<Id, Authz>, account: Id, identifiers: seq<Identifier>, d: Drawn, n: nat): map<Id, Authz>
    requires Fits(d, identifiers) && n <= |identifiers|
  {
    if n == 0 then m
    else WithAuthzs(m, account, identifiers, d, n - 1)[d.authzs[n - 1] := NewAuthz(account, identifiers, d, n - 1)]
  }

  /** The challenges of the first `n` authorizations stored, and the first `k` of the next. */
  function WithChallenges(m: map<Id, Challenge>, identifiers: seq<Identifier>, d: Drawn, n: nat, k: nat): map<Id, Challenge>
    requires Fits(d, identifiers) && n <= |identifiers| && (n < |identifiers| || k == 0) && (n < |identifiers| ==> k <= |d.challenges[n]|)
    decreases n, k
  {
    if k > 0 then WithChallenges(m, identifiers, d, n, k - 1)[d.challenges[n][k - 1] := NewChallenge(identifiers, d, n, k - 1)]
    else if n > 0 then WithChallenges(m, identifiers, d, n - 1, |d.challenges[n - 1]|)
    else m
  }

  function Refusal(identifiers: seq<Identifier>): Reply {
    if identifiers == [] then ErrMalformed
    else if identifiers[0].kind != "dns" then ErrUnsupportedIdentifier
    else if identifiers[0].value == "" then ErrMalformed
    else Refusal(identifiers[1..])
  }

  function NewOrder(account: Id, identifiers: seq<Identifier>, d: Drawn): Order {
    Order(d.order, account, Pending, identifiers, d.authzs, "")
  }

  function Ordered(st: Objects, account: Id, identifiers: seq<Identifier>, d: Drawn): Objects
    requires Fits(d, identifiers)
  {
    if !Acceptable(identifiers) then st
    else
      st.(orders := st.orders[d.order := NewOrder(account, identifiers, d)],
          authzs := WithAuthzs(st.authzs, account, identifiers, d, |identifiers|),
          challenges := WithChallenges(st.challenges, identifiers, d, |identifiers|, 0))
  }

  /** The challenges of the first `n` authorizations are stored with them, and the first `k`
      of the next; the order is not. */
  predicate OrderedUpTo(st: Objects, st': Objects, account: Id, identifiers: seq<Identifier>, d: Drawn, n: nat, k: nat) {
    && Fits(d, identifiers) && n <= |identifiers| && (n < |identifiers| || k == 0) && (n < |identifiers| ==> k <= |d.challenges[n]|)
    && st' == st.(authzs := WithAuthzs(st.authzs, account, identifiers, d, n), challenges := WithChallenges(st.challenges, identifiers, d, n, k))
  }

  /** How many writes, and how many draws, come before the `n`-th authorization's own. */
  function PutsBefore(d: Drawn, n: nat): nat
    requires n <= |d.challenges|
  {
    if n == 0 then 0 else PutsBefore(d, n - 1) + |d.challenges[n - 1]| + 1
  }

  function DrawsBefore(d: Drawn, n: nat): nat
    requires n <= |d.challenges|
  {
    if n == 0 then 1 else DrawsBefore(d, n - 1) + 1 + 2 * |d.challenges[n - 1]|
  }

  /** The draw of this turn is for the order, for authorization `n`, or for its `k`-th challenge. */
  predicate IsDrawnFor(d: Drawn, n: nat, k: nat, turn: nat)
    requires n <= |d.challenges|
  {
    || turn == n == k == 0
    || (n < |d.challenges| && k == 0 && turn == DrawsBefore(d, n))
    || (n < |d.challenges| && k < |d.challenges[n]| && DrawsBefore(d, n) + 2 * k < turn <= DrawsBefore(d, n) + 2 * k + 2)
  }

  /** The failing call comes right after what is stored up to `n` and `k`. */
  predicate StopsAt(f: Fault, d: Drawn, n: nat, k: nat)
    requires n <= |d.challenges|
  {
    match f
    case PutFails(turn, reached) => PutsBefore(d, n) + k == if reached then turn + 1 else turn
    case DrawFails(turn) => IsDrawnFor(d, n, k, turn)
    case _ => false
  }

  ghost predicate StoppedShort(st: Objects, st': Objects, account: Id, identifiers: seq<Identifier>, d: Drawn, f: Fault) {
    exists n, k :: OrderedUpTo(st, st', account, identifiers, d, n, k) && StopsAt(f, d, n, k)
  }

  /** What a failure while creating an order leaves: what was written before, in the order of
      writing, the order itself being last. */
  ghost predicate PartlyOrdered(st: Objects, st': Objects, account: Id, identifiers: seq<Identifier>, d: Drawn, f: Fault)
    requires Fits(d, identifiers)
  {
    && Acceptable(identifiers)
    && ((st' == Ordered(st, account, identifiers, d) && (f.AuditFails? || f == PutFails(PutsBefore(d, |identifiers|), true)))
        || StoppedShort(st, st', account, identifiers, d, f))
  }

  lemma Stops(st: Objects, st': Objects, account: Id, identifiers: seq<Identifier>, d: Drawn, f: Fault, n: nat, k: nat)
    requires OrderedUpTo(st, st', account, identifiers, d, n, k) && StopsAt(f, d, n, k)
    ensures StoppedShort(st, st', account, identifiers, d, f)
  {
  }

  lemma OneMoreChallenge(st: Objects, st': Objects, account: Id, identifiers: seq<Identifier>, d: Drawn, n: nat, k: nat)
    requires OrderedUpTo(st, st', account, identifiers, d, n, k) && n < |identifiers| && k < |d.challenges[n]|
    ensures var ch := NewChallenge(identifiers, d, n, k);
            OrderedUpTo(st, st'.(challenges := st'.challenges[ch.id := ch]), account, identifiers, d, n, k + 1)
  {
  }

  lemma OneMoreAuthz(st: Objects, st': Objects, account: Id, identifiers: seq<Identifier>, d: Drawn, n: nat)
    requires n < |identifiers| && Fits(d, identifiers) && OrderedUpTo(st, st', account, identifiers, d, n, |d.challenges[n]|)
    ensures var az := NewAuthz(account, identifiers, d, n);
            OrderedUpTo(st, st'.(authzs := st'.authzs[az.id := az]), account, identifiers, d, n + 1, 0)
  {
  }

  lemma LastComesTheOrder(st: Objects, st': Objects, account: Id, identifiers: seq<Identifier>, d: Drawn, f: Fault)
    requires Fits(d, identifiers) && Acceptable(identifiers) && OrderedUpTo(st, st', account, identifiers, d, |identifiers|, 0)
    ensures st'.(orders := st'.orders[d.order := NewOrder(account, identifiers, d)]) == Ordered(st, account, identifiers, d)
    ensures f == PutFails(PutsBefore(d, |identifiers|), false) ==> PartlyOrdered(st, st', account, identifiers, d, f)
  {
    if f == PutFails(PutsBefore(d, |identifiers|), false) {
      Stops(st, st', account, identifiers, d, f, |identifiers|, 0);
    }
  }

  // ---------- responding to a challenge ----------

  /** A challenge of an unknown kind cannot be passed. */
  predicate Passes(ch: Challenge, passes: bool) {
    passes && ch.kind in ["http-01", "dns-01"]
  }

  function Settled(passes: bool): Status {
    if passes then Valid else Invalid
  }

  /** The owner answers a pending challenge. */
  predicate Due(st: Objects, account: Id, id: Id, payload: Payload)
    requires id in st.challenges && st.challenges[id].authz in st.authzs
  {
    payload.Present? && st.challenges[id].status.Pending? && st.authzs[st.challenges[id].authz].account == account
  }

  /** Challenge and authorization are valid if the check passed and is of a kind the server
      knows, and otherwise invalid. */
  predicate SettledAs(st: Objects, ch: Challenge, az: Authz, passes: bool) {
    && ch.id in st.challenges && az.id in st.authzs
    && st.challenges[ch.id].status == st.authzs[az.id].status
    && (st.challenges[ch.id].status.Valid? <==> passes && (ch.kind == "http-01" || ch.kind == "dns-01"))
    && (st.challenges[ch.id].status.Valid? || st.challenges[ch.id].status.Invalid?)
    && st.challenges[ch.id] == ch.(status := st.challenges[ch.id].status)
    && st.authzs[az.id] == az.(status := st.authzs[az.id].status)
  }

  /** The store after a challenge and its authorization are settled, the order not yet. */
  function AfterCheck(st: Objects, ch: Challenge, az: Authz, passes: bool): Objects {
    var status := Settled(Passes(ch, passes));
    st.(challenges := st.challenges[ch.id := ch.(status := status)],
        authzs := st.authzs[az.id := az.(status := status)])
  }

  function WithOutcome(st: Objects, order: Id): (Objects, Reply) {
    if order !in st.orders then (st, ErrInternal)
    else
      var o := st.orders[order];
      if !o.status.Pending? then (st, Served)
      else
        match Tally(st.authzs, o.authzs, true)
        case Missing => (st, ErrInternal)
        case Decided(Pending) => (st, Served)
        case Decided(status) => (st.(orders := st.orders[order := o.(status := status)]), Served)
  }

  /** `passes` is what the network check of the challenge finds. */
  function Responded(st: Objects, account: Id, id: Id, payload: Payload, passes: bool): (Objects, Reply) {
    if id !in st.challenges then (st, ErrNotFound)
    else
      var ch := st.challenges[id];
      if ch.authz !in st.authzs then (st, ErrInternal)
      else
        var az := st.authzs[ch.authz];
        if az.account != account then (st, ErrUnauthorized)
        else if payload.Absent? || !ch.status.Pending? then (st, Served)
        else if payload.Malformed? then (st, ErrMalformed)
        else
          WithOutcome(AfterCheck(st, ch, az, passes), az.order)
  }

  /** The tally when the `k`-th look at an authorization fails. */
  function TallyFailing(authzs: map<Id, Authz>, ids: seq<Id>, allValid: bool, k: nat): Tallied {
    if ids == [] then Decided(if allValid then Ready else Pending)
    else if k == 0 || ids[0] !in authzs then Missing
    else
      match authzs[ids[0]].status
      case Invalid => Decided(Invalid)
      case Valid => TallyFailing(authzs, ids[1..], allValid, k - 1)
      case _ => TallyFailing(authzs, ids[1..], false, k - 1)
  }

  function TallyUnder(authzs: map<Id, Authz>, ids: seq<Id>, allValid: bool, f: Fault, turn: nat): Tallied {
    if f.GetFails? && f.turn >= turn then TallyFailing(authzs, ids, allValid, f.turn - turn) else Tally(authzs, ids, allValid)
  }

  /** Recomputing the order, the request's third read and third write. */
  function WithOutcomeUnder(st: Objects, order: Id, f: Fault): (Objects, Reply) {
    if f == GetFails(2) || order !in st.orders then (st, ErrInternal)
    else
      var o := st.orders[order];
      if !o.status.Pending? then (st, Served)
      else
        match TallyUnder(st.authzs, o.authzs, true, f, 3)
        case Missing => (st, ErrInternal)
        case Decided(Pending) => (st, Served)
        case Decided(status) =>
          (if ReachesStore(f, 2) then st.(orders := st.orders[order := o.(status := status)]) else st,
           if FailsPut(f, 2) then ErrInternal else Served)
  }

  /** The two writes before that. */
  function AfterCheckUnder(st: Objects, ch: Challenge, az: Authz, passes: bool, f: Fault): Objects {
    var status := Settled(Passes(ch, passes));
    st.(challenges := if ReachesStore(f, 0) then st.challenges[ch.id := ch.(status := status)] else st.challenges,
        authzs := if !FailsPut(f, 0) && ReachesStore(f, 1) then st.authzs[az.id := az.(status := status)] else st.authzs)
  }

  function CheckedUnder(st: Objects, ch: Challenge, az: Authz, passes: bool, f: Fault): (Objects, Reply) {
    var st1 := AfterCheckUnder(st, ch, az, passes, f);
    if FailsPut(f, 0) || FailsPut(f, 1) then (st1, ErrInternal) else WithOutcomeUnder(st1, az.order, f)
  }

  /** The response with one call failing. */
  function RespondedUnder(st: Objects, account: Id, id: Id, payload: Payload, passes: bool, f: Fault): (Objects, Reply) {
    if f == GetFails(0) then (st, ErrInternal)
    else if id !in st.challenges then (st, ErrNotFound)
    else
      var ch := st.challenges[id];
      if f == GetFails(1) || ch.authz !in st.authzs then (st, ErrInternal)
      else
        var az := st.authzs[ch.authz];
        if az.account != account then (st, ErrUnauthorized)
        else if payload.Absent? || !ch.status.Pending? then (st, Served)
        else if payload.Malformed? then (st, ErrMalformed)
        else CheckedUnder(st, ch, az, passes, f)
  }

  /** Without a fault it is the response. */
  lemma RespondedWithoutFault(st: Objects, account: Id, id: Id, payload: Payload, passes: bool)
    ensures RespondedUnder(st, account, id, payload, passes, NoFault) == Responded(st, account, id, payload, passes)
  {
  }

  // ---------- finalizing ----------

  predicate HasItsAuthzs(st: Objects, order: Id) {
    order in st.orders && forall i :: 0 <= i < |st.orders[order].authzs| ==> st.orders[order].authzs[i] in st.authzs
  }

  /** Nothing but a pending order's status changes: it is invalid if one of its authorizations
      is, ready if all are valid, and else still pending. */
  ghost predicate FollowsAuthzs(st: Objects, st': Objects, order: Id)
    requires HasItsAuthzs(st, order)
  {
    var o := st.orders[order];
    && st' == st.(orders := st'.orders) && order in st'.orders
    && st'.orders == st.orders[order := o.(status := st'.orders[order].status)]
    && var status := st'.orders[order].status;
       if !o.status.Pending? then status == o.status
       else
         && (status.Invalid? <==> exists i :: 0 <= i < |o.authzs| && st.authzs[o.authzs[i]].status.Invalid?)
         && (status.Ready? <==> forall i :: 0 <= i < |o.authzs| ==> st.authzs[o.authzs[i]].status.Valid?)
         && !status.Valid?
  }

  datatype Issuance = Refused | Issued(serial: string)

  ghost function Finalized(st: Objects, account: Id, id: Id, csr: Csr, issuance: Issuance, cert: Id): (Objects, Reply) {
    if id !in st.orders then (st, ErrNotFound)
    else
      var o := st.orders[id];
      if o.account != account then (st, ErrUnauthorized)
      else if !o.status.Ready? then (st, ErrOrderNotReady)
      else if !AsksExactlyFor(csr, o.identifiers) || issuance.Refused? then (st, ErrBadCsr)
      else (st.(orders := st.orders[o.id := o.(status := Valid, cert := cert)],
                certs := st.certs[cert := StoredCert(account, issuance.serial)]), Served)
  }

  /** The same with one call failing. */
  ghost function FinalizedUnder(st: Objects, account: Id, id: Id, csr: Csr, issuance: Issuance, cert: Id, f: Fault): (Objects, Reply) {
    if f == GetFails(0) then (st, ErrInternal)
    else if id !in st.orders then (st, ErrNotFound)
    else
      var o := st.orders[id];
      if o.account != account then (st, ErrUnauthorized)
      else if !o.status.Ready? then (st, ErrOrderNotReady)
      else if !AsksExactlyFor(csr, o.identifiers) || issuance.Refused? then (st, ErrBadCsr)
      else if f == DrawFails(0) then (st, ErrInternal)
      else
        var st1 := if ReachesStore(f, 0) then st.(certs := st.certs[cert := StoredCert(account, issuance.serial)]) else st;
        var st2 := if ReachesStore(f, 1) then st1.(orders := st1.orders[o.id := o.(status := Valid, cert := cert)]) else st1;
        if FailsPut(f, 0) then (st1, ErrInternal)
        else (st2, if FailsPut(f, 1) || f.AuditFails? then ErrInternal else Served)
  }

  lemma FinalizedWithoutFault(st: Objects, account: Id, id: Id, csr: Csr, issuance: Issuance, cert: Id)
    ensures FinalizedUnder(st, account, id, csr, issuance, cert, NoFault) == Finalized(st, account, id, csr, issuance, cert)
  {
  }

  // ---------- the server ----------

  method CheckIdentifiers(identifiers: seq<Identifier>) returns (reply: Reply)
    ensures reply == if Acceptable(identifiers) then Served else Refusal(identifiers)
    ensures (reply.Served? <==> Acceptable(identifiers)) && !reply.ErrInternal?
  {
    if |identifiers| == 0 {
      return ErrMalformed;
    }
    var i := 0;
    while i < |identifiers|
      invariant i <= |identifiers|
      invariant forall k :: 0 <= k < i ==> identifiers[k].kind == "dns" && identifiers[k].value != ""
      invariant i < |identifiers| ==> Refusal(identifiers) == Refusal(identifiers[i..])
    {
      if identifiers[i].kind != "dns" {
        return ErrUnsupportedIdentifier;
      }
      if identifiers[i].value == "" {
        return ErrMalformed;
      }
      assert identifiers[i..][1..] == identifiers[i + 1..];
      i := i + 1;
    }
    return Served;
  }

  class Server {
    var orders: map<Id, Order>
    var authzs: map<Id, Authz>
    var challenges: map<Id, Challenge>
    var certs: map<Id, StoredCert>

    ghost function Value(): Objects
      reads this
    {
      Objects(orders, authzs, challenges, certs)
    }

    constructor ()
      ensures Value() == Objects(map[], map[], map[], map[])
    {
      orders, authzs, challenges, certs := map[], map[], map[], map[];
    }

    method PutChallenge(ch: Challenge, f: Fault, turn: nat) returns (ok: bool)
      modifies this`challenges
      ensures Value() == if ReachesStore(f, turn) then old(Value()).(challenges := old(challenges)[ch.id := ch]) else old(Value())
      ensures ok <==> !FailsPut(f, turn)
    {
      if ReachesStore(f, turn) {
        challenges := challenges[ch.id := ch];
      }
      return !FailsPut(f, turn);
    }

    method PutAuthz(az: Authz, f: Fault, turn: nat) returns (ok: bool)
      modifies this`authzs
      ensures Value() == if ReachesStore(f, turn) then old(Value()).(authzs := old(authzs)[az.id := az]) else old(Value())
      ensures ok <==> !FailsPut(f, turn)
    {
      if ReachesStore(f, turn) {
        authzs := authzs[az.id := az];
      }
      return !FailsPut(f, turn);
    }

    method PutOrder(o: Order, f: Fault, turn: nat) returns (ok: bool)
      modifies this`orders
      ensures Value() == if ReachesStore(f, turn) then old(Value()).(orders := old(orders)[o.id := o]) else old(Value())
      ensures ok <==> !FailsPut(f, turn)
    {
      if ReachesStore(f, turn) {
        orders := orders[o.id := o];
      }
      return !FailsPut(f, turn);
    }

    /** Draws and stores one challenge of the `i`-th identifier. */
    method StoreChallenge(account: Id, identifiers: seq<Identifier>, i: nat, j: nat, kind: string, d: Drawn, f: Fault, ghost before: Objects,
                          draws: nat, puts: nat) returns (ok: bool)
      requires Fits(d, identifiers) && i < |identifiers| && j < |d.challenges[i]| && kind == ChallengeKinds(identifiers[i].value)[j]
      requires OrderedUpTo(before, Value(), account, identifiers, d, i, j)
      requires puts == PutsBefore(d, i) + j && draws == DrawsBefore(d, i) + 1 + 2 * j
      modifies this`challenges
      ensures ok ==> OrderedUpTo(before, Value(), account, identifiers, d, i, j + 1)
      ensures !ok ==> StoppedShort(before, Value(), account, identifiers, d, f)
    {
      if f == DrawFails(draws) || f == DrawFails(draws + 1) {
        Stops(before, Value(), account, identifiers, d, f, i, j);
        return false;
      }
      OneMoreChallenge(before, Value(), account, identifiers, d, i, j);
      ok := PutChallenge(Challenge(d.challenges[i][j], d.authzs[i], kind, d.tokens[i][j], Pending), f, puts);
      if !ok {
        Stops(before, Value(), account, identifiers, d, f, i, if f.reached then j + 1 else j);
      }
    }

    method NewChallenges(account: Id, identifiers: seq<Identifier>, i: nat, d: Drawn, f: Fault, ghost before: Objects, draws: nat, puts: nat)
      returns (ok: bool, challengeIds: seq<Id>)
      requires Fits(d, identifiers) && i < |identifiers| && OrderedUpTo(before, Value(), account, identifiers, d, i, 0)
      requires puts == PutsBefore(d, i) && draws == DrawsBefore(d, i) + 1
      modifies this`challenges
      ensures ok ==> challengeIds == d.challenges[i] && OrderedUpTo(before, Value(), account, identifiers, d, i, |d.challenges[i]|)
      ensures !ok ==> StoppedShort(before, Value(), account, identifiers, d, f)
    {
      var kinds := ["http-01", "dns-01"];
      if "*." <= identifiers[i].value {
        kinds := ["dns-01"];
      }
      assert kinds == ChallengeKinds(identifiers[i].value) && |kinds| == |d.challenges[i]|;
      challengeIds := [];
      for j := 0 to |kinds|
        invariant challengeIds == d.challenges[i][..j]
        invariant OrderedUpTo(before, Value(), account, identifiers, d, i, j)
      {
        ok := StoreChallenge(account, identifiers, i, j, kinds[j], d, f, before, draws + 2 * j, puts + j);
        if !ok {
          return;
        }
        challengeIds := challengeIds + [d.challenges[i][j]];
      }
      assert d.challenges[i][..|kinds|] == d.challenges[i];
      ok := true;
    }

    /** Draws and stores the `i`-th authorization after its challenges. */
    method NewAuthorization(account: Id, identifiers: seq<Identifier>, i: nat, d: Drawn, f: Fault, ghost before: Objects, draws: nat, puts: nat)
      returns (ok: bool, challengeIds: seq<Id>)
      requires Fits(d, identifiers) && i < |identifiers| && OrderedUpTo(before, Value(), account, identifiers, d, i, 0)
      requires puts == PutsBefore(d, i) && draws == DrawsBefore(d, i)
      modifies this`authzs, this`challenges
      ensures ok ==> challengeIds == d.challenges[i] && OrderedUpTo(before, Value(), account, identifiers, d, i + 1, 0)
      ensures !ok ==> StoppedShort(before, Value(), account, identifiers, d, f)
    {
      if f == DrawFails(draws) {
        Stops(before, Value(), account, identifiers, d, f, i, 0);
        return false, [];
      }
      ok, challengeIds := NewChallenges(account, identifiers, i, d, f, before, draws + 1, puts);
      if !ok {
        return;
      }
      OneMoreAuthz(before, Value(), account, identifiers, d, i);
      ok := PutAuthz(Authz(d.authzs[i], d.order, account, identifiers[i], Pending, challengeIds), f, puts + |challengeIds|);
      if !ok {
        Stops(before, Value(), account, identifiers, d, f, if f.reached then i + 1 else i, if f.reached then 0 else |challengeIds|);
        return false, [];
      }
    }

    method NewAuthorizations(account: Id, identifiers: seq<Identifier>, d: Drawn, f: Fault, ghost before: Objects)
      returns (ok: bool, authzIds: seq<Id>, puts: nat)
      requires Fits(d, identifiers) && OrderedUpTo(before, Value(), account, identifiers, d, 0, 0)
      modifies this`authzs, this`challenges
      ensures ok ==> authzIds == d.authzs && puts == PutsBefore(d, |identifiers|)
      ensures ok ==> OrderedUpTo(before, Value(), account, identifiers, d, |identifiers|, 0)
      ensures !ok ==> StoppedShort(before, Value(), account, identifiers, d, f)
    {
      authzIds, puts := [], 0;
      var draws := 1;
      for i := 0 to |identifiers|
        invariant authzIds == d.authzs[..i]
        invariant OrderedUpTo(before, Value(), account, identifiers, d, i, 0)
        invariant puts == PutsBefore(d, i) && draws == DrawsBefore(d, i)
      {
        var stored, challengeIds := NewAuthorization(account, identifiers, i, d, f, before, draws, puts);
        if !stored {
          return false, authzIds, puts;
        }
        draws, puts := draws + 1 + 2 * |challengeIds|, puts + |challengeIds| + 1;
        assert puts == PutsBefore(d, i + 1) && draws == DrawsBefore(d, i + 1);
        authzIds := authzIds + [d.authzs[i]];
      }
      assert d.authzs[..|identifiers|] == d.authzs;
      ok := true;
    }

    method HandleNewOrder(account: Id, identifiers: seq<Identifier>, d: Drawn, f: Fault) returns (reply: Reply)
      requires Fits(d, identifiers)
      modifies this`orders, this`authzs, this`challenges
      ensures reply.ErrInternal? ==> PartlyOrdered(old(Value()), Value(), account, identifiers, d, f)
      ensures !reply.ErrInternal? ==> Value() == Ordered(old(Value()), account, identifiers, d)
      ensures !reply.ErrInternal? ==> reply == if Acceptable(identifiers) then Created(NewOrder(account, identifiers, d)) else Refusal(identifiers)
    {
      reply := CheckIdentifiers(identifiers);
      if !reply.Served? {
        return;
      }
      ghost var before := Value();
      if f == DrawFails(0) {
        Stops(before, Value(), account, identifiers, d, f, 0, 0);
        return ErrInternal;
      }
      var stored, authzIds, puts := NewAuthorizations(account, identifiers, d, f, before);
      if !stored {
        return ErrInternal;
      }
      var order := Order(d.order, account, Pending, identifiers, authzIds, "");
      LastComesTheOrder(before, Value(), account, identifiers, d, f);
      stored := PutOrder(order, f, puts);
      return if stored && !f.AuditFails? then Created(order) else ErrInternal;
    }

    method HandleChallenge(account: Id, id: Id, payload: Payload, passes: bool, f: Fault) returns (reply: Reply)
      modifies this`orders, this`authzs, this`challenges
      ensures (Value(), reply) == RespondedUnder(old(Value()), account, id, payload, passes, f)
      ensures f.NoFault? && id in old(challenges) && old(challenges)[id].authz in old(authzs) && Due(old(Value()), account, id, payload) ==>
                SettledAs(Value(), old(challenges)[id], old(authzs)[old(challenges)[id].authz], passes)
      ensures f.NoFault? ==> (Value(), reply) == Responded(old(Value()), account, id, payload, passes)
    {
      RespondedWithoutFault(Value(), account, id, payload, passes);
      if f == GetFails(0) {
        return ErrInternal;
      }
      if id !in challenges {
        return ErrNotFound;
      }
      var ch := challenges[id];
      if f == GetFails(1) || ch.authz !in authzs {
        return ErrInternal;
      }
      var az := authzs[ch.authz];
      if az.account != account {
        return ErrUnauthorized;
      }
      if !payload.Absent? && ch.status.Pending? {
        if payload.Malformed? {
          return ErrMalformed;
        }
        reply := ValidateChallenge(az, ch, passes, f);
        return;
      }
      return Served;
    }

    method ValidateChallenge(az: Authz, ch: Challenge, passes: bool, f: Fault) returns (reply: Reply)
      modifies this`orders, this`authzs, this`challenges
      ensures (Value(), reply) == CheckedUnder(old(Value()), ch, az, passes, f)
      ensures f.NoFault? ==> SettledAs(Value(), ch, az, passes)
    {
      var failed := match ch.kind
        case "http-01" => !passes
        case "dns-01" => !passes
        case _ => true;
      var status := if failed then Invalid else Valid;
      var stored := PutChallenge(ch.(status := status), f, 0);
      if !stored {
        return ErrInternal;
      }
      stored := PutAuthz(az.(status := status), f, 1);
      if !stored {
        return ErrInternal;
      }
      reply := UpdateOrderStatus(az.order, f);
    }

    method UpdateOrderStatus(id: Id, f: Fault) returns (reply: Reply)
      modifies this`orders
      ensures (Value(), reply) == WithOutcomeUnder(old(Value()), id, f)
      ensures f.NoFault? && HasItsAuthzs(old(Value()), id) ==> reply.Served? && FollowsAuthzs(old(Value()), Value(), id)
    {
      if HasItsAuthzs(Value(), id) {
        OrderFollowsItsAuthzs(Value(), id);
      }
      if f == GetFails(2) || id !in orders {
        return ErrInternal;
      }
      var o := orders[id];
      if !o.status.Pending? {
        return Served;
      }
      var allValid := true;
      var ids := o.authzs;
      for i := 0 to |ids|
        invariant orders == old(orders)
        invariant f.GetFails? ==> f.turn < 3 || f.turn >= 3 + i
        invariant TallyUnder(authzs, ids[i..], allValid, f, 3 + i) == TallyUnder(authzs, ids, true, f, 3)
      {
        assert ids[i..][1..] == ids[i + 1..];
        if f == GetFails(3 + i) || ids[i] !in authzs {
          return ErrInternal;
        }
        match authzs[ids[i]].status
        case Invalid =>
          if ReachesStore(f, 2) {
            orders := orders[id := o.(status := Invalid)];
          }
          return if FailsPut(f, 2) then ErrInternal else Served;
        case Valid =>
        case _ => allValid := false;
      }
      if !allValid {
        return Served;
      }
      if ReachesStore(f, 2) {
        orders := orders[id := o.(status := Ready)];
      }
      return if FailsPut(f, 2) then ErrInternal else Served;
    }

    method HandleFinalize(account: Id, id: Id, csr: Csr, issuance: Issuance, cert: Id, f: Fault) returns (reply: Reply)
      modifies this`orders, this`certs
      ensures (Value(), reply) == FinalizedUnder(old(Value()), account, id, csr, issuance, cert, f)
      ensures f.NoFault? ==> (Value(), reply) == Finalized(old(Value()), account, id, csr, issuance, cert)
    {
      if f == GetFails(0) {
        return ErrInternal;
      }
      if id !in orders {
        return ErrNotFound;
      }
      var o := orders[id];
      if o.account != account {
        return ErrUnauthorized;
      }
      if !o.status.Ready? {
        return ErrOrderNotReady;
      }
      var exact := CheckCsrIdentifiers(csr, o.identifiers);
      if !exact || issuance.Refused? {
        return ErrBadCsr;
      }
      if f == DrawFails(0) {
        return ErrInternal;
      }
      if ReachesStore(f, 0) {
        certs := certs[cert := StoredCert(account, issuance.serial)];
      }
      if FailsPut(f, 0) {
        return ErrInternal;
      }
      o := o.(status := Valid, cert := cert);
      var stored := PutOrder(o, f, 1);
      return if stored && !f.AuditFails? then Served else ErrInternal;
    }
  }

  // ---------- what the answers mean ----------

  /** The first identifier that is refused decides the refusal. */
  lemma {:induction false} RefusalNamesTheFirstFlaw(identifiers: seq<Identifier>) returns (n: nat)
    requires !Acceptable(identifiers)
    ensures identifiers == [] ==> Refusal(identifiers) == ErrMalformed
    ensures identifiers != [] ==>
              && n < |identifiers| && (forall i :: 0 <= i < n ==> identifiers[i].kind == "dns" && identifiers[i].value != "")
              && (identifiers[n].kind != "dns" || identifiers[n].value == "")
              && Refusal(identifiers) == if identifiers[n].kind != "dns" then ErrUnsupportedIdentifier else ErrMalformed
  {
    n := 0;
    if identifiers != [] && identifiers[0].kind == "dns" && identifiers[0].value != "" {
      var rest := identifiers[1..];
      var k :| 0 <= k < |identifiers| && (identifiers[k].kind != "dns" || identifiers[k].value == "");
      assert rest[k - 1] == identifiers[k];
      n := RefusalNamesTheFirstFlaw(rest);
      n := n + 1;
      assert forall i :: 0 < i < n ==> identifiers[i] == rest[i - 1];
    }
  }

  /** No challenge id is drawn twice. */
  ghost predicate DrawnApart(d: Drawn) {
    forall i, j, k, l ::
      0 <= i < |d.challenges| && 0 <= j < |d.challenges[i]| && 0 <= k < |d.challenges| && 0 <= l < |d.challenges[k]| && (i, j) != (k, l) ==>
        d.challenges[i][j] != d.challenges[k][l]
  }

  predicate IsBefore(i: nat, j: nat, n: nat, k: nat) {
    i < n || (i == n && j < k)
  }

  lemma {:induction false} NewChallengeStored(m: map<Id, Challenge>, identifiers: seq<Identifier>, d: Drawn, n: nat, k: nat, i: nat, j: nat)
    requires Fits(d, identifiers) && DrawnApart(d)
    requires n <= |identifiers| && (n < |identifiers| || k == 0) && (n < |identifiers| ==> k <= |d.challenges[n]|)
    requires i < |identifiers| && j < |d.challenges[i]| && IsBefore(i, j, n, k)
    ensures var m' := WithChallenges(m, identifiers, d, n, k);
            d.challenges[i][j] in m' && m'[d.challenges[i][j]] == NewChallenge(identifiers, d, i, j)
    decreases n, k
  {
    if k > 0 {
      if (i, j) != (n, k - 1) {
        NewChallengeStored(m, identifiers, d, n, k - 1, i, j);
      }
    } else {
      NewChallengeStored(m, identifiers, d, n - 1, |d.challenges[n - 1]|, i, j);
    }
  }

  /** A new order is pending and has for each identifier one pending authorization, with a
      dns-01 challenge for a wildcard, and else an http-01 and a dns-01 challenge, each pending
      and with its own token. */
  lemma NewOrderOffers(st: Objects, account: Id, identifiers: seq<Identifier>, d: Drawn, i: nat)
    requires Fits(d, identifiers) && Fresh(st, d) && DrawnApart(d) && Acceptable(identifiers) && i < |identifiers|
    ensures var st' := Ordered(st, account, identifiers, d);
            && d.order in st'.orders && st'.orders[d.order] == Order(d.order, account, Pending, identifiers, d.authzs, "")
            && d.authzs[i] in st'.authzs
            && st'.authzs[d.authzs[i]] == Authz(d.authzs[i], d.order, account, identifiers[i], Pending, d.challenges[i])
            && |d.challenges[i]| == (if "*." <= identifiers[i].value then 1 else 2)
            && forall j :: 0 <= j < |d.challenges[i]| ==>
                 && d.challenges[i][j] in st'.challenges
                 && st'.challenges[d.challenges[i][j]]
                    == Challenge(d.challenges[i][j], d.authzs[i], if "*." <= identifiers[i].value || j == 1 then "dns-01" else "http-01",
                                 d.tokens[i][j], Pending)
  {
    NewAuthzStored(st.authzs, account, identifiers, d, |identifiers|, i);
    var st' := Ordered(st, account, identifiers, d);
    forall j | 0 <= j < |d.challenges[i]|
      ensures d.challenges[i][j] in st'.challenges && st'.challenges[d.challenges[i][j]] == NewChallenge(identifiers, d, i, j)
    {
      NewChallengeStored(st.challenges, identifiers, d, |identifiers|, 0, i, j);
    }
  }

  /** When a response is answered how, and that no other answer changes anything. */
  lemma ResponseAnswers(st: Objects, account: Id, id: Id, payload: Payload, passes: bool)
    ensures var (st', reply) := Responded(st, account, id, payload, passes);
            && (reply.ErrNotFound? <==> id !in st.challenges)
            && (id in st.challenges ==>
                  var known := st.challenges[id].authz in st.authzs;
                  && (!known ==> reply.ErrInternal?)
                  && (reply.ErrUnauthorized? <==> known && st.authzs[st.challenges[id].authz].account != account)
                  && (reply.ErrMalformed? <==> known && st.authzs[st.challenges[id].authz].account == account
                                               && payload.Malformed? && st.challenges[id].status.Pending?)
                  && (known && Due(st, account, id, payload) ==>
                        (reply.Served? || reply.ErrInternal?)
                        && SettledAs(AfterCheck(st, st.challenges[id], st.authzs[st.challenges[id].authz], passes),
                                     st.challenges[id], st.authzs[st.challenges[id].authz], passes))
                  && (!known || !Due(st, account, id, payload) ==> st' == st))
            && (id !in st.challenges ==> st' == st)
  {
  }

  /** A response that is interrupted leaves nothing, the settled challenge, that and the settled
      authorization, or all; and one that is not answered as failed has done all. */
  lemma InterruptedResponse(st: Objects, account: Id, id: Id, payload: Payload, passes: bool, f: Fault)
    ensures var (st', reply) := RespondedUnder(st, account, id, payload, passes, f);
            var (whole, answer) := Responded(st, account, id, payload, passes);
            && (!reply.ErrInternal? ==> st' == whole && reply == answer)
            && (reply.ErrInternal? ==>
                  st' == st || st' == whole
                  || (id in st.challenges && st.challenges[id].authz in st.authzs && Due(st, account, id, payload)
                      && var ch := st.challenges[id];
                         var all := AfterCheck(st, ch, st.authzs[ch.authz], passes);
                         st' == st.(challenges := all.challenges) || st' == all))
            && (f == GetFails(0) ==> reply.ErrInternal? && st' == st)
            && (id in st.challenges && st.challenges[id].authz in st.authzs && Due(st, account, id, payload) ==>
                  f == GetFails(1) || f == GetFails(2) || FailsPut(f, 0) || FailsPut(f, 1) ==> reply.ErrInternal?)
  {
    if id in st.challenges && st.challenges[id].authz in st.authzs {
      var ch := st.challenges[id];
      InterruptedOutcome(AfterCheck(st, ch, st.authzs[ch.authz], passes), st.authzs[ch.authz].order, f);
    }
  }

  /** Recomputing an order that is interrupted changes nothing or all, and says so. */
  lemma InterruptedOutcome(st: Objects, order: Id, f: Fault)
    ensures var (st', reply) := WithOutcomeUnder(st, order, f);
            var (whole, answer) := WithOutcome(st, order);
            && (!reply.ErrInternal? ==> st' == whole && reply == answer)
            && (reply.ErrInternal? ==> st' == st || st' == whole)
            && (f == GetFails(2) ==> reply.ErrInternal?)
            && (FailsPut(f, 2) && whole != st ==> reply.ErrInternal? && st' == if f.reached then whole else st)
            && (f.NoFault? || f.DrawFails? || f.AuditFails? ==> (st', reply) == (whole, answer))
  {
    if order in st.orders && f.GetFails? && f.turn >= 3 {
      FailingTallyIsNoOther(st.authzs, st.orders[order].authzs, true, f.turn - 3);
    }
  }

  /** A failing look at an authorization is never passed over. */
  lemma {:induction false} FailingLookIsReported(authzs: map<Id, Authz>, ids: seq<Id>, allValid: bool, k: nat)
    requires k < |ids| && forall i :: 0 <= i < k ==> ids[i] in authzs && !authzs[ids[i]].status.Invalid?
    ensures TallyFailing(authzs, ids, allValid, k).Missing?
  {
    if k > 0 {
      assert ids[0] in authzs;
      FailingLookIsReported(authzs, ids[1..], allValid, k - 1);
      FailingLookIsReported(authzs, ids[1..], false, k - 1);
    }
  }

  /** What a pending order becomes: invalid with its first invalid authorization, ready with the
      last valid one, and else it stays. */
  lemma OrderFollowsItsAuthzs(st: Objects, order: Id)
    requires HasItsAuthzs(st, order)
    ensures WithOutcomeUnder(st, order, NoFault) == WithOutcome(st, order)
    ensures WithOutcome(st, order).1.Served? && FollowsAuthzs(st, WithOutcome(st, order).0, order)
  {
    TallyDecidesOutcome(st.authzs, st.orders[order].authzs);
  }

  /** Failing one of its challenges makes a pending order invalid. */
  lemma FailureInvalidatesTheOrder(st: Objects, account: Id, id: Id, payload: Payload)
    requires Good(st) && id in st.challenges && st.challenges[id].authz in st.authzs && Due(st, account, id, payload)
    requires var az := st.authzs[st.challenges[id].authz]; az.id in st.orders[az.order].authzs && st.orders[az.order].status.Pending?
    ensures var az := st.authzs[st.challenges[id].authz];
            Responded(st, account, id, payload, false).0.orders[az.order].status.Invalid?
  {
    var ch := st.challenges[id];
    var az := st.authzs[ch.authz];
    var st1 := AfterCheck(st, ch, az, false);
    assert OrderGood(st, st.orders[az.order]);
    OrderFollowsItsAuthzs(st1, az.order);
    var i :| 0 <= i < |st.orders[az.order].authzs| && st.orders[az.order].authzs[i] == az.id;
    assert st1.authzs[st1.orders[az.order].authzs[i]].status.Invalid?;
  }

  lemma {:induction false} FailingTallyIsNoOther(authzs: map<Id, Authz>, ids: seq<Id>, allValid: bool, k: nat)
    ensures TallyFailing(authzs, ids, allValid, k).Missing? || TallyFailing(authzs, ids, allValid, k) == Tally(authzs, ids, allValid)
  {
    if ids != [] && k > 0 {
      FailingTallyIsNoOther(authzs, ids[1..], allValid, k - 1);
      FailingTallyIsNoOther(authzs, ids[1..], false, k - 1);
    }
  }

  /** Finalizing is served exactly for the owner's ready order, a request for exactly its names
      and an issued certificate, which is then stored and the order valid; any other answer
      names what was wrong first, and changes nothing. */
  lemma FinalizeAnswers(st: Objects, account: Id, id: Id, csr: Csr, issuance: Issuance, cert: Id)
    ensures var (st', reply) := Finalized(st, account, id, csr, issuance, cert);
            && (reply.ErrNotFound? <==> id !in st.orders)
            && (reply.ErrUnauthorized? <==> id in st.orders && st.orders[id].account != account)
            && (reply.ErrOrderNotReady? <==> id in st.orders && st.orders[id].account == account && !st.orders[id].status.Ready?)
            && (reply.ErrBadCsr? <==> id in st.orders && st.orders[id].account == account && st.orders[id].status.Ready?
                                      && (!AsksExactlyFor(csr, st.orders[id].identifiers) || issuance.Refused?))
            && (if reply.Served? then
                  var o := st.orders[id];
                  && issuance.Issued? && st' == st.(orders := st'.orders, certs := st'.certs)
                  && o.id in st'.orders && st'.orders[o.id] == Order(o.id, o.account, Valid, o.identifiers, o.authzs, cert)
                  && cert in st'.certs && st'.certs[cert] == StoredCert(account, issuance.serial)
                else st' == st)
            && !reply.ErrInternal? && !reply.ErrMalformed? && !reply.Created? && !reply.ErrUnsupportedIdentifier?
  {
  }

  /** An interrupted one leaves nothing, the certificate, or all. */
  lemma InterruptedFinalize(st: Objects, account: Id, id: Id, csr: Csr, issuance: Issuance, cert: Id, f: Fault)
    ensures var (st', reply) := FinalizedUnder(st, account, id, csr, issuance, cert, f);
            var (whole, answer) := Finalized(st, account, id, csr, issuance, cert);
            && (!reply.ErrInternal? ==> st' == whole && reply == answer)
            && (reply.ErrInternal? ==> st' in {st, st.(certs := whole.certs), whole})
            && (f == GetFails(0) ==> reply.ErrInternal?)
            && (answer.Served? ==>
                  && (f == GetFails(0) || f == DrawFails(0) ==> reply.ErrInternal? && st' == st)
                  && (FailsPut(f, 0) ==> reply.ErrInternal? && st' == if f.reached then st.(certs := whole.certs) else st)
                  && (FailsPut(f, 1) ==> reply.ErrInternal? && st' == if f.reached then whole else st.(certs := whole.certs))
                  && (f.AuditFails? ==> reply.ErrInternal? && st' == whole))
  {
  }

  // ---------- what every request keeps ----------

  /** The moves of RFC 8555 section 7.1.6 that the server makes. */
  predicate Move(a: Status, b: Status) {
    (a.Pending? && (b.Ready? || b.Invalid?)) || (a.Ready? && b.Valid?)
  }

  /** An order changes only by one move at a time, and nothing but its status, and its
      certificate when it becomes valid, ever changes. */
  predicate Moves(a: Order, b: Order) {
    || a == b
    || (Move(a.status, b.status) && b == a.(status := b.status, cert := b.cert) && (b.status.Valid? || b.cert == a.cert))
  }

  ghost predicate OwnsAuthzs(st: Objects, o: Order) {
    && |o.authzs| == |o.identifiers| > 0
    && forall i :: 0 <= i < |o.authzs| ==>
         && o.authzs[i] in st.authzs
         && var az := st.authzs[o.authzs[i]];
            az.order == o.id && az.account == o.account && az.identifier == o.identifiers[i]
  }

  ghost predicate OrderGood(st: Objects, o: Order) {
    && OwnsAuthzs(st, o)
    && (o.cert != "" <==> o.status.Valid?)
    && (o.status.Valid? ==> o.cert in st.certs && st.certs[o.cert].account == o.account)
    && (o.status.Pending? ==> Outcome(st.authzs, o.authzs).Pending?)
  }

  /** A certificate is named exactly by valid orders; a pending order has no invalid
      authorization and at least one that is not yet valid. */
  ghost predicate Good(st: Objects) {
    && (forall id :: id in st.orders ==> st.orders[id].id == id && OrderGood(st, st.orders[id]))
    && (forall id :: id in st.authzs ==> st.authzs[id].id == id)
    && (forall id :: id in st.authzs ==> st.authzs[id].order in st.orders)
    && (forall id :: id in st.challenges ==> st.challenges[id].id == id && st.challenges[id].authz in st.authzs)
  }

  lemma {:induction false} NewAuthzStored(m: map<Id, Authz>, account: Id, identifiers: seq<Identifier>, d: Drawn, n: nat, i: nat)
    requires Fits(d, identifiers) && i < n <= |identifiers|
    requires forall j, k :: 0 <= j < k < |d.authzs| ==> d.authzs[j] != d.authzs[k]
    ensures var m' := WithAuthzs(m, account, identifiers, d, n);
            d.authzs[i] in m' && m'[d.authzs[i]] == NewAuthz(account, identifiers, d, i)
  {
    if i < n - 1 {
      NewAuthzStored(m, account, identifiers, d, n - 1, i);
    }
  }

  lemma {:induction false} OldAuthzsKept(m: map<Id, Authz>, account: Id, identifiers: seq<Identifier>, d: Drawn, n: nat, id: Id)
    requires Fits(d, identifiers) && n <= |identifiers|
    requires forall i :: 0 <= i < |d.authzs| ==> d.authzs[i] !in m
    ensures var m' := WithAuthzs(m, account, identifiers, d, n);
            if id in m then id in m' && m'[id] == m[id]
            else id in m' ==> m'[id].id == id && m'[id].order == d.order
  {
    if n > 0 {
      OldAuthzsKept(m, account, identifiers, d, n - 1, id);
    }
  }

  lemma {:induction false} NewChallengesBelong(m: map<Id, Challenge>, identifiers: seq<Identifier>, d: Drawn, n: nat, k: nat, id: Id)
    requires Fits(d, identifiers) && n <= |identifiers| && (n < |identifiers| || k == 0) && (n < |identifiers| ==> k <= |d.challenges[n]|)
    ensures var m' := WithChallenges(m, identifiers, d, n, k);
            id in m' ==> (id in m && m'[id] == m[id]) || (m'[id].id == id && exists i :: 0 <= i < |d.authzs| && m'[id].authz == d.authzs[i])
    decreases n, k
  {
    if k > 0 {
      NewChallengesBelong(m, identifiers, d, n, k - 1, id);
    } else if n > 0 {
      NewChallengesBelong(m, identifiers, d, n - 1, |d.challenges[n - 1]|, id);
    }
  }

  /** An order stays good while its authorizations, and its certificate, stay as they are. */
  lemma UntouchedOrderStaysGood(st: Objects, st': Objects, o: Order)
    requires OrderGood(st, o)
    requires forall i :: 0 <= i < |o.authzs| ==> o.authzs[i] in st'.authzs && st'.authzs[o.authzs[i]] == st.authzs[o.authzs[i]]
    requires o.status.Valid? ==> o.cert in st'.certs && st'.certs[o.cert] == st.certs[o.cert]
    ensures OrderGood(st', o)
  {
    if o.status.Pending? {
      TallyDecidesOutcome(st.authzs, o.authzs);
      forall i | 0 <= i < |o.authzs| ensures !st'.authzs[o.authzs[i]].status.Invalid? {
        assert !st.authzs[o.authzs[i]].status.Invalid?;
      }
      var i :| 0 <= i < |o.authzs| && !st.authzs[o.authzs[i]].status.Valid?;
      assert !st'.authzs[o.authzs[i]].status.Valid?;
    }
  }

  lemma NewOrderIsGood(st: Objects, account: Id, identifiers: seq<Identifier>, d: Drawn)
    requires Fits(d, identifiers) && Fresh(st, d) && Acceptable(identifiers)
    ensures OrderGood(Ordered(st, account, identifiers, d), NewOrder(account, identifiers, d))
  {
    var st' := Ordered(st, account, identifiers, d);
    forall i | 0 <= i < |d.authzs|
      ensures d.authzs[i] in st'.authzs && st'.authzs[d.authzs[i]] == NewAuthz(account, identifiers, d, i)
    {
      NewAuthzStored(st.authzs, account, identifiers, d, |identifiers|, i);
    }
    assert st'.authzs[d.authzs[0]].status.Pending?;
  }

  lemma OldOrderStaysGood(st: Objects, account: Id, identifiers: seq<Identifier>, d: Drawn, o: Order)
    requires Fits(d, identifiers) && Fresh(st, d) && OrderGood(st, o)
    ensures OrderGood(Ordered(st, account, identifiers, d), o)
  {
    if Acceptable(identifiers) {
      var st' := Ordered(st, account, identifiers, d);
      forall i | 0 <= i < |o.authzs| ensures o.authzs[i] in st'.authzs && st'.authzs[o.authzs[i]] == st.authzs[o.authzs[i]] {
        OldAuthzsKept(st.authzs, account, identifiers, d, |identifiers|, o.authzs[i]);
      }
      UntouchedOrderStaysGood(st, st', o);
    }
  }

  lemma NewOrderKeepsGood(st: Objects, account: Id, identifiers: seq<Identifier>, d: Drawn)
    requires Good(st) && Fits(d, identifiers) && Fresh(st, d)
    ensures Good(Ordered(st, account, identifiers, d))
  {
    if Acceptable(identifiers) {
      var st', n := Ordered(st, account, identifiers, d), |identifiers|;
      forall id | id in st'.orders ensures OrderGood(st', st'.orders[id]) && st'.orders[id].id == id {
        if id == d.order {
          NewOrderIsGood(st, account, identifiers, d);
        } else {
          OldOrderStaysGood(st, account, identifiers, d, st.orders[id]);
        }
      }
      forall id | id in st'.authzs ensures st'.authzs[id].id == id && st'.authzs[id].order in st'.orders {
        OldAuthzsKept(st.authzs, account, identifiers, d, n, id);
      }
      forall id | id in st'.challenges ensures st'.challenges[id].id == id && st'.challenges[id].authz in st'.authzs {
        NewChallengesBelong(st.challenges, identifiers, d, n, 0, id);
        if i :| 0 <= i < |d.authzs| && st'.challenges[id].authz == d.authzs[i] {
          NewAuthzStored(st.authzs, account, identifiers, d, n, i);
        } else {
          OldAuthzsKept(st.authzs, account, identifiers, d, n, st'.challenges[id].authz);
        }
      }
    }
  }

  lemma OrderIsTallied(st: Objects, ch: Challenge, az: Authz, passes: bool)
    requires Good(st) && az.id in st.authzs && st.authzs[az.id] == az
    ensures var st1 := AfterCheck(st, ch, az, passes);
            var (st2, reply) := WithOutcome(st1, az.order);
            && reply.Served? && st2 == st1.(orders := st2.orders)
            && st2.orders.Keys == st.orders.Keys && (forall id :: id in st.orders && id != az.order ==> st2.orders[id] == st.orders[id])
            && Moves(st.orders[az.order], st2.orders[az.order])
            && OrderGood(st2, st2.orders[az.order])
  {
    var st1, o := AfterCheck(st, ch, az, passes), st.orders[az.order];
    assert OrderGood(st, o);
    assert OwnsAuthzs(st1, o);
    TallyDecidesOutcome(st1.authzs, o.authzs);
  }

  lemma OtherOrdersStayGood(st: Objects, ch: Challenge, az: Authz, passes: bool, st2: Objects, o: Order)
    requires OrderGood(st, o) && o.id != az.order && az.id in st.authzs && st.authzs[az.id] == az
    requires st2 == AfterCheck(st, ch, az, passes).(orders := st2.orders)
    ensures OrderGood(st2, o)
  {
    UntouchedOrderStaysGood(st, st2, o);
  }

  lemma RespondKeepsGood(st: Objects, account: Id, id: Id, payload: Payload, passes: bool)
    requires Good(st)
    ensures Good(Responded(st, account, id, payload, passes).0)
    ensures !Responded(st, account, id, payload, passes).1.ErrInternal?
  {
    if id in st.challenges && st.authzs[st.challenges[id].authz].account == account
       && payload.Present? && st.challenges[id].status.Pending? {
      var ch := st.challenges[id];
      var az := st.authzs[ch.authz];
      OrderIsTallied(st, ch, az, passes);
      var st2 := WithOutcome(AfterCheck(st, ch, az, passes), az.order).0;
      forall other | other in st2.orders ensures OrderGood(st2, st2.orders[other]) {
        if other != az.order {
          OtherOrdersStayGood(st, ch, az, passes, st2, st.orders[other]);
        }
      }
    }
  }

  lemma FinalizeKeepsGood(st: Objects, account: Id, id: Id, csr: Csr, issuance: Issuance, cert: Id)
    requires Good(st) && cert != "" && cert !in st.certs
    ensures Good(Finalized(st, account, id, csr, issuance, cert).0)
  {
    var st' := Finalized(st, account, id, csr, issuance, cert).0;
    forall other | other in st'.orders ensures OrderGood(st', st'.orders[other]) {
      assert OrderGood(st, st.orders[other]);
      if st'.orders[other] == st.orders[other] {
        UntouchedOrderStaysGood(st, st', st.orders[other]);
      }
    }
  }

  // ---------- runs of requests ----------

  datatype Request =
    | ForNewOrder(account: Id, identifiers: seq<Identifier>, drawn: Drawn)
    | ForChallenge(account: Id, id: Id, payload: Payload, passes: bool)
    | ForFinalize(account: Id, id: Id, csr: Csr, issuance: Issuance, cert: Id)

  ghost predicate Admissible(st: Objects, r: Request) {
    match r
    case ForNewOrder(_, identifiers, drawn) => Fits(drawn, identifiers) && Fresh(st, drawn)
    case ForChallenge(_, _, _, _) => true
    case ForFinalize(_, _, _, _, cert) => cert != "" && cert !in st.certs
  }

  ghost function Serve(st: Objects, r: Request): Objects
    requires Admissible(st, r)
  {
    match r
    case ForNewOrder(account, identifiers, drawn) => Ordered(st, account, identifiers, drawn)
    case ForChallenge(account, id, payload, passes) => Responded(st, account, id, payload, passes).0
    case ForFinalize(account, id, csr, issuance, cert) => Finalized(st, account, id, csr, issuance, cert).0
  }

  ghost predicate Behaviour(tr: seq<Objects>, requests: seq<Request>) {
    && |tr| == |requests| + 1
    && tr[0] == Objects(map[], map[], map[], map[])
    && forall i :: 0 <= i < |requests| ==> Admissible(tr[i], requests[i]) && tr[i + 1] == Serve(tr[i], requests[i])
  }

  lemma {:induction false} BehaviourKeepsGood(tr: seq<Objects>, requests: seq<Request>, i: nat)
    requires Behaviour(tr, requests) && i < |tr|
    ensures Good(tr[i])
  {
    if i > 0 {
      BehaviourKeepsGood(tr, requests, i - 1);
      var st := tr[i - 1];
      match requests[i - 1]
      case ForNewOrder(account, identifiers, drawn) => NewOrderKeepsGood(st, account, identifiers, drawn);
      case ForChallenge(account, id, payload, passes) => RespondKeepsGood(st, account, id, payload, passes);
      case ForFinalize(account, id, csr, issuance, cert) => FinalizeKeepsGood(st, account, id, csr, issuance, cert);
    }
  }

  // ---------- runs in which calls fail ----------

  /** What a request may leave when one of its calls fails, or none. */
  ghost predicate MayLeave(st: Objects, r: Request, st': Objects)
    requires Admissible(st, r)
  {
    match r
    case ForNewOrder(account, identifiers, drawn) =>
      st' == Ordered(st, account, identifiers, drawn) || exists f :: PartlyOrdered(st, st', account, identifiers, drawn, f)
    case ForChallenge(account, id, payload, passes) => exists f :: st' == RespondedUnder(st, account, id, payload, passes, f).0
    case ForFinalize(account, id, csr, issuance, cert) => exists f :: st' == FinalizedUnder(st, account, id, csr, issuance, cert, f).0
  }

  ghost predicate ServesSomehow(tr: seq<Objects>, requests: seq<Request>, i: nat)
    requires |tr| == |requests| + 1 && i < |requests|
  {
    Admissible(tr[i], requests[i]) && MayLeave(tr[i], requests[i], tr[i + 1])
  }

  ghost predicate FaultyBehaviour(tr: seq<Objects>, requests: seq<Request>) {
    && |tr| == |requests| + 1
    && tr[0] == Objects(map[], map[], map[], map[])
    && forall i :: 0 <= i < |requests| ==> ServesSomehow(tr, requests, i)
  }

  lemma BehaviourMayBeFaultless(tr: seq<Objects>, requests: seq<Request>)
    requires Behaviour(tr, requests)
    ensures FaultyBehaviour(tr, requests)
  {
    forall i | 0 <= i < |requests| ensures ServesSomehow(tr, requests, i) {
      match requests[i]
      case ForNewOrder(_, _, _) =>
      case ForChallenge(account, id, payload, passes) => RespondedWithoutFault(tr[i], account, id, payload, passes);
      case ForFinalize(account, id, csr, issuance, cert) => FinalizedWithoutFault(tr[i], account, id, csr, issuance, cert);
    }
  }

  ghost predicate OrderLasts(st: Objects, o: Order) {
    && OwnsAuthzs(st, o)
    && (o.cert != "" <==> o.status.Valid?)
    && (o.status.Valid? ==> o.cert in st.certs && st.certs[o.cert].account == o.account)
  }

  /** The rules that no failing call breaks: a stored order has its authorizations, and is valid
      exactly if it names a certificate, which is then stored and its account's. */
  ghost predicate Lasting(st: Objects) {
    && (forall id :: id in st.orders ==> st.orders[id].id == id && OrderLasts(st, st.orders[id]))
    && (forall id :: id in st.authzs ==> st.authzs[id].id == id)
  }

  /** Authorizations keep all but their status, and certificates stay. */
  predicate KeepsWhatOrdersNeed(st: Objects, st': Objects) {
    && (forall id :: id in st.authzs ==> id in st'.authzs && st'.authzs[id] == st.authzs[id].(status := st'.authzs[id].status))
    && (forall id :: id in st.certs ==> id in st'.certs && st'.certs[id] == st.certs[id])
  }

  lemma OrderStillLasts(st: Objects, st': Objects, o: Order)
    requires OrderLasts(st, o) && KeepsWhatOrdersNeed(st, st')
    ensures OrderLasts(st', o)
  {
  }

  lemma {:induction false} TallyNeverValidates(authzs: map<Id, Authz>, ids: seq<Id>, allValid: bool, f: Fault, turn: nat)
    ensures TallyUnder(authzs, ids, allValid, f, turn) != Decided(Valid)
  {
    if ids != [] && ids[0] in authzs {
      TallyNeverValidates(authzs, ids[1..], allValid, f, turn + 1);
      TallyNeverValidates(authzs, ids[1..], false, f, turn + 1);
    }
  }

  /** Orders are neither lost nor made, and move without becoming valid. */
  predicate OrdersMove(before: map<Id, Order>, after: map<Id, Order>) {
    && after.Keys == before.Keys
    && forall id :: id in before ==> Moves(before[id], after[id]) && (after[id].status.Valid? ==> before[id].status.Valid?)
  }

  lemma OutcomeMoves(st: Objects, order: Id, f: Fault)
    ensures var st' := WithOutcomeUnder(st, order, f).0; st' == st.(orders := st'.orders) && OrdersMove(st.orders, st'.orders)
  {
    if order in st.orders {
      TallyNeverValidates(st.authzs, st.orders[order].authzs, true, f, 3);
    }
  }

  lemma CheckMoves(st: Objects, ch: Challenge, az: Authz, passes: bool, f: Fault)
    ensures var st' := CheckedUnder(st, ch, az, passes, f).0;
            OrdersMove(st.orders, st'.orders) && st'.authzs == AfterCheckUnder(st, ch, az, passes, f).authzs && st'.certs == st.certs
  {
    OutcomeMoves(AfterCheckUnder(st, ch, az, passes, f), az.order, f);
  }

  lemma CheckKeepsAuthzs(st: Objects, ch: Challenge, az: Authz, passes: bool, f: Fault)
    requires az.id in st.authzs && st.authzs[az.id] == az
    ensures KeepsWhatOrdersNeed(st, AfterCheckUnder(st, ch, az, passes, f))
    ensures AfterCheckUnder(st, ch, az, passes, f).authzs.Keys == st.authzs.Keys
  {
  }

  /** A response changes nothing but by a check. */
  lemma ResponseIsCheck(st: Objects, account: Id, id: Id, payload: Payload, passes: bool, f: Fault)
    ensures var st' := RespondedUnder(st, account, id, payload, passes, f).0;
            st' == st || (id in st.challenges && st.challenges[id].authz in st.authzs
                          && st' == CheckedUnder(st, st.challenges[id], st.authzs[st.challenges[id].authz], passes, f).0)
  {
  }

  /** It touches one order, by one move. */
  lemma RespondingMoves(st: Objects, account: Id, id: Id, payload: Payload, passes: bool, f: Fault)
    requires forall a :: a in st.authzs ==> st.authzs[a].id == a
    ensures var st' := RespondedUnder(st, account, id, payload, passes, f).0;
            KeepsWhatOrdersNeed(st, st') && OrdersMove(st.orders, st'.orders) && st'.authzs.Keys == st.authzs.Keys
  {
    ResponseIsCheck(st, account, id, payload, passes, f);
    if id in st.challenges && st.challenges[id].authz in st.authzs {
      var ch := st.challenges[id];
      CheckMoves(st, ch, st.authzs[ch.authz], passes, f);
      CheckKeepsAuthzs(st, ch, st.authzs[ch.authz], passes, f);
    }
  }

  lemma ResponseLasts(st: Objects, account: Id, id: Id, payload: Payload, passes: bool, f: Fault)
    requires Lasting(st)
    ensures var st' := RespondedUnder(st, account, id, payload, passes, f).0; Lasting(st') && OrdersMove(st.orders, st'.orders)
  {
    RespondingMoves(st, account, id, payload, passes, f);
    var st' := RespondedUnder(st, account, id, payload, passes, f).0;
    forall o | o in st'.orders ensures OrderLasts(st', st'.orders[o]) && st'.orders[o].id == o {
      OrderStillLasts(st, st', st.orders[o]);
    }
    forall a | a in st'.authzs ensures st'.authzs[a].id == a {
      assert a in st.authzs;
    }
  }

  /** What finalizing writes, and which of it. */
  lemma FinalizingWrites(st: Objects, account: Id, id: Id, csr: Csr, issuance: Issuance, cert: Id, f: Fault)
    ensures var st' := FinalizedUnder(st, account, id, csr, issuance, cert, f).0;
            || st' == st
            || (issuance.Issued? && id in st.orders && st.orders[id].account == account && st.orders[id].status.Ready?
                && st'.certs == st.certs[cert := StoredCert(account, issuance.serial)]
                && st' == st.(certs := st'.certs, orders := st'.orders)
                && (st'.orders == st.orders
                    || st'.orders == st.orders[st.orders[id].id := st.orders[id].(status := Valid, cert := cert)]))
  {
  }

  lemma FinalizingLasts(st: Objects, account: Id, id: Id, csr: Csr, issuance: Issuance, cert: Id, f: Fault)
    requires Lasting(st) && cert != "" && cert !in st.certs
    ensures var st' := FinalizedUnder(st, account, id, csr, issuance, cert, f).0;
            && Lasting(st') && st'.orders.Keys == st.orders.Keys
            && forall o :: o in st.orders ==> Moves(st.orders[o], st'.orders[o])
  {
    var st' := FinalizedUnder(st, account, id, csr, issuance, cert, f).0;
    FinalizingWrites(st, account, id, csr, issuance, cert, f);
    forall o | o in st'.orders ensures OrderLasts(st', st'.orders[o]) && st'.orders[o].id == o {
      OrderStillLasts(st, st', st.orders[o]);
    }
  }

  /** Creating an order leaves the stored ones alone, whatever of it gets done. */
  lemma OrderingLasts(st: Objects, st': Objects, account: Id, identifiers: seq<Identifier>, d: Drawn, n: nat)
    requires Lasting(st) && Fits(d, identifiers) && Fresh(st, d) && n <= |identifiers|
    requires st'.authzs == WithAuthzs(st.authzs, account, identifiers, d, n) && st'.certs == st.certs
    requires st'.orders == st.orders
             || (Acceptable(identifiers) && n == |identifiers| && st'.orders == st.orders[d.order := NewOrder(account, identifiers, d)])
    ensures Lasting(st') && forall o :: o in st.orders ==> o in st'.orders && st'.orders[o] == st.orders[o]
  {
    forall id | id in st'.authzs ensures st'.authzs[id].id == id && (id in st.authzs ==> st'.authzs[id] == st.authzs[id]) {
      OldAuthzsKept(st.authzs, account, identifiers, d, n, id);
    }
    forall id | id in st.authzs ensures id in st'.authzs {
      OldAuthzsKept(st.authzs, account, identifiers, d, n, id);
    }
    forall o | o in st'.orders ensures OrderLasts(st', st'.orders[o]) && st'.orders[o].id == o {
      if o in st.orders {
        OrderStillLasts(st, st', st.orders[o]);
      } else {
        forall i | 0 <= i < |d.authzs|
          ensures d.authzs[i] in st'.authzs && st'.authzs[d.authzs[i]] == NewAuthz(account, identifiers, d, i)
        {
          NewAuthzStored(st.authzs, account, identifiers, d, n, i);
        }
      }
    }
  }

  lemma NewOrderLasts(st: Objects, st': Objects, account: Id, identifiers: seq<Identifier>, d: Drawn, f: Fault)
    requires Lasting(st) && Fits(d, identifiers) && Fresh(st, d)
    requires st' == Ordered(st, account, identifiers, d) || PartlyOrdered(st, st', account, identifiers, d, f)
    ensures Lasting(st') && forall o :: o in st.orders ==> o in st'.orders && st'.orders[o] == st.orders[o]
  {
    if st' == Ordered(st, account, identifiers, d) {
      if Acceptable(identifiers) {
        OrderingLasts(st, st', account, identifiers, d, |identifiers|);
      }
    } else {
      var n, k :| OrderedUpTo(st, st', account, identifiers, d, n, k) && StopsAt(f, d, n, k);
      OrderingLasts(st, st', account, identifiers, d, n);
    }
  }

  /** Whichever of its calls fails, a request keeps these rules, loses no order, and changes an
      order by one allowed move or not at all. */
  lemma EachRequestMovesOrders(st: Objects, r: Request, st': Objects)
    requires Lasting(st) && Admissible(st, r) && MayLeave(st, r, st')
    ensures Lasting(st')
    ensures forall id :: id in st.orders ==> id in st'.orders && Moves(st.orders[id], st'.orders[id])
  {
    match r
    case ForNewOrder(account, identifiers, d) =>
      var f :| st' == Ordered(st, account, identifiers, d) || PartlyOrdered(st, st', account, identifiers, d, f);
      NewOrderLasts(st, st', account, identifiers, d, f);
    case ForChallenge(account, id, payload, passes) =>
      var f :| st' == RespondedUnder(st, account, id, payload, passes, f).0;
      ResponseLasts(st, account, id, payload, passes, f);
    case ForFinalize(account, id, csr, issuance, cert) =>
      var f :| st' == FinalizedUnder(st, account, id, csr, issuance, cert, f).0;
      FinalizingLasts(st, account, id, csr, issuance, cert, f);
  }

  lemma {:induction false} FaultyBehaviourKeepsLasting(tr: seq<Objects>, requests: seq<Request>, i: nat)
    requires FaultyBehaviour(tr, requests) && i < |tr|
    ensures Lasting(tr[i])
  {
    if i > 0 {
      FaultyBehaviourKeepsLasting(tr, requests, i - 1);
      assert ServesSomehow(tr, requests, i - 1);
      EachRequestMovesOrders(tr[i - 1], requests[i - 1], tr[i]);
    }
  }

  /** Reachable by moves. */
  predicate Follows(a: Order, b: Order) {
    && b == a.(status := b.status, cert := b.cert)
    && match a.status
       case Pending => b.status.Pending? ==> b == a
       case Ready => b.status.Valid? || b == a
       case _ => b == a
  }

  lemma MovesFollow(a: Order, b: Order, c: Order)
    ensures Follows(a, a)
    ensures Follows(a, b) && Moves(b, c) ==> Follows(a, c)
  {
  }

  lemma NextMoves(tr: seq<Objects>, requests: seq<Request>, k: nat, id: Id)
    requires FaultyBehaviour(tr, requests) && k < |requests| && id in tr[k].orders
    ensures id in tr[k + 1].orders && Moves(tr[k].orders[id], tr[k + 1].orders[id])
  {
    FaultyBehaviourKeepsLasting(tr, requests, k);
    assert ServesSomehow(tr, requests, k);
    EachRequestMovesOrders(tr[k], requests[k], tr[k + 1]);
  }

  /** Over any run, calls failing at will, an order is never lost, a settled order never
      changes, and a ready order can only become valid. */
  lemma {:induction false} OrdersOnlyAdvance(tr: seq<Objects>, requests: seq<Request>, i: nat, j: nat, id: Id)
    requires FaultyBehaviour(tr, requests) && i <= j < |tr| && id in tr[i].orders
    ensures id in tr[j].orders && Follows(tr[i].orders[id], tr[j].orders[id])
    decreases j
  {
    var o := tr[i].orders[id];
    if i < j {
      OrdersOnlyAdvance(tr, requests, i, j - 1, id);
      NextMoves(tr, requests, j - 1, id);
      MovesFollow(o, tr[j - 1].orders[id], tr[j].orders[id]);
    } else {
      MovesFollow(o, o, o);
    }
  }

  // ---------- readiness and the authorizations behind it ----------

  predicate AllValid(st: Objects, o: Order) {
    forall i :: 0 <= i < |o.authzs| ==> o.authzs[i] in st.authzs && st.authzs[o.authzs[i]].status.Valid?
  }

  lemma {:induction false} ReadyTallyMeansAllValid(authzs: map<Id, Authz>, ids: seq<Id>, allValid: bool, i: nat)
    requires Tally(authzs, ids, allValid) == Decided(Ready) && i < |ids|
    ensures allValid && ids[i] in authzs && authzs[ids[i]].status.Valid?
  {
    if |ids| > 1 {
      ReadyTallyMeansAllValid(authzs, ids[1..], allValid && authzs[ids[0]].status.Valid?, if i > 0 then i - 1 else 0);
    }
  }

  lemma TalliedReadyIsAllValid(st: Objects, id: Id)
    requires id in st.orders && st.orders[id].status.Pending? && id in WithOutcome(st, id).0.orders
    ensures WithOutcome(st, id).0.orders[id].status.Ready? ==> AllValid(WithOutcome(st, id).0, WithOutcome(st, id).0.orders[id])
  {
    var o := st.orders[id];
    if Tally(st.authzs, o.authzs, true) == Decided(Ready) {
      forall i | 0 <= i < |o.authzs| ensures o.authzs[i] in st.authzs && st.authzs[o.authzs[i]].status.Valid? {
        ReadyTallyMeansAllValid(st.authzs, o.authzs, true, i);
      }
    }
  }

  lemma OnlyTallyingMakesReady(st: Objects, r: Request, id: Id)
    requires Good(st) && Admissible(st, r) && id in st.orders && st.orders[id].status.Pending?
    requires id in Serve(st, r).orders && Serve(st, r).orders[id].status.Ready?
    ensures r.ForChallenge? && r.id in st.challenges && st.challenges[r.id].authz in st.authzs
    ensures var ch := st.challenges[r.id];
            var az := st.authzs[ch.authz];
            az.order == id && Serve(st, r) == WithOutcome(AfterCheck(st, ch, az, r.passes), id).0
  {
    if r.ForChallenge? && r.id in st.challenges {
      OrderIsTallied(st, st.challenges[r.id], st.authzs[st.challenges[r.id].authz], r.passes);
    }
  }

  /** An order becomes ready only while all its authorizations are valid. */
  lemma ReadyMeansAllValidAtFirst(st: Objects, r: Request, id: Id)
    requires Good(st) && Admissible(st, r) && id in st.orders && st.orders[id].status.Pending?
    requires id in Serve(st, r).orders && Serve(st, r).orders[id].status.Ready?
    ensures AllValid(Serve(st, r), Serve(st, r).orders[id])
  {
    OnlyTallyingMakesReady(st, r, id);
    var ch := st.challenges[r.id];
    TalliedReadyIsAllValid(AfterCheck(st, ch, st.authzs[ch.authz], r.passes), id);
  }

  /** The owner answers a pending challenge of the authorization. */
  predicate Answers(st: Objects, r: Request, authz: Id) {
    && r.ForChallenge? && r.payload.Present? && r.id in st.challenges
    && st.challenges[r.id].status.Pending? && st.challenges[r.id].authz == authz
    && authz in st.authzs && st.authzs[authz].account == r.account
  }

  /** The owner fails a pending challenge of one of the order's authorizations. */
  predicate Spoils(st: Objects, r: Request, o: Order) {
    && r.ForChallenge? && r.id in st.challenges && !Passes(st.challenges[r.id], r.passes)
    && st.challenges[r.id].authz in o.authzs && Answers(st, r, st.challenges[r.id].authz)
  }

  /** What a challenge response changes besides the order. */
  lemma ServedChallenge(st: Objects, r: Request)
    requires Good(st) && r.ForChallenge?
    ensures var st' := Serve(st, r);
            if r.id in st.challenges && Answers(st, r, st.challenges[r.id].authz) then
              var ch := st.challenges[r.id];
              var status := Settled(Passes(ch, r.passes));
              && st'.challenges == st.challenges[r.id := ch.(status := status)]
              && st'.authzs == st.authzs[ch.authz := st.authzs[ch.authz].(status := status)]
            else st'.challenges == st.challenges && st'.authzs == st.authzs
  {
    if r.id in st.challenges {
      var ch := st.challenges[r.id];
      OrderIsTallied(st, ch, st.authzs[ch.authz], r.passes);
    }
  }

  /** The status an authorization has after a request. */
  lemma AuthzAfter(st: Objects, r: Request, a: Id)
    requires Good(st) && Admissible(st, r) && a in st.authzs
    ensures a in Serve(st, r).authzs
    ensures Serve(st, r).authzs[a]
            == if Answers(st, r, a) then st.authzs[a].(status := Settled(Passes(st.challenges[r.id], r.passes))) else st.authzs[a]
  {
    match r
    case ForNewOrder(account, identifiers, d) =>
      if Acceptable(identifiers) {
        OldAuthzsKept(st.authzs, account, identifiers, d, |identifiers|, a);
      }
    case ForChallenge(_, _, _, _) => ServedChallenge(st, r);
    case ForFinalize(_, _, _, _, _) =>
  }

  /** One request leaves the authorizations of an order all valid exactly when it is not its
      owner's failing answer to a pending challenge of one of them. */
  lemma ValidityIsLostExactlyByFailing(st: Objects, r: Request, o: Order)
    requires Good(st) && Admissible(st, r) && AllValid(st, o)
    ensures AllValid(Serve(st, r), o) <==> !Spoils(st, r, o)
  {
    forall i | 0 <= i < |o.authzs|
      ensures o.authzs[i] in Serve(st, r).authzs
      ensures Serve(st, r).authzs[o.authzs[i]].status.Valid? <==> !(Answers(st, r, o.authzs[i]) && !Passes(st.challenges[r.id], r.passes))
    {
      AuthzAfter(st, r, o.authzs[i]);
    }
    if Spoils(st, r, o) {
      var i :| 0 <= i < |o.authzs| && o.authzs[i] == st.challenges[r.id].authz;
      assert !Serve(st, r).authzs[o.authzs[i]].status.Valid?;
    }
  }

  // An authorization has at most two challenges, so it cannot be failed and then passed again.

  predicate Offered(st: Objects, id: Id)
    requires id in st.challenges
  {
    st.challenges[id].authz in st.authzs && id in st.authzs[st.challenges[id].authz].challenges
  }

  /** A settled authorization has a settled challenge. */
  ghost predicate HasAnswer(st: Objects, a: Id) {
    exists c :: c in st.challenges && st.challenges[c].authz == a && !st.challenges[c].status.Pending?
  }

  ghost predicate TwoChances(st: Objects) {
    && (forall id :: id in st.challenges ==> Offered(st, id))
    && forall a :: a in st.authzs ==> |st.authzs[a].challenges| <= 2 && (!st.authzs[a].status.Pending? ==> HasAnswer(st, a))
  }

  ghost predicate Exhausted(st: Objects, a: Id) {
    forall c :: c in st.challenges && st.challenges[c].authz == a ==> !st.challenges[c].status.Pending?
  }

  /** The challenge that a request finds under an id it had before, or has from now on. */
  lemma ChallengeAfter(st: Objects, r: Request, c: Id)
    requires Good(st) && Admissible(st, r)
    ensures c in st.challenges ==> c in Serve(st, r).challenges
    ensures c in st.challenges ==>
              Serve(st, r).challenges[c] == if r.ForChallenge? && r.id == c && Answers(st, r, st.challenges[c].authz)
                                            then st.challenges[c].(status := Settled(Passes(st.challenges[c], r.passes)))
                                            else st.challenges[c]
    ensures c in Serve(st, r).challenges && c !in st.challenges ==>
              && r.ForNewOrder? && Acceptable(r.identifiers)
              && exists i :: 0 <= i < |r.drawn.authzs| && Serve(st, r).challenges[c].authz == r.drawn.authzs[i] && c in r.drawn.challenges[i]
  {
    match r
    case ForNewOrder(account, identifiers, d) =>
      if Acceptable(identifiers) {
        NewChallengesAreDrawn(st.challenges, identifiers, d, |identifiers|, 0, c);
      }
    case ForChallenge(_, _, _, _) => ServedChallenge(st, r);
    case ForFinalize(_, _, _, _, _) =>
  }

  lemma {:induction false} NewChallengesAreDrawn(m: map<Id, Challenge>, identifiers: seq<Identifier>, d: Drawn, n: nat, k: nat, c: Id)
    requires Fits(d, identifiers) && n <= |identifiers| && (n < |identifiers| || k == 0) && (n < |identifiers| ==> k <= |d.challenges[n]|)
    requires forall i, j :: 0 <= i < |d.challenges| && 0 <= j < |d.challenges[i]| ==> d.challenges[i][j] !in m
    ensures var m' := WithChallenges(m, identifiers, d, n, k);
            if c in m then c in m' && m'[c] == m[c]
            else c in m' ==> exists i :: 0 <= i < |d.authzs| && m'[c].authz == d.authzs[i] && c in d.challenges[i]
    decreases n, k
  {
    if k > 0 {
      NewChallengesAreDrawn(m, identifiers, d, n, k - 1, c);
      assert d.challenges[n][k - 1] in d.challenges[n];
    } else if n > 0 {
      NewChallengesAreDrawn(m, identifiers, d, n - 1, |d.challenges[n - 1]|, c);
    }
  }

  lemma NewAuthzsHaveTwo(st: Objects, r: Request, a: Id)
    requires Good(st) && Admissible(st, r) && a in Serve(st, r).authzs && a !in st.authzs
    ensures r.ForNewOrder? && Acceptable(r.identifiers) && Serve(st, r).authzs[a].status.Pending? && |Serve(st, r).authzs[a].challenges| <= 2
  {
    match r
    case ForNewOrder(account, identifiers, d) => AddedAuthzs(st.authzs, account, identifiers, d, |identifiers|, a);
    case ForChallenge(_, _, _, _) => ServedChallenge(st, r);
    case ForFinalize(_, _, _, _, _) =>
  }

  lemma {:induction false} AddedAuthzs(m: map<Id, Authz>, account: Id, identifiers: seq<Identifier>, d: Drawn, n: nat, a: Id)
    requires Fits(d, identifiers) && n <= |identifiers| && a !in m && a in WithAuthzs(m, account, identifiers, d, n)
    ensures var az := WithAuthzs(m, account, identifiers, d, n)[a]; az.status.Pending? && |az.challenges| <= 2
  {
    if n > 0 && a != d.authzs[n - 1] {
      AddedAuthzs(m, account, identifiers, d, n - 1, a);
    }
  }

  lemma OfferedAfter(st: Objects, r: Request, c: Id)
    requires Good(st) && TwoChances(st) && Admissible(st, r) && c in Serve(st, r).challenges
    ensures Offered(Serve(st, r), c)
  {
    ChallengeAfter(st, r, c);
    if c in st.challenges {
      assert Offered(st, c);
      AuthzAfter(st, r, st.challenges[c].authz);
    } else {
      var d := r.drawn;
      var i :| 0 <= i < |d.authzs| && Serve(st, r).challenges[c].authz == d.authzs[i] && c in d.challenges[i];
      NewAuthzStored(st.authzs, r.account, r.identifiers, d, |r.identifiers|, i);
    }
  }

  lemma AnswerAfter(st: Objects, r: Request, a: Id)
    requires Good(st) && TwoChances(st) && Admissible(st, r) && a in st.authzs
    requires a in Serve(st, r).authzs && !Serve(st, r).authzs[a].status.Pending?
    ensures HasAnswer(Serve(st, r), a)
  {
    AuthzAfter(st, r, a);
    if Answers(st, r, a) {
      ChallengeAfter(st, r, r.id);
      assert !Serve(st, r).challenges[r.id].status.Pending?;
    } else {
      var c :| c in st.challenges && st.challenges[c].authz == a && !st.challenges[c].status.Pending?;
      ChallengeAfter(st, r, c);
    }
  }

  lemma StepKeepsTwoChances(st: Objects, r: Request)
    requires Good(st) && TwoChances(st) && Admissible(st, r)
    ensures TwoChances(Serve(st, r))
  {
    var st' := Serve(st, r);
    forall c | c in st'.challenges ensures Offered(st', c) {
      OfferedAfter(st, r, c);
    }
    forall a | a in st'.authzs ensures |st'.authzs[a].challenges| <= 2 && (!st'.authzs[a].status.Pending? ==> HasAnswer(st', a)) {
      if a in st.authzs {
        AuthzAfter(st, r, a);
        if !st'.authzs[a].status.Pending? {
          AnswerAfter(st, r, a);
        }
      } else {
        NewAuthzsHaveTwo(st, r, a);
      }
    }
  }

  /** Failing the second challenge of a valid authorization leaves it none to pass. */
  lemma FailingExhausts(st: Objects, r: Request, a: Id)
    requires Good(st) && TwoChances(st) && Admissible(st, r) && Answers(st, r, a) && !st.authzs[a].status.Pending?
    ensures Exhausted(Serve(st, r), a)
  {
    var st' := Serve(st, r);
    var first :| first in st.challenges && st.challenges[first].authz == a && !st.challenges[first].status.Pending?;
    assert Offered(st, first) && Offered(st, r.id);
    forall c | c in st'.challenges && st'.challenges[c].authz == a ensures !st'.challenges[c].status.Pending? {
      ChallengeAfter(st, r, c);
      assert Offered(st, c);
      AmongTwo(st.authzs[a].challenges, first, r.id, c);
    }
  }

  lemma AmongTwo(s: seq<Id>, a: Id, b: Id, c: Id)
    requires |s| <= 2 && a in s && b in s && c in s && a != b
    ensures c == a || c == b
  {
  }

  lemma ExhaustedForGood(st: Objects, r: Request, a: Id)
    requires Good(st) && Admissible(st, r) && a in st.authzs && Exhausted(st, a)
    ensures Exhausted(Serve(st, r), a) && a in Serve(st, r).authzs && Serve(st, r).authzs[a] == st.authzs[a]
  {
    AuthzAfter(st, r, a);
    var st' := Serve(st, r);
    forall c | c in st'.challenges && st'.challenges[c].authz == a ensures !st'.challenges[c].status.Pending? {
      ChallengeAfter(st, r, c);
    }
  }

  lemma {:induction false} BehaviourKeepsTwoChances(tr: seq<Objects>, requests: seq<Request>, i: nat)
    requires Behaviour(tr, requests) && i < |tr|
    ensures TwoChances(tr[i])
  {
    if i > 0 {
      BehaviourKeepsTwoChances(tr, requests, i - 1);
      BehaviourKeepsGood(tr, requests, i - 1);
      StepKeepsTwoChances(tr[i - 1], requests[i - 1]);
    }
  }

  /** Once failed like this an authorization stays invalid. */
  ghost predicate LostForGood(st: Objects, o: Order) {
    exists a :: a in o.authzs && a in st.authzs && !st.authzs[a].status.Valid? && Exhausted(st, a)
  }

  lemma SpoilingLosesForGood(st: Objects, r: Request, o: Order)
    requires Good(st) && TwoChances(st) && Admissible(st, r) && AllValid(st, o) && Spoils(st, r, o)
    ensures LostForGood(Serve(st, r), o)
  {
    var a := st.challenges[r.id].authz;
    var i :| 0 <= i < |o.authzs| && o.authzs[i] == a;
    assert st.authzs[o.authzs[i]].status.Valid?;
    AuthzAfter(st, r, a);
    FailingExhausts(st, r, a);
  }

  lemma LossLasts(st: Objects, r: Request, o: Order)
    requires Good(st) && Admissible(st, r) && LostForGood(st, o)
    ensures LostForGood(Serve(st, r), o) && !AllValid(Serve(st, r), o)
  {
    var a :| a in o.authzs && a in st.authzs && !st.authzs[a].status.Valid? && Exhausted(st, a);
    ExhaustedForGood(st, r, a);
    var i :| 0 <= i < |o.authzs| && o.authzs[i] == a;
    assert !Serve(st, r).authzs[o.authzs[i]].status.Valid?;
  }

  ghost predicate Unspoiled(tr: seq<Objects>, requests: seq<Request>, i: nat, j: nat, o: Order)
    requires Behaviour(tr, requests) && i <= j < |tr|
  {
    forall k :: i <= k < j ==> !Spoils(tr[k], requests[k], o)
  }

  lemma OneRequestSpoilsOrNot(tr: seq<Objects>, requests: seq<Request>, k: nat, o: Order)
    requires Behaviour(tr, requests) && k < |requests|
    ensures AllValid(tr[k], o) ==> (AllValid(tr[k + 1], o) <==> !Spoils(tr[k], requests[k], o))
    ensures AllValid(tr[k], o) && Spoils(tr[k], requests[k], o) ==> LostForGood(tr[k + 1], o)
    ensures LostForGood(tr[k], o) ==> LostForGood(tr[k + 1], o) && !AllValid(tr[k + 1], o)
  {
    BehaviourKeepsGood(tr, requests, k);
    BehaviourKeepsTwoChances(tr, requests, k);
    var st, r := tr[k], requests[k];
    assert Admissible(st, r) && tr[k + 1] == Serve(st, r);
    if AllValid(st, o) {
      ValidityIsLostExactlyByFailing(st, r, o);
      if Spoils(st, r, o) {
        SpoilingLosesForGood(st, r, o);
      }
    }
    if LostForGood(st, o) {
      LossLasts(st, r, o);
    }
  }

  /** Over any run, an order whose authorizations were all valid, as when it became ready,
      has them all valid at a later time exactly when its owner has not failed a pending
      challenge of one of them in between. The order itself stays ready all the same. */
  lemma {:induction false} AuthorisedForAsLongAsUnspoiled(tr: seq<Objects>, requests: seq<Request>, i: nat, j: nat, o: Order)
    requires Behaviour(tr, requests) && i <= j < |tr| && AllValid(tr[i], o)
    ensures AllValid(tr[j], o) <==> Unspoiled(tr, requests, i, j, o)
    ensures !Unspoiled(tr, requests, i, j, o) ==> LostForGood(tr[j], o)
    decreases j
  {
    if i < j {
      AuthorisedForAsLongAsUnspoiled(tr, requests, i, j - 1, o);
      OneRequestSpoilsOrNot(tr, requests, j - 1, o);
      assert Unspoiled(tr, requests, i, j, o) <==> Unspoiled(tr, requests, i, j - 1, o) && !Spoils(tr[j - 1], requests[j - 1], o);
    }
  }

  // ---------- a run in which a ready order loses an authorization ----------

  function ExampleNames(): Drawn {
    Drawn("o", ["z"], [["c", "d"]], [["t", "u"]])
  }

  function ExampleChallenge(dns: bool, status: Status): Challenge {
    if dns then Challenge("d", "z", "dns-01", "u", status) else Challenge("c", "z", "http-01", "t", status)
  }

  /** An order for one name, its authorization, and its two challenges. */
  function Example(order: Status, authz: Status, http: Status, dns: Status): Objects {
    Objects(map["o" := Order("o", "me", order, [Identifier("dns", "h")], ["z"], "")],
            map["z" := Authz("z", "o", "me", Identifier("dns", "h"), authz, ["c", "d"])],
            map["c" := ExampleChallenge(false, http), "d" := ExampleChallenge(true, dns)],
            map[])
  }

  lemma ExampleIsOrdered()
    ensures Fits(ExampleNames(), [Identifier("dns", "h")])
    ensures Ordered(Objects(map[], map[], map[], map[]), "me", [Identifier("dns", "h")], ExampleNames()) == Example(Pending, Pending, Pending, Pending)
  {
    var ids, d := [Identifier("dns", "h")], ExampleNames();
    assert ChallengeKinds("h") == ["http-01", "dns-01"];
    assert Fits(d, ids);
    var m0: map<Id, Challenge> := map[];
    assert WithChallenges(m0, ids, d, 0, 0) == m0;
    assert WithChallenges(m0, ids, d, 0, 1) == map["c" := ExampleChallenge(false, Pending)];
    assert WithChallenges(m0, ids, d, 0, 2) == map["c" := ExampleChallenge(false, Pending), "d" := ExampleChallenge(true, Pending)];
    assert WithChallenges(m0, ids, d, 1, 0) == WithChallenges(m0, ids, d, 0, 2);
    assert WithAuthzs(map[], "me", ids, d, 0) == map[];
    assert WithAuthzs(map[], "me", ids, d, 1) == Example(Pending, Pending, Pending, Pending).authzs;
  }

  lemma ExampleIsAnswered()
    ensures Responded(Example(Pending, Pending, Pending, Pending), "me", "c", Present, true).0 == Example(Ready, Valid, Valid, Pending)
    ensures Responded(Example(Ready, Valid, Valid, Pending), "me", "d", Present, false).0 == Example(Ready, Invalid, Valid, Invalid)
  {
    var st := AfterCheck(Example(Pending, Pending, Pending, Pending), ExampleChallenge(false, Pending),
                         Example(Pending, Pending, Pending, Pending).authzs["z"], true);
    assert st == Example(Pending, Valid, Valid, Pending);
    assert Tally(st.authzs, ["z"], true) == Tally(st.authzs, ["z"][1..], true) == Decided(Ready);
    assert WithOutcome(st, "o").0 == Example(Ready, Valid, Valid, Pending);
    assert AfterCheck(Example(Ready, Valid, Valid, Pending), ExampleChallenge(true, Pending),
                      Example(Ready, Valid, Valid, Pending).authzs["z"], false) == Example(Ready, Invalid, Valid, Invalid);
  }

  // ---------- a run in which a wildcard is ordered, authorised and certified ----------

  function WildcardNames(): Drawn {
    Drawn("o", ["z"], [["c"]], [["t"]])
  }

  function WildcardExample(order: Status, checked: Status, cert: Id): Objects {
    Objects(map["o" := Order("o", "me", order, [Identifier("dns", "*.h")], ["z"], cert)],
            map["z" := Authz("z", "o", "me", Identifier("dns", "*.h"), checked, ["c"])],
            map["c" := Challenge("c", "z", "dns-01", "t", checked)],
            if cert == "" then map[] else map[cert := StoredCert("me", "77")])
  }

  lemma WildcardIsOrdered()
    ensures Fits(WildcardNames(), [Identifier("dns", "*.h")])
    ensures Ordered(Objects(map[], map[], map[], map[]), "me", [Identifier("dns", "*.h")], WildcardNames()) == WildcardExample(Pending, Pending, "")
  {
    var ids, d := [Identifier("dns", "*.h")], WildcardNames();
    assert ChallengeKinds("*.h") == ["dns-01"];
    var m0: map<Id, Challenge> := map[];
    assert WithChallenges(m0, ids, d, 0, 0) == m0;
    assert WithChallenges(m0, ids, d, 0, 1) == map["c" := Challenge("c", "z", "dns-01", "t", Pending)];
    assert WithChallenges(m0, ids, d, 1, 0) == WithChallenges(m0, ids, d, 0, 1);
    assert WithAuthzs(map[], "me", ids, d, 0) == map[];
    assert WithAuthzs(map[], "me", ids, d, 1) == WildcardExample(Pending, Pending, "").authzs;
  }

  lemma WildcardIsAnswered()
    ensures Responded(WildcardExample(Pending, Pending, ""), "me", "c", Present, true).0 == WildcardExample(Ready, Valid, "")
  {
    var before, mid := WildcardExample(Pending, Pending, ""), WildcardExample(Pending, Valid, "");
    assert AfterCheck(before, before.challenges["c"], before.authzs["z"], true) == mid;
    assert Tally(mid.authzs, ["z"], true) == Tally(mid.authzs, ["z"][1..], true) == Decided(Ready);
    assert WithOutcome(mid, "o").0 == WildcardExample(Ready, Valid, "");
  }

  lemma WildcardIsCertified(csr: Csr)
    requires csr == Csr("", ["*.h"], [], [], [])
    ensures Finalized(WildcardExample(Ready, Valid, ""), "me", "o", csr, Issued("77"), "k").0 == WildcardExample(Valid, Valid, "k")
  {
    assert AsksExactlyFor(csr, [Identifier("dns", "*.h")]) by {
      assert Identifier("dns", "*.h").value == "*.h";
      forall name ensures name in csr.dnsNames <==> Names([Identifier("dns", "*.h")], name) {
        assert [Identifier("dns", "*.h")][0].value == "*.h";
      }
    }
  }

  /** From the empty store: a wildcard order becomes ready by dns-01, and then valid. */
  lemma WildcardsCanBeCertified() returns (tr: seq<Objects>, requests: seq<Request>)
    ensures Behaviour(tr, requests) && |tr| == 4 && "o" in tr[2].orders && "o" in tr[3].orders
    ensures tr[2].orders["o"].identifiers == [Identifier("dns", "*.h")] && tr[2].orders["o"].status.Ready?
    ensures tr[3].orders["o"].status.Valid? && tr[3].orders["o"].cert in tr[3].certs
  {
    var csr := Csr("", ["*.h"], [], [], []);
    WildcardIsOrdered();
    WildcardIsAnswered();
    WildcardIsCertified(csr);
    requests := [ForNewOrder("me", [Identifier("dns", "*.h")], WildcardNames()), ForChallenge("me", "c", Present, true),
                 ForFinalize("me", "o", csr, Issued("77"), "k")];
    tr := [Objects(map[], map[], map[], map[]), WildcardExample(Pending, Pending, ""), WildcardExample(Ready, Valid, ""),
           WildcardExample(Valid, Valid, "k")];
    assert Admissible(tr[0], requests[0]) && tr[1] == Serve(tr[0], requests[0]);
    assert tr[2] == Serve(tr[1], requests[1]) && tr[3] == Serve(tr[2], requests[2]);
  }

  /** From the empty store: the order becomes ready by http-01, then dns-01 fails. */
  lemma ReadyMayOutliveItsAuthorizations() returns (tr: seq<Objects>, requests: seq<Request>)
    ensures Behaviour(tr, requests) && |tr| == 4 && "o" in tr[2].orders && "o" in tr[3].orders
    ensures tr[2].orders["o"].status.Ready? && AllValid(tr[2], tr[2].orders["o"])
    ensures tr[3].orders["o"].status.Ready? && !AllValid(tr[3], tr[3].orders["o"])
  {
    ExampleIsOrdered();
    ExampleIsAnswered();
    requests := [ForNewOrder("me", [Identifier("dns", "h")], ExampleNames()), ForChallenge("me", "c", Present, true), ForChallenge("me", "d", Present, false)];
    tr := [Objects(map[], map[], map[], map[]), Example(Pending, Pending, Pending, Pending),
           Example(Ready, Valid, Valid, Pending), Example(Ready, Invalid, Valid, Invalid)];
    assert Admissible(tr[0], requests[0]) && tr[1] == Serve(tr[0], requests[0]);
    assert tr[2] == Serve(tr[1], requests[1]) && tr[3] == Serve(tr[2], requests[2]);
    assert tr[3].orders["o"].authzs[0] == "z";
  }
}
