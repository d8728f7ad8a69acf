/** Revocation lists: what one build lists, and how builds that share a store relate. */
module Crl {
  import opened Common
  import opened Text
  import opened Issuance

  datatype RevokedEntry = RevokedEntry(serialNumber: int, time: Time, reason: int)

  function ChainOrPrimary(chain: Option<Chain>): Chain {
    if chain.None? then Primary else chain.value
  }

  predicate OnList(rec: CertRecord, chain: Chain) {
    rec.revoked && rec.chain == chain
  }

  function EntryOf(rec: CertRecord): Option<RevokedEntry> {
    var n := ParseInteger(rec.serial);
    if n.Some? then Some(RevokedEntry(n.value, rec.revokedAt, rec.reason)) else None
  }

  // ---------- one scan ----------

  /** The entries for the records under these keys, in order; none if a serial is corrupt. */
  function Listing(certs: map<Serial, CertRecord>, keys: seq<Serial>, chain: Chain): Option<seq<RevokedEntry>>
    requires forall i :: 0 <= i < |keys| ==> keys[i] in certs
  {
    if keys == [] then Some([])
    else
      var before, rec := Listing(certs, keys[..|keys| - 1], chain), certs[keys[|keys| - 1]];
      if before.None? || !OnList(rec, chain) then before
      else if EntryOf(rec).None? then None
      else Some(before.value + [EntryOf(rec).value])
  }

  /** No chain named means the primary one; a certificate is on the list of its own chain once
      it is revoked, with its serial, time and reason. */
  lemma WhatIsListed(rec: CertRecord, chain: Option<Chain>, n: nat)
    ensures ChainOrPrimary(None) == Primary && ChainOrPrimary(Some(Primary)) == Primary && ChainOrPrimary(Some(Pair)) == Pair
    ensures OnList(rec, ChainOrPrimary(chain)) <==> rec.revoked && (rec.chain.Pair? <==> chain == Some(Pair))
    ensures rec.serial == Decimal(n) ==> EntryOf(rec) == Some(RevokedEntry(n, rec.revokedAt, rec.reason))
  {
    IntegerOfDecimal(n);
  }

  method ListRevoked(certs: map<Serial, CertRecord>, keys: seq<Serial>, chain: Option<Chain>) returns (entries: Option<seq<RevokedEntry>>)
    requires forall i :: 0 <= i < |keys| ==> keys[i] in certs
    ensures entries == Listing(certs, keys, ChainOrPrimary(chain))
    ensures GoodSerials(certs) && NoDup(keys) ==>
              entries.Some? && forall e :: e in entries.value <==> Stands(e, certs, keys, if chain == Some(Pair) then Pair else Primary)
    ensures entries.None? <==> exists i :: 0 <= i < |keys| && IsCorrupt(certs[keys[i]], if chain == Some(Pair) then Pair else Primary)
  {
    var revoked: seq<RevokedEntry> := [];
    for i := 0 to |keys|
      invariant Listing(certs, keys[..i], ChainOrPrimary(chain)) == Some(revoked)
    {
      assert keys[..i + 1][..i] == keys[..i];
      var rec := certs[keys[i]];
      if rec.revoked && rec.chain == ChainOrPrimary(chain) {
        var serial := ParseInteger(rec.serial);
        if serial.None? {
          CorruptStaysCorrupt(certs, keys, i + 1, ChainOrPrimary(chain));
          WhatTheListHolds(certs, keys, chain);
          return None;
        }
        revoked := revoked + [RevokedEntry(serial.value, rec.revokedAt, rec.reason)];
      }
    }
    assert keys[..|keys|] == keys;
    WhatTheListHolds(certs, keys, chain);
    return Some(revoked);
  }

  lemma {:induction false} CorruptStaysCorrupt(certs: map<Serial, CertRecord>, keys: seq<Serial>, n: nat, chain: Chain)
    requires forall i :: 0 <= i < |keys| ==> keys[i] in certs
    requires n <= |keys| && Listing(certs, keys[..n], chain).None?
    ensures Listing(certs, keys, chain).None?
    decreases |keys| - n
  {
    if n < |keys| {
      assert keys[..n + 1][..n] == keys[..n];
      CorruptStaysCorrupt(certs, keys, n + 1, chain);
    } else {
      assert keys[..n] == keys;
    }
  }

  /** A revoked record of the chain whose serial is no number. */
  predicate IsCorrupt(rec: CertRecord, chain: Chain) {
    rec.revoked && rec.chain == chain && ParseInteger(rec.serial).None?
  }

  /** A list is refused exactly if such a record is scanned. */
  lemma {:induction false} ListingFailsIfCorrupt(certs: map<Serial, CertRecord>, keys: seq<Serial>, chain: Chain)
    requires forall i :: 0 <= i < |keys| ==> keys[i] in certs
    ensures Listing(certs, keys, chain).None? <==> exists i :: 0 <= i < |keys| && IsCorrupt(certs[keys[i]], chain)
    decreases |keys|
  {
    if keys != [] {
      var n := |keys| - 1;
      ListingFailsIfCorrupt(certs, keys[..n], chain);
      if i :| 0 <= i < n && IsCorrupt(certs[keys[..n][i]], chain) {
        assert IsCorrupt(certs[keys[i]], chain);
      }
      if i :| 0 <= i < |keys| && IsCorrupt(certs[keys[i]], chain) {
        assert i < n ==> keys[..n][i] == keys[i];
      }
    }
  }

  /** The store's listing of a bucket: every key once. */
  ghost predicate Enumerates(keys: seq<Serial>, certs: map<Serial, CertRecord>) {
    NoDup(keys) && forall k :: k in keys <==> k in certs
  }

  ghost predicate IsDecimal(s: string) {
    exists n: nat :: s == Decimal(n)
  }

  /** Every record is stored under its own serial, written in decimal. */
  ghost predicate GoodSerials(certs: map<Serial, CertRecord>) {
    forall k :: k in certs ==> certs[k].serial == k && IsDecimal(k)
  }

  lemma DecimalsReadApart(a: string, b: string)
    requires IsDecimal(a) && IsDecimal(b)
    ensures ParseInteger(a).Some? && ParseInteger(b).Some?
    ensures ParseInteger(a) == ParseInteger(b) <==> a == b
  {
    var m: nat :| a == Decimal(m);
    var n: nat :| b == Decimal(n);
    IntegerOfDecimal(m);
    IntegerOfDecimal(n);
  }

  /** This entry stands for this record of the chain. */
  ghost predicate StandsFor(e: RevokedEntry, certs: map<Serial, CertRecord>, k: Serial, chain: Chain) {
    k in certs && OnList(certs[k], chain) && EntryOf(certs[k]) == Some(e)
  }

  ghost predicate Stands(e: RevokedEntry, certs: map<Serial, CertRecord>, keys: seq<Serial>, chain: Chain) {
    exists k :: k in keys && StandsFor(e, certs, k, chain)
  }

  ghost predicate ListsOnce(entries: seq<RevokedEntry>) {
    forall i, j :: 0 <= i < j < |entries| ==> entries[i].serialNumber != entries[j].serialNumber
  }

  lemma {:induction false} ListingIsExact(certs: map<Serial, CertRecord>, keys: seq<Serial>, chain: Chain)
    requires GoodSerials(certs) && NoDup(keys) && forall i :: 0 <= i < |keys| ==> keys[i] in certs
    ensures var entries := Listing(certs, keys, chain);
            && entries.Some? && ListsOnce(entries.value)
            && forall e :: e in entries.value <==> Stands(e, certs, keys, chain)
    decreases |keys|
  {
    if keys != [] {
      var before, last := keys[..|keys| - 1], keys[|keys| - 1];
      ListingIsExact(certs, before, chain);
      DecimalsReadApart(last, last);
      var listed := Listing(certs, before, chain).value;
      var entries := Listing(certs, keys, chain).value;
      forall e ensures e in entries <==> Stands(e, certs, keys, chain) {
        StandsInLonger(e, certs, before, last, chain);
        assert keys == before + [last];
      }
      forall i | 0 <= i < |listed| ensures listed[i].serialNumber != ParseInteger(last).value {
        assert Stands(listed[i], certs, before, chain);
        var k :| k in before && StandsFor(listed[i], certs, k, chain);
        DecimalsReadApart(k, last);
      }
    }
  }

  lemma WhatTheListHolds(certs: map<Serial, CertRecord>, keys: seq<Serial>, chain: Option<Chain>)
    requires forall i :: 0 <= i < |keys| ==> keys[i] in certs
    ensures var entries, named := Listing(certs, keys, ChainOrPrimary(chain)), if chain == Some(Pair) then Pair else Primary;
            && (entries.None? <==> exists i :: 0 <= i < |keys| && IsCorrupt(certs[keys[i]], named))
            && (GoodSerials(certs) && NoDup(keys) ==> entries.Some? && forall e :: e in entries.value <==> Stands(e, certs, keys, named))
  {
    ListingFailsIfCorrupt(certs, keys, ChainOrPrimary(chain));
    if GoodSerials(certs) && NoDup(keys) {
      ListingIsExact(certs, keys, ChainOrPrimary(chain));
    }
  }

  lemma StandsInLonger(e: RevokedEntry, certs: map<Serial, CertRecord>, before: seq<Serial>, last: Serial, chain: Chain)
    ensures Stands(e, certs, before + [last], chain) <==> Stands(e, certs, before, chain) || StandsFor(e, certs, last, chain)
  {
    assert last in before + [last];
    forall k | k in before ensures k in before + [last] {
    }
  }

  /** A build lists exactly the revoked certificates of its chain, each once. */
  lemma ListsExactlyTheRevoked(certs: map<Serial, CertRecord>, keys: seq<Serial>, chain: Chain, k: Serial)
    requires GoodSerials(certs) && Enumerates(keys, certs) && k in certs
    ensures var entries := Listing(certs, keys, chain);
            && entries.Some? && ListsOnce(entries.value) && ParseInteger(k).Some?
            && (OnList(certs[k], chain) <==> exists e :: e in entries.value && e.serialNumber == ParseInteger(k).value)
            && (OnList(certs[k], chain) ==> RevokedEntry(ParseInteger(k).value, certs[k].revokedAt, certs[k].reason) in entries.value)
  {
    ListingIsExact(certs, keys, chain);
    DecimalsReadApart(k, k);
    var entries := Listing(certs, keys, chain).value;
    if OnList(certs[k], chain) {
      assert StandsFor(RevokedEntry(ParseInteger(k).value, certs[k].revokedAt, certs[k].reason), certs, k, chain);
    }
    if e :| e in entries && e.serialNumber == ParseInteger(k).value {
      assert Stands(e, certs, keys, chain);
      var k' :| k' in keys && StandsFor(e, certs, k', chain);
      DecimalsReadApart(k, k');
    }
  }

  // ---------- builds, revocations and issuances interleaved ----------

  type Pid = nat

  datatype Build = Started(chain: Chain) | Scanned(chain: Chain, entries: seq<RevokedEntry>)

  /** `counter` is the tenant's, shared by its chains. */
  datatype State = State(certs: map<Serial, CertRecord>, counter: nat, builds: map<Pid, Build>)

  datatype Step =
    | Store(number: nat, chain: Chain)
    | Revoke(serial: Serial, reason: int, at: Time)
    | Start(p: Pid, chain: Chain)
    | Scan(p: Pid, keys: seq<Serial>)
    | TakeNumber(p: Pid)
    | Stop(p: Pid)  // an error or a crash

  ghost predicate Enabled(s: State, st: Step) {
    match st
    case Store(number, _) => Decimal(number) !in s.certs
    case Revoke(serial, _, _) => serial in s.certs && !s.certs[serial].revoked
    case Start(p, _) => p !in s.builds
    case Scan(p, keys) => p in s.builds && s.builds[p].Started? && Enumerates(keys, s.certs)
    case TakeNumber(p) => p in s.builds && s.builds[p].Scanned?
    case Stop(p) => p in s.builds
  }

  function After(s: State, st: Step): State
    requires st.Scan? ==> st.p in s.builds && forall i :: 0 <= i < |st.keys| ==> st.keys[i] in s.certs
    requires st.Revoke? ==> st.serial in s.certs
  {
    match st
    case Store(number, chain) => s.(certs := s.certs[Decimal(number) := Record(chain, Decimal(number))])
    case Revoke(serial, reason, at) => s.(certs := s.certs[serial := s.certs[serial].(revoked := true, revokedAt := at, reason := reason)])
    case Start(p, chain) => s.(builds := s.builds[p := Started(chain)])
    case Scan(p, keys) =>
      var chain := s.builds[p].chain;
      var entries := Listing(s.certs, keys, chain);
      s.(builds := if entries.Some? then s.builds[p := Scanned(chain, entries.value)] else s.builds - {p})
    case TakeNumber(p) => s.(counter := s.counter + 1, builds := s.builds - {p})
    case Stop(p) => s.(builds := s.builds - {p})
  }

  ghost predicate Behaviour(tr: seq<State>, steps: seq<Step>) {
    && |tr| == |steps| + 1 && tr[0] == State(map[], 0, map[])
    && forall i :: 0 <= i < |steps| ==> Enabled(tr[i], steps[i]) && tr[i + 1] == After(tr[i], steps[i])
  }

  lemma {:induction false} SerialsStayGood(tr: seq<State>, steps: seq<Step>, i: nat)
    requires Behaviour(tr, steps) && i < |tr|
    ensures GoodSerials(tr[i].certs)
  {
    if i > 0 {
      SerialsStayGood(tr, steps, i - 1);
      assert Enabled(tr[i - 1], steps[i - 1]);
    }
  }

  /** A certificate is never forgotten, and once revoked keeps its time and its reason. */
  lemma {:induction false} RevokedForEver(tr: seq<State>, steps: seq<Step>, i: nat, j: nat, serial: Serial)
    requires Behaviour(tr, steps) && i <= j < |tr| && serial in tr[i].certs
    ensures serial in tr[j].certs && tr[j].certs[serial].chain == tr[i].certs[serial].chain
    ensures tr[i].certs[serial].revoked ==> tr[j].certs[serial] == tr[i].certs[serial]
    decreases j
  {
    if i < j {
      RevokedForEver(tr, steps, i, j - 1, serial);
      assert Enabled(tr[j - 1], steps[j - 1]);
    }
  }

  predicate By(st: Step, p: Pid) {
    (st.Start? || st.Scan? || st.TakeNumber? || st.Stop?) && st.p == p
  }

  /** The steps of one build, with none of the same process between them. */
  datatype Run = Run(p: Pid, chain: Chain, start: nat, scan: nat, number: nat)

  ghost predicate IsBuild(tr: seq<State>, steps: seq<Step>, b: Run)
    requires Behaviour(tr, steps)
  {
    && b.start < b.scan < b.number < |steps|
    && steps[b.start] == Start(b.p, b.chain) && steps[b.scan].Scan? && steps[b.scan].p == b.p && steps[b.number] == TakeNumber(b.p)
    && forall i :: b.start < i < b.number && i != b.scan ==> !By(steps[i], b.p)
  }

  datatype SignedList = SignedList(chain: Chain, number: nat, entries: seq<RevokedEntry>)

  /** The list that the build signs. */
  ghost function Published(tr: seq<State>, steps: seq<Step>, b: Run): SignedList
    requires Behaviour(tr, steps) && IsBuild(tr, steps, b)
  {
    assert Enabled(tr[b.number], steps[b.number]);
    var build := tr[b.number].builds[b.p];
    SignedList(build.chain, tr[b.number].counter + 1, build.entries)
  }

  lemma {:induction false} BuildWaits(tr: seq<State>, steps: seq<Step>, i: nat, j: nat, p: Pid)
    requires Behaviour(tr, steps) && i <= j < |tr| && p in tr[i].builds
    requires forall k :: i <= k < j ==> !By(steps[k], p)
    ensures p in tr[j].builds && tr[j].builds[p] == tr[i].builds[p]
    decreases j
  {
    if i < j {
      BuildWaits(tr, steps, i, j - 1, p);
      assert !By(steps[j - 1], p);
      assert tr[j] == After(tr[j - 1], steps[j - 1]);
    }
  }

  /** What is published is what the scan saw. */
  lemma PublishesItsScan(tr: seq<State>, steps: seq<Step>, b: Run, k: Serial)
    requires Behaviour(tr, steps) && IsBuild(tr, steps, b)
    ensures Published(tr, steps, b).chain == b.chain && ListsOnce(Published(tr, steps, b).entries)
    ensures forall e :: e in Published(tr, steps, b).entries <==> Stands(e, tr[b.scan].certs, steps[b.scan].keys, b.chain)
    ensures k in steps[b.scan].keys <==> k in tr[b.scan].certs
  {
    assert tr[b.start + 1] == After(tr[b.start], steps[b.start]);
    BuildWaits(tr, steps, b.start + 1, b.scan, b.p);
    assert Enabled(tr[b.scan], steps[b.scan]) && tr[b.scan + 1] == After(tr[b.scan], steps[b.scan]);
    SerialsStayGood(tr, steps, b.scan);
    ListingIsExact(tr[b.scan].certs, steps[b.scan].keys, b.chain);
    BuildWaits(tr, steps, b.scan + 1, b.number, b.p);
  }

  lemma {:induction false} CounterGrows(tr: seq<State>, steps: seq<Step>, i: nat, j: nat)
    requires Behaviour(tr, steps) && i <= j < |tr|
    ensures tr[i].counter <= tr[j].counter
    decreases j
  {
    if i < j {
      CounterGrows(tr, steps, i, j - 1);
      assert tr[j] == After(tr[j - 1], steps[j - 1]);
    }
  }

  /** Later numbers are larger. */
  lemma NumbersIncrease(tr: seq<State>, steps: seq<Step>, b: Run, c: Run)
    requires Behaviour(tr, steps) && IsBuild(tr, steps, b) && IsBuild(tr, steps, c) && b.number < c.number
    ensures Published(tr, steps, b).number < Published(tr, steps, c).number
  {
    assert tr[b.number + 1] == After(tr[b.number], steps[b.number]);
    CounterGrows(tr, steps, b.number + 1, c.number);
  }

  ghost predicate Covers(tr: seq<State>, steps: seq<Step>, c: Run, b: Run)
    requires Behaviour(tr, steps) && IsBuild(tr, steps, b) && IsBuild(tr, steps, c)
  {
    forall e :: e in Published(tr, steps, b).entries ==> e in Published(tr, steps, c).entries
  }

  lemma EntryIsCarriedOver(tr: seq<State>, steps: seq<Step>, b: Run, c: Run, e: RevokedEntry)
    requires Behaviour(tr, steps) && IsBuild(tr, steps, b) && IsBuild(tr, steps, c) && b.chain == c.chain && b.scan <= c.scan
    requires e in Published(tr, steps, b).entries
    ensures e in Published(tr, steps, c).entries
  {
    PublishesItsScan(tr, steps, b, "");
    var k :| k in steps[b.scan].keys && StandsFor(e, tr[b.scan].certs, k, b.chain);
    RevokedForEver(tr, steps, b.scan, c.scan, k);
    PublishesItsScan(tr, steps, c, k);
    assert StandsFor(e, tr[c.scan].certs, k, c.chain);
  }

  /** Of two builds for a chain that do not overlap, the later has the larger number and
      every entry of the earlier. */
  lemma LaterBuildCoversEarlier(tr: seq<State>, steps: seq<Step>, b: Run, c: Run)
    requires Behaviour(tr, steps) && IsBuild(tr, steps, b) && IsBuild(tr, steps, c)
    requires b.chain == c.chain && b.number < c.start
    ensures Published(tr, steps, b).number < Published(tr, steps, c).number && Covers(tr, steps, c, b)
  {
    NumbersIncrease(tr, steps, b, c);
    forall e | e in Published(tr, steps, b).entries ensures e in Published(tr, steps, c).entries {
      EntryIsCarriedOver(tr, steps, b, c, e);
    }
  }

  /** A certificate of the chain is revoked at step `i`. */
  ghost predicate RevokesOn(tr: seq<State>, steps: seq<Step>, i: nat, chain: Chain)
    requires Behaviour(tr, steps)
  {
    && i < |steps| && steps[i].Revoke?
    && steps[i].serial in tr[i].certs && tr[i].certs[steps[i].serial].chain == chain
  }

  lemma {:induction false} UnrevokedBefore(tr: seq<State>, steps: seq<Step>, i: nat, j: nat, k: Serial, chain: Chain)
    requires Behaviour(tr, steps) && i <= j < |tr| && k in tr[j].certs && OnList(tr[j].certs[k], chain)
    requires forall n :: i <= n < j ==> !RevokesOn(tr, steps, n, chain)
    ensures k in tr[i].certs && tr[i].certs[k] == tr[j].certs[k]
    decreases j
  {
    if i < j {
      assert Enabled(tr[j - 1], steps[j - 1]) && tr[j] == After(tr[j - 1], steps[j - 1]);
      assert !RevokesOn(tr, steps, j - 1, chain);
      UnrevokedBefore(tr, steps, i, j - 1, k, chain);
    }
  }

  lemma NewRevocationIsMissing(tr: seq<State>, steps: seq<Step>, b: Run, c: Run, i: nat)
    requires Behaviour(tr, steps) && IsBuild(tr, steps, b) && IsBuild(tr, steps, c) && b.chain == c.chain
    requires c.scan <= i < b.scan && RevokesOn(tr, steps, i, b.chain)
    ensures !Covers(tr, steps, c, b)
  {
    var k := steps[i].serial;
    assert Enabled(tr[i], steps[i]) && tr[i + 1] == After(tr[i], steps[i]);
    RevokedForEver(tr, steps, i + 1, b.scan, k);
    var rec := tr[b.scan].certs[k];
    SerialsStayGood(tr, steps, b.scan);
    DecimalsReadApart(k, k);
    var e := RevokedEntry(ParseInteger(k).value, rec.revokedAt, rec.reason);
    PublishesItsScan(tr, steps, b, k);
    assert StandsFor(e, tr[b.scan].certs, k, b.chain);
    assert e in Published(tr, steps, b).entries;
    if e in Published(tr, steps, c).entries {
      PublishesItsScan(tr, steps, c, k);
      var k' :| k' in steps[c.scan].keys && StandsFor(e, tr[c.scan].certs, k', c.chain);
      SerialsStayGood(tr, steps, c.scan);
      DecimalsReadApart(k, k');
      RevokedForEver(tr, steps, c.scan, i, k);
    }
  }

  /** For builds that may overlap: the list with the larger number has every entry of the
      other exactly when no certificate of the chain was revoked after its own scan and
      before the other's. */
  lemma LargerNumberCoversIffNothingRevokedBetween(tr: seq<State>, steps: seq<Step>, b: Run, c: Run)
    requires Behaviour(tr, steps) && IsBuild(tr, steps, b) && IsBuild(tr, steps, c)
    requires b.chain == c.chain && b.number < c.number
    ensures Published(tr, steps, b).number < Published(tr, steps, c).number
    ensures Covers(tr, steps, c, b) <==> forall i :: c.scan <= i < b.scan ==> !RevokesOn(tr, steps, i, b.chain)
  {
    NumbersIncrease(tr, steps, b, c);
    if i :| c.scan <= i < b.scan && RevokesOn(tr, steps, i, b.chain) {
      NewRevocationIsMissing(tr, steps, b, c, i);
    } else {
      forall e | e in Published(tr, steps, b).entries ensures e in Published(tr, steps, c).entries {
        if b.scan <= c.scan {
          EntryIsCarriedOver(tr, steps, b, c, e);
        } else {
          PublishesItsScan(tr, steps, b, "");
          var k :| k in steps[b.scan].keys && StandsFor(e, tr[b.scan].certs, k, b.chain);
          UnrevokedBefore(tr, steps, c.scan, b.scan, k, b.chain);
          PublishesItsScan(tr, steps, c, k);
          assert StandsFor(e, tr[c.scan].certs, k, c.chain);
        }
      }
    }
  }

  // ---------- two builds that overlap ----------

  lemma Then(tr: seq<State>, steps: seq<Step>, st: Step, next: State) returns (tr': seq<State>, steps': seq<Step>)
    requires Behaviour(tr, steps) && Enabled(tr[|steps|], st) && next == After(tr[|steps|], st)
    ensures Behaviour(tr', steps') && tr' == tr + [next] && steps' == steps + [st]
  {
    tr', steps' := tr + [next], steps + [st];
  }

  function Certs(revoked: bool): map<Serial, CertRecord> {
    map["7" := CertRecord("7", Primary, revoked, if revoked then 5 else 0, 0)]
  }

  lemma ScanOfOne(revoked: bool)
    ensures Decimal(7) == "7" && Enumerates(["7"], Certs(revoked))
    ensures Listing(Certs(revoked), ["7"], Primary) == Some(if revoked then [RevokedEntry(7, 5, 0)] else [])
  {
    IntegerOfDecimal(7);
    assert Decimal(7) == "7";
    var certs, keys := Certs(revoked), ["7"];
    var before: seq<Serial> := keys[..|keys| - 1];
    assert before == [];
    assert Listing(certs, before, Primary) == Some([]);
    assert EntryOf(certs["7"]) == Some(RevokedEntry(7, if revoked then 5 else 0, 0));
    assert [] + [RevokedEntry(7, 5, 0)] == [RevokedEntry(7, 5, 0)];
  }

  lemma FirstScan() returns (tr: seq<State>, steps: seq<Step>)
    ensures Behaviour(tr, steps)
    ensures steps == [Store(7, Primary), Start(1, Primary), Scan(1, ["7"])]
    ensures tr[3] == State(Certs(false), 0, map[1 := Scanned(Primary, [])])
  {
    ScanOfOne(false);
    tr, steps := [State(map[], 0, map[])], [];
    tr, steps := Then(tr, steps, Store(7, Primary), State(Certs(false), 0, map[]));
    tr, steps := Then(tr, steps, Start(1, Primary), State(Certs(false), 0, map[1 := Started(Primary)]));
    tr, steps := Then(tr, steps, Scan(1, ["7"]), State(Certs(false), 0, map[1 := Scanned(Primary, [])]));
  }

  lemma Revocation() returns (tr: seq<State>, steps: seq<Step>)
    ensures Behaviour(tr, steps)
    ensures steps == [Store(7, Primary), Start(1, Primary), Scan(1, ["7"]), Revoke("7", 0, 5)]
    ensures tr[3] == State(Certs(false), 0, map[1 := Scanned(Primary, [])])
    ensures tr[4] == State(Certs(true), 0, map[1 := Scanned(Primary, [])])
  {
    tr, steps := FirstScan();
    tr, steps := Then(tr, steps, Revoke("7", 0, 5), State(Certs(true), 0, map[1 := Scanned(Primary, [])]));
  }

  lemma SecondScan() returns (tr: seq<State>, steps: seq<Step>)
    ensures Behaviour(tr, steps)
    ensures steps == [Store(7, Primary), Start(1, Primary), Scan(1, ["7"]), Revoke("7", 0, 5), Start(2, Primary), Scan(2, ["7"])]
    ensures tr[3] == State(Certs(false), 0, map[1 := Scanned(Primary, [])])
    ensures tr[6] == State(Certs(true), 0, map[1 := Scanned(Primary, []), 2 := Scanned(Primary, [RevokedEntry(7, 5, 0)])])
  {
    ScanOfOne(true);
    tr, steps := Revocation();
    var first := Scanned(Primary, []);
    tr, steps := Then(tr, steps, Start(2, Primary), State(Certs(true), 0, map[1 := first, 2 := Started(Primary)]));
    tr, steps := Then(tr, steps, Scan(2, ["7"]),
                      State(Certs(true), 0, map[1 := first, 2 := Scanned(Primary, [RevokedEntry(7, 5, 0)])]));
  }

  /** A run in which the list with the larger number omits a revocation that the one with
      the smaller number has. */
  lemma OverlappingBuildsMayRegress() returns (tr: seq<State>, steps: seq<Step>, b: Run, c: Run)
    ensures Behaviour(tr, steps) && IsBuild(tr, steps, b) && IsBuild(tr, steps, c) && b.chain == c.chain
    ensures Published(tr, steps, b).number < Published(tr, steps, c).number && !Covers(tr, steps, c, b)
  {
    tr, steps := SecondScan();
    var first := Scanned(Primary, []);
    tr, steps := Then(tr, steps, TakeNumber(2), State(Certs(true), 1, map[1 := first]));
    tr, steps := Then(tr, steps, TakeNumber(1), State(Certs(true), 2, map[]));
    b, c := Run(2, Primary, 4, 5, 6), Run(1, Primary, 1, 2, 7);
    assert RevokesOn(tr, steps, 3, Primary);
    LargerNumberCoversIffNothingRevokedBetween(tr, steps, b, c);
  }
}
