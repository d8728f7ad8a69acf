/** Audit records: each carries the hash of its predecessor and a signature. Shared by the
    file log and the store log. */
module AuditRecord {
  import opened Common
  import opened Text

  datatype Actor = Actor(kind: string, id: string, ip: string)
  datatype Object = Object(kind: string, id: string)

  /** A record without its own hash and signature. */
  datatype Content = Content(number: nat, time: int, tenant: string, actor: Actor, action: string,
                             target: Object, detail: map<string, string>, prevHash: string, keyId: string)

  datatype Record = Record(content: Content, hash: string, sig: Bytes)

  /** Hashing and signing are parameters; signatures are randomised by the second argument. */
  datatype Crypto = Crypto(digest: (Bytes, Content) -> Bytes,
                           sign: (Bytes, nat) -> Bytes,
                           valid: (Bytes, Bytes) -> bool)

  /** No collisions, no empty digests, and every signature made verifies. */
  ghost predicate Sound(c: Crypto) {
    && (forall p, x, q, y :: c.digest(p, x) == c.digest(q, y) ==> p == q && x == y)
    && (forall p, x :: c.digest(p, x) != [])
    && (forall d, n: nat :: c.valid(d, c.sign(d, n)))
  }

  function ChainHash(c: Crypto, x: Content): Option<Bytes> {
    match HexDecode(x.prevHash)
    case None => None
    case Some(prev) => Some(c.digest(prev, x))
  }

  function Seal(c: Crypto, x: Content, nonce: nat): Option<Record> {
    match ChainHash(c, x)
    case None => None
    case Some(sum) => Some(Record(x, HexEncode(sum), c.sign(sum, nonce)))
  }

  datatype Verdict = Accepted | SequenceGap | ChainBreak | BadPrevHash | HashMismatch | BadSignature

  function VerifyRecord(c: Crypto, rec: Record, prevHash: string, prevNumber: nat): Verdict {
    if rec.content.number != prevNumber + 1 then SequenceGap
    else if prevHash != "" && rec.content.prevHash != prevHash then ChainBreak
    else
      match ChainHash(c, rec.content)
      case None => BadPrevHash
      case Some(sum) =>
        if HexEncode(sum) != rec.hash then HashMismatch
        else if !c.valid(sum, rec.sig) then BadSignature
        else Accepted
  }

  /** A record is accepted exactly if it has the next number, names its predecessor's hash,
      unless there is none to name, and carries its own chain hash, signed; and otherwise the
      verdict is the first of these that fails. */
  lemma VerdictNamesTheFirstFlaw(c: Crypto, rec: Record, prevHash: string, prevNumber: nat)
    ensures var verdict, prev := VerifyRecord(c, rec, prevHash, prevNumber), HexDecode(rec.content.prevHash);
            var follows := rec.content.number == prevNumber + 1;
            var linked := prevHash == "" || rec.content.prevHash == prevHash;
            var hashed := prev.Some? && rec.hash == HexEncode(c.digest(prev.value, rec.content));
            && (verdict.Accepted? <==> follows && linked && hashed && c.valid(c.digest(prev.value, rec.content), rec.sig))
            && (verdict.SequenceGap? <==> !follows)
            && (verdict.ChainBreak? <==> follows && !linked)
            && (verdict.BadPrevHash? <==> follows && linked && prev.None?)
            && (verdict.HashMismatch? <==> follows && linked && prev.Some? && !hashed)
  {
  }

  /** A sealed record is the content with its chain hash and a signature of that hash. */
  lemma SealIsHashAndSignature(c: Crypto, x: Content, nonce: nat)
    ensures Seal(c, x, nonce).Some? <==> HexDecode(x.prevHash).Some?
    ensures Seal(c, x, nonce).Some? ==>
              var sum := c.digest(HexDecode(x.prevHash).value, x);
              Seal(c, x, nonce).value == Record(x, HexEncode(sum), c.sign(sum, nonce))
  {
  }

  /** A hash as sealed records carry it: it decodes, and it is not empty. */
  predicate UsableHash(h: string) {
    h != "" && HexDecode(h).Some?
  }

  lemma SealSucceedsAndVerifies(c: Crypto, x: Content, nonce: nat, prevHash: string)
    requires Sound(c) && HexDecode(x.prevHash).Some? && x.number > 0
    requires prevHash == "" || x.prevHash == prevHash
    ensures Seal(c, x, nonce).Some? && Seal(c, x, nonce).value.content == x
    ensures UsableHash(Seal(c, x, nonce).value.hash)
    ensures VerifyRecord(c, Seal(c, x, nonce).value, prevHash, x.number - 1) == Accepted
  {
    DecodeOfEncode(ChainHash(c, x).value);
  }

  // ---------- what a log adds to a record ----------

  /** What a caller logs; the log adds number, previous hash, key id, hash and signature. */
  datatype Body = Body(time: int, tenant: string, actor: Actor, action: string, target: Object, detail: map<string, string>)

  /** The chain's end: the last number and the last hash. */
  datatype Head = Head(number: nat, hash: string)

  datatype Env = Env(c: Crypto, keyId: string)

  const CHECKPOINT: string := "audit.checkpoint"
  const GENESIS: string := "audit.genesis"

  function ContentOf(e: Env, b: Body, head: Head): Content {
    Content(head.number + 1, b.time, b.tenant, b.actor, b.action, b.target, b.detail, head.hash, e.keyId)
  }

  function CheckpointDetail(head: Head): map<string, string> {
    map["checkpoint_seq" := Decimal(head.number), "checkpoint_head" := head.hash]
  }

  function CheckpointBody(head: Head, time: int): Body {
    Body(time, "", Actor("system", "mnemoca", ""), CHECKPOINT, Object("audit", "checkpoint"), CheckpointDetail(head))
  }

  function GenesisBody(time: int): Body {
    Body(time, "", Actor("system", "mnemoca", ""), GENESIS, Object("audit", "genesis"), map[])
  }

  /** The content carries what its caller logged, and follows this head. */
  predicate Carries(x: Content, b: Body, head: Head, keyId: string) {
    && x.time == b.time && x.tenant == b.tenant && x.actor == b.actor && x.action == b.action && x.target == b.target && x.detail == b.detail
    && x.number == head.number + 1 && x.prevHash == head.hash && x.keyId == keyId
  }

  predicate IsCheckpointOf(b: Body, head: Head, time: int) {
    && b.time == time && b.tenant == "" && b.actor == Actor("system", "mnemoca", "")
    && b.action == "audit.checkpoint" && b.target == Object("audit", "checkpoint")
    && b.detail.Keys == {"checkpoint_seq", "checkpoint_head"}
    && b.detail["checkpoint_seq"] == Decimal(head.number) && b.detail["checkpoint_head"] == head.hash
  }

  predicate IsGenesisBody(b: Body, time: int) {
    && b.time == time && b.tenant == "" && b.actor == Actor("system", "mnemoca", "")
    && b.action == "audit.genesis" && b.target == Object("audit", "genesis") && b.detail == map[]
  }

  /** A log adds number, hash and key id to what it is given and to its own two bodies. */
  lemma WhatIsLogged(e: Env, b: Body, head: Head, time: int)
    ensures Carries(ContentOf(e, b, head), b, head, e.keyId)
    ensures IsCheckpointOf(CheckpointBody(head, time), head, time) && IsGenesisBody(GenesisBody(time), time)
  {
  }

  // ---------- replaying a chain ----------

  function HashBefore(recs: seq<Record>, i: nat): string
    requires i <= |recs|
  {
    if i == 0 then "" else recs[i - 1].hash
  }

  function NumberBefore(recs: seq<Record>, i: nat): nat
    requires i <= |recs|
  {
    if i == 0 then 0 else recs[i - 1].content.number
  }

  function VerdictAt(c: Crypto, recs: seq<Record>, i: nat): Verdict
    requires i < |recs|
  {
    VerifyRecord(c, recs[i], HashBefore(recs, i), NumberBefore(recs, i))
  }

  ghost predicate Verified(c: Crypto, recs: seq<Record>) {
    forall i :: 0 <= i < |recs| ==> VerdictAt(c, recs, i).Accepted?
  }

  /** Replays records in order, stopping at the first that does not verify. */
  method Replay(c: Crypto, recs: seq<Record>) returns (count: nat, prevHash: string, prevNumber: nat, verdict: Verdict)
    ensures count <= |recs| && Verified(c, recs[..count])
    ensures prevHash == HashBefore(recs, count) && prevNumber == NumberBefore(recs, count)
    ensures if count == |recs| then verdict == Accepted else verdict == VerdictAt(c, recs, count) != Accepted
  {
    count, prevHash, prevNumber := 0, "", 0;
    while count < |recs|
      invariant count <= |recs|
      invariant prevHash == HashBefore(recs, count) && prevNumber == NumberBefore(recs, count)
      invariant forall i :: 0 <= i < count ==> VerdictAt(c, recs, i).Accepted?
    {
      verdict := VerifyRecord(c, recs[count], prevHash, prevNumber);
      if verdict != Accepted {
        assert forall i :: 0 <= i < count ==> VerdictAt(c, recs[..count], i) == VerdictAt(c, recs, i);
        return;
      }
      prevHash := recs[count].hash;
      prevNumber := recs[count].content.number;
      count := count + 1;
    }
    assert recs[..count] == recs;
    verdict := Accepted;
  }

  datatype StoreVerdict = Ok | BadRecord(verdict: Verdict) | NotInitialized | NoHead | HeadMismatch

  ghost predicate StoreVerifies(c: Crypto, recs: seq<Record>, head: Option<Head>) {
    Verified(c, recs) && head == Some(Head(NumberBefore(recs, |recs|), HashBefore(recs, |recs|)))
  }

  method VerifyStore(c: Crypto, recs: seq<Record>, head: Option<Head>) returns (count: nat, verdict: StoreVerdict)
    ensures verdict.Ok? <==> StoreVerifies(c, recs, head)
    ensures count <= |recs| && Verified(c, recs[..count])
    ensures count < |recs| ==> VerdictAt(c, recs, count) != Accepted && verdict == BadRecord(VerdictAt(c, recs, count))
    ensures verdict.NotInitialized? <==> recs == [] && head.None?
  {
    var prevHash, prevNumber, v;
    count, prevHash, prevNumber, v := Replay(c, recs);
    if v != Accepted {
      return count, BadRecord(v);
    }
    assert recs[..count] == recs;
    if head.None? {
      return count, if count == 0 then NotInitialized else NoHead;
    }
    if head.value.number != prevNumber || head.value.hash != prevHash {
      return count, HeadMismatch;
    }
    return count, Ok;
  }

  // ---------- tamper evidence ----------

  lemma {:induction false} NumbersCountUp(c: Crypto, recs: seq<Record>, i: nat)
    requires Verified(c, recs) && i <= |recs|
    ensures NumberBefore(recs, i) == i
  {
    if i > 0 {
      NumbersCountUp(c, recs, i - 1);
      assert VerdictAt(c, recs, i - 1).Accepted?;
    }
  }

  lemma AcceptedLinks(c: Crypto, recs: seq<Record>, i: nat)
    requires Sound(c) && Verified(c, recs) && i < |recs|
    ensures ChainHash(c, recs[i].content).Some? && recs[i].hash == HexEncode(ChainHash(c, recs[i].content).value)
    ensures UsableHash(recs[i].hash)
    ensures i > 0 ==> recs[i].content.prevHash == recs[i - 1].hash
  {
    assert VerdictAt(c, recs, i).Accepted?;
    DecodeOfEncode(ChainHash(c, recs[i].content).value);
    if i > 0 {
      assert VerdictAt(c, recs, i - 1).Accepted?;
      DecodeOfEncode(ChainHash(c, recs[i - 1].content).value);
    }
  }

  /** The digest, printed, determines the content it was made of. */
  lemma SameChainHashSameContent(c: Crypto, x: Content, y: Content)
    requires Sound(c) && ChainHash(c, x).Some? && ChainHash(c, y).Some?
    requires HexEncode(ChainHash(c, x).value) == HexEncode(ChainHash(c, y).value)
    ensures x == y
  {
    DecodeOfEncode(ChainHash(c, x).value);
    DecodeOfEncode(ChainHash(c, y).value);
  }

  /** Records that verify under the same hash are equal but for their signatures, and
      follow records with the same hash. */
  lemma SameHashSameRecord(c: Crypto, a: seq<Record>, b: seq<Record>, i: nat)
    requires Sound(c) && Verified(c, a) && Verified(c, b) && i < |a| && i < |b| && a[i].hash == b[i].hash
    ensures a[i].content == b[i].content && HashBefore(a, i) == HashBefore(b, i)
  {
    AcceptedLinks(c, a, i);
    AcceptedLinks(c, b, i);
    SameChainHashSameContent(c, a[i].content, b[i].content);
  }

  lemma {:induction false} SameEndSameChain(c: Crypto, a: seq<Record>, b: seq<Record>, n: nat, i: nat)
    requires Sound(c) && Verified(c, a) && Verified(c, b) && i < n <= |a| && n <= |b|
    requires HashBefore(a, n) == HashBefore(b, n)
    ensures a[i].content == b[i].content && a[i].hash == b[i].hash
    decreases n
  {
    SameHashSameRecord(c, a, b, n - 1);
    if i < n - 1 {
      SameEndSameChain(c, a, b, n - 1, i);
    }
  }

  /** Two record sequences that verify against the same head have the same length and
      agree, back to the genesis anchor, in every field but the signatures. */
  lemma HeadFixesEveryRecord(c: Crypto, a: seq<Record>, b: seq<Record>, head: Option<Head>)
    requires Sound(c) && StoreVerifies(c, a, head) && StoreVerifies(c, b, head)
    ensures |a| == |b|
    ensures forall i :: 0 <= i < |a| ==> a[i].content == b[i].content && a[i].hash == b[i].hash
  {
    NumbersCountUp(c, a, |a|);
    NumbersCountUp(c, b, |b|);
    forall i | 0 <= i < |a| ensures a[i].content == b[i].content && a[i].hash == b[i].hash {
      SameEndSameChain(c, a, b, |a|, i);
    }
  }

  /** So an edit to a verified chain that touches more than signatures is always detected. */
  lemma EditIsDetected(c: Crypto, recs: seq<Record>, edited: seq<Record>, head: Option<Head>)
    requires Sound(c) && StoreVerifies(c, recs, head)
    requires |edited| != |recs| || exists i :: 0 <= i < |recs| && (edited[i].content != recs[i].content || edited[i].hash != recs[i].hash)
    ensures !StoreVerifies(c, edited, head)
  {
    if StoreVerifies(c, edited, head) {
      HeadFixesEveryRecord(c, recs, edited, head);
    }
  }
}
