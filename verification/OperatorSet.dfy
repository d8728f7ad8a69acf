/** The stored count of live operator keys: the document that every revocation,
    creation and startup reconcile changes through an atomic read-modify-write. */
module OperatorSet {
  import opened Common

  type Id = string
  type Time = int

  /** Seconds after which a claim left by a crashed revocation no longer counts. */
  const REVOKE_CLAIM_TTL: Time := 5 * 60

  datatype OpSet = OpSet(ids: seq<Id>, revoking: map<Id, Time>)

  datatype BeginResult =
    | Claimed(doc: OpSet)
    | RevokeInProgress
    | LastOperator

  function Without(s: seq<Id>, id: Id): (r: seq<Id>)
    ensures forall x :: x in r <==> x in s && x != id
    ensures |r| <= |s|
    ensures NoDup(s) ==> NoDup(r)
    ensures id !in s ==> r == s
  {
    if s == [] then []
    else
      var rest := Without(s[1..], id);
      assert NoDup(s) ==> s[0] !in rest by {
        assert forall j :: 0 < j < |s| ==> s[1..][j - 1] == s[j];
      }
      assert s[0] !in rest && NoDup(rest) ==> NoDup([s[0]] + rest);
      if s[0] == id then rest else [s[0]] + rest
  }

  predicate ClaimIsLive(doc: OpSet, id: Id, now: Time) {
    id in doc.revoking && now - doc.revoking[id] < REVOKE_CLAIM_TTL
  }

  function AddOperator(doc: OpSet, id: Id): OpSet {
    OpSet(if id in doc.ids then doc.ids else doc.ids + [id], doc.revoking - {id})
  }

  function BeginRevoke(doc: OpSet, id: Id, now: Time): BeginResult {
    if ClaimIsLive(doc, id, now) then RevokeInProgress
    else if (|doc.ids| <= 1 && id in doc.ids) || |doc.ids| == 0 then LastOperator
    else Claimed(OpSet(Without(doc.ids, id), doc.revoking[id := now]))
  }

  function FinishRevoke(doc: OpSet, id: Id): OpSet {
    OpSet(Without(doc.ids, id), doc.revoking - {id})
  }

  /** The claims a reconcile keeps: those that have not expired. */
  function Unexpired(claims: map<Id, Time>, now: Time): map<Id, Time> {
    map id | id in claims && now - claims[id] < REVOKE_CLAIM_TTL :: claims[id]
  }

  // ---------- what the document operations mean ----------

  /** The guard refuses exactly the revocations after which nothing would be counted. */
  lemma BeginSucceedsIffAnotherIsCounted(doc: OpSet, id: Id, now: Time)
    requires NoDup(doc.ids)
    ensures BeginRevoke(doc, id, now).Claimed?
            <==> !ClaimIsLive(doc, id, now) && exists other :: other in doc.ids && other != id
    ensures BeginRevoke(doc, id, now).LastOperator?
            <==> !ClaimIsLive(doc, id, now) && forall other :: other in doc.ids ==> other == id
  {
    if |doc.ids| >= 2 {
      assert doc.ids[0] in doc.ids && doc.ids[1] in doc.ids;
      assert doc.ids[0] != doc.ids[1];
    } else if |doc.ids| == 1 {
      assert doc.ids[0] in doc.ids;
    }
  }

  /** A claim blocks for five minutes; one that is older, or none, does not. What is granted is
      the count without the key, and a claim from now on. */
  lemma BeginAnswers(doc: OpSet, id: Id, now: Time)
    requires NoDup(doc.ids)
    ensures var begun := BeginRevoke(doc, id, now);
            && (begun.RevokeInProgress? <==> id in doc.revoking && now - doc.revoking[id] < 300)
            && (begun.LastOperator? <==> !(id in doc.revoking && now - doc.revoking[id] < 300) && forall other :: other in doc.ids ==> other == id)
            && (begun.Claimed? ==>
                  && NoDup(begun.doc.ids) && (forall x :: x in begun.doc.ids <==> x in doc.ids && x != id)
                  && begun.doc.revoking == doc.revoking[id := now])
  {
    BeginSucceedsIffAnotherIsCounted(doc, id, now);
  }

  /** Counting and finishing a key touch no other key, and leave it without a claim. */
  lemma AddAndFinishTouchOneKey(doc: OpSet, id: Id)
    ensures forall x :: x in AddOperator(doc, id).ids <==> x in doc.ids || x == id
    ensures forall x :: x in FinishRevoke(doc, id).ids <==> x in doc.ids && x != id
    ensures NoDup(doc.ids) ==> NoDup(AddOperator(doc, id).ids) && NoDup(FinishRevoke(doc, id).ids)
    ensures AddOperator(doc, id).revoking == doc.revoking - {id} == FinishRevoke(doc, id).revoking
  {
  }

  /** Exactly the claims younger than five minutes survive a reconcile. */
  lemma UnexpiredAreYoung(claims: map<Id, Time>, now: Time)
    ensures forall id :: id in Unexpired(claims, now) <==> id in claims && now - claims[id] < 300
    ensures forall id :: id in Unexpired(claims, now) ==> Unexpired(claims, now)[id] == claims[id]
  {
  }

  /** Aborting a revocation undoes its claim: the same ids are counted as before,
      the revoked one included, and no claim on it is left. */
  lemma AbortUndoesBegin(doc: OpSet, id: Id, now: Time)
    requires BeginRevoke(doc, id, now).Claimed?
    ensures var back := AddOperator(BeginRevoke(doc, id, now).doc, id);
            && (forall x :: x in back.ids <==> x in doc.ids || x == id)
            && (NoDup(doc.ids) ==> NoDup(back.ids))
            && back.revoking == doc.revoking - {id}
  {
    var begun := BeginRevoke(doc, id, now).doc;
    var back := AddOperator(begun, id);
    assert id !in begun.ids;
    assert back.ids == begun.ids + [id];
    forall x ensures x in back.ids <==> x in doc.ids || x == id {
      assert x in begun.ids + [id] <==> x in begun.ids || x == id;
    }
    assert back.revoking == doc.revoking - {id};
  }

  // ---------- the document as the server changes it ----------

  datatype BeginOutcome = Ok | ErrRevokeInProgress | ErrLastOperator

  class OperatorDocument {
    var ids: seq<Id>
    var revoking: map<Id, Time>

    ghost function Value(): OpSet
      reads this
    {
      OpSet(ids, revoking)
    }

    constructor ()
      ensures Value() == OpSet([], map[])
    {
      ids, revoking := [], map[];
    }

    method Add(id: Id)
      modifies this
      ensures Value() == AddOperator(old(Value()), id)
    {
      if id !in ids {
        ids := ids + [id];
      }
      revoking := revoking - {id};
    }

    method Begin(id: Id, now: Time) returns (outcome: BeginOutcome)
      modifies this
      ensures match BeginRevoke(old(Value()), id, now)
              case Claimed(doc) => outcome.Ok? && Value() == doc
              case RevokeInProgress => outcome.ErrRevokeInProgress? && Value() == old(Value())
              case LastOperator => outcome.ErrLastOperator? && Value() == old(Value())
    {
      if id in revoking && now - revoking[id] < REVOKE_CLAIM_TTL {
        return ErrRevokeInProgress;
      }
      if (|ids| <= 1 && id in ids) || |ids| == 0 {
        return ErrLastOperator;
      }
      ids := Without(ids, id);
      revoking := revoking[id := now];
      return Ok;
    }

    method Finish(id: Id)
      modifies this
      ensures Value() == FinishRevoke(old(Value()), id)
    {
      revoking := revoking - {id};
      ids := Without(ids, id);
    }

    /** The body of a reconcile: `actual` is what its earlier scan saw, `live` the
        keys its re-check finds in the store. */
    method Reconcile(actual: set<Id>, live: set<Id>, now: Time)
      modifies this
      ensures revoking == Unexpired(old(revoking), now)
      ensures NoDup(ids)
      ensures forall id :: id in ids <==> id in actual && id in live && id !in revoking
    {
      var claims := revoking.Keys;
      ghost var before := revoking;
      while claims != {}
        invariant claims <= before.Keys
        invariant forall id :: id in revoking <==> id in before && (id in claims || now - before[id] < REVOKE_CLAIM_TTL)
        invariant forall id :: id in revoking ==> revoking[id] == before[id]
        decreases |claims|
      {
        var id :| id in claims;
        if now - revoking[id] >= REVOKE_CLAIM_TTL {
          revoking := revoking - {id};
        }
        claims := claims - {id};
      }
      assert revoking == Unexpired(before, now);
      var found: seq<Id> := [];
      var todo := actual;
      while todo != {}
        invariant todo <= actual
        invariant revoking == Unexpired(before, now)
        invariant NoDup(found)
        invariant forall id :: id in found <==> id in actual && id !in todo && id in live && id !in revoking
        decreases |todo|
      {
        var id :| id in todo;
        todo := todo - {id};
        if id !in revoking && id in live {
          found := found + [id];
        }
      }
      ids := found;
    }
  }
}
