/** The single-process audit log: one line per record, appended and synced in turn. */
module FileLog {
  import opened Common
  import opened Text
  import opened AuditRecord

  datatype Line = Whole(rec: Record) | Torn

  /** How an append ends. Every failure is reported; only the middle two leave bytes behind. */
  datatype Outcome =
    | Synced
    | Unsynced      // the line was written, the sync failed
    | PartWritten   // the write failed half way
    | NotWritten    // signing, encoding or the write failed before any byte

  /** An open log holds in memory the last number it used and the last hash. */
  datatype State = State(lines: seq<Line>, session: Option<Head>)

  datatype Op =
    | Open(anchor: Bytes, time: int, nonce: nat, outcome: Outcome)
    | Append(body: Body, nonce: nat, outcome: Outcome)
    | Close

  /** No record's digest equals the hash it was chained to. */
  ghost predicate NoFixedPoint(c: Crypto) {
    forall p, x :: c.digest(p, x) != p
  }

  /** The number advances before anything is written; the head only after the sync. */
  function AfterAppend(e: Env, lines: seq<Line>, s: Head, b: Body, nonce: nat, outcome: Outcome): (seq<Line>, Head) {
    match Seal(e.c, ContentOf(e, b, s), nonce)
    case None => (lines, s.(number := s.number + 1))
    case Some(rec) =>
      match outcome
      case Synced => (lines + [Whole(rec)], Head(s.number + 1, rec.hash))
      case Unsynced => (lines + [Whole(rec)], s.(number := s.number + 1))
      case PartWritten => (lines + [Torn], s.(number := s.number + 1))
      case NotWritten => (lines, s.(number := s.number + 1))
  }

  predicate Readable(lines: seq<Line>) {
    forall i :: 0 <= i < |lines| ==> lines[i].Whole?
  }

  function Apply(e: Env, st: State, op: Op): State {
    match op
    case Close => st.(session := None)
    case Append(body, nonce, outcome) =>
      if st.session.None? then st
      else
        var (lines, s) := AfterAppend(e, st.lines, st.session.value, body, nonce, outcome);
        State(lines, Some(s))
    case Open(anchor, time, nonce, outcome) =>
      if !Readable(st.lines) then st.(session := None)
      else if st.lines != [] then
        var last := st.lines[|st.lines| - 1].rec;
        st.(session := Some(Head(last.content.number, last.hash)))
      else
        var (lines, s) := AfterAppend(e, [], Head(0, HexEncode(anchor)), GenesisBody(time), nonce, outcome);
        State(lines, if outcome.Synced? then Some(s) else None)
  }

  function Run(e: Env, ops: seq<Op>): State {
    if ops == [] then State([], None) else Apply(e, Run(e, ops[..|ops| - 1]), ops[|ops| - 1])
  }

  // ---------- which runs leave a log that verifies ----------

  /** Whether the open session has seen a failed append, and whether a line was torn or
      something was appended after a failure without reopening. */
  datatype Tally = Tally(open: bool, empty: bool, failed: bool, harmed: bool)

  predicate Leaves(o: Outcome) {
    o.Synced? || o.Unsynced?
  }

  /** Counted from the operations alone. */
  function Count(ops: seq<Op>): Tally {
    if ops == [] then Tally(false, true, false, false)
    else
      var t := Count(ops[..|ops| - 1]);
      match ops[|ops| - 1]
      case Close => t.(open := false)
      case Append(_, _, o) =>
        if !t.open then t
        else Tally(true, t.empty && o.NotWritten?, t.failed || !o.Synced?, t.harmed || o.PartWritten? || (t.failed && Leaves(o)))
      case Open(_, _, _, o) =>
        if t.empty then Tally(o.Synced?, o.NotWritten?, false, t.harmed || o.PartWritten?)
        else t.(open := true, failed := false)
  }

  ghost predicate FileVerifies(c: Crypto, lines: seq<Line>) {
    Readable(lines) && Verified(c, Records(lines))
  }

  function Records(lines: seq<Line>): (recs: seq<Record>)
    requires Readable(lines)
    ensures |recs| == |lines| && forall i :: 0 <= i < |lines| ==> recs[i] == lines[i].rec
  {
    seq(|lines|, i requires 0 <= i < |lines| => lines[i].rec)
  }

  /** The next whole line would not extend the chain. */
  predicate OutOfStep(s: Head, last: Record) {
    s.number > last.content.number || (s.number == last.content.number && s.hash != last.hash)
  }

  ghost predicate InStepWith(st: State, t: Tally) {
    && Readable(st.lines)
    && (t.empty <==> st.lines == [])
    && (t.open <==> st.session.Some?)
    && (t.open ==>
          && !t.empty && HexDecode(st.session.value.hash).Some?
          && var last := st.lines[|st.lines| - 1].rec;
             if t.failed then OutOfStep(st.session.value, last)
             else st.session.value == Head(last.content.number, last.hash))
  }

  lemma SealedExtends(e: Env, recs: seq<Record>, b: Body, s: Head, nonce: nat)
    requires Sound(e.c) && Verified(e.c, recs) && HexDecode(s.hash).Some?
    requires s.number == NumberBefore(recs, |recs|) && (recs == [] || s.hash == HashBefore(recs, |recs|))
    ensures Seal(e.c, ContentOf(e, b, s), nonce).Some?
    ensures var rec := Seal(e.c, ContentOf(e, b, s), nonce).value;
            && rec.content == ContentOf(e, b, s) && UsableHash(rec.hash)
            && Verified(e.c, recs + [rec])
  {
    SealSucceedsAndVerifies(e.c, ContentOf(e, b, s), nonce, HashBefore(recs, |recs|));
    var rec := Seal(e.c, ContentOf(e, b, s), nonce).value;
    var longer := recs + [rec];
    forall i | 0 <= i < |longer| ensures VerdictAt(e.c, longer, i).Accepted? {
      if i < |recs| {
        assert VerdictAt(e.c, longer, i) == VerdictAt(e.c, recs, i);
      }
    }
  }

  lemma SealedHashDiffers(e: Env, b: Body, s: Head, nonce: nat)
    requires NoFixedPoint(e.c) && Seal(e.c, ContentOf(e, b, s), nonce).Some?
    ensures Seal(e.c, ContentOf(e, b, s), nonce).value.hash != s.hash
  {
    var sum := ChainHash(e.c, ContentOf(e, b, s)).value;
    DecodeOfEncode(sum);
  }

  lemma OutOfStepBreaks(e: Env, recs: seq<Record>, b: Body, s: Head, nonce: nat)
    requires Sound(e.c) && recs != [] && Verified(e.c, recs) && OutOfStep(s, recs[|recs| - 1])
    requires Seal(e.c, ContentOf(e, b, s), nonce).Some?
    ensures !Verified(e.c, recs + [Seal(e.c, ContentOf(e, b, s), nonce).value])
  {
    var longer := recs + [Seal(e.c, ContentOf(e, b, s), nonce).value];
    AcceptedLinks(e.c, recs, |recs| - 1);
    assert !VerdictAt(e.c, longer, |recs|).Accepted?;
  }

  lemma PrefixVerifies(c: Crypto, recs: seq<Record>, n: nat)
    requires n <= |recs| && Verified(c, recs)
    ensures Verified(c, recs[..n])
  {
    forall i | 0 <= i < n ensures VerdictAt(c, recs[..n], i).Accepted? {
      assert VerdictAt(c, recs[..n], i) == VerdictAt(c, recs, i);
    }
  }

  /** Lines are only ever added, so a file that fails to verify does so for ever. */
  lemma MoreLinesDoNotHelp(c: Crypto, lines: seq<Line>, more: seq<Line>)
    requires FileVerifies(c, lines + more)
    ensures FileVerifies(c, lines)
  {
    forall i | 0 <= i < |lines| ensures lines[i].Whole? {
      assert (lines + more)[i].Whole?;
    }
    PrefixVerifies(c, Records(lines + more), |lines|);
    assert Records(lines + more)[..|lines|] == Records(lines);
  }

  lemma RecordsOfLonger(lines: seq<Line>, rec: Record)
    requires Readable(lines)
    ensures Readable(lines + [Whole(rec)]) && Records(lines + [Whole(rec)]) == Records(lines) + [rec]
  {
  }

  lemma StepOnlyAdds(e: Env, st: State, op: Op)
    ensures st.lines <= Apply(e, st, op).lines
  {
  }

  lemma AppendMatches(e: Env, st: State, t: Tally, b: Body, nonce: nat, o: Outcome)
    requires Sound(e.c) && NoFixedPoint(e.c) && InStepWith(st, t) && FileVerifies(e.c, st.lines) && t.open
    ensures var t' := Tally(true, t.empty && o.NotWritten?, t.failed || !o.Synced?, t.harmed || o.PartWritten? || (t.failed && Leaves(o)));
            var st' := Apply(e, st, Append(b, nonce, o));
            if o.PartWritten? || (t.failed && Leaves(o)) then !FileVerifies(e.c, st'.lines)
            else FileVerifies(e.c, st'.lines) && InStepWith(st', t')
  {
    var s, recs := st.session.value, Records(st.lines);
    var last := recs[|recs| - 1];
    AcceptedLinks(e.c, recs, |recs| - 1);
    assert ChainHash(e.c, ContentOf(e, b, s)).Some?;
    var rec := Seal(e.c, ContentOf(e, b, s), nonce).value;
    if o.PartWritten? {
      assert (st.lines + [Torn])[|st.lines|] == Torn;
    } else if Leaves(o) {
      RecordsOfLonger(st.lines, rec);
      if t.failed {
        OutOfStepBreaks(e, recs, b, s, nonce);
      } else {
        SealedExtends(e, recs, b, s, nonce);
        SealedHashDiffers(e, b, s, nonce);
      }
    }
  }

  lemma OpenMatches(e: Env, st: State, t: Tally, op: Op)
    requires Sound(e.c) && InStepWith(st, t) && FileVerifies(e.c, st.lines) && op.Open?
    ensures var st' := Apply(e, st, op);
            if t.empty then
              if op.outcome.PartWritten? then !FileVerifies(e.c, st'.lines)
              else FileVerifies(e.c, st'.lines) && InStepWith(st', Tally(op.outcome.Synced?, op.outcome.NotWritten?, false, false))
            else FileVerifies(e.c, st'.lines) && InStepWith(st', t.(open := true, failed := false))
  {
    if t.empty {
      var s, b := Head(0, HexEncode(op.anchor)), GenesisBody(op.time);
      DecodeOfEncode(op.anchor);
      assert Records([]) == [];
      SealedExtends(e, [], b, s, op.nonce);
      var rec := Seal(e.c, ContentOf(e, b, s), op.nonce).value;
      RecordsOfLonger([], rec);
      if op.outcome.PartWritten? {
        assert Apply(e, st, op).lines == [Torn];
      }
    } else {
      var recs := Records(st.lines);
      AcceptedLinks(e.c, recs, |recs| - 1);
    }
  }

  lemma HarmStays(e: Env, st: State, op: Op)
    requires !FileVerifies(e.c, st.lines)
    ensures !FileVerifies(e.c, Apply(e, st, op).lines)
  {
    StepOnlyAdds(e, st, op);
    var lines := Apply(e, st, op).lines;
    if FileVerifies(e.c, lines) {
      assert lines == st.lines + lines[|st.lines|..];
      MoreLinesDoNotHelp(e.c, st.lines, lines[|st.lines|..]);
    }
  }

  lemma {:induction false} RunMatchesCount(e: Env, ops: seq<Op>)
    requires Sound(e.c) && NoFixedPoint(e.c)
    ensures if Count(ops).harmed then !FileVerifies(e.c, Run(e, ops).lines)
            else FileVerifies(e.c, Run(e, ops).lines) && InStepWith(Run(e, ops), Count(ops))
    decreases |ops|
  {
    if ops == [] {
      assert Records([]) == [];
    } else {
      var before, op := ops[..|ops| - 1], ops[|ops| - 1];
      RunMatchesCount(e, before);
      var st, t := Run(e, before), Count(before);
      if t.harmed {
        HarmStays(e, st, op);
      } else {
        match op
        case Close =>
        case Open(_, _, _, _) => OpenMatches(e, st, t, op);
        case Append(b, nonce, o) => if t.open { AppendMatches(e, st, t, b, nonce, o); }
      }
    }
  }

  /** A log verifies exactly when no line was torn and nothing was appended between a
      failed append and the next reopening. */
  lemma LogVerifiesIffNoAppendAfterFailure(e: Env, ops: seq<Op>)
    requires Sound(e.c) && NoFixedPoint(e.c)
    ensures FileVerifies(e.c, Run(e, ops).lines) <==> !Count(ops).harmed
  {
    RunMatchesCount(e, ops);
  }

  predicate NoFailures(ops: seq<Op>) {
    forall i :: 0 <= i < |ops| ==> (ops[i].Append? || ops[i].Open?) ==> ops[i].outcome.Synced?
  }

  /** Records appended by a run without failures: every append to an open log, and the
      genesis record of the first opening. */
  function Appended(ops: seq<Op>): nat {
    if ops == [] then 0
    else
      var before := ops[..|ops| - 1];
      Appended(before) + match ops[|ops| - 1]
                         case Close => 0
                         case Append(_, _, _) => if Count(before).open then 1 else 0
                         case Open(_, _, _, _) => if Count(before).empty then 1 else 0
  }

  lemma NextRecordExtends(e: Env, st: State, t: Tally, b: Body, nonce: nat)
    requires Sound(e.c) && InStepWith(st, t) && FileVerifies(e.c, st.lines) && t.open && !t.failed
    ensures var st' := Apply(e, st, Append(b, nonce, Synced));
            FileVerifies(e.c, st'.lines) && InStepWith(st', t) && |st'.lines| == |st.lines| + 1
  {
    var s, recs := st.session.value, Records(st.lines);
    AcceptedLinks(e.c, recs, |recs| - 1);
    SealedExtends(e, recs, b, s, nonce);
    RecordsOfLonger(st.lines, Seal(e.c, ContentOf(e, b, s), nonce).value);
  }

  lemma OpeningAddsGenesisOnly(e: Env, st: State, t: Tally, op: Op)
    requires Sound(e.c) && InStepWith(st, t) && op.Open? && op.outcome.Synced?
    ensures |Apply(e, st, op).lines| == |st.lines| + if t.empty then 1 else 0
  {
    if t.empty {
      DecodeOfEncode(op.anchor);
      assert Records([]) == [];
      SealedExtends(e, [], GenesisBody(op.time), Head(0, HexEncode(op.anchor)), op.nonce);
    }
  }

  /** Any run of openings, appends, checkpoints and closings without a failed append
      leaves a file that verifies, holding exactly the records appended, and an open log that
      continues it. */
  lemma {:induction false} FailureFreeRunsVerify(e: Env, ops: seq<Op>)
    requires Sound(e.c) && NoFailures(ops)
    ensures FileVerifies(e.c, Run(e, ops).lines) && |Run(e, ops).lines| == Appended(ops)
    ensures InStepWith(Run(e, ops), Count(ops)) && !Count(ops).failed
    decreases |ops|
  {
    if ops == [] {
      assert Records([]) == [];
    } else {
      var before, op := ops[..|ops| - 1], ops[|ops| - 1];
      FailureFreeRunsVerify(e, before);
      var st, t := Run(e, before), Count(before);
      match op
      case Close =>
      case Open(_, _, _, _) =>
        OpenMatches(e, st, t, op);
        OpeningAddsGenesisOnly(e, st, t, op);
      case Append(b, nonce, _) => if t.open { NextRecordExtends(e, st, t, b, nonce); }
    }
  }

  // ---------- what the lines say ----------

  /** The operation wrote this content: what its caller handed in, or the genesis. */
  predicate Wrote(e: Env, op: Op, x: Content) {
    match op
    case Append(b, _, _) => x.number > 0 && Carries(x, b, Head(x.number - 1, x.prevHash), e.keyId)
    case Open(anchor, time, _, _) => exists b :: b == GenesisBody(time) && IsGenesisBody(b, time) && Carries(x, b, Head(0, HexEncode(anchor)), e.keyId)
    case Close => false
  }

  lemma LastLineWasWritten(e: Env, st: State, op: Op, k: nat)
    requires |st.lines| <= k < |Apply(e, st, op).lines| && Apply(e, st, op).lines[k].Whole?
    ensures Wrote(e, op, Apply(e, st, op).lines[k].rec.content)
  {
    match op
    case Append(b, _, _) => WhatIsLogged(e, b, st.session.value, 0);
    case Open(anchor, time, _, _) => WhatIsLogged(e, GenesisBody(time), Head(0, HexEncode(anchor)), time);
  }

  /** Every whole line of a log says what one of its operations was given to write. */
  lemma {:induction false} LinesSayWhatWasAppended(e: Env, ops: seq<Op>, k: nat) returns (j: nat)
    requires k < |Run(e, ops).lines| && Run(e, ops).lines[k].Whole?
    ensures j < |ops| && Wrote(e, ops[j], Run(e, ops).lines[k].rec.content)
  {
    var n := |ops| - 1;
    StepOnlyAdds(e, Run(e, ops[..n]), ops[n]);
    if k < |Run(e, ops[..n]).lines| {
      j := LinesSayWhatWasAppended(e, ops[..n], k);
    } else {
      j := n;
      LastLineWasWritten(e, Run(e, ops[..n]), ops[n], k);
    }
  }

  // ---------- the log as the server drives it ----------

  class Log {
    const env: Env
    var lines: seq<Line>
    var open: bool
    var number: nat
    var head: string

    ghost function Value(): State
      reads this
    {
      State(lines, if open then Some(Head(number, head)) else None)
    }

    constructor (env: Env)
      ensures this.env == env && Value() == Run(env, [])
    {
      this.env := env;
      lines, open, number, head := [], false, 0, "";
    }

    method Append(body: Body, nonce: nat, outcome: Outcome) returns (ok: bool)
      requires open
      modifies this`lines, this`number, this`head
      ensures Value() == Apply(env, old(Value()), Op.Append(body, nonce, outcome))
      ensures ok <==> outcome.Synced? && Seal(env.c, ContentOf(env, body, Head(old(number), old(head))), nonce).Some?
      ensures ok ==> |lines| == |old(lines)| + 1 && lines[..|old(lines)|] == old(lines) && lines[|old(lines)|].Whole?
      ensures ok ==> Carries(lines[|old(lines)|].rec.content, body, Head(old(number), old(head)), env.keyId)
      ensures ok ==> head == lines[|old(lines)|].rec.hash && number == old(number) + 1
      ensures old(lines) <= lines && number == old(number) + 1
    {
      number := number + 1;
      var content := Content(number, body.time, body.tenant, body.actor, body.action, body.target, body.detail, head, env.keyId);
      var sealed := Seal(env.c, content, nonce);
      if sealed.None? || outcome.NotWritten? {
        return false;
      }
      if outcome.PartWritten? {
        lines := lines + [Torn];
        return false;
      }
      lines := lines + [Whole(sealed.value)];
      if outcome.Unsynced? {
        return false;
      }
      head := sealed.value.hash;
      return true;
    }

    method Checkpoint(time: int, nonce: nat, outcome: Outcome) returns (ok: bool)
      requires open
      modifies this`lines, this`number, this`head
      ensures Value() == Apply(env, old(Value()), Op.Append(CheckpointBody(Head(old(number), old(head)), time), nonce, outcome))
      ensures ok <==> outcome.Synced? && Seal(env.c, ContentOf(env, CheckpointBody(Head(old(number), old(head)), time), Head(old(number), old(head))), nonce).Some?
      ensures ok ==> old(lines) < lines && lines[|old(lines)|].Whole?
      ensures ok ==> exists b :: IsCheckpointOf(b, Head(old(number), old(head)), time)
                                 && Carries(lines[|old(lines)|].rec.content, b, Head(old(number), old(head)), env.keyId)
    {
      WhatIsLogged(env, CheckpointBody(Head(number, head), time), Head(number, head), time);
      ok := Append(CheckpointBody(Head(number, head), time), nonce, outcome);
    }

    /** Recovers the session from the last line; an empty file gets a genesis record. */
    method OpenFile(anchor: Bytes, time: int, nonce: nat, outcome: Outcome) returns (ok: bool)
      requires Sound(env.c)
      modifies this
      ensures Value() == Apply(env, old(Value()), Op.Open(anchor, time, nonce, outcome))
      ensures ok == open
      ensures ok <==> Readable(old(lines)) && (old(lines) != [] || outcome.Synced?)
      ensures old(lines) != [] ==> lines == old(lines)
      ensures ok && lines == old(lines) ==> number == lines[|lines| - 1].rec.content.number && head == lines[|lines| - 1].rec.hash
      ensures ok && old(lines) == [] ==>
                && |lines| == 1 && lines[0].Whole? && number == 1 && head == lines[0].rec.hash
                && exists b :: IsGenesisBody(b, time) && Carries(lines[0].rec.content, b, Head(0, HexEncode(anchor)), env.keyId)
    {
      open := false;
      var last: Option<Record> := None;
      var i := 0;
      while i < |lines|
        invariant i <= |lines| && Value() == old(Value()).(session := None)
        invariant Readable(lines[..i]) && last == if i == 0 then None else Some(lines[i - 1].rec)
      {
        if lines[i].Torn? {
          return false;
        }
        last := Some(lines[i].rec);
        i := i + 1;
      }
      assert lines[..i] == lines;
      if last.Some? {
        open, number, head := true, last.value.content.number, last.value.hash;
        return true;
      }
      open, number, head := true, 0, HexEncode(anchor);
      DecodeOfEncode(anchor);
      SealedExtends(env, [], GenesisBody(time), Head(0, head), nonce);
      ok := Append(GenesisBody(time), nonce, outcome);
      open := ok;
      WhatIsLogged(env, GenesisBody(time), Head(0, HexEncode(anchor)), time);
    }

    method CloseFile()
      modifies this`open
      ensures Value() == Apply(env, old(Value()), Close)
    {
      open := false;
    }

    /** Replays the file. */
    method VerifyFile() returns (count: nat, ok: bool)
      ensures ok <==> FileVerifies(env.c, lines)
      ensures ok ==> count == |lines|
      ensures !ok ==> count < |lines| && FileVerifies(env.c, lines[..count]) && !FileVerifies(env.c, lines[..count + 1])
    {
      var prevHash, prevNumber := "", 0;
      count := 0;
      assert Records([]) == [];
      while count < |lines|
        invariant count <= |lines| && Readable(lines[..count]) && Verified(env.c, Records(lines[..count]))
        invariant prevHash == HashBefore(Records(lines[..count]), count)
        invariant prevNumber == NumberBefore(Records(lines[..count]), count)
      {
        assert lines[..count + 1] == lines[..count] + [lines[count]];
        if lines[count].Torn? {
          NotBeyond(env.c, lines, count);
          return count, false;
        }
        var rec := lines[count].rec;
        RecordsOfLonger(lines[..count], rec);
        var verdict := VerifyRecord(env.c, rec, prevHash, prevNumber);
        NextVerdict(env.c, Records(lines[..count]), rec);
        if verdict != Accepted {
          NotBeyond(env.c, lines, count);
          return count, false;
        }
        prevHash, prevNumber := rec.hash, rec.content.number;
        count := count + 1;
      }
      assert lines[..count] == lines;
      return count, true;
    }
  }

  lemma NextVerdict(c: Crypto, recs: seq<Record>, rec: Record)
    requires Verified(c, recs)
    ensures Verified(c, recs + [rec])
            <==> VerifyRecord(c, rec, HashBefore(recs, |recs|), NumberBefore(recs, |recs|)) == Accepted
  {
    var longer := recs + [rec];
    assert VerdictAt(c, longer, |recs|) == VerifyRecord(c, rec, HashBefore(recs, |recs|), NumberBefore(recs, |recs|));
    forall i | 0 <= i < |recs| ensures VerdictAt(c, longer, i).Accepted? {
      assert VerdictAt(c, longer, i) == VerdictAt(c, recs, i);
    }
  }

  lemma NotBeyond(c: Crypto, lines: seq<Line>, n: nat)
    requires n < |lines| && !FileVerifies(c, lines[..n + 1])
    ensures !FileVerifies(c, lines)
  {
    if FileVerifies(c, lines) {
      assert lines == lines[..n + 1] + lines[n + 1..];
      MoreLinesDoNotHelp(c, lines[..n + 1], lines[n + 1..]);
    }
  }
}
