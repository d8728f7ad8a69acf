/** The minted bootstrap key: its record is in the store, its secret only ever in a file.
    Starters write a temporary file, insert the record if absent, and rename the file. */
module MintedFile {
  import opened Common
  import opened Text
  import opened KeyToken

  const MINTED_ID: string := "0000000000000000"

  // ---------- what a file holds ----------

  predicate IsSpace(c: char) {
    c in [' ', '\t', '\n', 11 as char, 12 as char, '\r']
  }

  function TrimLeft(s: string): string {
    if s != "" && IsSpace(s[0]) then TrimLeft(s[1..]) else s
  }

  function TrimRight(s: string): string {
    if s != "" && IsSpace(s[|s| - 1]) then TrimRight(s[..|s| - 1]) else s
  }

  /** The secret of a key file, whatever the key's id; and only if it is the minted one. */
  function AnySecretIn(content: string): Option<string> {
    var parsed := ParseKey(TrimRight(TrimLeft(content)));
    if parsed.Some? then Some(parsed.value.secret) else None
  }

  function SecretIn(content: string): Option<string> {
    var parsed := ParseKey(TrimRight(TrimLeft(content)));
    if parsed.Some? && parsed.value.id == MINTED_ID then Some(parsed.value.secret) else None
  }

  function Token(secret: string): string {
    KEY_PREFIX + MINTED_ID + "_" + secret
  }

  function FileText(secret: string): string {
    Token(secret) + "\n"
  }

  predicate IsSecret(s: string) {
    |s| == 2 * KEY_SECRET_BYTES && IsLowerHex(s)
  }

  lemma TokenHasNoSpace(secret: string)
    requires IsSecret(secret)
    ensures forall i :: 0 <= i < |Token(secret)| ==> !IsSpace(Token(secret)[i])
    ensures |Token(secret)| == 89
  {
    forall i | 0 <= i < |Token(secret)| ensures !IsSpace(Token(secret)[i]) {
      if i >= 25 {
        assert Token(secret)[i] == secret[i - 25];
      }
    }
  }

  lemma NothingToTrim(s: string)
    requires forall i :: 0 <= i < |s| ==> !IsSpace(s[i])
    ensures TrimRight(TrimLeft(s)) == s
  {
  }

  lemma OnlyTheLineEnd(s: string)
    requires s != "" && forall i :: 0 <= i < |s| ==> !IsSpace(s[i])
    ensures TrimRight(TrimLeft(s + "\n")) == s
  {
    assert TrimLeft(s + "\n") == s + "\n";
    assert (s + "\n")[..|s|] == s;
    assert TrimRight(s) == s;
  }

  lemma TrimmedTokenIsRead(content: string, secret: string)
    requires IsSecret(secret) && TrimRight(TrimLeft(content)) == Token(secret)
    ensures SecretIn(content) == Some(secret)
  {
    ParseKeyAcceptsExactly(Token(secret), MINTED_ID, secret);
  }

  lemma FileHoldsItsSecret(secret: string)
    requires IsSecret(secret)
    ensures SecretIn(FileText(secret)) == Some(secret)
  {
    TokenHasNoSpace(secret);
    OnlyTheLineEnd(Token(secret));
    TrimmedTokenIsRead(FileText(secret), secret);
  }

  /** A file cut short holds its secret or none. */
  lemma CutFileHoldsNoOther(secret: string, n: nat)
    requires IsSecret(secret) && n <= |FileText(secret)|
    ensures SecretIn(FileText(secret)[..n]) == None || SecretIn(FileText(secret)[..n]) == Some(secret)
  {
    TokenHasNoSpace(secret);
    var cut := FileText(secret)[..n];
    if n > |Token(secret)| {
      assert cut == FileText(secret);
      FileHoldsItsSecret(secret);
    } else {
      assert cut == Token(secret)[..n];
      NothingToTrim(cut);
      if ParseKey(cut).Some? {
        var r := ParseKey(cut).value;
        ParseKeyAcceptsExactly(cut, r.id, r.secret);
        assert |cut| == 89;
        assert cut == Token(secret);
        ParseKeyAcceptsExactly(cut, MINTED_ID, secret);
      }
    }
  }

  // ---------- the protocol ----------

  type Pid = nat
  type Name = string

  /** The digest of a secret, the text of a key file, and its reading with and without a look
      at the id. */
  datatype Codec = Codec(hash: string -> string, text: string -> string,
                         read: string -> Option<string>, readAny: string -> Option<string>)

  ghost predicate Sound(c: Codec) {
    && (forall a, b :: c.hash(a) == c.hash(b) ==> a == b)
    && (forall secret :: IsSecret(secret) ==> c.read(c.text(secret)) == Some(secret))
    && (forall content :: c.read(content).Some? ==> c.readAny(content) == c.read(content))
    && (forall secret, n :: IsSecret(secret) && 0 <= n <= |c.text(secret)| ==>
          c.read(c.text(secret)[..n]) == None || c.read(c.text(secret)[..n]) == Some(secret))
  }

  /** The files the server writes and reads are sound with any injective digest. */
  lemma KeyFilesAreSound(hash: string -> string)
    requires forall a, b :: hash(a) == hash(b) ==> a == b
    ensures Sound(Codec(hash, FileText, SecretIn, AnySecretIn))
  {
    var c := Codec(hash, FileText, SecretIn, AnySecretIn);
    forall secret | IsSecret(secret) ensures c.read(c.text(secret)) == Some(secret) {
      FileHoldsItsSecret(secret);
    }
    forall secret, n | IsSecret(secret) && 0 <= n <= |c.text(secret)|
      ensures c.read(c.text(secret)[..n]) == None || c.read(c.text(secret)[..n]) == Some(secret)
    {
      CutFileHoldsNoOther(secret, n);
    }
  }

  function HashIn(c: Codec, content: string): Option<string> {
    var secret := c.read(content);
    if secret.Some? then Some(c.hash(secret.value)) else None
  }

  datatype Files = Files(final: Option<string>, temps: map<Name, string>)

  datatype Proc =
    | Deciding
    | Minting
    | Writing(name: Name, secret: string)
    | Inserting(name: Name, secret: string)
    | Removing(name: Name, secret: string)
    | Renaming(name: Name, secret: string)
    | Reading
    | Comparing(hash: string)
    | Globbing(hash: string)
    | Trying(hash: string, todo: set<Name>)
    | Moving(hash: string, name: Name)

  /** `key` is the hash in the minted key's record; `names` and `secrets` are those drawn so far. */
  datatype State = State(key: Option<string>, revoked: bool, files: Files, names: set<Name>, secrets: set<string>, procs: map<Pid, Proc>)

  datatype Step =
    | Start(p: Pid)
    | Decide(p: Pid, operatorExists: bool)
    | CreateTemp(p: Pid, name: Name, secret: string)
    | WriteTemp(p: Pid, upTo: nat)
    | CloseTemp(p: Pid)
    | GiveUpTemp(p: Pid)
    | Insert(p: Pid, write: Write)
    | RemoveTemp(p: Pid)
    | Rename(p: Pid, ok: bool)
    | ReadRecord(p: Pid)
    | LookForFinal(p: Pid)
    | Glob(p: Pid)
    | Try(p: Pid, name: Name, readable: bool)  // a file that cannot be read is skipped
    | RunOut(p: Pid)                        // no file is left to try: a return without an error
    | Move(p: Pid, ok: bool)
    | End(p: Pid)  // an error or a crash
    | Revoke       // the minted key's record is deleted
    | RemoveFinal  // and then its file

  predicate Enabled(c: Codec, s: State, st: Step) {
    match st
    case Start(p) => p !in s.procs
    case Decide(p, operatorExists) => p in s.procs && s.procs[p].Deciding? && (s.key.Some? ==> operatorExists)
    case CreateTemp(p, name, secret) =>
      p in s.procs && s.procs[p].Minting? && name !in s.names && secret !in s.secrets && IsSecret(secret)
    case WriteTemp(p, upTo) =>
      p in s.procs && s.procs[p].Writing? && s.procs[p].name in s.files.temps && upTo <= |c.text(s.procs[p].secret)|
    case CloseTemp(p) =>
      && p in s.procs && s.procs[p].Writing? && s.procs[p].name in s.files.temps
      && s.files.temps[s.procs[p].name] == c.text(s.procs[p].secret)
    case GiveUpTemp(p) => p in s.procs && s.procs[p].Writing?
    case Insert(p, write) => p in s.procs && s.procs[p].Inserting?
    case RemoveTemp(p) => p in s.procs && s.procs[p].Removing?
    case Rename(p, ok) => p in s.procs && s.procs[p].Renaming?
    case ReadRecord(p) => p in s.procs && s.procs[p].Reading?
    case LookForFinal(p) => p in s.procs && s.procs[p].Comparing?
    case Glob(p) => p in s.procs && s.procs[p].Globbing?
    case Try(p, name, readable) => p in s.procs && s.procs[p].Trying? && name in s.procs[p].todo
    case RunOut(p) => p in s.procs && s.procs[p].Trying? && s.procs[p].todo == {}
    case Move(p, ok) => p in s.procs && s.procs[p].Moving?
    case End(p) => p in s.procs
    case Revoke => s.key.Some?
    case RemoveFinal => s.revoked
  }

  function Goto(s: State, p: Pid, pr: Proc): State {
    s.(procs := s.procs[p := pr])
  }

  function Ended(s: State, p: Pid): State {
    s.(procs := s.procs - {p})
  }

  function Without(f: Files, name: Name): Files {
    f.(temps := f.temps - {name})
  }

  /** A rename replaces the final file; without its source it fails. */
  function Renamed(f: Files, name: Name, ok: bool): Files {
    if ok && name in f.temps then Files(Some(f.temps[name]), f.temps - {name}) else f
  }

  function Apply(c: Codec, s: State, st: Step): State
    requires Enabled(c, s, st)
  {
    match st
    case Start(p) => Goto(s, p, Deciding)
    case Decide(p, operatorExists) => Goto(s, p, if operatorExists then Reading else Minting)
    case CreateTemp(p, name, secret) =>
      Goto(s.(files := s.files.(temps := s.files.temps[name := c.text(secret)[..0]]), names := s.names + {name}, secrets := s.secrets + {secret}),
           p, Writing(name, secret))
    case WriteTemp(p, upTo) =>
      s.(files := s.files.(temps := s.files.temps[s.procs[p].name := c.text(s.procs[p].secret)[..upTo]]))
    case CloseTemp(p) => Goto(s, p, Inserting(s.procs[p].name, s.procs[p].secret))
    case GiveUpTemp(p) => Ended(s.(files := Without(s.files, s.procs[p].name)), p)
    case Insert(p, write) =>
      var pr := s.procs[p];
      var s' := if s.key.None? && !write.FailedLost? then s.(key := Some(c.hash(pr.secret))) else s;
      Goto(s', p, if s.key.None? && write.Stored? then Renaming(pr.name, pr.secret) else Removing(pr.name, pr.secret))
    case RemoveTemp(p) => Ended(s.(files := Without(s.files, s.procs[p].name)), p)
    case Rename(p, ok) => Ended(s.(files := Renamed(s.files, s.procs[p].name, ok)), p)
    case ReadRecord(p) => if s.key.None? then Ended(s, p) else Goto(s, p, Comparing(s.key.value))
    case LookForFinal(p) => if s.files.final.Some? then Ended(s, p) else Goto(s, p, Globbing(s.procs[p].hash))
    case Glob(p) => Goto(s, p, Trying(s.procs[p].hash, s.files.temps.Keys))
    case Try(p, name, readable) =>
      var pr := s.procs[p];
      if readable && name in s.files.temps && HashIn(c, s.files.temps[name]) == Some(pr.hash) then Goto(s, p, Moving(pr.hash, name))
      else Goto(s, p, pr.(todo := pr.todo - {name}))
    case RunOut(p) => Ended(s, p)
    case Move(p, ok) => Ended(s.(files := Renamed(s.files, s.procs[p].name, ok)), p)
    case End(p) => Ended(s, p)
    case Revoke => s.(key := None, revoked := true)
    case RemoveFinal => s.(files := s.files.(final := None))
  }

  /** A failed insert is known not to have committed, and bootstrapping is over before
      the minted key is revoked. */
  predicate Assumed(s: State, st: Step) {
    st.Insert? ==> !s.revoked && !st.write.FailedStored?
  }

  /** No record and no final file; temporary files of earlier starts may lie around. */
  predicate Init(c: Codec, s: State) {
    && s.key.None? && !s.revoked && s.files.final.None? && s.procs == map[]
    && s.files.temps.Keys <= s.names
    && forall name :: name in s.files.temps ==> c.read(s.files.temps[name]).Some? ==> c.read(s.files.temps[name]).value in s.secrets
  }

  ghost predicate Behaviour(c: Codec, tr: seq<State>, steps: seq<Step>) {
    && |tr| == |steps| + 1 && Init(c, tr[0])
    && forall i :: 0 <= i < |steps| ==>
         Enabled(c, tr[i], steps[i]) && Assumed(tr[i], steps[i]) && tr[i + 1] == Apply(c, tr[i], steps[i])
  }

  // ---------- invariant ----------

  predicate Owner(pr: Proc) {
    pr.Writing? || pr.Inserting? || pr.Removing? || pr.Renaming?
  }

  predicate HasHash(pr: Proc) {
    pr.Comparing? || pr.Globbing? || pr.Trying? || pr.Moving?
  }

  /** The secret with this hash is in the final file or in a temporary one. */
  predicate InFinal(c: Codec, f: Files, hash: string) {
    f.final.Some? && HashIn(c, f.final.value) == Some(hash)
  }

  predicate InTemp(c: Codec, f: Files, hash: string, name: Name) {
    name in f.temps && HashIn(c, f.temps[name]) == Some(hash)
  }

  predicate Held(c: Codec, f: Files, hash: string) {
    InFinal(c, f, hash) || exists name :: name in f.temps && InTemp(c, f, hash, name)
  }

  /** The process's own file holds its secret or nothing yet. */
  predicate OwnsFile(c: Codec, f: Files, pr: Proc)
    requires Owner(pr)
  {
    pr.name in f.temps ==>
      && (c.read(f.temps[pr.name]) == None || c.read(f.temps[pr.name]) == Some(pr.secret))
      && (pr.Inserting? || pr.Renaming? ==> f.temps[pr.name] == c.text(pr.secret))
  }

  predicate ProcOk(c: Codec, s: State, pr: Proc) {
    && (Owner(pr) ==>
          && pr.name in s.names && pr.secret in s.secrets && IsSecret(pr.secret) && OwnsFile(c, s.files, pr)
          && (!s.revoked ==> (s.key == Some(c.hash(pr.secret)) <==> pr.Renaming?))
          && (!s.revoked && pr.Inserting? ==> pr.name in s.files.temps))
    && (HasHash(pr) && !s.revoked ==> s.key == Some(pr.hash))
    && (pr.Moving? ==> pr.name in s.names && (!s.revoked && pr.name in s.files.temps ==> InTemp(c, s.files, pr.hash, pr.name)))
  }

  predicate Apart(a: Proc, b: Proc) {
    Owner(a) && Owner(b) ==> a.name != b.name && a.secret != b.secret
  }

  ghost predicate StoreOk(c: Codec, s: State) {
    && s.files.temps.Keys <= s.names
    && (s.revoked ==> s.key.None?)
    && (s.key.Some? ==> Held(c, s.files, s.key.value) && exists secret :: secret in s.secrets && c.hash(secret) == s.key.value)
    && (s.files.final.Some? && !s.revoked ==> s.key.Some? && InFinal(c, s.files, s.key.value))
  }

  predicate AllProcsOk(c: Codec, s: State) {
    forall p :: p in s.procs ==> ProcOk(c, s, s.procs[p])
  }

  predicate AllApart(s: State) {
    forall p, q :: p in s.procs && q in s.procs && p != q ==> Apart(s.procs[p], s.procs[q])
  }

  ghost predicate Inv(c: Codec, s: State) {
    StoreOk(c, s) && AllProcsOk(c, s) && AllApart(s)
  }

  // ---------- each step ----------

  lemma StoreStaysOk(c: Codec, s: State, st: Step)
    requires Sound(c) && Inv(c, s) && Enabled(c, s, st) && Assumed(s, st)
    ensures StoreOk(c, Apply(c, s, st))
  {
    var s' := Apply(c, s, st);
    if s.key.Some? && s'.key.Some? {
      HeldStays(c, s, st);
    }
    match st
    case Insert(p, write) =>
      var pr := s.procs[p];
      assert ProcOk(c, s, pr);
      if s.key.None? && write.Stored? {
        assert InTemp(c, s'.files, s'.key.value, pr.name);
      }
    case Rename(p, ok) => assert ProcOk(c, s, s.procs[p]);
    case Move(p, ok) => assert ProcOk(c, s, s.procs[p]);
    case _ =>
  }

  lemma HeldStays(c: Codec, s: State, st: Step)
    requires Sound(c) && Inv(c, s) && Enabled(c, s, st) && Assumed(s, st)
    requires s.key.Some? && Apply(c, s, st).key.Some?
    ensures Apply(c, s, st).key == s.key && Held(c, Apply(c, s, st).files, s.key.value)
  {
    var hash, f, f' := s.key.value, s.files, Apply(c, s, st).files;
    if !st.Revoke? && !st.RemoveFinal? && !st.Start? {
      assert ProcOk(c, s, s.procs[st.p]);
    }
    if InFinal(c, f, hash) {
    } else {
      var name :| name in f.temps && InTemp(c, f, hash, name);
      if name in f'.temps && f'.temps[name] == f.temps[name] {
        assert InTemp(c, f', hash, name);
      }
    }
  }

  lemma ActorStaysOk(c: Codec, s: State, st: Step)
    requires Sound(c) && Inv(c, s) && Enabled(c, s, st) && Assumed(s, st) && !st.Revoke? && !st.RemoveFinal?
    ensures var s' := Apply(c, s, st); st.p in s'.procs ==> ProcOk(c, s', s'.procs[st.p])
  {
    if st.Start? || st.Decide? || st.CreateTemp? || st.WriteTemp? || st.CloseTemp? || st.Insert? {
      OwnerStaysOk(c, s, st);
    } else {
      assert ProcOk(c, s, s.procs[st.p]);
    }
  }

  lemma OwnerStaysOk(c: Codec, s: State, st: Step)
    requires Sound(c) && Inv(c, s) && Enabled(c, s, st) && Assumed(s, st)
    requires st.Start? || st.Decide? || st.CreateTemp? || st.WriteTemp? || st.CloseTemp? || st.Insert?
    ensures var s' := Apply(c, s, st); ProcOk(c, s', s'.procs[st.p])
  {
    if !st.Start? {
      assert ProcOk(c, s, s.procs[st.p]);
    }
  }

  lemma OtherOkAfterRemoval(c: Codec, s: State, st: Step, q: Pid)
    requires st.GiveUpTemp? || st.RemoveTemp? || st.Rename? || st.Move?
    requires Sound(c) && Enabled(c, s, st) && q in s.procs && st.p != q && ProcOk(c, s, s.procs[q])
    requires ProcOk(c, s, s.procs[st.p]) && Apart(s.procs[st.p], s.procs[q])
    ensures ProcOk(c, Apply(c, s, st), s.procs[q])
  {
  }

  lemma OtherOkAfterWrite(c: Codec, s: State, st: Step, q: Pid)
    requires st.CreateTemp? || st.WriteTemp?
    requires Sound(c) && Enabled(c, s, st) && q in s.procs && st.p != q && ProcOk(c, s, s.procs[q])
    requires ProcOk(c, s, s.procs[st.p]) && Apart(s.procs[st.p], s.procs[q]) && s.files.temps.Keys <= s.names
    ensures ProcOk(c, Apply(c, s, st), s.procs[q])
  {
  }

  lemma OtherOkAfterInsert(c: Codec, s: State, st: Step, q: Pid)
    requires Sound(c) && Enabled(c, s, st) && Assumed(s, st) && st.Insert? && q in s.procs && st.p != q && ProcOk(c, s, s.procs[q])
    requires ProcOk(c, s, s.procs[st.p]) && Apart(s.procs[st.p], s.procs[q])
    ensures ProcOk(c, Apply(c, s, st), s.procs[q])
  {
  }

  lemma OtherStaysOk(c: Codec, s: State, st: Step, q: Pid)
    requires Sound(c) && Inv(c, s) && Enabled(c, s, st) && Assumed(s, st) && q in s.procs
    requires st.Revoke? || st.RemoveFinal? || st.p != q
    ensures ProcOk(c, Apply(c, s, st), s.procs[q])
  {
    assert ProcOk(c, s, s.procs[q]);
    if !st.Revoke? && !st.RemoveFinal? && !st.Start? {
      assert ProcOk(c, s, s.procs[st.p]);
      assert Apart(s.procs[st.p], s.procs[q]);
    }
    if st.GiveUpTemp? || st.RemoveTemp? || st.Rename? || st.Move? {
      OtherOkAfterRemoval(c, s, st, q);
    } else if st.CreateTemp? || st.WriteTemp? {
      OtherOkAfterWrite(c, s, st, q);
    } else if st.Insert? {
      OtherOkAfterInsert(c, s, st, q);
    }
  }

  lemma StepKeepsInv(c: Codec, s: State, st: Step)
    requires Sound(c) && Inv(c, s) && Enabled(c, s, st) && Assumed(s, st)
    ensures Inv(c, Apply(c, s, st))
  {
    StoreStaysOk(c, s, st);
    var s' := Apply(c, s, st);
    forall q | q in s'.procs ensures ProcOk(c, s', s'.procs[q]) {
      if !st.Revoke? && !st.RemoveFinal? && q == st.p {
        ActorStaysOk(c, s, st);
      } else {
        OtherStaysOk(c, s, st, q);
      }
    }
    forall p, q | p in s'.procs && q in s'.procs && p != q ensures Apart(s'.procs[p], s'.procs[q]) {
      StaysApart(c, s, st, p, q);
    }
  }

  predicate Acts(st: Step, p: Pid) {
    !st.Revoke? && !st.RemoveFinal? && st.p == p
  }

  lemma OthersStayAsTheyAre(c: Codec, s: State, st: Step, q: Pid)
    requires Enabled(c, s, st) && !Acts(st, q) && q in Apply(c, s, st).procs
    ensures q in s.procs && Apply(c, s, st).procs[q] == s.procs[q]
  {
  }

  lemma ActorStaysApart(c: Codec, s: State, st: Step, p: Pid, q: Pid)
    requires Enabled(c, s, st) && Acts(st, p) && p in Apply(c, s, st).procs
    requires q in s.procs && p != q && ProcOk(c, s, s.procs[q])
    requires p in s.procs ==> Apart(s.procs[p], s.procs[q])
    ensures Apart(Apply(c, s, st).procs[p], s.procs[q])
  {
  }

  lemma StaysApart(c: Codec, s: State, st: Step, p: Pid, q: Pid)
    requires Inv(c, s) && Enabled(c, s, st) && p != q && p in Apply(c, s, st).procs && q in Apply(c, s, st).procs
    ensures Apart(Apply(c, s, st).procs[p], Apply(c, s, st).procs[q])
  {
    if Acts(st, p) {
      OthersStayAsTheyAre(c, s, st, q);
      ActorStaysApart(c, s, st, p, q);
    } else if Acts(st, q) {
      OthersStayAsTheyAre(c, s, st, p);
      ActorStaysApart(c, s, st, q, p);
    } else {
      OthersStayAsTheyAre(c, s, st, p);
      OthersStayAsTheyAre(c, s, st, q);
    }
  }

  lemma {:induction false} BehaviourKeepsInv(c: Codec, tr: seq<State>, steps: seq<Step>, i: nat)
    requires Sound(c) && Behaviour(c, tr, steps) && i < |tr|
    ensures Inv(c, tr[i])
  {
    if i > 0 {
      BehaviourKeepsInv(c, tr, steps, i - 1);
      StepKeepsInv(c, tr[i - 1], steps[i - 1]);
    }
  }

  // ---------- results ----------

  /** While the minted key is in the store, its secret is in the final file or in a temporary
      one, whatever the starters do and wherever they crash. */
  lemma SecretIsNeverLost(c: Codec, tr: seq<State>, steps: seq<Step>, i: nat)
    requires Sound(c) && Behaviour(c, tr, steps) && i < |tr| && tr[i].key.Some?
    ensures Held(c, tr[i].files, tr[i].key.value)
  {
    BehaviourKeepsInv(c, tr, steps, i);
  }

  /** A final file beside the record always holds the secret the record was made from. */
  lemma FinalFileIsTheKeys(c: Codec, tr: seq<State>, steps: seq<Step>, i: nat, secret: string)
    requires Sound(c) && Behaviour(c, tr, steps) && i < |tr| && tr[i].key == Some(c.hash(secret)) && tr[i].files.final.Some?
    ensures c.read(tr[i].files.final.value) == Some(secret)
  {
    BehaviourKeepsInv(c, tr, steps, i);
  }

  /** The starter that won the insert, unless its file was moved for it, puts its own secret in
      place by renaming, and that is the key's. */
  lemma WinnerInstallsItsSecret(c: Codec, tr: seq<State>, steps: seq<Step>, i: nat, p: Pid)
    requires Sound(c) && Behaviour(c, tr, steps) && i < |tr| && !tr[i].revoked && p in tr[i].procs && tr[i].procs[p].Renaming?
    requires tr[i].procs[p].name in tr[i].files.temps
    ensures var s, s', secret := tr[i], Apply(c, tr[i], Rename(p, true)), tr[i].procs[p].secret;
            && s'.key == Some(c.hash(secret)) && s'.files.final.Some? && c.read(s'.files.final.value) == Some(secret)
            && s'.files.temps == s.files.temps - {s.procs[p].name} && p !in s'.procs
  {
    BehaviourKeepsInv(c, tr, steps, i);
    assert ProcOk(c, tr[i], tr[i].procs[p]);
  }

  // ---------- a start that runs alone ----------

  /** From step `i` to `n` only process p moves, and it starts there. */
  predicate Solitary(steps: seq<Step>, p: Pid, i: nat, n: nat) {
    i < n <= |steps| && steps[i] == Start(p) && forall k :: i <= k < n ==> Acts(steps[k], p)
  }

  /** The start failed to read this file. */
  predicate Unread(steps: seq<Step>, p: Pid, i: nat, n: nat, name: Name) {
    exists k :: i <= k < n <= |steps| && steps[k] == Try(p, name, false)
  }

  lemma UnreadNext(steps: seq<Step>, p: Pid, i: nat, n: nat, name: Name)
    requires i <= n < |steps|
    ensures Unread(steps, p, i, n + 1, name) <==> Unread(steps, p, i, n, name) || steps[n] == Try(p, name, false)
  {
    if Unread(steps, p, i, n, name) {
      var k :| i <= k < n <= |steps| && steps[k] == Try(p, name, false);
      assert k < n + 1;
    }
    if steps[n] == Try(p, name, false) {
      assert n < n + 1;
    }
  }

  /** Where a start that finds the key can be while nothing disturbs it. */
  ghost predicate OnTheWay(c: Codec, s: State, files: Files, p: Pid, hash: string, steps: seq<Step>, i: nat, n: nat)
    requires p in s.procs
  {
    && s.key == Some(hash) && s.files == files
    && (!s.procs[p].Trying? && !s.procs[p].Moving? ==> forall name :: !Unread(steps, p, i, n, name))
    && match s.procs[p]
       case Deciding => true
       case Reading => true
       case Comparing(h) => h == hash
       case Globbing(h) => h == hash && files.final.None?
       case Trying(h, todo) =>
         && h == hash && files.final.None?
         && (forall name :: name in todo ==> !Unread(steps, p, i, n, name))
         && forall name :: InTemp(c, files, hash, name) ==> name in todo || Unread(steps, p, i, n, name)
       case Moving(h, name) => h == hash && files.final.None? && InTemp(c, files, hash, name) && !Unread(steps, p, i, n, name)
       case _ => false
  }

  lemma NextOnTheWay(c: Codec, s: State, files: Files, p: Pid, hash: string, steps: seq<Step>, i: nat, n: nat)
    requires i <= n < |steps| && p in s.procs && OnTheWay(c, s, files, p, hash, steps, i, n)
    requires Enabled(c, s, steps[n]) && Acts(steps[n], p) && p in Apply(c, s, steps[n]).procs
    ensures OnTheWay(c, Apply(c, s, steps[n]), files, p, hash, steps, i, n + 1)
  {
    forall name ensures Unread(steps, p, i, n + 1, name) <==> Unread(steps, p, i, n, name) || steps[n] == Try(p, name, false) {
      UnreadNext(steps, p, i, n, name);
    }
  }

  lemma StartIsOnTheWay(c: Codec, tr: seq<State>, steps: seq<Step>, p: Pid, i: nat, hash: string)
    requires Behaviour(c, tr, steps) && i < |steps| && steps[i] == Start(p) && tr[i].key == Some(hash)
    ensures p in tr[i + 1].procs && OnTheWay(c, tr[i + 1], tr[i].files, p, hash, steps, i, i + 1)
  {
    assert Enabled(c, tr[i], steps[i]) && tr[i + 1] == Apply(c, tr[i], steps[i]);
  }

  lemma NextOfRun(c: Codec, tr: seq<State>, steps: seq<Step>, files: Files, p: Pid, i: nat, n: nat, hash: string)
    requires Behaviour(c, tr, steps) && i <= n < |steps| && Acts(steps[n], p) && p in tr[n].procs && p in tr[n + 1].procs
    requires OnTheWay(c, tr[n], files, p, hash, steps, i, n)
    ensures OnTheWay(c, tr[n + 1], files, p, hash, steps, i, n + 1)
  {
    assert Enabled(c, tr[n], steps[n]) && tr[n + 1] == Apply(c, tr[n], steps[n]);
    NextOnTheWay(c, tr[n], files, p, hash, steps, i, n);
  }

  lemma {:induction false} SolitaryStaysOnTheWay(c: Codec, tr: seq<State>, steps: seq<Step>, p: Pid, i: nat, n: nat, hash: string)
    requires Behaviour(c, tr, steps) && Solitary(steps, p, i, n) && tr[i].key == Some(hash)
    requires forall k :: i < k <= n ==> p in tr[k].procs
    ensures OnTheWay(c, tr[n], tr[i].files, p, hash, steps, i, n)
    decreases n
  {
    if i < n - 1 {
      SolitaryStaysOnTheWay(c, tr, steps, p, i, n - 1, hash);
      NextOfRun(c, tr, steps, tr[i].files, p, i, n - 1, hash);
    } else {
      StartIsOnTheWay(c, tr, steps, p, i, hash);
    }
  }

  /** Steps that end a start otherwise than by an error or a crash. */
  predicate Returns(st: Step) {
    !st.End? && !(st.Move? && !st.ok)
  }

  /** The last step of a start that finds the key. */
  lemma ReturnOnTheWay(c: Codec, s: State, files: Files, p: Pid, hash: string, steps: seq<Step>, i: nat, n: nat)
    requires i <= n < |steps| && p in s.procs && OnTheWay(c, s, files, p, hash, steps, i, n)
    requires Enabled(c, s, steps[n]) && Acts(steps[n], p) && p !in Apply(c, s, steps[n]).procs && Returns(steps[n])
    ensures Apply(c, s, steps[n]).key == Some(hash)
    ensures Apply(c, s, steps[n]).files.final.None?
            <==> files.final.None? && forall name :: InTemp(c, files, hash, name) ==> Unread(steps, p, i, n + 1, name)
  {
    forall name ensures Unread(steps, p, i, n + 1, name) <==> Unread(steps, p, i, n, name) || steps[n] == Try(p, name, false) {
      UnreadNext(steps, p, i, n, name);
    }
  }

  /** A later start that runs alone and returns, however it orders its attempts, leaves the
      final file holding exactly the secret that the record was made from; unless there was
      none and it failed to read every temporary file that holds that secret. It loses the
      secret in no case. */
  lemma SolitaryStartRestores(c: Codec, tr: seq<State>, steps: seq<Step>, p: Pid, i: nat, n: nat, secret: string)
    requires Sound(c) && Behaviour(c, tr, steps) && Solitary(steps, p, i, n) && tr[i].key == Some(c.hash(secret))
    requires (forall k :: i < k < n ==> p in tr[k].procs) && p !in tr[n].procs && Returns(steps[n - 1])
    ensures tr[n].files.final.Some? ==> c.read(tr[n].files.final.value) == Some(secret)
    ensures tr[n].files.final.None?
            <==> tr[i].files.final.None? && forall name :: InTemp(c, tr[i].files, c.hash(secret), name) ==> Unread(steps, p, i, n, name)
    ensures Held(c, tr[n].files, c.hash(secret))
  {
    assert Enabled(c, tr[n - 1], steps[n - 1]) && tr[n] == Apply(c, tr[n - 1], steps[n - 1]);
    SolitaryStaysOnTheWay(c, tr, steps, p, i, n - 1, c.hash(secret));
    ReturnOnTheWay(c, tr[n - 1], tr[i].files, p, c.hash(secret), steps, i, n - 1);
    SecretIsNeverLost(c, tr, steps, n);
    if tr[n].files.final.Some? {
      FinalFileIsTheKeys(c, tr, steps, n, secret);
    }
  }

  // ---------- why the insert must not fail ambiguously ----------

  predicate OnlyOwnerHolds(c: Codec, f: Files, pr: Proc)
    requires Owner(pr)
  {
    forall name :: name in f.temps && name != pr.name ==> c.read(f.temps[name]) != Some(pr.secret)
  }

  /** Every secret that a temporary file holds was drawn, and a starter's only by itself. */
  predicate Exclusive(c: Codec, s: State) {
    && (forall name :: name in s.files.temps && c.read(s.files.temps[name]).Some? ==> c.read(s.files.temps[name]).value in s.secrets)
    && (forall p :: p in s.procs && Owner(s.procs[p]) ==> OnlyOwnerHolds(c, s.files, s.procs[p]))
  }

  /** A step leaves a temporary file as it is, or writes what the owner may write. */
  lemma TempsAfter(c: Codec, s: State, st: Step, name: Name)
    requires Enabled(c, s, st) && name in Apply(c, s, st).files.temps
    ensures (name in s.files.temps && Apply(c, s, st).files.temps[name] == s.files.temps[name])
            || (st.CreateTemp? && name == st.name && Apply(c, s, st).files.temps[name] == c.text(st.secret)[..0] && st.secret in Apply(c, s, st).secrets)
            || (st.WriteTemp? && name == s.procs[st.p].name
                && Apply(c, s, st).files.temps[name] == c.text(s.procs[st.p].secret)[..st.upTo])
    ensures s.secrets <= Apply(c, s, st).secrets
  {
    if !st.CreateTemp? && !st.WriteTemp? && !st.GiveUpTemp? && !st.RemoveTemp? && !st.Rename? && !st.Move? {
      TempsUntouched(c, s, st);
    }
  }

  lemma TempsUntouched(c: Codec, s: State, st: Step)
    requires Enabled(c, s, st)
    requires !st.CreateTemp? && !st.WriteTemp? && !st.GiveUpTemp? && !st.RemoveTemp? && !st.Rename? && !st.Move?
    ensures Apply(c, s, st).files.temps == s.files.temps && Apply(c, s, st).secrets == s.secrets
  {
  }

  lemma CutTextHoldsItsSecret(c: Codec, secret: string, n: nat)
    requires Sound(c) && IsSecret(secret) && n <= |c.text(secret)|
    ensures c.read(c.text(secret)[..n]).Some? ==> c.read(c.text(secret)[..n]).value == secret
  {
  }

  lemma HeldSecretsStayDrawn(c: Codec, s: State, st: Step, name: Name)
    requires Sound(c) && Inv(c, s) && Exclusive(c, s) && Enabled(c, s, st)
    requires name in Apply(c, s, st).files.temps && c.read(Apply(c, s, st).files.temps[name]).Some?
    ensures c.read(Apply(c, s, st).files.temps[name]).value in Apply(c, s, st).secrets
  {
    TempsAfter(c, s, st, name);
    if st.CreateTemp? {
      CutTextHoldsItsSecret(c, st.secret, 0);
    } else if st.WriteTemp? {
      assert ProcOk(c, s, s.procs[st.p]);
      CutTextHoldsItsSecret(c, s.procs[st.p].secret, st.upTo);
    }
  }

  lemma ActorStaysExclusive(c: Codec, s: State, st: Step, p: Pid)
    requires Sound(c) && Inv(c, s) && Exclusive(c, s) && Enabled(c, s, st) && Acts(st, p)
    requires p in Apply(c, s, st).procs && Owner(Apply(c, s, st).procs[p])
    ensures OnlyOwnerHolds(c, Apply(c, s, st).files, Apply(c, s, st).procs[p])
  {
  }

  lemma OtherStaysExclusive(c: Codec, s: State, st: Step, q: Pid)
    requires Sound(c) && Inv(c, s) && Exclusive(c, s) && Enabled(c, s, st) && !Acts(st, q) && q in s.procs && Owner(s.procs[q])
    ensures OnlyOwnerHolds(c, Apply(c, s, st).files, s.procs[q])
  {
    assert OnlyOwnerHolds(c, s.files, s.procs[q]) && ProcOk(c, s, s.procs[q]);
    if st.WriteTemp? {
      assert Apart(s.procs[st.p], s.procs[q]);
    }
  }

  lemma StepKeepsExclusive(c: Codec, s: State, st: Step)
    requires Sound(c) && Inv(c, s) && Exclusive(c, s) && Enabled(c, s, st)
    ensures Exclusive(c, Apply(c, s, st))
  {
    var s' := Apply(c, s, st);
    forall name | name in s'.files.temps && c.read(s'.files.temps[name]).Some?
      ensures c.read(s'.files.temps[name]).value in s'.secrets
    {
      HeldSecretsStayDrawn(c, s, st, name);
    }
    forall q | q in s'.procs && Owner(s'.procs[q]) ensures OnlyOwnerHolds(c, s'.files, s'.procs[q]) {
      if Acts(st, q) {
        ActorStaysExclusive(c, s, st, q);
      } else {
        OthersStayAsTheyAre(c, s, st, q);
        OtherStaysExclusive(c, s, st, q);
      }
    }
  }

  lemma {:induction false} BehaviourKeepsExclusive(c: Codec, tr: seq<State>, steps: seq<Step>, i: nat)
    requires Sound(c) && Behaviour(c, tr, steps) && i < |tr|
    ensures Exclusive(c, tr[i])
  {
    if i > 0 {
      BehaviourKeepsExclusive(c, tr, steps, i - 1);
      BehaviourKeepsInv(c, tr, steps, i - 1);
      StepKeepsExclusive(c, tr[i - 1], steps[i - 1]);
    }
  }

  /** An insert that wins and then cleans up after a reported failure: the secret is still
      somewhere exactly if the record was not stored after all. */
  lemma FailedInsertKeepsSecretIffNotStored(c: Codec, tr: seq<State>, steps: seq<Step>, i: nat, p: Pid, write: Write)
    requires Sound(c) && Behaviour(c, tr, steps) && i < |tr| && !tr[i].revoked && tr[i].key.None?
    requires p in tr[i].procs && tr[i].procs[p].Inserting? && !write.Stored?
    ensures var s := Apply(c, Apply(c, tr[i], Insert(p, write)), RemoveTemp(p));
            (s.key.Some? ==> Held(c, s.files, s.key.value)) <==> write.FailedLost?
  {
    BehaviourKeepsInv(c, tr, steps, i);
    BehaviourKeepsExclusive(c, tr, steps, i);
    assert OnlyOwnerHolds(c, tr[i].files, tr[i].procs[p]);
  }

  // ---------- the data directory as one server uses it ----------

  /** The first name whose file can be read and holds a secret with this hash. */
  function FirstMatch(c: Codec, f: Files, hash: string, order: seq<Name>, unreadable: set<Name>): Option<Name> {
    if order == [] then None
    else if order[0] !in unreadable && InTemp(c, f, hash, order[0]) then Some(order[0])
    else FirstMatch(c, f, hash, order[1..], unreadable)
  }

  /** The rename of a recovery succeeds, comes after that of another starter, or fails. */
  datatype RenameFate = Renames | Beaten | Fails

  /** The files after a recovery. */
  function Recovered(c: Codec, f: Files, key: Option<string>, order: seq<Name>, unreadable: set<Name>, fate: RenameFate): Files {
    if key.None? || f.final.Some? || FirstMatch(c, f, key.value, order, unreadable).None? then f
    else Renamed(f, FirstMatch(c, f, key.value, order, unreadable).value, !fate.Fails?)
  }

  lemma {:induction false} FirstMatchFinds(c: Codec, f: Files, hash: string, order: seq<Name>, unreadable: set<Name>)
    ensures FirstMatch(c, f, hash, order, unreadable).Some? <==> exists i :: 0 <= i < |order| && order[i] !in unreadable && InTemp(c, f, hash, order[i])
    ensures var first := FirstMatch(c, f, hash, order, unreadable);
            first.Some? ==> first.value !in unreadable && InTemp(c, f, hash, first.value)
  {
    if order != [] && (order[0] in unreadable || !InTemp(c, f, hash, order[0])) {
      FirstMatchFinds(c, f, hash, order[1..], unreadable);
      if i :| 0 <= i < |order| && order[i] !in unreadable && InTemp(c, f, hash, order[i]) {
        assert order[1..][i - 1] == order[i];
      }
    }
  }

  /** Recovery keeps the secret wherever it is held, and, unless its rename fails, puts it in
      place exactly if it is not there and can read a temporary file that holds it. */
  lemma RecoveryKeepsTheSecret(c: Codec, f: Files, hash: string, order: seq<Name>, unreadable: set<Name>, fate: RenameFate)
    requires Held(c, f, hash) && (f.final.Some? ==> InFinal(c, f, hash)) && forall name :: name in order <==> name in f.temps
    ensures Held(c, Recovered(c, f, Some(hash), order, unreadable, fate), hash)
    ensures InFinal(c, Recovered(c, f, Some(hash), order, unreadable, fate), hash)
            <==> f.final.Some? || (!fate.Fails? && exists name :: name !in unreadable && InTemp(c, f, hash, name))
  {
    FirstMatchFinds(c, f, hash, order, unreadable);
    if f.final.None? {
      if FirstMatch(c, f, hash, order, unreadable).None? {
        forall name | name !in unreadable ensures !InTemp(c, f, hash, name) {
          if name in order {
            var k :| 0 <= k < |order| && order[k] == name;
            assert order[k] !in unreadable;
          }
        }
      } else if fate.Fails? {
        assert Recovered(c, f, Some(hash), order, unreadable, fate) == f;
      }
    }
  }

  predicate HoldsKeyHash(c: Codec, content: string, hash: string) {
    var secret := c.readAny(content);
    secret.Some? && c.hash(secret.value) == hash
  }

  class KeyDirectory {
    const codec: Codec
    var key: Option<string>
    var final: Option<string>
    var temps: map<Name, string>

    ghost function Value(): Files
      reads this
    {
      Files(final, temps)
    }

    constructor (codec: Codec)
      ensures this.codec == codec && key.None? && Value() == Files(None, map[])
    {
      this.codec := codec;
      key, final, temps := None, None, map[];
    }

    method RenameTo(name: Name, renames: bool) returns (ok: bool)
      modifies this`final, this`temps
      ensures Value() == Renamed(old(Value()), name, renames) && ok == (renames && name in old(temps))
    {
      if !renames || name !in temps {
        return false;
      }
      final := Some(temps[name]);
      temps := temps - {name};
      return true;
    }

    /** `upTo` bytes of the text are written; `insert` and `renames` are how the next two
        calls end. */
    method MintBootstrapFile(name: Name, secret: string, upTo: nat, insert: Write, renames: bool) returns (created: bool, ok: bool)
      requires Sound(codec) && IsSecret(secret) && name !in temps && upTo <= |codec.text(secret)|
      modifies this`key, this`final, this`temps
      ensures created ==> ok && old(key).None? && key == Some(codec.hash(secret))
      ensures created <==> ok && old(key).None?
      ensures ok && !created ==> key == old(key) && Value() == old(Value())
      ensures created ==> (renames && InFinal(codec, Value(), key.value) && temps == old(temps))
                          || (!renames && old(final).Some? && HoldsKeyHash(codec, old(final).value, key.value))
      ensures old(key).Some? ==> key == old(key) && Value() == old(Value())
      ensures key.Some? && old(key).None? && !Held(codec, Value(), key.value) ==> insert.FailedStored?
    {
      temps := temps[name := codec.text(secret)[..upTo]];
      if upTo < |codec.text(secret)| {
        temps := temps - {name};
        assert temps == old(temps);
        return false, false;
      }
      assert codec.text(secret)[..upTo] == codec.text(secret);
      var absent := key.None?;
      if absent && !insert.FailedLost? {
        key := Some(codec.hash(secret));
      }
      if !insert.Stored? || !absent {
        temps := temps - {name};
        assert temps == old(temps);
        return false, insert.Stored?;
      }
      assert InTemp(codec, Value(), key.value, name);
      var renamed := RenameTo(name, renames);
      if !renamed {
        assert InTemp(codec, Value(), key.value, name);
        if final.None? || !HoldsKeyHash(codec, final.value, key.value) {
          return false, false;
        }
      }
      assert temps - {name} == old(temps) - {name};
      return true, true;
    }

    /** `unreadable` are the temporary files that it fails to read and so skips. */
    method RecoverMintedFile(order: seq<Name>, unreadable: set<Name>, fate: RenameFate) returns (ok: bool)
      requires Sound(codec) && forall i :: 0 <= i < |order| ==> order[i] in temps
      modifies this`final, this`temps
      ensures Value() == Recovered(codec, old(Value()), key, order, unreadable, fate)
      ensures ok <==> !fate.Fails? || key.None? || old(final).Some? || FirstMatch(codec, old(Value()), key.value, order, unreadable).None?
    {
      if key.None? || final.Some? {
        return true;
      }
      for i := 0 to |order|
        invariant Value() == old(Value())
        invariant FirstMatch(codec, Value(), key.value, order, unreadable) == FirstMatch(codec, Value(), key.value, order[i..], unreadable)
      {
        assert order[i..][1..] == order[i + 1..];
        if order[i] in unreadable {
          continue;
        }
        if HashIn(codec, temps[order[i]]) == Some(key.value) {
          if fate.Beaten? {
            var _ := RenameTo(order[i], true);
          }
          var renamed := RenameTo(order[i], !fate.Fails?);
          if !renamed {
            return final.Some? && HoldsKeyHash(codec, final.value, key.value);
          }
          return true;
        }
      }
      return true;
    }
  }
}
