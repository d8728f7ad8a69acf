/** The embedded implementation: nested buckets changed by one transaction at a time, each
    of which is kept as a whole or rolled back as a whole. */
module BoltStore {
  import opened Common
  import opened StoreContract
  import Text

  type Path = seq<string>

  datatype Bucket = Bucket(docs: map<string, Data>, counter: nat)

  /** Every bucket under its full path. */
  type Tree = map<Path, Bucket>

  const NEW_BUCKET := Bucket(map[], 0)

  predicate NestedUnder(t: Tree, path: Path) {
    |path| > 1 ==> path[..|path| - 1] in t && path[|path| - 1] !in t[path[..|path| - 1]].docs
  }

  /** Buckets are nested in buckets, and no bucket has a document's name. */
  predicate Rooted(t: Tree) {
    forall path :: path in t ==> path != [] && NestedUnder(t, path)
  }

  function Find(t: Tree, path: Path, key: string): Option<Data> {
    if path in t && key in t[path].docs then Some(t[path].docs[key]) else None
  }

  datatype Opened = Opened(t: Tree) | Refused

  /** The first `n` segments opened, or created where they do not exist; a segment without
      a name, or with the name of a document, is refused. */
  function Opening(t: Tree, path: Path, n: nat): Opened
    requires n <= |path|
  {
    if n == 0 then Opened(t)
    else
      match Opening(t, path, n - 1)
      case Refused => Refused
      case Opened(t') =>
        if path[n - 1] == "" then Refused
        else if path[..n] in t' then Opened(t')
        else if n > 1 && Find(t', path[..n - 1], path[n - 1]).Some? then Refused
        else Opened(t'[path[..n] := NEW_BUCKET])
  }

  /** A document cannot be stored without a name, or under the name of a nested bucket. */
  function WithDocument(t: Tree, path: Path, key: string, data: Data): Opened
    requires path in t
  {
    if key == "" || path + [key] in t then Refused
    else Opened(t[path := t[path].(docs := t[path].docs[key := data])])
  }

  function Removed(t: Tree, path: Path, key: string): Tree
    requires path in t
  {
    t[path := t[path].(docs := t[path].docs - {key})]
  }

  lemma {:induction false} OpeningKeepsDocuments(t: Tree, path: Path, n: nat)
    requires Rooted(t) && n <= |path| && Opening(t, path, n).Opened?
    ensures var t' := Opening(t, path, n).t;
            && Rooted(t') && (n > 0 ==> path[..n] in t')
            && (forall p :: p in t ==> p in t' && t'[p] == t[p])
            && (forall p :: p in t' && p !in t ==> t'[p] == NEW_BUCKET)
  {
    if n > 0 {
      OpeningKeepsDocuments(t, path, n - 1);
      assert path[..n][..n - 1] == path[..n - 1];
      var t1, t' := Opening(t, path, n - 1).t, Opening(t, path, n).t;
      forall p | p in t' ensures p != [] && NestedUnder(t', p) {
        if p in t1 {
          assert NestedUnder(t1, p);
        }
      }
    }
  }

  // ---------- the operations as transactions ----------

  /** The tree and the answer at the end of one transaction, before its commit; `seen` is
      what else the update function consults. */
  function Attempted(t: Tree, path: Path, op: Op, seen: nat): (r: (Tree, Ret))
    requires Rooted(t) && path != []
  {
    var key := op.key.key;
    match op
    case Update(_, create, fn) =>
      (match Opening(t, path, |path|)
       case Refused => (t, Fault)
       case Opened(t') =>
         if Find(t', path, key).None? && !create then (t, NotFound)
         else
           match fn(Find(t', path, key), seen)
           case Refuse(error) => (t, Aborted(error))
           case Replace(data) => Committed(t, t', path, key, data, Done))
    case PutIfAbsent(_, data) =>
      (match Opening(t, path, |path|)
       case Refused => (t, Fault)
       case Opened(t') =>
         if Find(t', path, key).Some? then (t', Created(false)) else Committed(t, t', path, key, data, Created(true)))
    case Take(_) =>
      if Find(t, path, key).None? then (t, NotFound) else (Removed(t, path, key), Found(Find(t, path, key).value))
    case Delete(_) =>
      if path !in t then (t, Done)
      else if path + [key] in t then (t, Fault)
      else (Removed(t, path, key), Done)
    case Get(_) =>
      if Find(t, path, key).None? then (t, NotFound) else (t, Found(Find(t, path, key).value))
  }

  /** The write that ends a transaction; if it is refused all of it is rolled back. */
  function Committed(t: Tree, grown: Tree, path: Path, key: string, data: Data, ret: Ret): (Tree, Ret) {
    if path !in grown then (t, Fault)
    else
      match WithDocument(grown, path, key, data)
      case Refused => (t, Fault)
      case Opened(t') => (t', ret)
  }

  predicate Commits(op: Op, ret: Ret) {
    !op.Get? && !ret.NotFound? && !ret.Aborted? && !ret.Fault?
  }

  /** A transaction that made no error is committed; a commit that fails is reported as an
      error, whether or not it reached the file. */
  function Performed(t: Tree, path: Path, op: Op, seen: nat, commit: Write): (r: (Tree, Ret))
    requires Rooted(t) && path != []
  {
    var (t', ret) := Attempted(t, path, op, seen);
    if !Commits(op, ret) then (t', ret)
    else (if Reaches(commit) then t' else t, if commit.Stored? then ret else Fault)
  }

  // ---------- the same contract ----------

  predicate Slashless(path: Path) {
    forall i :: 0 <= i < |path| ==> '/' !in path[i]
  }

  /** The tree holds exactly the documents of the map, under the joined paths. */
  ghost predicate Represents(t: Tree, m: map<Key, Data>) {
    forall path: Path, key: string :: path != [] && Slashless(path) ==>
      Lookup(m, Key(Text.Join(path, '/'), key)) == Find(t, path, key)
  }

  lemma KeysStayApart(a: Path, x: string, b: Path, y: string)
    requires a != [] && b != [] && Slashless(a) && Slashless(b)
    ensures Key(Text.Join(a, '/'), x) == Key(Text.Join(b, '/'), y) <==> a == b && x == y
  {
    Text.DistinctPathsStayDistinct(a, b);
  }

  /** Same documents everywhere but at one key. */
  ghost predicate DiffersOnlyAt(t: Tree, t': Tree, path: Path, key: string) {
    forall p: Path, k: string :: p != path || k != key ==> Find(t', p, k) == Find(t, p, k)
  }

  lemma RepresentsAfterWrite(t: Tree, t': Tree, m: map<Key, Data>, path: Path, key: string)
    requires path != [] && Slashless(path) && Represents(t, m) && DiffersOnlyAt(t, t', path, key)
    ensures var k := Key(Text.Join(path, '/'), key);
            Represents(t', if Find(t', path, key).Some? then m[k := Find(t', path, key).value] else m - {k})
  {
    var k := Key(Text.Join(path, '/'), key);
    var m' := if Find(t', path, key).Some? then m[k := Find(t', path, key).value] else m - {k};
    forall p: Path, x: string | p != [] && Slashless(p)
      ensures Lookup(m', Key(Text.Join(p, '/'), x)) == Find(t', p, x)
    {
      KeysStayApart(p, x, path, key);
    }
  }

  lemma CommitDiffersOnlyThere(t: Tree, path: Path, key: string, data: Data)
    requires Rooted(t) && path != [] && Opening(t, path, |path|).Opened?
    ensures var grown := Opening(t, path, |path|).t;
            && path in grown && Rooted(grown) && DiffersOnlyAt(t, grown, path, key) && Find(grown, path, key) == Find(t, path, key)
            && (WithDocument(grown, path, key, data).Opened? ==>
                  && Rooted(WithDocument(grown, path, key, data).t)
                  && DiffersOnlyAt(t, WithDocument(grown, path, key, data).t, path, key)
                  && Find(WithDocument(grown, path, key, data).t, path, key) == Some(data))
  {
    OpeningKeepsDocuments(t, path, |path|);
    assert path[..|path|] == path;
    var grown := Opening(t, path, |path|).t;
    if WithDocument(grown, path, key, data).Opened? {
      StoringKeepsRooted(grown, path, key, data);
    }
  }

  lemma StoringKeepsRooted(t: Tree, path: Path, key: string, data: Data)
    requires Rooted(t) && path in t && WithDocument(t, path, key, data).Opened?
    ensures Rooted(WithDocument(t, path, key, data).t)
  {
    var t' := WithDocument(t, path, key, data).t;
    forall p | p in t' ensures p != [] && NestedUnder(t', p) {
      assert NestedUnder(t, p);
      if |p| > 1 && p[..|p| - 1] == path {
        assert p == path + [p[|p| - 1]];
      }
    }
  }

  lemma RemovingKeepsRooted(t: Tree, path: Path, key: string)
    requires Rooted(t) && path in t
    ensures Rooted(Removed(t, path, key)) && DiffersOnlyAt(t, Removed(t, path, key), path, key) && Find(Removed(t, path, key), path, key).None?
  {
    var t' := Removed(t, path, key);
    forall p | p in t' ensures p != [] && NestedUnder(t', p) {
      assert NestedUnder(t, p);
    }
  }

  lemma TransactionKeepsRooted(t: Tree, path: Path, op: Op, seen: nat)
    requires Rooted(t) && path != []
    ensures Rooted(Attempted(t, path, op, seen).0)
    ensures DiffersOnlyAt(t, Attempted(t, path, op, seen).0, path, op.key.key)
  {
    if (op.Update? || op.PutIfAbsent?) && Opening(t, path, |path|).Opened? {
      var grown := Opening(t, path, |path|).t;
      var data := if op.PutIfAbsent? then op.data
                  else if op.fn(Find(grown, path, op.key.key), seen).Replace? then op.fn(Find(grown, path, op.key.key), seen).data
                  else "";
      CommitDiffersOnlyThere(t, path, op.key.key, data);
    } else if path in t {
      RemovingKeepsRooted(t, path, op.key.key);
    }
  }

  /** The map after the transaction. */
  ghost function MapAfter(t: Tree, path: Path, op: Op, seen: nat, m: map<Key, Data>): map<Key, Data>
    requires Rooted(t) && path != []
  {
    var now := Find(Attempted(t, path, op, seen).0, path, op.key.key);
    if now.Some? then m[op.key := now.value] else m - {op.key}
  }

  lemma UpdateActs(t: Tree, path: Path, op: Op, seen: nat, m: map<Key, Data>)
    requires Rooted(t) && path != [] && op.Update? && Lookup(m, op.key) == Find(t, path, op.key.key)
    ensures Acts(op, m, MapAfter(t, path, op, seen, m), Attempted(t, path, op, seen).1)
  {
    var m', ret, current := MapAfter(t, path, op, seen, m), Attempted(t, path, op, seen).1, Find(t, path, op.key.key);
    if ret.Done? {
      CommitDiffersOnlyThere(t, path, op.key.key, "");
      CommitDiffersOnlyThere(t, path, op.key.key, op.fn(current, seen).data);
      assert m' == m[op.key := op.fn(Lookup(m, op.key), seen).data];
    } else {
      assert m' == m;
      if Opening(t, path, |path|).Opened? {
        CommitDiffersOnlyThere(t, path, op.key.key, "");
      }
    }
  }

  lemma PutIfAbsentActs(t: Tree, path: Path, op: Op, seen: nat, m: map<Key, Data>)
    requires Rooted(t) && path != [] && op.PutIfAbsent? && Lookup(m, op.key) == Find(t, path, op.key.key)
    ensures Acts(op, m, MapAfter(t, path, op, seen, m), Attempted(t, path, op, seen).1)
  {
    var m', ret := MapAfter(t, path, op, seen, m), Attempted(t, path, op, seen).1;
    if Opening(t, path, |path|).Opened? {
      CommitDiffersOnlyThere(t, path, op.key.key, op.data);
    }
    assert m' == if ret == Created(true) then m[op.key := op.data] else m;
  }

  lemma OthersAct(t: Tree, path: Path, op: Op, seen: nat, m: map<Key, Data>)
    requires Rooted(t) && path != [] && !op.Update? && !op.PutIfAbsent? && Lookup(m, op.key) == Find(t, path, op.key.key)
    ensures Acts(op, m, MapAfter(t, path, op, seen, m), Attempted(t, path, op, seen).1)
  {
    var m', ret := MapAfter(t, path, op, seen, m), Attempted(t, path, op, seen).1;
    if path in t {
      RemovingKeepsRooted(t, path, op.key.key);
    }
    assert m' == if (op.Take? && ret.Found?) || (op.Delete? && ret.Done?) then m - {op.key} else m;
  }

  /** Each transaction on the tree is one action of the atomic map that the store contract
      describes: the same answer, and the tree represents the new map. */
  lemma EachTransactionRefinesTheContract(t: Tree, path: Path, op: Op, seen: nat, commit: Write, m: map<Key, Data>)
    requires Rooted(t) && path != [] && Slashless(path) && op.key.path == Text.Join(path, '/') && Represents(t, m)
    ensures var (t', ret) := Performed(t, path, op, seen, commit);
            var m' := if t' == t then m else MapAfter(t, path, op, seen, m);
            Rooted(t') && Represents(t', m') && Acts(op, m, m', ret)
  {
    AttemptRefines(t, path, op, seen, m);
    var (t', ret) := Attempted(t, path, op, seen);
    var m' := MapAfter(t, path, op, seen, m);
    if t' == t {
      assert m' == m;
    }
    if Commits(op, ret) {
      assert Succeeds(op, m, m', ret);
    }
  }

  lemma AttemptRefines(t: Tree, path: Path, op: Op, seen: nat, m: map<Key, Data>)
    requires Rooted(t) && path != [] && Slashless(path) && op.key.path == Text.Join(path, '/') && Represents(t, m)
    ensures var (t', ret) := Attempted(t, path, op, seen);
            && Rooted(t') && Represents(t', MapAfter(t, path, op, seen, m))
            && Acts(op, m, MapAfter(t, path, op, seen, m), ret)
            && Lookup(m, op.key) == Find(t, path, op.key.key)
  {
    TransactionKeepsRooted(t, path, op, seen);
    RepresentsAfterWrite(t, Attempted(t, path, op, seen).0, m, path, op.key.key);
    assert op.key == Key(Text.Join(path, '/'), op.key.key);
    if op.Update? {
      UpdateActs(t, path, op, seen, m);
    } else if op.PutIfAbsent? {
      PutIfAbsentActs(t, path, op, seen, m);
    } else {
      OthersAct(t, path, op, seen, m);
    }
  }

  // ---------- when a transaction is refused ----------

  /** The segment has no name, or the name of a document in the bucket it is looked up in. */
  predicate BlockedAt(t: Tree, path: Path, i: nat)
    requires i < |path|
  {
    path[i] == "" || (i > 0 && Find(t, path[..i], path[i]).Some?)
  }

  predicate Blocked(t: Tree, path: Path) {
    exists i :: 0 <= i < |path| && BlockedAt(t, path, i)
  }

  lemma NextSegmentFailsWhenBlocked(t: Tree, path: Path, n: nat)
    requires Rooted(t) && n < |path| && Opening(t, path, n).Opened?
    ensures Opening(t, path, n + 1).Refused? <==> BlockedAt(t, path, n)
  {
    OpeningKeepsDocuments(t, path, n);
    var grown := Opening(t, path, n).t;
    assert Find(grown, path[..n], path[n]) == Find(t, path[..n], path[n]);
    if path[..n + 1] in grown {
      assert NestedUnder(grown, path[..n + 1]) && path[..n + 1][..n] == path[..n];
    }
  }

  lemma {:induction false} OpeningFailsWhenBlocked(t: Tree, path: Path, n: nat)
    requires Rooted(t) && n <= |path|
    ensures Opening(t, path, n).Refused? <==> exists i :: 0 <= i < n && BlockedAt(t, path, i)
  {
    if n > 0 {
      OpeningFailsWhenBlocked(t, path, n - 1);
      if Opening(t, path, n - 1).Opened? {
        NextSegmentFailsWhenBlocked(t, path, n - 1);
      }
    }
  }

  /** An update is refused exactly where a segment of its path is blocked; or, when there
      is something to write, where the key has no name or that of a nested bucket. */
  lemma UpdateIsRefusedExactlyWhenBlocked(t: Tree, path: Path, op: Op, seen: nat)
    requires Rooted(t) && path != [] && op.Update?
    ensures var writes := (Find(t, path, op.key.key).Some? || op.create) && op.fn(Find(t, path, op.key.key), seen).Replace?;
            Attempted(t, path, op, seen).1.Fault?
            <==> Blocked(t, path) || (writes && (op.key.key == "" || path + [op.key.key] in t))
  {
    OpeningFailsWhenBlocked(t, path, |path|);
    if Opening(t, path, |path|).Opened? {
      CommitDiffersOnlyThere(t, path, op.key.key, "");
      NothingBelow(t, path, op.key.key, |path|);
    }
  }

  lemma {:induction false} NothingBelow(t: Tree, path: Path, key: string, n: nat)
    requires n <= |path| && Opening(t, path, n).Opened?
    ensures path + [key] in Opening(t, path, n).t <==> path + [key] in t
  {
    if n > 0 {
      NothingBelow(t, path, key, n - 1);
      assert |path[..n]| < |path + [key]|;
    }
  }

  /** A write of this key is refused: it has no name, or that of a nested bucket. */
  predicate Unnameable(t: Tree, path: Path, key: string) {
    key == "" || path + [key] in t
  }

  /** Every transaction faults, before its commit, exactly where it must, and answers otherwise
      by what it found: creating is won exactly if the document was absent, a missing document
      is not found but deletes without an error, and an update aborts only if it is told to. */
  lemma AnswersAreByWhatWasFound(t: Tree, path: Path, op: Op, seen: nat)
    requires Rooted(t) && path != []
    ensures var ret, found, key := Attempted(t, path, op, seen).1, Find(t, path, op.key.key), op.key.key;
            match op
            case PutIfAbsent(_, _) =>
              if Blocked(t, path) || (found.None? && Unnameable(t, path, key)) then ret == Fault else ret == Created(found.None?)
            case Take(_) => ret == if found.Some? then Found(found.value) else NotFound
            case Get(_) => ret == if found.Some? then Found(found.value) else NotFound
            case Delete(_) => ret == if path + [key] in t then Fault else Done
            case Update(_, create, fn) =>
              if Blocked(t, path) then ret == Fault
              else if found.None? && !create then ret == NotFound
              else if fn(found, seen).Refuse? then ret == Aborted(fn(found, seen).error)
              else ret == if Unnameable(t, path, key) then Fault else Done
  {
    if op.Update? || op.PutIfAbsent? {
      OpeningFailsWhenBlocked(t, path, |path|);
      if Opening(t, path, |path|).Opened? {
        CommitDiffersOnlyThere(t, path, op.key.key, "");
        NothingBelow(t, path, op.key.key, |path|);
      }
    } else if op.Delete? && path + [op.key.key] in t {
      assert NestedUnder(t, path + [op.key.key]) && (path + [op.key.key])[..|path|] == path;
    }
  }

  /** What the transaction leaves is the document it answers for. */
  lemma DocumentAfter(t: Tree, path: Path, op: Op, seen: nat)
    requires Rooted(t) && path != []
    ensures var (t', ret) := Attempted(t, path, op, seen);
            var found, now := Find(t, path, op.key.key), Find(t', path, op.key.key);
            now == match op
                   case Update(_, _, fn) => if ret.Done? && fn(found, seen).Replace? then Some(fn(found, seen).data) else found
                   case PutIfAbsent(_, data) => if ret == Created(true) then Some(data) else found
                   case Take(_) => None
                   case Delete(_) => if ret.Done? then None else found
                   case Get(_) => found
    ensures Attempted(t, path, op, seen).1.Done? && op.Update? ==> op.fn(Find(t, path, op.key.key), seen).Replace?
  {
    AnswersAreByWhatWasFound(t, path, op, seen);
    if (op.Update? || op.PutIfAbsent?) && Opening(t, path, |path|).Opened? {
      var found := Find(t, path, op.key.key);
      CommitDiffersOnlyThere(t, path, op.key.key, "");
      if op.PutIfAbsent? {
        CommitDiffersOnlyThere(t, path, op.key.key, op.data);
      } else if op.fn(found, seen).Replace? {
        CommitDiffersOnlyThere(t, path, op.key.key, op.fn(found, seen).data);
      }
    } else if path in t {
      RemovingKeepsRooted(t, path, op.key.key);
    }
  }

  /** With its commit: a transaction that writes is kept or rolled back as a whole, and answers
      with a fault exactly if it faulted before or its commit is reported as failed. */
  lemma CommitDecides(t: Tree, path: Path, op: Op, seen: nat, commit: Write)
    requires Rooted(t) && path != []
    ensures var (t1, ret1) := Attempted(t, path, op, seen);
            var (t', ret) := Performed(t, path, op, seen, commit);
            var writes := ret1.Done? || ret1.Created? || (ret1.Found? && op.Take?);
            && t' == (if writes && !commit.FailedLost? then t1 else t)
            && ret == (if writes && !commit.Stored? then Fault else ret1)
  {
    AnswersAreByWhatWasFound(t, path, op, seen);
  }

  // ---------- counters ----------

  function NextSeq(t: Tree, path: Path, commit: Write): (Tree, Option<nat>) {
    match Opening(t, path, |path|)
    case Refused => (t, None)
    case Opened(t') =>
      if path !in t' then (t, None)
      else
        (if Reaches(commit) then t'[path := t'[path].(counter := t'[path].counter + 1)] else t,
         if commit.Stored? then Some(t'[path].counter + 1) else None)
  }

  function Counter(t: Tree, path: Path): nat {
    if path in t then t[path].counter else 0
  }

  /** An answer is one more than the counter stood at, and the counter stands there from then
      on; a call that fails may skip a number. No other counter and no document changes. */
  lemma CountersCount(t: Tree, path: Path, commit: Write)
    requires Rooted(t) && path != []
    ensures var (t', n) := NextSeq(t, path, commit);
            && (n.Some? <==> !Blocked(t, path) && commit.Stored?)
            && (n.Some? ==> n.value == Counter(t, path) + 1)
            && Counter(t', path) == Counter(t, path) + (if !Blocked(t, path) && Reaches(commit) then 1 else 0)
            && (forall p :: p != path ==> Counter(t', p) == Counter(t, p))
            && (forall p: Path, k: string :: Find(t', p, k) == Find(t, p, k))
  {
    OpeningFailsWhenBlocked(t, path, |path|);
    assert path[..|path|] == path;
    if Opening(t, path, |path|).Opened? {
      OpeningKeepsDocuments(t, path, |path|);
    }
  }

  // ---------- the store ----------

  datatype Walk = Reached | Absent | Stuck

  class Bolt {
    var tree: Tree

    constructor ()
      ensures tree == map[] && Rooted(tree)
    {
      tree := map[];
    }

    /** Walks the path; when `create` is set, makes the buckets that are missing. */
    method BucketPath(path: Path, create: bool) returns (walk: Walk)
      modifies this`tree
      ensures create ==> if path == [] || Opening(old(tree), path, |path|).Refused? then walk.Stuck?
                         else walk.Reached? && tree == Opening(old(tree), path, |path|).t
      ensures !create ==> tree == old(tree)
      ensures !create && Rooted(old(tree)) ==> walk == if path == [] then Stuck else if path in old(tree) then Reached else Absent
    {
      if |path| == 0 {
        return Stuck;
      }
      assert path[..|path|] == path;
      for i := 0 to |path|
        invariant create ==> Opening(old(tree), path, i) == Opened(tree)
        invariant !create ==> tree == old(tree)
        invariant !create && Rooted(tree) && i > 0 ==> path[..i] in tree
      {
        assert path[..i + 1][..i] == path[..i];
        if create {
          if path[i] == "" || (path[..i + 1] !in tree && i > 0 && path[..i] in tree && path[i] in tree[path[..i]].docs) {
            RefusedForGood(old(tree), path, i + 1);
            return Stuck;
          }
          if path[..i + 1] !in tree {
            tree := tree[path[..i + 1] := Bucket(map[], 0)];
          }
        } else if path[..i + 1] !in tree {
          if Rooted(tree) && path in tree {
            PrefixesExist(tree, path, i + 1);
          }
          return Absent;
        }
      }
      return Reached;
    }

    /** What ends a transaction that made no error. */
    method Commit(before: Tree, commit: Write) returns (ok: bool)
      modifies this`tree
      ensures tree == (if Reaches(commit) then old(tree) else before) && ok == commit.Stored?
    {
      if !Reaches(commit) {
        tree := before;
      }
      return commit.Stored?;
    }

    /** One transaction: on any error everything it did is rolled back. */
    method Update(path: Path, key: string, create: bool, fn: Fn, seen: nat, commit: Write) returns (ret: Ret)
      requires Rooted(tree)
      modifies this`tree
      ensures path == [] ==> ret == Fault && tree == old(tree)
      ensures path != [] ==> (tree, ret) == Performed(old(tree), path, Op.Update(Key(Text.Join(path, '/'), key), create, fn), seen, commit)
    {
      var before := tree;
      var walk := BucketPath(path, true);
      if !walk.Reached? {
        tree := before;
        return Fault;
      }
      OpenedReaches(before, path);
      var data := Find(tree, path, key);
      if data.None? && !create {
        tree := before;
        return NotFound;
      }
      match fn(data, seen) {
        case Refuse(error) =>
          tree := before;
          return Aborted(error);
        case Replace(out) =>
          if key == "" || path + [key] in tree {
            tree := before;
            return Fault;
          }
          tree := tree[path := tree[path].(docs := tree[path].docs[key := out])];
          var ok := Commit(before, commit);
          return if ok then Done else Fault;
      }
    }

    method Put(path: Path, key: string, data: Data, commit: Write) returns (ret: Ret)
      requires Rooted(tree)
      modifies this`tree
      ensures path == [] ==> ret == Fault && tree == old(tree)
      ensures path != [] ==> (tree, ret) == Performed(old(tree), path, StoreContract.Put(Key(Text.Join(path, '/'), key), data), 0, commit)
    {
      var before := tree;
      var walk := BucketPath(path, true);
      if !walk.Reached? {
        tree := before;
        return Fault;
      }
      OpenedReaches(before, path);
      if key == "" || path + [key] in tree {
        tree := before;
        return Fault;
      }
      tree := tree[path := tree[path].(docs := tree[path].docs[key := data])];
      var ok := Commit(before, commit);
      return if ok then Done else Fault;
    }

    method PutIfAbsent(path: Path, key: string, data: Data, commit: Write) returns (ret: Ret)
      requires Rooted(tree)
      modifies this`tree
      ensures path == [] ==> ret == Fault && tree == old(tree)
      ensures path != [] ==> (tree, ret) == Performed(old(tree), path, Op.PutIfAbsent(Key(Text.Join(path, '/'), key), data), 0, commit)
    {
      var before := tree;
      var walk := BucketPath(path, true);
      if !walk.Reached? {
        tree := before;
        return Fault;
      }
      OpenedReaches(before, path);
      var created := false;
      if Find(tree, path, key).None? {
        if key == "" || path + [key] in tree {
          tree := before;
          return Fault;
        }
        created := true;
        tree := tree[path := tree[path].(docs := tree[path].docs[key := data])];
      }
      var ok := Commit(before, commit);
      return if ok then Created(created) else Fault;
    }

    method Take(path: Path, key: string, commit: Write) returns (ret: Ret)
      requires Rooted(tree)
      modifies this`tree
      ensures path == [] ==> ret == Fault && tree == old(tree)
      ensures path != [] ==> (tree, ret) == Performed(old(tree), path, Op.Take(Key(Text.Join(path, '/'), key)), 0, commit)
    {
      var before := tree;
      var walk := BucketPath(path, false);
      if !walk.Reached? {
        return if walk.Absent? then NotFound else Fault;
      }
      if key !in tree[path].docs {
        return NotFound;
      }
      var data := tree[path].docs[key];
      tree := tree[path := tree[path].(docs := tree[path].docs - {key})];
      var ok := Commit(before, commit);
      return if ok then Found(data) else Fault;
    }

    method Delete(path: Path, key: string, commit: Write) returns (ret: Ret)
      requires Rooted(tree)
      modifies this`tree
      ensures path == [] ==> ret == Fault && tree == old(tree)
      ensures path != [] ==> (tree, ret) == Performed(old(tree), path, Op.Delete(Key(Text.Join(path, '/'), key)), 0, commit)
    {
      var before := tree;
      var walk := BucketPath(path, false);
      if walk.Stuck? {
        return Fault;
      }
      if walk.Reached? {
        if path + [key] in tree {
          return Fault;
        }
        tree := tree[path := tree[path].(docs := tree[path].docs - {key})];
      }
      var ok := Commit(before, commit);
      return if ok then Done else Fault;
    }

    method Get(path: Path, key: string) returns (ret: Ret)
      requires Rooted(tree)
      modifies this`tree
      ensures tree == old(tree)
      ensures path == [] ==> ret == Fault
      ensures path != [] ==> ret == if Find(tree, path, key).Some? then Found(Find(tree, path, key).value) else NotFound
    {
      var walk := BucketPath(path, false);
      if !walk.Reached? {
        return if walk.Absent? then NotFound else Fault;
      }
      if key !in tree[path].docs {
        return NotFound;
      }
      return Found(tree[path].docs[key]);
    }

    method NextNumber(path: Path, commit: Write) returns (n: Option<nat>)
      requires Rooted(tree)
      modifies this`tree
      ensures path == [] ==> n == None && tree == old(tree)
      ensures path != [] ==> (tree, n) == NextSeq(old(tree), path, commit)
    {
      var before := tree;
      var walk := BucketPath(path, true);
      if !walk.Reached? {
        tree := before;
        return None;
      }
      OpenedReaches(before, path);
      var next := tree[path].counter + 1;
      tree := tree[path := tree[path].(counter := next)];
      var ok := Commit(before, commit);
      return if ok then Some(next) else None;
    }
  }

  lemma OpenedReaches(t: Tree, path: Path)
    requires Rooted(t) && path != [] && Opening(t, path, |path|).Opened?
    ensures path in Opening(t, path, |path|).t
  {
    OpeningKeepsDocuments(t, path, |path|);
    assert path[..|path|] == path;
  }

  lemma {:induction false} RefusedForGood(t: Tree, path: Path, n: nat)
    requires n <= |path| && Opening(t, path, n).Refused?
    ensures Opening(t, path, |path|).Refused?
    decreases |path| - n
  {
    if n < |path| {
      RefusedForGood(t, path, n + 1);
    }
  }

  lemma {:induction false} PrefixesExist(t: Tree, path: Path, n: nat)
    requires Rooted(t) && path in t && 0 < n <= |path|
    ensures path[..n] in t
    decreases |path| - n
  {
    if n < |path| {
      PrefixesExist(t, path, n + 1);
      assert NestedUnder(t, path[..n + 1]) && path[..n + 1][..n] == path[..n];
    } else {
      assert path[..n] == path;
    }
  }
}
