/** The migration runner: each file in its own transaction together with its version, resumed after
    any failure. The effect of a file on the schema is left open: any function, which may refuse. What
    the file system and Postgres answer is an input. */
module Migrations {
  import opened Prelude
  import opened Store

  /** A migration: its version and what its SQL does to a schema, or None where the SQL is refused. */
  datatype File<!S> = File(version: string, effect: S -> Option<S>)

  /** The sorted list of files, each version once. */
  ghost predicate Distinct<S>(files: seq<File<S>>) {
    forall i, j :: 0 <= i < j < |files| ==> files[i].version != files[j].version
  }

  /** The schema after the first `n` files, when none of them is refused. */
  function Fold<S>(schema: S, files: seq<File<S>>, n: nat): Option<S>
    requires n <= |files|
  {
    if n == 0 then Some(schema)
    else
      match Fold(schema, files, n - 1)
      case None => None
      case Some(before) => files[n - 1].effect(before)
  }

  function Versions<S>(files: seq<File<S>>, n: nat): set<string>
    requires n <= |files|
  {
    if n == 0 then {} else Versions(files, n - 1) + {files[n - 1].version}
  }

  lemma {:induction false} VersionRecorded<S>(files: seq<File<S>>, n: nat, i: nat)
    requires Distinct(files) && n <= |files| && i < |files|
    ensures files[i].version in Versions(files, n) <==> i < n
  {
    if n > 0 {
      VersionRecorded(files, n - 1, i);
    }
  }

  lemma {:induction false} FoldPrefix<S>(schema: S, files: seq<File<S>>, n: nat, m: nat)
    requires n <= m <= |files| && Fold(schema, files, m).Some?
    ensures Fold(schema, files, n).Some?
  {
    if n < m {
      FoldPrefix(schema, files, n, m - 1);
    }
  }

  /** For one file: the query for its version, the reading of the file, BEGIN and the two statements
      of its transaction, and COMMIT. */
  datatype FileAnswers = FileAnswers(check: bool, read: bool, exec: bool, commit: Result)

  /** For one start: the creation of the table of versions, and each file. */
  datatype StartAnswers = StartAnswers(ddl: bool, file: nat -> FileAnswers)

  ghost predicate AllAnswered(a: StartAnswers) {
    a.ddl && forall i :: a.file(i) == FileAnswers(true, true, true, Ok)
  }

  /** With the first `n` files applied before, the turn of file `i` reports a failure. */
  predicate FileFails<S>(schema: S, files: seq<File<S>>, n: nat, i: nat, a: FileAnswers)
    requires i < |files|
  {
    !a.check || (i >= n && !(a.read && a.exec && Fold(schema, files, i + 1).Some? && a.commit == Ok))
  }

  /** How many files are applied after it, when it is the first that fails: its own commit may have
      taken effect although the answer was lost. */
  function Reached<S>(schema: S, files: seq<File<S>>, n: nat, i: nat, a: FileAnswers): nat
    requires i < |files|
  {
    if i < n then n
    else if a.check && a.read && a.exec && Fold(schema, files, i + 1).Some? && !a.commit.Failed? then i + 1
    else i
  }

  class Database<!S> {
    const empty: S
    var schema: S
    var recorded: set<string>
    // how often each migration was committed
    ghost var commits: multiset<string>

    constructor (initial: S)
      ensures empty == schema == initial && recorded == {} && commits == multiset{}
    {
      empty, schema, recorded, commits := initial, initial, {}, multiset{};
    }

    /** Exactly the first `n` files are applied: recorded, folded into the schema, committed once each. */
    ghost predicate Applied(files: seq<File<S>>, n: nat)
      reads this
    {
      && n <= |files| && recorded == Versions(files, n) && Some(schema) == Fold(empty, files, n)
      && commits == multiset(recorded)
    }

    /** One migration and its version, atomically. The commit may take effect although its answer is lost. */
    method ApplyOne(file: File<S>, exec: bool, commit: Result) returns (err: bool)
      modifies this
      ensures var runs := exec && file.effect(old(schema)).Some? && file.version !in old(recorded);
        && (err <==> !runs || commit != Ok)
        && if runs && !commit.Failed? then
             && schema == file.effect(old(schema)).value && recorded == old(recorded) + {file.version}
             && commits == old(commits) + multiset{file.version}
           else schema == old(schema) && recorded == old(recorded) && commits == old(commits)
    {
      var next := file.effect(schema);
      if !exec || next == None || file.version in recorded {
        return true;
      }
      if !commit.Failed? {
        schema, recorded := next.value, recorded + {file.version};
        commits := commits + multiset{file.version};
      }
      err := commit != Ok;
    }

    /** One file of the loop: passed over when it is recorded, applied otherwise. */
    method Migrate(files: seq<File<S>>, i: nat, a: FileAnswers, ghost n: nat) returns (err: bool, ghost m: nat)
      requires Distinct(files) && Applied(files, n) && i <= n && i < |files|
      modifies this
      ensures Applied(files, m) && (err <==> FileFails(empty, files, n, i, a))
      ensures m == Reached(empty, files, n, i, a)
    {
      m := n;
      if !a.check {
        return true, m;
      }
      VersionRecorded(files, n, i);
      err := false;
      if files[i].version !in recorded {
        if !a.read {
          return true, m;
        }
        err := ApplyOne(files[i], a.exec, a.commit);
        m := Reached(empty, files, n, i, a);
      }
    }

    /** From a state in which the first `n` files are applied, a run goes on to the first failure, or
        leaves all of them applied. */
    method RunMigrations(files: seq<File<S>>, a: StartAnswers, ghost n: nat) returns (err: bool, ghost m: nat)
      requires Distinct(files) && Applied(files, n)
      modifies this
      ensures n <= m <= |files| && Applied(files, m)
      ensures !a.ddl || files == [] ==> err && m == n
      ensures err && a.ddl && files != [] ==>
        exists i :: 0 <= i < |files| && FileFails(empty, files, n, i, a.file(i))
                    && (forall j :: 0 <= j < i ==> !FileFails(empty, files, n, j, a.file(j)))
                    && m == Reached(empty, files, n, i, a.file(i))
      ensures !err ==> m == |files| && forall i :: 0 <= i < |files| ==> !FileFails(empty, files, n, i, a.file(i))
    {
      m := n;
      if !a.ddl || files == [] {
        return true, m;
      }
      var i := 0;
      while i < |files|
        invariant i <= |files| && m == (if i < n then n else i) && Applied(files, m)
        invariant forall j :: 0 <= j < i ==> !FileFails(empty, files, n, j, a.file(j))
      {
        err, m := Migrate(files, i, a.file(i), m);
        if err {
          return;
        }
        i := i + 1;
      }
      err := false;
    }
  }

  // ---- Any number of starts of the service, each of which runs the migrations first.

  /** However many starts are cut short, the first that is not reaches the state of one
      uninterrupted run, and no migration is ever committed twice. */
  method Restart<S>(initial: S, files: seq<File<S>>, starts: seq<StartAnswers>)
    returns (db: Database<S>, done: bool, ghost m: nat)
    requires Distinct(files)
    ensures fresh(db) && db.empty == initial && db.Applied(files, m)
    ensures done ==> m == |files| && Some(db.schema) == Fold(initial, files, |files|)
    ensures files != [] && Fold(initial, files, |files|).Some? && (exists a :: a in starts && AllAnswered(a)) ==> done
    ensures forall v :: db.commits[v] <= 1
  {
    db := new Database(initial);
    done, m := false, 0;
    var i := 0;
    while i < |starts| && !done
      invariant i <= |starts| && fresh(db) && db.empty == initial && db.Applied(files, m)
      invariant done ==> m == |files|
      invariant files != [] && Fold(initial, files, |files|).Some? && !done ==>
                forall j :: 0 <= j < i ==> !AllAnswered(starts[j])
    {
      var err: bool;
      ghost var n := m;
      err, m := db.RunMigrations(files, starts[i], m);
      if err && files != [] && Fold(initial, files, |files|).Some? && AllAnswered(starts[i]) {
        AnsweredIsWhole(initial, files, n, starts[i]);
        assert false;
      }
      done := !err;
      i := i + 1;
    }
  }

  lemma {:induction false} AnsweredIsWhole<S>(schema: S, files: seq<File<S>>, n: nat, a: StartAnswers)
    requires AllAnswered(a) && Fold(schema, files, |files|).Some?
    ensures forall i :: 0 <= i < |files| ==> !FileFails(schema, files, n, i, a.file(i))
  {
    forall i | 0 <= i < |files|
      ensures !FileFails(schema, files, n, i, a.file(i))
    {
      FoldPrefix(schema, files, i + 1, |files|);
    }
  }
}
