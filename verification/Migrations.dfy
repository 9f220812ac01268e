/**
 * Tracked schema migrations under errors and crashes. A transaction either commits both the
 * migration's effect and its record, or neither; nothing else about the database is assumed.
 */
module Migrations {
  import opened Common

  /**
   * `tracked` is whether schema_versions exists, `recorded` its rows, `committed` the migrations whose
   * SQL took effect, in order.
   */
  datatype Db = Db(tracked: bool, recorded: set<string>, committed: seq<string>)

  const EMPTY := Db(false, {}, [])

  /** How a file's turn is cut short: before its commit, or at a commit that may have landed. */
  datatype Stop = BeforeCommit | AtCommit(landed: bool)

  /** `forgets`: isApplied answers false although the file is recorded (it swallows query errors). */
  datatype Luck = Luck(forgets: bool, stop: Option<Stop>)

  const SMOOTH := Luck(false, None)

  datatype Progress = Progress(db: Db, ok: bool)

  function Commit(db: Db, name: string): Db {
    db.(recorded := db.recorded + {name}, committed := db.committed + [name])
  }

  /** One turn of the loop; a second record of a name violates the primary key and rolls back. */
  function ApplyFile(db: Db, name: string, luck: Luck): Progress {
    if luck.stop == Some(BeforeCommit) then Progress(db, false)
    else if name in db.recorded then Progress(db, !luck.forgets)
    else match luck.stop
      case Some(AtCommit(landed)) => Progress(if landed then Commit(db, name) else db, false)
      case _ => Progress(Commit(db, name), true)
  }

  function LuckAt(lucks: seq<Luck>, i: nat): Luck {
    if i < |lucks| then lucks[i] else SMOOTH
  }

  /** The loop from file i on. */
  function ApplyFiles(db: Db, names: seq<string>, lucks: seq<Luck>, i: nat): Progress
    decreases |names| - i
  {
    if i >= |names| then Progress(db, true)
    else
      var p := ApplyFile(db, names[i], LuckAt(lucks, i));
      if p.ok then ApplyFiles(p.db, names, lucks, i + 1) else p
  }

  /** Seeding records names one by one, outside any transaction, until a conflict or after `most` names. */
  function Seed(db: Db, names: seq<string>, most: nat): Progress
    decreases |names|
  {
    if names == [] then Progress(db, true)
    else if most == 0 || names[0] in db.recorded then Progress(db, false)
    else Seed(db.(recorded := db.recorded + {names[0]}), names[1..], most - 1)
  }

  /**
   * One call of MigrateFS: what the two probes answer, the files it sees, and where it is cut short:
   * before or after the tracking table is created, in seeding, or in some file's turn.
   */
  datatype Call = Call(
    seesTable: bool, seesUsers: bool, names: seq<string>, lucks: seq<Luck>,
    dies: bool, diesEarly: bool, seeds: nat)

  function Migrate(db: Db, c: Call): Progress {
    if c.diesEarly then Progress(db, false)
    else
      var db' := db.(tracked := true);
      if c.dies then Progress(db', false)
      else if !c.seesTable && c.seesUsers then Seed(db', c.names, c.seeds)
      else ApplyFiles(db', c.names, c.lucks, 0)
  }

  /** The users table exists once a migration that creates it took effect. */
  predicate UsersExist(db: Db, creators: set<string>) {
    exists n :: n in db.committed && n in creators
  }

  predicate HonestProbes(db: Db, c: Call, creators: set<string>) {
    c.seesTable == db.tracked && c.seesUsers == UsersExist(db, creators)
  }

  function Run(db: Db, calls: seq<Call>): Db
    decreases |calls|
  {
    if calls == [] then db else Run(Migrate(db, calls[0]).db, calls[1..])
  }

  predicate AllHonest(db: Db, calls: seq<Call>, creators: set<string>)
    decreases |calls|
  {
    calls == [] ||
    (HonestProbes(db, calls[0], creators) && AllHonest(Migrate(db, calls[0]).db, calls[1..], creators))
  }

  // ---------- the invariant ----------

  /** What is recorded is what took effect, and nothing took effect twice. */
  ghost predicate Truthful(db: Db) {
    && (forall n :: n in db.recorded <==> n in db.committed)
    && (forall i, j :: 0 <= i < j < |db.committed| ==> db.committed[i] != db.committed[j])
  }

  ghost predicate Inv(db: Db) {
    Truthful(db) && (db.committed != [] ==> db.tracked)
  }

  lemma {:induction false} ApplyFilesKeepsTruth(db: Db, names: seq<string>, lucks: seq<Luck>, i: nat)
    requires Truthful(db)
    ensures Truthful(ApplyFiles(db, names, lucks, i).db) && ApplyFiles(db, names, lucks, i).db.tracked == db.tracked
    decreases |names| - i
  {
    if i < |names| {
      var p := ApplyFile(db, names[i], LuckAt(lucks, i));
      assert forall n :: n in db.committed + [names[i]] <==> n in db.committed || n == names[i];
      if p.ok {
        ApplyFilesKeepsTruth(p.db, names, lucks, i + 1);
      }
    }
  }

  lemma MigrateKeepsInv(db: Db, c: Call, creators: set<string>)
    requires Inv(db) && HonestProbes(db, c, creators)
    ensures Inv(Migrate(db, c).db)
  {
    if !c.diesEarly && !c.dies {
      ApplyFilesKeepsTruth(db.(tracked := true), c.names, c.lucks, 0);
    }
  }

  lemma {:induction false} RunKeepsInv(db: Db, calls: seq<Call>, creators: set<string>)
    requires Inv(db) && AllHonest(db, calls, creators)
    ensures Inv(Run(db, calls))
    decreases |calls|
  {
    if calls != [] {
      MigrateKeepsInv(db, calls[0], creators);
      RunKeepsInv(Migrate(db, calls[0]).db, calls[1..], creators);
    }
  }

  // ---------- what every run guarantees ----------

  /**
   * From an empty database, whatever errors and crashes cut the calls short, the migrations that took
   * effect are those recorded and none took effect twice.
   */
  lemma AppliedExactlyOnce(calls: seq<Call>, creators: set<string>)
    requires AllHonest(EMPTY, calls, creators)
    ensures Truthful(Run(EMPTY, calls))
  {
    RunKeepsInv(EMPTY, calls, creators);
  }

  function Elements(s: seq<string>): set<string> {
    set n | n in s
  }

  /** The files of the list not recorded when their turn comes. */
  function Outstanding(names: seq<string>, recorded: set<string>): seq<string>
    decreases |names|
  {
    if names == [] then []
    else if names[0] in recorded then Outstanding(names[1..], recorded)
    else [names[0]] + Outstanding(names[1..], recorded + {names[0]})
  }

  lemma {:induction false} SuccessAppliesOutstanding(db: Db, names: seq<string>, lucks: seq<Luck>, i: nat)
    requires i <= |names| && ApplyFiles(db, names, lucks, i).ok
    ensures var db' := ApplyFiles(db, names, lucks, i).db;
            && db'.committed == db.committed + Outstanding(names[i..], db.recorded)
            && db.recorded <= db'.recorded
            && (forall k :: i <= k < |names| ==> names[k] in db'.recorded)
    decreases |names| - i
  {
    if i < |names| {
      var p := ApplyFile(db, names[i], LuckAt(lucks, i));
      SuccessAppliesOutstanding(p.db, names, lucks, i + 1);
      assert names[i..][1..] == names[i + 1..];
    } else {
      assert names[i..] == [];
    }
  }

  /** A successful call leaves every file recorded and commits exactly the outstanding ones, in order. */
  lemma SuccessfulCallIsComplete(calls: seq<Call>, c: Call, creators: set<string>)
    requires AllHonest(EMPTY, calls, creators) && HonestProbes(Run(EMPTY, calls), c, creators)
    requires Migrate(Run(EMPTY, calls), c).ok
    ensures var db, db' := Run(EMPTY, calls), Migrate(Run(EMPTY, calls), c).db;
            && (forall n | n in c.names :: n in db'.recorded)
            && db'.committed == db.committed + Outstanding(c.names, db.recorded)
  {
    RunKeepsInv(EMPTY, calls, creators);
    var db := Run(EMPTY, calls);
    SuccessAppliesOutstanding(db.(tracked := true), c.names, c.lucks, 0);
    assert c.names[0..] == c.names;
  }

  /** A file's turn passes: nothing stops it, and a recorded file is seen as such. */
  predicate Passes(recorded: bool, luck: Luck) {
    if recorded then !luck.forgets && luck.stop != Some(BeforeCommit) else luck.stop.None?
  }

  /** The j-th file is recorded when its turn comes: from before, or by an earlier turn of the same list. */
  predicate Known(db: Db, names: seq<string>, i: nat, j: nat)
    requires i <= j < |names|
  {
    names[j] in db.recorded || names[j] in names[i..j]
  }

  /** A commit that took effect although it came back as an error. */
  function LandedLate(db: Db, names: seq<string>, lucks: seq<Luck>, i: nat, k: nat): seq<string>
    requires i <= k <= |names|
  {
    if k < |names| && !Known(db, names, i, k) && LuckAt(lucks, k).stop == Some(AtCommit(true)) then [names[k]] else []
  }

  /** Where the loop from file i on stops. */
  function StopsAt(db: Db, names: seq<string>, lucks: seq<Luck>, i: nat): (k: nat)
    requires i <= |names|
    ensures i <= k <= |names|
    decreases |names| - i
  {
    if i == |names| then i
    else
      var p := ApplyFile(db, names[i], LuckAt(lucks, i));
      if p.ok then StopsAt(p.db, names, lucks, i + 1) else i
  }

  /** A passing turn makes its own file known to the later ones, and no other. */
  lemma KnownNext(db: Db, names: seq<string>, lucks: seq<Luck>, i: nat, j: nat)
    requires i < j < |names| && ApplyFile(db, names[i], LuckAt(lucks, i)).ok
    ensures Known(ApplyFile(db, names[i], LuckAt(lucks, i)).db, names, i + 1, j) == Known(db, names, i, j)
  {
    assert names[i..j] == [names[i]] + names[i + 1..j];
  }

  lemma {:induction false} StopsAtFirstFailure(db: Db, names: seq<string>, lucks: seq<Luck>, i: nat)
    requires i <= |names|
    ensures var k := StopsAt(db, names, lucks, i);
            && (forall j :: i <= j < k ==> Passes(Known(db, names, i, j), LuckAt(lucks, j)))
            && (k < |names| ==> !Passes(Known(db, names, i, k), LuckAt(lucks, k)))
            && (ApplyFiles(db, names, lucks, i).ok <==> k == |names|)
    decreases |names| - i
  {
    if i < |names| {
      var p := ApplyFile(db, names[i], LuckAt(lucks, i));
      assert p.ok <==> Passes(Known(db, names, i, i), LuckAt(lucks, i));
      if p.ok {
        StopsAtFirstFailure(p.db, names, lucks, i + 1);
        forall j | i < j < |names| ensures Known(p.db, names, i + 1, j) == Known(db, names, i, j) {
          KnownNext(db, names, lucks, i, j);
        }
      }
    }
  }

  lemma {:induction false} CommitsUpToStop(db: Db, names: seq<string>, lucks: seq<Luck>, i: nat)
    requires i <= |names|
    ensures var k := StopsAt(db, names, lucks, i);
            ApplyFiles(db, names, lucks, i).db.committed
            == db.committed + (Outstanding(names[i..k], db.recorded) + LandedLate(db, names, lucks, i, k))
    decreases |names| - i
  {
    var k := StopsAt(db, names, lucks, i);
    if i < |names| {
      var p := ApplyFile(db, names[i], LuckAt(lucks, i));
      if p.ok {
        CommitsUpToStop(p.db, names, lucks, i + 1);
        if k < |names| {
          KnownNext(db, names, lucks, i, k);
        }
        var later := Outstanding(names[i + 1..k], p.db.recorded) + LandedLate(db, names, lucks, i, k);
        assert names[i..k][0] == names[i] && names[i..k][1..] == names[i + 1..k];
        if names[i] !in db.recorded {
          Reassociate(db.committed, [names[i]], later);
          Reassociate([names[i]], Outstanding(names[i + 1..k], p.db.recorded), LandedLate(db, names, lucks, i, k));
        }
      } else {
        assert names[i..i] == [];
      }
    }
  }

  lemma {:induction false} RecordsWhatItCommits(db: Db, names: seq<string>, lucks: seq<Luck>, i: nat)
    requires i <= |names|
    ensures var db' := ApplyFiles(db, names, lucks, i).db;
            && db.committed <= db'.committed && db'.tracked == db.tracked
            && db'.recorded == db.recorded + Elements(db'.committed[|db.committed|..])
    decreases |names| - i
  {
    if i < |names| {
      var p := ApplyFile(db, names[i], LuckAt(lucks, i));
      assert p.db.committed == db.committed || p.db.committed == db.committed + [names[i]];
      if p.ok {
        RecordsWhatItCommits(p.db, names, lucks, i + 1);
        var db' := ApplyFiles(db, names, lucks, i).db;
        var later, all := db'.committed[|p.db.committed|..], db'.committed[|db.committed|..];
        assert all == if p.db.committed == db.committed then later else [names[i]] + later;
      }
    }
  }

  /**
   * What a call's loop comes to, whether it succeeds or not. It stops at the first file k that does not
   * pass, and succeeds exactly if there is none. The files outstanding before k are committed, in order and
   * without leaving one out, and file k only if its commit landed all the same; these are recorded.
   */
  lemma LoopOutcome(db: Db, names: seq<string>, lucks: seq<Luck>) returns (k: nat)
    ensures k <= |names|
    ensures forall j :: 0 <= j < k ==> Passes(Known(db, names, 0, j), LuckAt(lucks, j))
    ensures k < |names| ==> !Passes(Known(db, names, 0, k), LuckAt(lucks, k))
    ensures var p := ApplyFiles(db, names, lucks, 0);
            && (p.ok <==> k == |names|)
            && p.db.committed == db.committed + (Outstanding(names[..k], db.recorded) + LandedLate(db, names, lucks, 0, k))
            && p.db.recorded == db.recorded + Elements(p.db.committed[|db.committed|..])
            && p.db.tracked == db.tracked
  {
    k := StopsAt(db, names, lucks, 0);
    StopsAtFirstFailure(db, names, lucks, 0);
    CommitsUpToStop(db, names, lucks, 0);
    RecordsWhatItCommits(db, names, lucks, 0);
    assert names[0..k] == names[..k];
  }

  /** Without errors or crashes a call succeeds, and so by the above applies everything outstanding. */
  lemma SmoothFilesSucceed(db: Db, names: seq<string>, lucks: seq<Luck>)
    requires forall k :: 0 <= k < |names| ==> LuckAt(lucks, k) == SMOOTH
    ensures ApplyFiles(db, names, lucks, 0).ok
  {
    var k := LoopOutcome(db, names, lucks);
  }

  /** How many names seeding gets to record. */
  function Seeded(db: Db, names: seq<string>, most: nat): (k: nat)
    ensures k <= |names| && k <= most
    decreases |names|
  {
    if names == [] || most == 0 || names[0] in db.recorded then 0
    else 1 + Seeded(db.(recorded := db.recorded + {names[0]}), names[1..], most - 1)
  }

  lemma {:induction false} SeedRecords(db: Db, names: seq<string>, most: nat)
    ensures var k := Seeded(db, names, most);
            Seed(db, names, most) == Progress(db.(recorded := db.recorded + Elements(names[..k])), k == |names|)
    decreases |names|
  {
    var k := Seeded(db, names, most);
    if k > 0 {
      var db1 := db.(recorded := db.recorded + {names[0]});
      SeedRecords(db1, names[1..], most - 1);
      assert names[..k] == [names[0]] + names[1..][..k - 1];
      assert db.recorded + Elements(names[..k]) == db1.recorded + Elements(names[1..][..k - 1]);
    } else {
      assert names[..0] == [];
      assert db.recorded + Elements(names[..0]) == db.recorded;
    }
  }

  lemma {:induction false} SeedStops(db: Db, names: seq<string>, most: nat)
    ensures var k := Seeded(db, names, most);
            && (forall j :: 0 <= j < k ==> names[j] !in db.recorded && names[j] !in names[..j])
            && (k < |names| ==> k == most || names[k] in db.recorded || names[k] in names[..k])
    decreases |names|
  {
    var k := Seeded(db, names, most);
    if k > 0 {
      var db1 := db.(recorded := db.recorded + {names[0]});
      SeedStops(db1, names[1..], most - 1);
      forall j | 0 < j < |names| ensures names[j] == names[1..][j - 1] && names[..j] == [names[0]] + names[1..][..j - 1] {
      }
    }
  }

  /**
   * Seeding records the names from the beginning of the list, up to the first that is recorded already or
   * the point where it is cut short, commits nothing, and succeeds exactly if it gets through the list.
   */
  lemma SeedOutcome(db: Db, names: seq<string>, most: nat) returns (k: nat)
    ensures k <= |names| && k <= most
    ensures Seed(db, names, most) == Progress(db.(recorded := db.recorded + Elements(names[..k])), k == |names|)
    ensures forall j :: 0 <= j < k ==> names[j] !in db.recorded && names[j] !in names[..j]
    ensures k < |names| ==> k == most || names[k] in db.recorded || names[k] in names[..k]
  {
    k := Seeded(db, names, most);
    SeedRecords(db, names, most);
    SeedStops(db, names, most);
  }

  /** The call gets as far as recording a first name that is not yet recorded, without running it. */
  predicate SeedsNewName(db: Db, c: Call) {
    && !c.diesEarly && !c.dies && !c.seesTable && c.seesUsers
    && c.names != [] && c.seeds > 0 && c.names[0] !in db.recorded
  }

  /**
   * Whatever the probes answer and wherever the call is cut short, it leaves a truthful database truthful
   * unless both probes send it into seeding and it gets to record a first file that is new.
   */
  lemma TruthfulExactlyWhen(db: Db, c: Call)
    requires Truthful(db)
    ensures Truthful(Migrate(db, c).db) <==> !SeedsNewName(db, c)
  {
    var db' := db.(tracked := true);
    if !c.seesTable && c.seesUsers {
      var k := SeedOutcome(db', c.names, c.seeds);
      if k > 0 {
        assert c.names[0] in c.names[..k];
      } else {
        assert c.names[..k] == [];
        assert Seed(db', c.names, c.seeds).db.recorded == db.recorded;
      }
    } else {
      ApplyFilesKeepsTruth(db', c.names, c.lucks, 0);
    }
  }

  /** It does happen: any new first file is then recorded although it never took effect. */
  lemma SeedingRecordsWhatNeverRan(db: Db, c: Call)
    requires Truthful(db) && SeedsNewName(db, c)
    ensures var db' := Migrate(db, c).db;
            c.names[0] in db'.recorded && c.names[0] !in db'.committed && db'.committed == db.committed
  {
    var k := SeedOutcome(db.(tracked := true), c.names, c.seeds);
    assert c.names[0] in c.names[..k];
  }

  // ---------- the source's procedure ----------

  class Database {
    var tracked: bool
    var recorded: set<string>
    ghost var committed: seq<string>

    ghost function Abs(): Db reads this {
      Db(tracked, recorded, committed)
    }

    constructor ()
      ensures Abs() == EMPTY
    {
      tracked, recorded, committed := false, {}, [];
    }

    /** One transaction: the SQL and the record commit together or not at all. */
    method Transaction(name: string, stop: Option<Stop>) returns (ok: bool)
      modifies this
      ensures Progress(Abs(), ok) == ApplyFile(old(Abs()), name, Luck(true, stop))
    {
      if stop == Some(BeforeCommit) || name in recorded {
        return false;
      }
      if stop == Some(AtCommit(false)) {
        return false;
      }
      recorded := recorded + {name};
      committed := committed + [name];
      return stop.None?;
    }

    method MigrateFS(c: Call) returns (ok: bool)
      modifies this
      ensures Progress(Abs(), ok) == Migrate(old(Abs()), c)
    {
      if c.diesEarly {
        return false;
      }
      tracked := true;
      if c.dies {
        return false;
      }
      if !c.seesTable && c.seesUsers {
        ok := SeedExisting(c.names, c.seeds);
        return;
      }
      ghost var goal := ApplyFiles(Abs(), c.names, c.lucks, 0);
      var i := 0;
      while i < |c.names|
        invariant 0 <= i <= |c.names|
        invariant ApplyFiles(Abs(), c.names, c.lucks, i) == goal
      {
        var luck := LuckAt(c.lucks, i);
        var applied := c.names[i] in recorded && !luck.forgets;
        if applied {
          if luck.stop == Some(BeforeCommit) {
            return false;
          }
        } else {
          ok := Transaction(c.names[i], luck.stop);
          if !ok {
            return false;
          }
        }
        i := i + 1;
      }
      return true;
    }

    method SeedExisting(names: seq<string>, most: nat) returns (ok: bool)
      modifies this
      ensures Progress(Abs(), ok) == Seed(old(Abs()), names, most)
    {
      ghost var goal := Seed(Abs(), names, most);
      var i := 0;
      while i < |names|
        invariant 0 <= i <= |names| && i <= most
        invariant Seed(Abs(), names[i..], most - i) == goal
      {
        assert names[i..][1..] == names[i + 1..];
        if i == most || names[i] in recorded {
          return false;
        }
        recorded := recorded + {names[i]};
        i := i + 1;
      }
      return true;
    }
  }
}
