/**
 * The database migration runner: migration files ordered by the number in front of their name,
 * the pending ones selected against the `schema_migrations` table, and the loop that runs each one
 * and records it, stopping at the first failure.
 *
 * Reading the directory and the files, and executing their SQL, are outside the model: the files
 * are given as (name, content) pairs in the order the directory scan yields them, and whether a
 * migration's SQL succeeds is a caller-given predicate.
 */
module Migrations {
  import opened Wrappers
  import opened JsStrings
  import Sequences

  datatype Migration = Migration(filename: string, order: nat, content: string)

  // ---------------------------------------------------------------------------------------------
  // The order of a migration

  function DigitValue(c: char): nat
    requires IsAsciiDigit(c)
  {
    c as int - '0' as int
  }

  predicate AllDigits(s: string) {
    forall k :: 0 <= k < |s| ==> IsAsciiDigit(s[k])
  }

  /** The number a string of decimal digits denotes, as `parseInt` reads it. */
  function DecimalValue(s: string): nat
    requires AllDigits(s)
  {
    if s == [] then 0 else 10 * DecimalValue(s[..|s| - 1]) + DigitValue(s[|s| - 1])
  }

  function DigitChar(d: nat): char
    requires d < 10
  {
    ('0' as int + d) as char
  }

  /** The decimal numeral of `n`, without leading zeros. */
  function DecimalText(n: nat): (s: string)
    ensures AllDigits(s) && s != []
  {
    if n < 10 then [DigitChar(n)] else DecimalText(n / 10) + [DigitChar(n % 10)]
  }

  /** Reading a numeral back gives the number. */
  lemma {:induction false} DecimalRoundTrip(n: nat)
    ensures DecimalValue(DecimalText(n)) == n
  {
    if n >= 10 {
      DecimalRoundTrip(n / 10);
      var s := DecimalText(n);
      assert s[..|s| - 1] == DecimalText(n / 10);
    }
  }

  /** Leading zeros do not change the number, so `1_a.sql` and `01_b.sql` have the same order. */
  lemma {:induction false} LeadingZeroIgnored(s: string)
    requires AllDigits(s)
    ensures AllDigits("0" + s) && DecimalValue("0" + s) == DecimalValue(s)
  {
    if s != [] {
      var t := "0" + s;
      assert t[..|t| - 1] == "0" + s[..|s| - 1];
      LeadingZeroIgnored(s[..|s| - 1]);
    }
  }

  /** The text before the first `_` of the file name: `filename.split("_")[0]`. */
  function OrderPrefix(filename: string): string {
    Split(filename, '_')[0]
  }

  /** The name starts with a number (possibly empty) ended by `_` or by the end of the name. */
  predicate NumericPrefix(filename: string) {
    AllDigits(OrderPrefix(filename))
  }

  /** `parseInt(filename.split("_")[0] || "0")`. */
  function MigrationOrder(filename: string): nat
    requires NumericPrefix(filename)
  {
    var prefix := OrderPrefix(filename);
    DecimalValue(if prefix == [] then "0" else prefix)
  }

  /** A file named `<n>_<rest>` has order `n`, and a file named `_<rest>` has order 0. */
  lemma OrderOfNumberedFile(n: nat, rest: string)
    ensures NumericPrefix(DecimalText(n) + "_" + rest)
    ensures MigrationOrder(DecimalText(n) + "_" + rest) == n
    ensures NumericPrefix("_" + rest) && MigrationOrder("_" + rest) == 0
  {
    var d := DecimalText(n);
    var s := d + "_" + rest;
    assert s[..|d|] == d;
    assert '_' !in d by {
      forall k | 0 <= k < |d| ensures d[k] != '_' { assert IsAsciiDigit(d[k]); }
    }
    assert IndexOf(s, '_') == Some(|d|) by { assert s[|d|] == '_'; }
    assert OrderPrefix(s) == d;
    DecimalRoundTrip(n);
    assert IndexOf("_" + rest, '_') == Some(0);
    assert OrderPrefix("_" + rest) == [];
    assert DecimalValue("0") == 0 by { assert "0"[..0] == []; }
  }

  // ---------------------------------------------------------------------------------------------
  // Loading

  predicate ByOrder(a: Migration, b: Migration) {
    a.order <= b.order
  }

  lemma ByOrderIsTotal()
    ensures Sequences.TotalPreorder(ByOrder)
  {
  }

  function MigrationOf(file: (string, string)): Migration
    requires NumericPrefix(file.0)
  {
    Migration(file.0, MigrationOrder(file.0), file.1)
  }

  /** What loadMigrations returns: the migrations of the files, sorted by order. */
  function Loaded(files: seq<(string, string)>): (r: seq<Migration>)
    requires forall i :: 0 <= i < |files| ==> NumericPrefix(files[i].0)
    ensures |r| == |files|
    ensures multiset(r) == multiset(seq(|files|, i requires 0 <= i < |files| => MigrationOf(files[i])))
    ensures forall i, j :: 0 <= i < j < |r| ==> r[i].order <= r[j].order
  {
    var loaded := seq(|files|, i requires 0 <= i < |files| => MigrationOf(files[i]));
    ByOrderIsTotal();
    Sequences.SortBySorted(loaded, ByOrder);
    Sequences.SortBy(loaded, ByOrder)
  }

  /** Every loaded migration is the migration of one of the files, with the order its name gives. */
  lemma LoadedFromFiles(files: seq<(string, string)>, k: nat)
    requires forall i :: 0 <= i < |files| ==> NumericPrefix(files[i].0)
    requires k < |files|
    ensures NumericPrefix(Loaded(files)[k].filename)
    ensures Loaded(files)[k].order == MigrationOrder(Loaded(files)[k].filename)
    ensures exists i :: 0 <= i < |files| && Loaded(files)[k] == MigrationOf(files[i])
    ensures MigrationOf(files[k]) in Loaded(files)
  {
    var loaded := seq(|files|, i requires 0 <= i < |files| => MigrationOf(files[i]));
    assert Loaded(files)[k] in multiset(loaded);
    assert loaded[k] in multiset(Loaded(files));
  }

  /** loadMigrations: the loop pushes one migration per file, then the list is sorted by order. */
  method LoadMigrations(files: seq<(string, string)>) returns (migrations: seq<Migration>)
    requires forall i :: 0 <= i < |files| ==> NumericPrefix(files[i].0)
    ensures migrations == Loaded(files)
  {
    var loaded: seq<Migration> := [];
    for i := 0 to |files|
      invariant |loaded| == i
      invariant forall k :: 0 <= k < i ==> loaded[k] == MigrationOf(files[k])
    {
      var (filename, content) := files[i];
      var order := MigrationOrder(filename);
      loaded := loaded + [Migration(filename, order, content)];
    }
    assert loaded == seq(|files|, i requires 0 <= i < |files| => MigrationOf(files[i]));
    migrations := Sequences.SortBy(loaded, ByOrder);
  }

  // ---------------------------------------------------------------------------------------------
  // Pending migrations

  function Names(ms: seq<Migration>): (r: seq<string>)
    ensures |r| == |ms| && forall k :: 0 <= k < |ms| ==> r[k] == ms[k].filename
  {
    seq(|ms|, k requires 0 <= k < |ms| => ms[k].filename)
  }

  /** `migrations.filter((m) => !migrated.includes(m.filename))`. */
  function Pending(migrations: seq<Migration>, migrated: seq<string>): (r: seq<Migration>)
  {
    Sequences.Filter(migrations, (m: Migration) => m.filename !in migrated)
  }

  /** A migration is pending exactly when it was loaded and its file is not recorded. */
  lemma PendingMembers(migrations: seq<Migration>, migrated: seq<string>)
    ensures forall m :: m in Pending(migrations, migrated) <==> m in migrations && m.filename !in migrated
  {
  }

  /** Every copy of a migration not yet applied stays pending. */
  lemma PendingKeepsCopies(migrations: seq<Migration>, migrated: seq<string>, m: Migration)
    requires m.filename !in migrated
    ensures multiset(Pending(migrations, migrated))[m] == multiset(migrations)[m]
  {
  }

  /** The pending migrations keep the order of the loaded ones. */
  lemma PendingKeepsOrder(migrations: seq<Migration>, migrated: seq<string>)
    requires forall i, j :: 0 <= i < j < |migrations| ==> migrations[i].order <= migrations[j].order
    ensures forall i, j :: 0 <= i < j < |Pending(migrations, migrated)| ==>
              Pending(migrations, migrated)[i].order <= Pending(migrations, migrated)[j].order
  {
    assert Sequences.SortedBy(migrations, ByOrder);
    Sequences.FilterKeepsOrder(migrations, (m: Migration) => m.filename !in migrated, ByOrder);
  }

  // ---------------------------------------------------------------------------------------------
  // Recording

  /** recordMigration's INSERT … ON CONFLICT (filename) DO NOTHING on the filenames in id order. */
  function Record(applied: seq<string>, filename: string): (r: seq<string>)
    ensures filename in r
    ensures filename in applied ==> r == applied
  {
    if filename in applied then applied else applied + [filename]
  }

  /** The table after recording each of `names` in turn. */
  function RecordAll(applied: seq<string>, names: seq<string>): (r: seq<string>)
    decreases |names|
  {
    if names == [] then applied else RecordAll(Record(applied, names[0]), names[1..])
  }

  lemma {:induction false} RecordAllAppend(applied: seq<string>, names: seq<string>, filename: string)
    ensures RecordAll(applied, names + [filename]) == Record(RecordAll(applied, names), filename)
    decreases |names|
  {
    if names == [] {
      assert [filename][1..] == [];
    } else {
      assert (names + [filename])[1..] == names[1..] + [filename];
      RecordAllAppend(Record(applied, names[0]), names[1..], filename);
    }
  }

  /** Recording keeps what was recorded and adds every name. */
  lemma {:induction false} RecordAllMembers(applied: seq<string>, names: seq<string>)
    ensures forall f :: f in RecordAll(applied, names) <==> f in applied || f in names
    decreases |names|
  {
    if names != [] {
      RecordAllMembers(Record(applied, names[0]), names[1..]);
      assert names == [names[0]] + names[1..];
    }
  }

  /** Names not yet recorded and distinct from each other are appended in order. */
  lemma {:induction false} RecordAllFresh(applied: seq<string>, names: seq<string>)
    requires forall k :: 0 <= k < |names| ==> names[k] !in applied && names[k] !in names[..k]
    ensures RecordAll(applied, names) == applied + names
    decreases |names|
  {
    if names != [] {
      var rest := names[1..];
      forall k | 0 <= k < |rest|
        ensures rest[k] !in Record(applied, names[0]) && rest[k] !in rest[..k]
      {
        assert names[k + 1] !in names[..k + 1];
        assert names[..k + 1] == [names[0]] + rest[..k];
      }
      RecordAllFresh(Record(applied, names[0]), rest);
      assert applied + [names[0]] + rest == applied + names;
    }
  }

  /** Recording keeps what was recorded and adds every name; names not yet recorded and distinct
      from each other are appended in order. */
  lemma RecordAllContents(applied: seq<string>, names: seq<string>)
    ensures forall f :: f in RecordAll(applied, names) <==> f in applied || f in names
    ensures (forall k :: 0 <= k < |names| ==> names[k] !in applied && names[k] !in names[..k])
            ==> RecordAll(applied, names) == applied + names
  {
    RecordAllMembers(applied, names);
    if forall k :: 0 <= k < |names| ==> names[k] !in applied && names[k] !in names[..k] {
      RecordAllFresh(applied, names);
    }
  }

  /** The schema_migrations table: the recorded filenames in id order. */
  class SchemaMigrations {
    var applied: seq<string>

    constructor (applied: seq<string>)
      ensures this.applied == applied
    {
      this.applied := applied;
    }

    method RecordMigration(filename: string)
      modifies this
      ensures applied == Record(old(applied), filename)
    {
      if filename !in applied {
        applied := applied + [filename];
      }
    }
  }

  // ---------------------------------------------------------------------------------------------
  // The runner

  /** The index of the first migration whose SQL fails, if any. */
  function FirstFailure(ms: seq<Migration>, succeeds: Migration -> bool): (r: Option<nat>)
    ensures r.None? <==> forall k :: 0 <= k < |ms| ==> succeeds(ms[k])
    ensures r.Some? ==> r.value < |ms| && !succeeds(ms[r.value]) && forall k :: 0 <= k < r.value ==> succeeds(ms[k])
  {
    if ms == [] then None
    else if !succeeds(ms[0]) then Some(0)
    else match FirstFailure(ms[1..], succeeds)
      case None => None
      case Some(k) => Some(k + 1)
  }

  /** A failing migration with only successes before it is the first failure. */
  lemma FirstFailureAt(ms: seq<Migration>, succeeds: Migration -> bool, i: nat)
    requires i < |ms| && !succeeds(ms[i]) && forall k :: 0 <= k < i ==> succeeds(ms[k])
    ensures FirstFailure(ms, succeeds) == Some(i)
  {
    var r := FirstFailure(ms, succeeds);
    assert r.Some? by {
      assert !succeeds(ms[i]);
    }
    assert !(r.value < i) && !(r.value > i);
  }

  /** The summary printed after a complete run. */
  datatype Summary = Summary(total: nat, previouslyApplied: nat, newlyApplied: nat)

  /** How main ends: nothing to do, every pending migration applied, or `process.exit(1)` after a
      failure (of the connection check, of the table creation, or of a migration's SQL). */
  datatype RunOutcome = UpToDate | Completed(summary: Summary) | Exited

  /** The loop of main: run each pending migration in order and record it, stopping at the first
      whose SQL fails (that one ran but is not recorded). */
  method ApplyPending(table: SchemaMigrations, pending: seq<Migration>, succeeds: Migration -> bool)
    returns (ok: bool, ran: seq<string>)
    modifies table
    ensures ok <==> FirstFailure(pending, succeeds).None?
    ensures ok ==> ran == Names(pending) && table.applied == RecordAll(old(table.applied), Names(pending))
    ensures !ok ==>
              var k := FirstFailure(pending, succeeds).value;
              && ran == Names(pending[..k + 1])
              && table.applied == RecordAll(old(table.applied), Names(pending[..k]))
  {
    ghost var migrated := table.applied;
    ran := [];
    var i := 0;
    while i < |pending|
      invariant 0 <= i <= |pending|
      invariant forall k :: 0 <= k < i ==> succeeds(pending[k])
      invariant ran == Names(pending[..i])
      invariant table.applied == RecordAll(migrated, Names(pending[..i]))
    {
      ran := ran + [pending[i].filename];
      assert Names(pending[..i + 1]) == Names(pending[..i]) + [pending[i].filename];
      if !succeeds(pending[i]) {
        FirstFailureAt(pending, succeeds, i);
        return false, ran;
      }
      RecordAllAppend(migrated, Names(pending[..i]), pending[i].filename);
      table.RecordMigration(pending[i].filename);
      i := i + 1;
    }
    assert pending[..i] == pending;
    ok := true;
  }

  /** What a run of main leaves behind once connected and with schema_migrations in place. */
  datatype RunResult = RunResult(outcome: RunOutcome, ran: seq<string>, applied: seq<string>)

  /** The run main performs over `files` against the recorded filenames `applied`: nothing when no
      migration is pending; otherwise the pending migrations in order, recording each, until the
      first failing one, which ran but is not recorded and makes the process exit. */
  function Run(files: seq<(string, string)>, applied: seq<string>, succeeds: Migration -> bool): RunResult
    requires forall i :: 0 <= i < |files| ==> NumericPrefix(files[i].0)
  {
    var pending := Pending(Loaded(files), applied);
    if pending == [] then RunResult(UpToDate, [], applied)
    else match FirstFailure(pending, succeeds)
      case Some(k) => RunResult(Exited, Names(pending[..k + 1]), RecordAll(applied, Names(pending[..k])))
      case None =>
        RunResult(Completed(Summary(|files|, |applied|, |pending|)), Names(pending), RecordAll(applied, Names(pending)))
  }

  /** Every migration file is recorded once the pending ones have been. */
  lemma AllRecorded(files: seq<(string, string)>, migrated: seq<string>)
    requires forall i :: 0 <= i < |files| ==> NumericPrefix(files[i].0)
    ensures forall f :: f in migrated ==> f in RecordAll(migrated, Names(Pending(Loaded(files), migrated)))
    ensures forall i :: 0 <= i < |files| ==> files[i].0 in RecordAll(migrated, Names(Pending(Loaded(files), migrated)))
  {
    var pending := Pending(Loaded(files), migrated);
    PendingMembers(Loaded(files), migrated);
    RecordAllContents(migrated, Names(pending));
    forall k | 0 <= k < |files| ensures files[k].0 in RecordAll(migrated, Names(pending)) {
      var m := MigrationOf(files[k]);
      LoadedFromFiles(files, k);
      if m.filename !in migrated {
        assert m in pending;
        var j :| 0 <= j < |pending| && pending[j] == m;
        assert Names(pending)[j] == m.filename;
      }
    }
  }

  /** No migration is pending exactly when every migration file is already recorded. */
  lemma NothingPending(files: seq<(string, string)>, applied: seq<string>)
    requires forall i :: 0 <= i < |files| ==> NumericPrefix(files[i].0)
    ensures Pending(Loaded(files), applied) == [] <==> forall i :: 0 <= i < |files| ==> files[i].0 in applied
  {
    var pending := Pending(Loaded(files), applied);
    if pending == [] {
      forall i | 0 <= i < |files| ensures files[i].0 in applied {
        FileRecordedOrPending(files, applied, i);
      }
    } else {
      PendingComesFromFile(files, applied, pending[0]);
    }
  }

  /** A migration file is either recorded already or pending. */
  lemma FileRecordedOrPending(files: seq<(string, string)>, applied: seq<string>, i: nat)
    requires forall i :: 0 <= i < |files| ==> NumericPrefix(files[i].0)
    requires i < |files|
    ensures files[i].0 in applied || MigrationOf(files[i]) in Pending(Loaded(files), applied)
  {
    LoadedFromFiles(files, i);
    PendingMembers(Loaded(files), applied);
  }

  /** A pending migration comes from a file that is not recorded. */
  lemma PendingComesFromFile(files: seq<(string, string)>, applied: seq<string>, m: Migration)
    requires forall i :: 0 <= i < |files| ==> NumericPrefix(files[i].0)
    requires m in Pending(Loaded(files), applied)
    ensures exists i :: 0 <= i < |files| && files[i].0 !in applied
  {
    var ms := Loaded(files);
    PendingMembers(ms, applied);
    assert m in ms && m.filename !in applied;
    var k :| 0 <= k < |ms| && ms[k] == m;
    LoadedFromFiles(files, k);
    var i :| 0 <= i < |files| && m == MigrationOf(files[i]);
    assert files[i].0 !in applied;
  }

  /** Nothing runs exactly when every migration file is already recorded. */
  lemma RunUpToDate(files: seq<(string, string)>, applied: seq<string>, succeeds: Migration -> bool)
    requires forall i :: 0 <= i < |files| ==> NumericPrefix(files[i].0)
    ensures Run(files, applied, succeeds).outcome == UpToDate <==> forall i :: 0 <= i < |files| ==> files[i].0 in applied
    ensures Run(files, applied, succeeds).outcome == UpToDate ==>
              Run(files, applied, succeeds).ran == [] && Run(files, applied, succeeds).applied == applied
  {
    NothingPending(files, applied);
  }

  /** A complete run records every migration file, keeps what was recorded before, and its summary
      counts the files, the migrations recorded before, and the migrations it ran. */
  lemma RunCompleted(files: seq<(string, string)>, applied: seq<string>, succeeds: Migration -> bool)
    requires forall i :: 0 <= i < |files| ==> NumericPrefix(files[i].0)
    requires Run(files, applied, succeeds).outcome.Completed?
    ensures forall i :: 0 <= i < |files| ==> files[i].0 in Run(files, applied, succeeds).applied
    ensures forall f :: f in applied ==> f in Run(files, applied, succeeds).applied
    ensures Run(files, applied, succeeds).outcome.summary
            == Summary(|files|, |applied|, |Run(files, applied, succeeds).ran|)
  {
    AllRecorded(files, applied);
  }

  /** A run that exits ran the pending migrations up to and including the failing one, and every
      one of them but the last succeeded and was recorded. */
  lemma RunStopsAtFailure(files: seq<(string, string)>, applied: seq<string>, succeeds: Migration -> bool)
    requires forall i :: 0 <= i < |files| ==> NumericPrefix(files[i].0)
    requires Run(files, applied, succeeds).outcome == Exited
    ensures var pending := Pending(Loaded(files), applied);
            var r := Run(files, applied, succeeds);
            && 0 < |r.ran| <= |pending|
            && r.ran == Names(pending[..|r.ran|])
            && !succeeds(pending[|r.ran| - 1])
            && (forall k :: 0 <= k < |r.ran| - 1 ==> succeeds(pending[k]))
            && r.applied == RecordAll(applied, r.ran[..|r.ran| - 1])
  {
    var pending := Pending(Loaded(files), applied);
    var k := FirstFailure(pending, succeeds).value;
    assert Names(pending[..k + 1])[..k] == Names(pending[..k]);
  }

  /** main. `connected` and `tableReady` say whether the connection check and the creation of
      schema_migrations succeed; `succeeds` whether a migration's SQL runs without error. `ran`
      lists the migrations whose SQL was executed, in order. */
  method RunMigrations(
    table: SchemaMigrations, files: seq<(string, string)>, succeeds: Migration -> bool,
    connected: bool, tableReady: bool)
    returns (outcome: RunOutcome, ran: seq<string>)
    requires forall i :: 0 <= i < |files| ==> NumericPrefix(files[i].0)
    modifies table
    ensures !connected || !tableReady ==> outcome == Exited && ran == [] && table.applied == old(table.applied)
    ensures connected && tableReady ==>
              RunResult(outcome, ran, table.applied) == Run(files, old(table.applied), succeeds)
  {
    if !connected || !tableReady {
      return Exited, [];
    }
    var migrations := LoadMigrations(files);
    var migrated := table.applied;
    var pending := Pending(migrations, migrated);
    ghost var expected := Run(files, migrated, succeeds);
    if pending == [] {
      assert expected == RunResult(UpToDate, [], migrated);
      return UpToDate, [];
    }
    var ok;
    ok, ran := ApplyPending(table, pending, succeeds);
    if !ok {
      ghost var k := FirstFailure(pending, succeeds).value;
      assert expected == RunResult(Exited, Names(pending[..k + 1]), RecordAll(migrated, Names(pending[..k])));
      return Exited, ran;
    }
    assert expected == RunResult(Completed(Summary(|files|, |migrated|, |pending|)), Names(pending), RecordAll(migrated, Names(pending)));
    outcome := Completed(Summary(|migrations|, |migrated|, |pending|));
  }
}
