/**
  Why the version check alone keeps every update: clients read a row at any time and
  write it back later, if its version is still the one they read.
 */
module OptimisticLock {

  datatype Row<T> = Row(value: T, version: nat)

  /** log remembers the updates that went through, in the order of their writes. */
  datatype Table<!T> = Table(row: Row<T>, snapshots: map<nat, Row<T>>, log: seq<T -> T>)

  datatype Step<!T> =
    | Read(client: nat)
    | Write(client: nat, update: T -> T)

  function Next<T>(t: Table<T>, s: Step<T>): Table<T> {
    match s
    case Read(c) => t.(snapshots := t.snapshots[c := t.row])
    case Write(c, f) =>
      if c !in t.snapshots || t.snapshots[c].version != t.row.version then t
      else t.(row := Row(f(t.snapshots[c].value), t.row.version + 1), log := t.log + [f])
  }

  function Run<T>(t: Table<T>, steps: seq<Step<T>>): Table<T> {
    if steps == [] then t else Next(Run(t, steps[..|steps| - 1]), steps[|steps| - 1])
  }

  function Serially<T>(value: T, log: seq<T -> T>): T {
    if log == [] then value else log[|log| - 1](Serially(value, log[..|log| - 1]))
  }

  /** A snapshot with the row's version is the row. */
  ghost predicate SnapshotsTrue<T>(t: Table<T>) {
    forall c | c in t.snapshots ::
      t.snapshots[c].version <= t.row.version && (t.snapshots[c].version == t.row.version ==> t.snapshots[c] == t.row)
  }

  /**
    Any interleaving of reads and conditional writes leaves what the successful updates
    make of the first value one after the other, in the order they were written: none is
    lost, none is applied to a stale value, and the version counts them.
   */
  lemma {:induction false} InterleavingIsSerial<T>(row: Row<T>, steps: seq<Step<T>>)
    ensures var t := Run(Table(row, map[], []), steps);
      && SnapshotsTrue(t)
      && t.row.value == Serially(row.value, t.log)
      && t.row.version == row.version + |t.log|
  {
    if steps != [] {
      var front := steps[..|steps| - 1];
      InterleavingIsSerial(row, front);
      var t := Run(Table(row, map[], []), front);
      var t' := Next(t, steps[|steps| - 1]);
      if t'.log != t.log {
        assert t'.log[..|t'.log| - 1] == t.log;
      }
    }
  }

  /** An update is refused only if another one went through since its read. */
  lemma RefusedMeansOvertaken<T>(row: Row<T>, steps: seq<Step<T>>, c: nat, f: T -> T)
    requires var t := Run(Table(row, map[], []), steps); c in t.snapshots && Next(t, Write(c, f)) == t
    ensures var t := Run(Table(row, map[], []), steps); t.snapshots[c].version < t.row.version
  {
    InterleavingIsSerial(row, steps);
  }
}

/**
  The same race on auction rows: clients read the row, run a command on the aggregate it
  holds and write the changed columns back, guarded by the version they read.
 */
module RowRaces {
  import opened Base
  import AuctionDomain
  import opened AuctionRuns
  import opened Rows

  /** log remembers the commands whose writes went through, in order. */
  datatype Race = Race(row: PgAuction, snapshots: map<nat, PgAuction>, log: seq<Command>)

  datatype Move =
    | Read(client: nat)
    | Write(client: nat, command: Command)

  /** What the client would write over a row of the version it read; None if it has nothing to write. */
  function Attempt(snapshot: PgAuction, row: PgAuction, c: Command): Option<PgAuction> {
    match ToDomainAuction(snapshot)
    case Err(_) => None
    case Ok(a) =>
      match Perform(a, c)
      case Err(_) => None
      case Ok(change) => UpdateColumns(row, ToPgAuction(change.next), snapshot.version)
  }

  function Next(r: Race, m: Move): Race {
    match m
    case Read(client) => r.(snapshots := r.snapshots[client := r.row])
    case Write(client, c) =>
      if client !in r.snapshots then r
      else
        match Attempt(r.snapshots[client], r.row, c)
        case None => r
        case Some(row) => r.(row := row, log := r.log + [c])
  }

  function Run(r: Race, moves: seq<Move>): Race {
    if moves == [] then r else Next(Run(r, moves[..|moves| - 1]), moves[|moves| - 1])
  }

  /** A snapshot with the row's version is the row. */
  ghost predicate SnapshotsTrue(r: Race) {
    forall k | k in r.snapshots ::
      r.snapshots[k].version <= r.row.version && (r.snapshots[k].version == r.row.version ==> r.snapshots[k] == r.row)
  }

  lemma WriteIsStoreStep(a: AuctionDomain.AuctionState, snapshot: PgAuction, c: Command)
    requires Valid(a) && WholeSeconds(a.antiSnipe) && WellTyped(c)
    requires snapshot.version == a.version ==> snapshot == ToPgAuction(a)
    ensures var row := Attempt(snapshot, ToPgAuction(a), c); row.Some? ==>
      row.value == ToPgAuction(StoreStep(a, c)) && row.value.version == a.version + 1
  {
    AuctionRoundTrip(a);
    if snapshot.version == a.version && Perform(a, c).Ok? { PartialUpdateIsWhole(a, c); }
  }

  /**
    Any interleaving of reads and writes on an auction's row leaves the row of what the map
    store makes of the commands whose writes went through, one after the other.
   */
  lemma {:induction false} RacesRefineMap(a: AuctionDomain.AuctionState, moves: seq<Move>)
    requires Valid(a) && WholeSeconds(a.antiSnipe) && forall m | m in moves && m.Write? :: WellTyped(m.command)
    ensures var r := Run(Race(ToPgAuction(a), map[], []), moves);
      && SnapshotsTrue(r) && (forall c | c in r.log :: WellTyped(c))
      && r.row == ToPgAuction(StoreRun(a, r.log))
      && r.row.version == a.version + |r.log|
  {
    if moves != [] {
      var front, m := moves[..|moves| - 1], moves[|moves| - 1];
      RacesRefineMap(a, front);
      MoveRefinesMap(a, Run(Race(ToPgAuction(a), map[], []), front), m);
    }
  }

  lemma MoveRefinesMap(a: AuctionDomain.AuctionState, r: Race, m: Move)
    requires Valid(a) && WholeSeconds(a.antiSnipe) && (m.Write? ==> WellTyped(m.command))
    requires SnapshotsTrue(r) && (forall c | c in r.log :: WellTyped(c))
    requires r.row == ToPgAuction(StoreRun(a, r.log))
    ensures var r' := Next(r, m);
      && SnapshotsTrue(r') && (forall c | c in r'.log :: WellTyped(c))
      && r'.row == ToPgAuction(StoreRun(a, r'.log))
      && r'.row.version == r.row.version + |r'.log| - |r.log|
  {
    if m.Write? && m.client in r.snapshots {
      RowsRefineMapOverRuns(a, r.log);
      WriteIsStoreStep(StoreRun(a, r.log), r.snapshots[m.client], m.command);
      assert (r.log + [m.command])[..|r.log|] == r.log;
    }
  }

  /** A write that the aggregate accepts is refused only if another one went through since its read. */
  lemma RefusedMeansOvertaken(
    a: AuctionDomain.AuctionState, moves: seq<Move>, client: nat, read: AuctionDomain.AuctionState, c: Command)
    requires Valid(a) && WholeSeconds(a.antiSnipe) && forall m | m in moves && m.Write? :: WellTyped(m.command)
    requires var r := Run(Race(ToPgAuction(a), map[], []), moves);
      && client in r.snapshots && ToDomainAuction(r.snapshots[client]) == Ok(read) && Perform(read, c).Ok?
      && Next(r, Write(client, c)) == r
    ensures var r := Run(Race(ToPgAuction(a), map[], []), moves); r.snapshots[client].version < r.row.version
  {
    RacesRefineMap(a, moves);
  }
}
