/**
 * The movement server actions (lib/actions/movements.ts). The movements table is an
 * in-memory store keyed by id whose invariant, unique fingerprints, stands for the
 * database's unique constraint on `movement_fingerprint`; inserting a second row with
 * a stored fingerprint is the constraint violation (code 23505) the action reports as
 * a duplicate. The read-side actions are pure functions of the rows a query returns.
 */
module Movements {
  import opened Wrappers
  import opened Text
  import opened Seqs
  import opened Fingerprint

  datatype MovementStatus = Draft | Pending | Approved | Rejected
  {
    /** The status as the backend stores it. */
    function Name(): (s: string)
      ensures s != ""
    {
      match this
      case Draft => "draft"
      case Pending => "pending"
      case Approved => "approved"
      case Rejected => "rejected"
    }
  }

  lemma NameInjective(a: MovementStatus, b: MovementStatus)
    requires a.Name() == b.Name()
    ensures a == b
  {
  }

  /** The values a caller submits for insertion, without the fingerprint. Times are instants. */
  datatype NewMovement = NewMovement(
    soldierId: string,
    startTime: int,
    endTime: int,
    fromLocation: string,
    toLocation: string,
    movementType: string,
    transportMode: string,
    taAmount: int,
    notes: Option<string>,
    status: MovementStatus)

  /** A stored movement row. The id is generated by the store; createdAt is the insertion instant. */
  datatype Movement = Movement(
    id: nat,
    soldierId: string,
    startTime: int,
    endTime: int,
    fromLocation: string,
    toLocation: string,
    movementType: string,
    transportMode: string,
    taAmount: int,
    notes: Option<string>,
    status: MovementStatus,
    fingerprint: string,
    createdAt: int)

  /** The row an insertion of `values` with `fingerprint` stores under `id` at instant `now`. */
  function InsertedRow(id: nat, values: NewMovement, fingerprint: string, now: int): (m: Movement)
    ensures m.id == id && m.fingerprint == fingerprint && m.createdAt == now
    ensures m.soldierId == values.soldierId && m.startTime == values.startTime && m.endTime == values.endTime
    ensures m.fromLocation == values.fromLocation && m.toLocation == values.toLocation
    ensures m.movementType == values.movementType && m.transportMode == values.transportMode
    ensures m.taAmount == values.taAmount && m.notes == values.notes && m.status == values.status
  {
    Movement(id, values.soldierId, values.startTime, values.endTime, values.fromLocation,
             values.toLocation, values.movementType, values.transportMode, values.taAmount,
             values.notes, values.status, fingerprint, now)
  }

  /** `notes || null`: empty notes are stored as null. */
  function NotesOrNull(notes: Option<string>): (r: Option<string>)
    ensures r.Some? <==> notes.Some? && notes.value != ""
    ensures r.Some? ==> r == notes
  {
    if Truthy(notes) then notes else None
  }

  /** The row after a status update: status and notes replaced, every other column kept. */
  function ApplyStatus(m: Movement, status: MovementStatus, notes: Option<string>): (r: Movement)
    ensures r.status == status && r.notes == NotesOrNull(notes)
    ensures r.(status := m.status, notes := m.notes) == m
  {
    m.(status := status, notes := NotesOrNull(notes))
  }

  const DuplicateMessage: string := "Duplicate movement detected."

  /** The result object of `createMovementAction`. */
  datatype CreateResult =
    | Created(data: Movement)
    | Duplicate(message: string, existingId: Option<nat>)
    | Failed(message: string)

  /** The result object of `updateMovementStatus`: no row with that id is a failure too. */
  datatype UpdateResult =
    | Updated(data: Movement)
    | NoSuchMovement
    | UpdateFailed(message: string)

  /** No two rows share a fingerprint. */
  ghost predicate UniqueFingerprints(rows: map<nat, Movement>) {
    forall i, j :: i in rows && j in rows && rows[i].fingerprint == rows[j].fingerprint ==> i == j
  }

  /** The movements table. */
  class MovementStore {
    var rows: map<nat, Movement>
    var nextId: nat

    /** Rows are stored under their own id, ids below the next fresh one, fingerprints unique. */
    ghost predicate Valid()
      reads this
    {
      (forall id :: id in rows ==> rows[id].id == id && id < nextId)
      && UniqueFingerprints(rows)
    }

    constructor()
      ensures Valid()
      ensures rows == map[] && nextId == 0
    {
      rows := map[];
      nextId := 0;
    }

    /** `.eq("movement_fingerprint", fp).single()`: the row carrying fp, if any. */
    function Lookup(fp: string): (r: Option<Movement>)
      reads this
      requires Valid()
      ensures r.Some? ==> r.value.id in rows && rows[r.value.id] == r.value && r.value.fingerprint == fp
      ensures r.None? <==> forall id :: id in rows ==> rows[id].fingerprint != fp
    {
      if exists id :: id in rows && rows[id].fingerprint == fp then
        var id :| id in rows && rows[id].fingerprint == fp;
        Some(rows[id])
      else
        None
    }

    /**
     * `checkMovementDuplicate`: the stored movement with the fingerprint of the given
     * inputs, or nothing when there is none or the query fails. The start time is the
     * ISO text of the `Date` argument.
     */
    method CheckMovementDuplicate(soldierId: string, startTime: string, from: string, to: string, fault: Option<string>)
      returns (existing: Option<Movement>)
      requires Valid()
      ensures fault.Some? ==> existing.None?
      ensures fault.None? && existing.Some? ==>
        existing.value.id in rows && rows[existing.value.id] == existing.value
        && existing.value.fingerprint == GenerateMovementFingerprint(soldierId, startTime, from, to)
      ensures fault.None? && existing.None? ==>
        forall id :: id in rows ==> rows[id].fingerprint != GenerateMovementFingerprint(soldierId, startTime, from, to)
    {
      if fault.Some? {
        return None;
      }
      var fingerprint := GenerateMovementFingerprint(soldierId, startTime, from, to);
      existing := Lookup(fingerprint);
    }

    /**
     * `createMovementAction`: inserts the values with the fingerprint. A fingerprint
     * already stored violates the unique constraint; the action then re-fetches the
     * holder of that fingerprint (`refetchFails` says that second query fails) and
     * reports it as a duplicate. Any other backend error (`fault`) is reported with
     * its message. Only a successful insert changes the table.
     */
    method Create(values: NewMovement, fingerprint: string, now: int, fault: Option<string>, refetchFails: bool)
      returns (r: CreateResult)
      requires Valid()
      modifies this
      ensures Valid()
      ensures r.Created? <==> fault.None? && old(Lookup(fingerprint)).None?
      ensures r.Created? ==>
        r.data == InsertedRow(old(nextId), values, fingerprint, now)
        && r.data.id !in old(rows)
        && rows == old(rows)[r.data.id := r.data] && nextId == old(nextId) + 1
      ensures r.Duplicate? <==> fault.None? && old(Lookup(fingerprint)).Some?
      ensures r.Duplicate? ==>
        r.message == DuplicateMessage
        && r.existingId == if refetchFails then None else Some(old(Lookup(fingerprint)).value.id)
      ensures r.Failed? ==> fault.Some? && r.message == fault.value
      ensures !r.Created? ==> rows == old(rows) && nextId == old(nextId)
    {
      if fault.Some? {
        return Failed(fault.value);
      }
      var holder := Lookup(fingerprint);
      if holder.Some? {
        var existingId := if refetchFails then None else Some(holder.value.id);
        return Duplicate(DuplicateMessage, existingId);
      }
      var m := InsertedRow(nextId, values, fingerprint, now);
      rows := rows[nextId := m];
      nextId := nextId + 1;
      r := Created(m);
    }

    /**
     * `updateMovementStatus`: sets the status and the notes (empty notes become null)
     * of the row with that id and returns it; nothing else changes.
     */
    method UpdateMovementStatus(id: nat, status: MovementStatus, notes: Option<string>, fault: Option<string>)
      returns (r: UpdateResult)
      requires Valid()
      modifies this
      ensures Valid()
      ensures nextId == old(nextId)
      ensures r.UpdateFailed? <==> fault.Some?
      ensures r.UpdateFailed? ==> r.message == fault.value
      ensures r.NoSuchMovement? <==> fault.None? && id !in old(rows)
      ensures r.Updated? ==>
        id in old(rows) && r.data == ApplyStatus(old(rows)[id], status, notes) && rows == old(rows)[id := r.data]
      ensures !r.Updated? ==> rows == old(rows)
    {
      if fault.Some? {
        return UpdateFailed(fault.value);
      }
      if id !in rows {
        return NoSuchMovement;
      }
      var m := ApplyStatus(rows[id], status, notes);
      rows := rows[id := m];
      r := Updated(m);
    }
  }

  /**
   * Two submissions with the same fingerprint in sequence: the first is stored, the
   * second is reported as a duplicate of the first and leaves the table as it was.
   */
  method CreateTwiceSameFingerprint(a: NewMovement, b: NewMovement, fingerprint: string, t1: int, t2: int)
    returns (first: CreateResult, second: CreateResult)
    ensures first.Created? && first.data.fingerprint == fingerprint
    ensures second == Duplicate(DuplicateMessage, Some(first.data.id))
  {
    var store := new MovementStore();
    first := store.Create(a, fingerprint, t1, None, false);
    assert store.rows[first.data.id].fingerprint == fingerprint;
    second := store.Create(b, fingerprint, t2, None, false);
  }

  // ---------------------------------------------------------------------------
  // fetchMovements

  /**
   * `MovementFilter`. A filter the caller leaves out, or gives as an empty string,
   * does not restrict. The date bounds are instants compared with start_time.
   */
  datatype MovementFilter = MovementFilter(
    soldierId: Option<string>,
    status: Option<MovementStatus>,
    movementType: Option<string>,
    startDate: Option<int>,
    endDate: Option<int>)

  const NoFilter := MovementFilter(None, None, None, None, None)

  /** The conjunction of the supplied filters; the date bounds are inclusive. */
  predicate MatchesFilter(f: MovementFilter, m: Movement) {
    (Truthy(f.soldierId) ==> m.soldierId == f.soldierId.value)
    && (f.status.Some? ==> m.status == f.status.value)
    && (Truthy(f.movementType) ==> m.movementType == f.movementType.value)
    && (f.startDate.Some? ==> f.startDate.value <= m.startTime)
    && (f.endDate.Some? ==> m.startTime <= f.endDate.value)
  }

  function Matching(f: MovementFilter): Movement -> bool {
    (m: Movement) => MatchesFilter(f, m)
  }

  /** `created_at` descending. */
  ghost predicate NewestFirst(ms: seq<Movement>) {
    forall i, j :: 0 <= i < j < |ms| ==> ms[i].createdAt >= ms[j].createdAt
  }

  function NegCreatedAt(m: Movement): int {
    -m.createdAt
  }

  /**
   * `fetchMovements(filters)` over the rows of the table: exactly the rows satisfying
   * every supplied filter, each as often as it occurs, newest first; nothing when the
   * query fails.
   */
  function FetchMovements(table: Result<seq<Movement>, string>, f: MovementFilter): (r: seq<Movement>)
    ensures table.Failure? ==> r == []
    ensures table.Success? ==>
      multiset(r) == multiset(Filter(table.value, Matching(f)))
    ensures forall m :: m in r <==> table.Success? && m in table.value && MatchesFilter(f, m)
    ensures NewestFirst(r)
  {
    if table.Failure? then []
    else
      var kept := Filter(table.value, Matching(f));
      var r := SortBy(kept, NegCreatedAt);
      assert forall m :: m in r <==> m in multiset(r);
      assert forall m :: m in kept <==> m in multiset(kept);
      r
  }

  /** Each matching row comes back exactly as often as it is stored, and no other row at all. */
  lemma FetchCounts(rows: seq<Movement>, f: MovementFilter, m: Movement)
    ensures multiset(FetchMovements(Success(rows), f))[m] == if MatchesFilter(f, m) then multiset(rows)[m] else 0
  {
    FilterCount(rows, Matching(f), m);
  }

  /** Leaving out every filter returns the whole table, reordered. */
  lemma FetchWithoutFilters(rows: seq<Movement>)
    ensures multiset(FetchMovements(Success(rows), NoFilter)) == multiset(rows)
  {
    FilterAll(rows, Matching(NoFilter));
  }

  /** An empty filter string restricts no more than an absent one, each field on its own. */
  lemma EmptyFilterStringsIgnored(rows: seq<Movement>, f: MovementFilter)
    ensures f.soldierId == Some("") ==>
      FetchMovements(Success(rows), f) == FetchMovements(Success(rows), f.(soldierId := None))
    ensures f.movementType == Some("") ==>
      FetchMovements(Success(rows), f) == FetchMovements(Success(rows), f.(movementType := None))
  {
    if f.soldierId == Some("") {
      FilterAgree(rows, Matching(f), Matching(f.(soldierId := None)));
    }
    if f.movementType == Some("") {
      FilterAgree(rows, Matching(f), Matching(f.(movementType := None)));
    }
  }

  /** The query returns as many rows as pass the filter. */
  lemma FetchLength(rows: seq<Movement>, f: MovementFilter)
    ensures |FetchMovements(Success(rows), f)| == |Filter(rows, Matching(f))|
  {
    var r := FetchMovements(Success(rows), f);
    assert |r| == |multiset(r)|;
  }

  /** Adding a filter never adds a row: a status filter narrows the soldier's movements. */
  lemma StatusFilterNarrows(rows: seq<Movement>, f: MovementFilter, s: MovementStatus)
    requires f.status.None?
    ensures |FetchMovements(Success(rows), f.(status := Some(s)))| <= |FetchMovements(Success(rows), f)|
  {
    FilterNarrows(rows, Matching(f.(status := Some(s))), Matching(f));
    FetchLength(rows, f.(status := Some(s)));
    FetchLength(rows, f);
  }

  // ---------------------------------------------------------------------------
  // fetchMovementAudit

  /** A row of the movement audit trail. */
  datatype AuditEntry = AuditEntry(id: nat, movementId: nat, action: string, createdAt: int)

  function OfMovement(movementId: nat): AuditEntry -> bool {
    (e: AuditEntry) => e.movementId == movementId
  }

  function EntryCreatedAt(e: AuditEntry): int {
    e.createdAt
  }

  /**
   * `fetchMovementAudit(movementId)`: the entries of that movement, each as often as
   * it occurs, oldest first; nothing when the query fails.
   */
  function FetchMovementAudit(table: Result<seq<AuditEntry>, string>, movementId: nat): (r: seq<AuditEntry>)
    ensures table.Failure? ==> r == []
    ensures table.Success? ==>
      multiset(r) == multiset(Filter(table.value, OfMovement(movementId)))
    ensures forall e :: e in r <==> table.Success? && e in table.value && e.movementId == movementId
    ensures SortedBy(r, EntryCreatedAt)
  {
    if table.Failure? then []
    else
      var kept := Filter(table.value, OfMovement(movementId));
      var r := SortBy(kept, EntryCreatedAt);
      assert forall e :: e in r <==> e in multiset(r);
      assert forall e :: e in kept <==> e in multiset(kept);
      r
  }

  /** The last entry of a movement's trail is one of its newest. */
  lemma LatestEntryLast(table: seq<AuditEntry>, movementId: nat, e: AuditEntry)
    requires e in table && e.movementId == movementId
    ensures var r := FetchMovementAudit(Success(table), movementId);
      r != [] && e.createdAt <= r[|r| - 1].createdAt
  {
    var r := FetchMovementAudit(Success(table), movementId);
    SortedLastIsGreatest(r, EntryCreatedAt, e);
  }

  // ---------------------------------------------------------------------------
  // fetchDashboardStats

  /** The columns the statistics query selects. */
  datatype StatRow = StatRow(status: MovementStatus, taAmount: int, startTime: int)

  datatype DashboardStats = DashboardStats(
    activeCount: nat,
    pendingCount: nat,
    totalSpend: int,
    todayCount: nat,
    monthSpend: int,
    locationCount: nat)

  function HasStatus(s: MovementStatus): StatRow -> bool {
    (r: StatRow) => r.status == s
  }

  function StartsFrom(t: int): StatRow -> bool {
    (r: StatRow) => r.startTime >= t
  }

  function StartsBefore(t: int): StatRow -> bool {
    (r: StatRow) => r.startTime < t
  }

  function Not(p: StatRow -> bool): StatRow -> bool {
    r => !p(r)
  }

  /**
   * `rows.reduce((acc, m) => acc + (m.ta_amount || 0), 0)`. The amount is a number, and
   * `|| 0` on a number changes only a zero, into zero, so each row adds its amount.
   */
  function TotalAmount(rows: seq<StatRow>): int {
    if rows == [] then 0 else rows[0].taAmount + TotalAmount(rows[1..])
  }

  lemma {:induction false} TotalAmountAppend(a: seq<StatRow>, b: seq<StatRow>)
    ensures TotalAmount(a + b) == TotalAmount(a) + TotalAmount(b)
  {
    if a != [] {
      assert (a + b)[0] == a[0];
      assert (a + b)[1..] == a[1..] + b;
      TotalAmountAppend(a[1..], b);
    } else {
      assert a + b == b;
    }
  }

  /** Splitting the rows by any condition splits the total. */
  lemma {:induction false} TotalAmountPartition(rows: seq<StatRow>, p: StatRow -> bool)
    ensures TotalAmount(Filter(rows, p)) + TotalAmount(Filter(rows, Not(p))) == TotalAmount(rows)
  {
    if rows != [] {
      TotalAmountPartition(rows[1..], p);
      var q := Not(p);
      var head := if p(rows[0]) then [rows[0]] else [];
      var headNot := if q(rows[0]) then [rows[0]] else [];
      TotalAmountAppend(head, Filter(rows[1..], p));
      TotalAmountAppend(headNot, Filter(rows[1..], q));
    }
  }

  /** With no negative amount the total of any selection is at most the grand total. */
  lemma {:induction false} TotalAmountSelection(rows: seq<StatRow>, p: StatRow -> bool)
    requires forall r :: r in rows ==> r.taAmount >= 0
    ensures TotalAmount(Filter(rows, p)) <= TotalAmount(rows)
  {
    TotalAmountPartition(rows, p);
    TotalAmountNonNegative(Filter(rows, Not(p)));
  }

  lemma {:induction false} TotalAmountNonNegative(rows: seq<StatRow>)
    requires forall r :: r in rows ==> r.taAmount >= 0
    ensures TotalAmount(rows) >= 0
  {
    if rows != [] {
      assert rows[0] in rows;
      TotalAmountNonNegative(rows[1..]);
    }
  }

  /** The number of rows with status s, counted directly. */
  function CountStatus(rows: seq<StatRow>, s: MovementStatus): nat {
    if rows == [] then 0 else (if rows[0].status == s then 1 else 0) + CountStatus(rows[1..], s)
  }

  const LocationCount: nat := 12

  const SetupModeStats := DashboardStats(0, 0, 0, 0, 0, 0)

  /**
   * `fetchDashboardStats`: counts of approved and pending movements, the total spend,
   * the movements starting today, the spend on movements starting this month, and a
   * fixed location count; all zeros when the query fails.
   */
  function FetchDashboardStats(table: Result<seq<StatRow>, string>, startOfToday: int, startOfMonth: int)
    : (s: DashboardStats)
    ensures table.Failure? ==> s == SetupModeStats
    ensures table.Success? ==>
      s.locationCount == LocationCount
      && s.activeCount == CountStatus(table.value, Approved)
      && s.pendingCount == CountStatus(table.value, Pending)
      && s.totalSpend == TotalAmount(table.value)
      && s.todayCount == |Filter(table.value, StartsFrom(startOfToday))|
      && s.monthSpend == TotalAmount(Filter(table.value, StartsFrom(startOfMonth)))
  {
    if table.Failure? then SetupModeStats
    else
      var rows := table.value;
      FilterCountsStatus(rows, Approved);
      FilterCountsStatus(rows, Pending);
      DashboardStats(
        |Filter(rows, HasStatus(Approved))|,
        |Filter(rows, HasStatus(Pending))|,
        TotalAmount(rows),
        |Filter(rows, StartsFrom(startOfToday))|,
        TotalAmount(Filter(rows, StartsFrom(startOfMonth))),
        LocationCount)
  }

  lemma {:induction false} FilterCountsStatus(rows: seq<StatRow>, s: MovementStatus)
    ensures |Filter(rows, HasStatus(s))| == CountStatus(rows, s)
  {
    if rows != [] {
      FilterCountsStatus(rows[1..], s);
    }
  }

  /** With no negative amount, this month's spend never exceeds the total spend. */
  lemma MonthSpendAtMostTotal(rows: seq<StatRow>, startOfToday: int, startOfMonth: int)
    requires forall r :: r in rows ==> r.taAmount >= 0
    ensures var s := FetchDashboardStats(Success(rows), startOfToday, startOfMonth);
      0 <= s.monthSpend <= s.totalSpend
  {
    TotalAmountSelection(rows, StartsFrom(startOfMonth));
    TotalAmountNonNegative(Filter(rows, StartsFrom(startOfMonth)));
  }

  /** The total spend is this month's spend plus the spend on earlier movements. */
  lemma TotalSpendSplitsAtMonth(rows: seq<StatRow>, startOfToday: int, startOfMonth: int)
    ensures var s := FetchDashboardStats(Success(rows), startOfToday, startOfMonth);
      s.totalSpend == s.monthSpend + TotalAmount(Filter(rows, StartsBefore(startOfMonth)))
  {
    TotalAmountPartition(rows, StartsFrom(startOfMonth));
    FilterAgree(rows, Not(StartsFrom(startOfMonth)), StartsBefore(startOfMonth));
  }

  /** Approved and pending movements are disjoint, so together they are at most all rows. */
  lemma ActivePlusPendingAtMostRows(rows: seq<StatRow>, startOfToday: int, startOfMonth: int)
    ensures var s := FetchDashboardStats(Success(rows), startOfToday, startOfMonth);
      s.activeCount + s.pendingCount <= |rows|
  {
    FilterDisjoint(rows, HasStatus(Approved), HasStatus(Pending));
  }

  /** Movements starting today also start this month when the day lies in the month. */
  lemma TodayWithinMonth(rows: seq<StatRow>, startOfToday: int, startOfMonth: int)
    requires startOfMonth <= startOfToday
    ensures var s := FetchDashboardStats(Success(rows), startOfToday, startOfMonth);
      s.todayCount <= |Filter(rows, StartsFrom(startOfMonth))|
  {
    FilterNarrows(rows, StartsFrom(startOfToday), StartsFrom(startOfMonth));
  }
}
