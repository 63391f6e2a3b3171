/**
 * The inductive invariant of the protocol. It couples the tables to the recorded history and to the worker's volatile
 * snapshots; each part is preserved by every kind of table change.
 */
module ProtocolInvariant {
  import opened Json
  import opened Tokens
  import opened QueueTables
  import opened Protocol

  // ---------------------------------------------------------------- the tables on their own

  ghost predicate RowOk(t: Tables, e: Event) {
    && e.deliveryId in t.deliveries
    && t.deliveries[e.deliveryId].outcome == AcceptedDelivery
    && t.deliveries[e.deliveryId].issue == Some(e.issue)
    && e.issue in t.cycles
    && e.cycleId == t.cycles[e.issue].cycleId
    && (e.IsActive() ==> t.cycles[e.issue].status == ActiveCycle)
  }

  /** Rows map one-to-one into accepted deliveries, carry their issue's cycle, and an issue has at most one active row,
      none once its cycle is terminal. Cycle ids are uuids, one per issue. */
  ghost predicate TablesInv(t: Tables) {
    && IdsMatch(t.events)
    && (forall i :: 0 <= i < |t.events| ==> RowOk(t, t.events[i]))
    && (forall i, j :: 0 <= i < j < |t.events| ==> t.events[i].deliveryId != t.events[j].deliveryId)
    && (forall i, j :: 0 <= i < j < |t.events| && t.events[i].issue == t.events[j].issue ==> !(t.events[i].IsActive() && t.events[j].IsActive()))
    && CyclesInv(t)
  }

  ghost predicate CyclesInv(t: Tables) {
    && (forall x :: x in t.cycles ==> IsUuid(t.cycles[x].cycleId))
    && (forall x, y :: x in t.cycles && y in t.cycles && t.cycles[x].cycleId == t.cycles[y].cycleId ==> x == y)
  }

  // ---------------------------------------------------------------- finalized reviews

  /** How many of the finalizations of an issue asked for a revision. */
  ghost function Revisions(fs: seq<Final>, issue: string): nat {
    if fs == [] then 0
    else Revisions(fs[..|fs| - 1], issue) + if fs[|fs| - 1].issue == issue && fs[|fs| - 1].outcome == RevisionRequired then 1 else 0
  }

  ghost function FinalCount(fs: seq<Final>, issue: string): nat {
    if fs == [] then 0 else FinalCount(fs[..|fs| - 1], issue) + if fs[|fs| - 1].issue == issue then 1 else 0
  }

  ghost predicate IsReviewOf(e: Event, issue: string) {
    e.jobType == Review && e.issue == issue
  }

  ghost function ReviewRows(events: seq<Event>, issue: string): nat {
    if events == [] then 0
    else ReviewRows(events[..|events| - 1], issue) + if IsReviewOf(events[|events| - 1], issue) then 1 else 0
  }

  ghost predicate HasActiveReview(events: seq<Event>, issue: string) {
    exists i :: 0 <= i < |events| && IsReviewOf(events[i], issue) && events[i].IsActive()
  }

  function StatusAfter(o: ReviewOutcome): CycleStatus {
    match o
    case Pass => DoneCycle
    case NeedsHuman => NeedsHumanCycle
    case RevisionRequired => ActiveCycle
  }

  /** A finalization belongs to a delivered review row, and its revision count is that of the moment it was taken. */
  ghost predicate FinalOk(t: Tables, fs: seq<Final>, i: nat)
    requires i < |fs|
  {
    var f := fs[i];
    && f.id < |t.events|
    && t.events[f.id].status == Delivered
    && IsReviewOf(t.events[f.id], f.issue)
    && f.issue in t.cycles
    && f.cycleId == t.cycles[f.issue].cycleId
    && f.rev == Revisions(fs[..i], f.issue)
    && (f.outcome != RevisionRequired ==> t.cycles[f.issue].status == StatusAfter(f.outcome) && IsLast(fs, i))
  }

  /** No later finalization concerns the same issue. */
  ghost predicate IsLast(fs: seq<Final>, i: nat)
    requires i < |fs|
  {
    forall j :: i < j < |fs| ==> fs[j].issue != fs[i].issue
  }

  ghost predicate HasFinal(fs: seq<Final>, id: nat) {
    exists i :: 0 <= i < |fs| && fs[i].id == id
  }

  /** The trusted revision count is the number of revision rounds finalized, within its bound; every review row is
      accounted for by a finalization or by being the active one. */
  ghost predicate CountsOk(c: Config, t: Tables, fs: seq<Final>, issue: string) {
    && Revisions(fs, issue) == TrustedRevision(t, issue) <= c.maxRevisionCycles
    && FinalCount(fs, issue) == Revisions(fs, issue) + (if IsTerminal(t, issue) then 1 else 0)
    && ReviewRows(t.events, issue) == FinalCount(fs, issue) + (if HasActiveReview(t.events, issue) then 1 else 0)
  }

  ghost predicate FinalsInv(c: Config, t: Tables, fs: seq<Final>) {
    && (forall i, j :: 0 <= i < j < |fs| ==> fs[i].id != fs[j].id)
    && (forall i :: 0 <= i < |fs| ==> FinalOk(t, fs, i))
    && (forall id :: 0 <= id < |t.events| && t.events[id].status == Delivered && t.events[id].jobType == Review ==> HasFinal(fs, id))
    && (forall issue :: CountsOk(c, t, fs, issue))
  }

  // ---------------------------------------------------------------- started review turns

  /** A started decision is the one its row would take now, or the one it was finalized with. */
  ghost predicate StartOk(t: Tables, fs: seq<Final>, st: Start) {
    && st.id < |t.events|
    && IsReviewOf(t.events[st.id], st.issue)
    && st.cycleId == t.events[st.id].cycleId
    && (t.events[st.id].IsActive() ==> st.rev == TrustedRevision(t, st.issue))
    && (forall i :: 0 <= i < |fs| && fs[i].id == st.id ==> fs[i].rev == st.rev)
  }

  function StartOf(f: Final): Start {
    Start(f.id, f.issue, f.cycleId, f.rev)
  }

  ghost predicate StartsInv(t: Tables, h: History) {
    && (forall st :: st in h.starts ==> StartOk(t, h.finals, st))
    && (forall i :: 0 <= i < |h.finals| ==> StartOf(h.finals[i]) in h.starts)
  }

  // ---------------------------------------------------------------- volatile snapshots

  /** A snapshot still equals its durable row, and the row is pending. */
  ghost predicate Current(t: Tables, row: Event) {
    row.id < |t.events| && t.events[row.id] == row && row.status == Pending
  }

  ghost predicate QueueOk(t: Tables, q: seq<Event>) {
    && Increasing(q)
    && forall i :: 0 <= i < |q| ==> Current(t, q[i])
  }

  /** A listed issue is taken care of: it has an active row or its cycle is over. */
  ghost predicate Settled(t: Tables, issue: string) {
    HasActiveEvent(t, issue) || IsTerminal(t, issue)
  }

  ghost predicate LaneOk(c: Config, t: Tables, starts: set<Start>, lane: Lane) {
    match lane
    case Idle => true
    case Discovering(_) => true
    case Executing(row) => Current(t, row) && row.jobType == Execute
    case FinishingExecution(row) => Current(t, row) && row.jobType == Execute
    case Reviewing(row, rev) => DecisionOk(t, starts, row, rev)
    case FinishingReview(row, rev, outcome) =>
      && DecisionOk(t, starts, row, rev)
      && outcome.Some?
      && (outcome == Some(RevisionRequired) ==> rev < c.maxRevisionCycles)
    case Failing(row, _) => Current(t, row)
    case WritingFailure(row, _, seen) => Current(t, row) && seen == row.attemptCount
    case Upserting(_, done, _) => forall i :: 0 <= i < |done| ==> Settled(t, done[i].issue)
  }

  /** The decision of a running review turn is the one the durable tables would give now. */
  ghost predicate DecisionOk(t: Tables, starts: set<Start>, row: Event, rev: nat) {
    && Current(t, row)
    && row.jobType == Review
    && row.issue in t.cycles
    && rev == t.cycles[row.issue].revisionCount
    && Start(row.id, row.issue, row.cycleId, rev) in starts
  }

  ghost predicate VolatileInv(c: Config, s: State) {
    && (s.poll.Some? ==> QueueOk(s.db, s.poll.value))
    && LaneOk(c, s.db, s.h.starts, s.lane)
    && (s.lane.HoldsRow() ==> s.poll.Some? && forall i :: 0 <= i < |s.poll.value| ==> s.lane.row.id < s.poll.value[i].id)
  }

  // ---------------------------------------------------------------- attempts and backoff

  ghost function BackoffSum(c: Config, n: nat): nat {
    if n == 0 then 0 else BackoffSum(c, n - 1) + Backoff(c, n - 1)
  }

  /** How many of a row's failures scheduled a retry. */
  function Retries(e: Event): nat {
    if e.status == NeedsReview && e.attemptCount > 0 then e.attemptCount - 1 else e.attemptCount
  }

  ghost predicate LedgerOk(c: Config, h: History, e: Event) {
    && e.attemptCount <= c.AttemptLimit()
    && (e.status != NeedsReview ==> e.attemptCount < c.AttemptLimit())
    && (e.status == NeedsReview ==> e.attemptCount > 0)
    && h.turns[e.id] <= h.resets[e.id] * c.AttemptLimit() + e.attemptCount + (if e.status == Delivered then 1 else 0)
    && Waited(h, e.id) == BackoffSum(c, Retries(e))
  }

  ghost predicate LedgerInv(c: Config, t: Tables, h: History) {
    && (forall i :: 0 <= i < |t.events| ==> LedgerOk(c, h, t.events[i]))
    && (forall id: nat :: id >= |t.events| ==> h.turns[id] == 0 && h.resets[id] == 0 && id !in h.waited)
  }

  ghost predicate Inv(c: Config, s: State) {
    && TablesInv(s.db)
    && FinalsInv(c, s.db, s.h.finals)
    && StartsInv(s.db, s.h)
    && VolatileInv(c, s)
    && LedgerInv(c, s.db, s.h)
  }
}
