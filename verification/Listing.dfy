/**
 * What a reconciliation pass does, read off the JSON the turn printed: which rows it queues, with which fields, and that
 * no entry is left behind.
 */
module Listing {
  import opened Json
  import CS = CompletionSchema
  import opened ClaudeInvoker
  import opened QueueTables
  import opened StoreFields
  import opened Protocol
  import opened ProtocolInvariant
  import opened TurnContracts

  /** The state a leg asks about. */
  function LegState(c: Config, job: JobType): string {
    match job
    case Review => "In Review"
    case Execute => c.targetState
  }

  /** What one entry of `eligibleIssues` is taken to say, in the worker's own scope. */
  ghost predicate ReadsEntry(c: Config, job: JobType, e: Json, l: Listed) {
    && Member(Def(e), "issueIdentifier") == Def(Str(l.issue))
    && Member(Def(e), "issueId") == Def(Str(l.issueId))
    && (match l.url case Some(u) => Member(Def(e), "url") == Def(Str(u)) case None => Member(Def(e), "url") == Def(Null))
    && l.teamId == c.teamId && l.projectId == c.projectId && l.targetState == LegState(c, job) && l.jobType == job
  }

  lemma EntryReads(c: Config, job: JobType, e: Json)
    requires CS.EntryOk(e)
    ensures ReadsEntry(c, job, e, ListedIssue(c, job, e))
  {
    assert CS.ISSUE_CHECKS[0] == CS.IssueIdentifier && CS.ISSUE_CHECKS[1] == CS.IssueId && CS.ISSUE_CHECKS[2] == CS.Url;
    assert CS.FieldOk(e, CS.IssueIdentifier, []) && CS.FieldOk(e, CS.IssueId, []) && CS.FieldOk(e, CS.Url, []);
  }

  lemma ValidEntries(s: Json)
    requires CS.ReconciliationContract(s)
    ensures forall e :: e in CS.Items(CS.Read(s, CS.EligibleIssues)) ==> CS.EntryOk(e)
  {
    CS.ReconciliationChecks(s);
    EntriesAreListed();
    CheckedEntries(s, CS.RECONCILIATION_CHECKS, CS.RECONCILIATION_KEYS);
  }

  lemma EntriesAreListed()
    ensures CS.EligibleIssues in CS.RECONCILIATION_CHECKS
  {
    assert CS.RECONCILIATION_CHECKS[4] == CS.EligibleIssues;
  }

  lemma CheckedEntries(s: Json, checks: seq<CS.Field>, keys: seq<string>)
    requires CS.RecordOk(s, checks, keys, []) && CS.EligibleIssues in checks
    ensures forall e :: e in CS.Items(CS.Read(s, CS.EligibleIssues)) ==> CS.EntryOk(e)
  {
    assert CS.Checked(s, CS.EligibleIssues, []);
  }

  /** The pass goes through the entries in order, and reads each as it says. */
  lemma ListingReads(c: Config, job: JobType, r: RawResult, s: Json)
    requires ListingIs(r, s)
    ensures var listed := ListedIssues(c, job, s);
            |listed| == |Entries(r)| && forall i :: 0 <= i < |listed| ==> ReadsEntry(c, job, Entries(r)[i], listed[i])
  {
    var listed := ListedIssues(c, job, s);
    EntriesAre(r, s);
    ValidEntries(s);
    forall i | 0 <= i < |listed| ensures ReadsEntry(c, job, Entries(r)[i], listed[i]) {
      assert Entries(r)[i] in Entries(r);
      EntryReads(c, job, Entries(r)[i]);
    }
  }

  // ---------------------------------------------------------------- the rows of a pass

  /** The row an entry is queued as. */
  ghost predicate RowFromEntry(c: Config, job: JobType, e: Json, row: Event) {
    && Member(Def(e), "issueIdentifier") == Def(Str(row.issue)) && row.payload.issueIdentifier == Str(row.issue)
    && Member(Def(e), "issueId") == Def(row.payload.issueId)
    && (match row.payload.url case Some(u) => Member(Def(e), "url") == Def(Str(u)) case None => Member(Def(e), "url") == Def(Null))
    && row.payload.teamId == c.teamId && row.payload.projectId == c.projectId && row.payload.targetState == LegState(c, job)
    && row.payload.event == (match job case Review => "issue_entered_review" case Execute => "issue_entered_todo")
    && row.jobType == job && row.payload.jobType == Some(job)
    && row.status == Pending && row.attemptCount == 0 && row.nextAttemptAt == 0
  }

  /** The issue an entry names is taken care of. */
  ghost predicate EntrySettled(u: Tables, e: Json) {
    forall text :: Member(Def(e), "issueIdentifier") == Def(Str(text)) ==> IsTaken(u, text) || IsOver(u, text)
  }

  /** Old rows and cycles are as they were. */
  ghost predicate OldStay(t: Tables, u: Tables) {
    && |t.events| <= |u.events|
    && (forall i :: 0 <= i < |t.events| ==> u.events[i] == t.events[i])
    && (forall x :: x in t.cycles ==> x in u.cycles && u.cycles[x] == t.cycles[x])
  }

  /** What a pass over these entries does: old rows and cycles stay, every new row comes from an entry, and every entry's
      issue is taken care of. */
  ghost predicate PassFields(c: Config, job: JobType, entries: seq<Json>, t: Tables, u: Tables) {
    && OldStay(t, u)
    && (forall i :: |t.events| <= i < |u.events| ==> FromSomeEntry(c, job, entries, u.events[i]))
    && (forall e :: e in entries ==> EntrySettled(u, e))
  }

  ghost predicate FromSomeEntry(c: Config, job: JobType, entries: seq<Json>, row: Event) {
    exists e :: e in entries && RowFromEntry(c, job, e, row)
  }

  lemma EmptyPass(c: Config, job: JobType, t: Tables)
    ensures PassFields(c, job, [], t, t)
  {
  }

  /** Recording leaves what is taken care of so, and takes care of the issue it records. */
  lemma RecordedStaysTaken(t: Tables, u: Tables, req: Request, uuid: string, answer: Recorded)
    requires RecordsAs(t, u, req, uuid, answer) && req.job.Some? && !answer.Duplicate?
    ensures forall x :: IsTaken(t, x) || IsOver(t, x) || x == req.job.value.issue ==> IsTaken(u, x) || IsOver(u, x)
  {
    forall x, st | HasRow(t, x, st) ensures HasRow(u, x, st) {
      var i :| 0 <= i < |t.events| && t.events[i].issue == x && t.events[i].status == st;
      assert u.events[i] == t.events[i];
    }
    if answer.Queued? {
      assert u.events[answer.eventId].status == Pending;
      assert HasRow(u, req.job.value.issue, Pending);
    }
  }

  /** Recording keeps old rows and cycles, and adds at most the row it queues. */
  ghost predicate RowAdded(t: Tables, u: Tables, req: Request)
    requires req.job.Some?
  {
    && OldStay(t, u) && |u.events| <= |t.events| + 1
    && (|u.events| > |t.events| ==> exists cycleId :: IsNewRow(u.events[|t.events|], |t.events|, req, cycleId))
  }

  lemma RecordedAdds(t: Tables, u: Tables, req: Request, uuid: string, answer: Recorded)
    requires RecordsAs(t, u, req, uuid, answer) && req.job.Some?
    ensures RowAdded(t, u, req)
  {
  }

  lemma PassFieldsStep(c: Config, job: JobType, entries: seq<Json>, i: nat, l: Listed, t: Tables, u: Tables, w: Tables, req: Request, now: int, id: string, uuid: string, answer: Recorded)
    requires i < |entries| && PassFields(c, job, entries[..i], t, u) && ReadsEntry(c, job, entries[i], l)
    requires IsReconcileRequest(l, now, id, req) && RecordsAs(u, w, req, uuid, answer) && !answer.Duplicate?
    ensures PassFields(c, job, entries[..i + 1], t, w)
  {
    var front, e := entries[..i], entries[i];
    assert entries[..i + 1] == front + [e];
    EntriesStaySettled(c, job, front, e, l, t, u, w, req, now, id, uuid, answer);
    RecordedAdds(u, w, req, uuid, answer);
    RowsFromEntries(c, job, front, e, l, t, u, w, req, now, id);
    OldStayOn(t, u, w);
  }

  lemma OldStayOn(t: Tables, u: Tables, w: Tables)
    requires OldStay(t, u) && OldStay(u, w)
    ensures OldStay(t, w)
  {
  }

  lemma RowsFromEntries(c: Config, job: JobType, front: seq<Json>, e: Json, l: Listed, t: Tables, u: Tables, w: Tables, req: Request, now: int, id: string)
    requires |t.events| <= |u.events| && forall k :: |t.events| <= k < |u.events| ==> FromSomeEntry(c, job, front, u.events[k])
    requires ReadsEntry(c, job, e, l) && IsReconcileRequest(l, now, id, req) && RowAdded(u, w, req)
    ensures forall k :: |t.events| <= k < |w.events| ==> FromSomeEntry(c, job, front + [e], w.events[k])
  {
    forall k | |t.events| <= k < |w.events| ensures FromSomeEntry(c, job, front + [e], w.events[k]) {
      if k < |u.events| {
        assert FromSomeEntry(c, job, front, u.events[k]) && w.events[k] == u.events[k];
        FromMoreEntries(c, job, front, e, w.events[k]);
      } else {
        var cycleId :| IsNewRow(w.events[k], k, req, cycleId);
        NewRowFromEntry(c, job, e, l, req, now, id, w.events[k], k, cycleId);
        assert e in front + [e];
      }
    }
  }

  lemma FromMoreEntries(c: Config, job: JobType, front: seq<Json>, e: Json, row: Event)
    requires FromSomeEntry(c, job, front, row)
    ensures FromSomeEntry(c, job, front + [e], row)
  {
    var d :| d in front && RowFromEntry(c, job, d, row);
    assert d in front + [e];
  }

  lemma EntriesStaySettled(c: Config, job: JobType, front: seq<Json>, e: Json, l: Listed, t: Tables, u: Tables, w: Tables, req: Request, now: int, id: string, uuid: string, answer: Recorded)
    requires PassFields(c, job, front, t, u) && ReadsEntry(c, job, e, l)
    requires IsReconcileRequest(l, now, id, req) && RecordsAs(u, w, req, uuid, answer) && !answer.Duplicate?
    ensures forall d :: d in front + [e] ==> EntrySettled(w, d)
  {
    RecordedStaysTaken(u, w, req, uuid, answer);
    forall d | d in front + [e] ensures EntrySettled(w, d) {
      if d in front {
        assert EntrySettled(u, d);
      }
    }
  }

  lemma NewRowFromEntry(c: Config, job: JobType, e: Json, l: Listed, req: Request, now: int, id: string, row: Event, k: nat, cycleId: string)
    requires ReadsEntry(c, job, e, l) && IsReconcileRequest(l, now, id, req) && IsNewRow(row, k, req, cycleId)
    ensures RowFromEntry(c, job, e, row)
  {
  }

  /** Once all that was read is taken care of, so is every entry. */
  lemma AllSettled(t: Tables, all: seq<Listed>, entries: seq<Json>, c: Config, job: JobType)
    requires |all| == |entries| && (forall l :: l in all ==> Settled(t, l.issue))
    requires forall i :: 0 <= i < |all| ==> ReadsEntry(c, job, entries[i], all[i])
    ensures forall e :: e in entries ==> EntrySettled(t, e)
  {
    forall e | e in entries ensures EntrySettled(t, e) {
      var i :| 0 <= i < |entries| && entries[i] == e;
      assert all[i] in all && ReadsEntry(c, job, entries[i], all[i]);
      TakenFields(t, all[i].issue);
      OverFields(t, all[i].issue);
    }
  }
}
