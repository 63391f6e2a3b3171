/**
 * What shutdown does not prevent: a row whose task was enqueued before it read the chain may still be delivered while it
 * waits. This is exactly when.
 */
module ShutdownDelivery {
  import opened Tokens
  import opened ClaudeInvoker
  import opened AcceptedTurns
  import opened QueueTables
  import opened Protocol
  import opened ProtocolInvariant
  import opened ConcurrentWorker
  import opened LaneRefinement
  import opened LaneTheorems
  import EL = ExclusiveLane

  /** The task of a row has not been decided: it waits, its turn is under way, or its turn was accepted. A row without an
      identifier gets no further than its turn. */
  predicate MayDeliver(m: Machine, i: nat) {
    && i in m.tasks && m.tasks[i].RowTask?
    && i < |m.line.promises| && !m.line.promises[i].Settled()
    && if i in m.bodies then m.bodies[i].Active? && LaneMayDeliver(m.bodies[i].lane) else m.tasks[i].row.issue != ""
  }

  predicate LaneMayDeliver(lane: Lane) {
    lane.FinishingExecution? || lane.FinishingReview? || ((lane.Executing? || lane.Reviewing?) && lane.row.issue != "")
  }

  predicate IsDelivery(mv: Move, i: nat) {
    mv.Work? && mv.i == i && mv.l.Persist?
  }

  ghost predicate Delivers(mvs: seq<Move>, i: nat) {
    exists k :: 0 <= k < |mvs| && IsDelivery(mvs[k], i)
  }

  /** This move is what delivers the row of a task. */
  lemma DeliveryDelivers(c: Config, m: Machine, i: nat, now: int)
    requires MachineInv(m) && BodiesCurrent(m) && CanMove(m, Work(i, Persist(now)))
    ensures var id, u := m.tasks[i].row.id, Worked(c, m, i, Persist(now));
            && id < |m.db.events| && m.db.events[id] == m.tasks[i].row && m.db.events[id].status == Pending
            && id < |u.db.events| && u.db.events[id].status == Delivered
  {
    PersistDelivers(c, View(m, m.bodies[i].lane), now);
  }

  lemma PersistDelivers(c: Config, s: State, now: int)
    requires Enabled(s, Persist(now)) && Current(s.db, s.lane.row)
    ensures var u := Step(c, s, Persist(now)); |u.db.events| == |s.db.events| && u.db.events[s.lane.row.id].status == Delivered
  {
  }

  // ---------------------------------------------------------------- decided tasks stay decided

  lemma NamelessTurn(c: Config, lane: Lane, raw: RawResult)
    requires (lane.Executing? || lane.Reviewing?) && lane.row.issue == ""
    ensures !Judge(c, lane, raw).Accepted?
  {
    if lane.Executing? {
      NamelessExecution(raw, c.ExpectedExecution(lane.row.issue));
    } else {
      NamelessReview(raw, c.ExpectedReview(lane.row.issue), lane.rev, c.maxRevisionCycles, ReviewActionToken(lane.row.cycleId, lane.rev));
    }
  }

  lemma DecidedWork(c: Config, s: State, l: Label)
    requires IsWork(l) && Enabled(s, l) && s.lane.HoldsRow() && !LaneMayDeliver(s.lane)
    ensures !l.Persist? && !LaneMayDeliver(Step(c, s, l).lane)
  {
    if l.TurnReturns? {
      NamelessTurn(c, s.lane, l.raw);
    }
  }

  lemma DecidedMove(c: Config, m: Machine, mv: Move, i: nat)
    requires MachineInv(m) && CanMove(m, mv) && !mv.Restart?
    requires i in m.tasks && m.tasks[i].RowTask? && !MayDeliver(m, i)
    ensures !IsDelivery(mv, i) && !MayDeliver(Moved(c, m, mv), i)
  {
    match mv
    case Work(j, l) => DecidedBody(c, m, j, l, i);
    case React(j) => DecidedReact(m, j, i);
    case Settle(j) => DecidedSettle(m, j, i);
    case _ => DecidedElsewhere(c, m, mv, i);
  }

  lemma DecidedBody(c: Config, m: Machine, j: nat, l: Label, i: nat)
    requires MachineInv(m) && CanMove(m, Work(j, l)) && i in m.tasks && m.tasks[i].RowTask? && !MayDeliver(m, i)
    ensures !IsDelivery(Work(j, l), i) && !MayDeliver(Worked(c, m, j, l), i)
  {
    if j == i {
      assert BodyFits(m.tasks[i], m.bodies[i]);
      DecidedWork(c, View(m, m.bodies[i].lane), l);
    }
  }

  lemma DecidedReact(m: Machine, j: nat, i: nat)
    requires MachineInv(m) && MayReact(m, j) && i in m.tasks && m.tasks[i].RowTask? && !MayDeliver(m, i)
    ensures !MayDeliver(Reacted(m, j), i)
  {
  }

  lemma DecidedSettle(m: Machine, j: nat, i: nat)
    requires MachineInv(m) && MaySettle(m, j) && i in m.tasks && m.tasks[i].RowTask? && !MayDeliver(m, i)
    ensures !MayDeliver(SettledBody(m, j), i)
  {
  }

  lemma DecidedElsewhere(c: Config, m: Machine, mv: Move, i: nat)
    requires MachineInv(m) && CanMove(m, mv) && i in m.tasks && m.tasks[i].RowTask? && !MayDeliver(m, i)
    requires !mv.Restart? && !mv.Work? && !mv.React? && !mv.Settle?
    ensures !MayDeliver(Moved(c, m, mv), i)
  {
    var u := Moved(c, m, mv);
    assert i < |m.line.promises| && u.line.promises[i] == m.line.promises[i];
    assert |m.line.promises| !in m.tasks;
  }

  lemma {:induction false} DecidedStays(c: Config, m: Machine, after: seq<Move>, i: nat)
    requires WorkerInv(c, m) && Runnable(c, m, after) && Restart !in after
    requires i in m.tasks && m.tasks[i].RowTask? && !MayDeliver(m, i)
    ensures !Delivers(after, i)
    decreases |after|
  {
    if after != [] {
      assert after[0] in after;
      DecidedMove(c, m, after[0], i);
      MovePreserves(c, m, after[0]);
      MoveGrows(c, m, after[0]);
      DecidedStays(c, Moved(c, m, after[0]), after[1..], i);
      forall k | 0 <= k < |after| ensures !IsDelivery(after[k], i) {
        if k > 0 {
          assert after[k] == after[1..][k - 1];
        }
      }
    }
  }

  // ---------------------------------------------------------------- undecided ones can be delivered

  /** A turn that finishes the row. */
  function DecidingTurn(c: Config, lane: Lane): RawResult
    requires lane.Executing? || lane.Reviewing?
  {
    if lane.Executing? then FinishingTurn(c.ExpectedExecution(lane.row.issue))
    else ReviewingTurn(c.ExpectedReview(lane.row.issue), ReviewActionToken(lane.row.cycleId, lane.rev))
  }

  lemma DecidingTurnIsAccepted(c: Config, lane: Lane)
    requires (lane.Executing? || lane.Reviewing?) && lane.row.issue != ""
    ensures Judge(c, lane, DecidingTurn(c, lane)).Accepted?
  {
    if lane.Executing? {
      SomeExecutionIsAccepted(c.ExpectedExecution(lane.row.issue));
    } else {
      var token := ReviewActionToken(lane.row.cycleId, lane.rev);
      assert |token| >= 2;
      SomeReviewIsAccepted(c.ExpectedReview(lane.row.issue), lane.rev, c.maxRevisionCycles, token);
    }
  }

  lemma AcceptedWork(c: Config, s: State, raw: RawResult)
    requires (s.lane.Executing? || s.lane.Reviewing?) && Judge(c, s.lane, raw).Accepted?
    ensures Enabled(s, TurnReturns(raw))
    ensures var lane := Step(c, s, TurnReturns(raw)).lane; lane.FinishingExecution? || lane.FinishingReview?
  {
  }

  lemma FinishingWork(c: Config, s: State, now: int)
    requires s.lane.FinishingExecution? || s.lane.FinishingReview?
    ensures Enabled(s, Persist(now))
  {
  }

  lemma DeliverRunning(c: Config, m: Machine, i: nat) returns (after: seq<Move>)
    requires MachineInv(m) && MayDeliver(m, i) && i in m.bodies
    ensures Runnable(c, m, after) && Restart !in after && Delivers(after, i)
  {
    var lane := m.bodies[i].lane;
    if lane.Executing? || lane.Reviewing? {
      var mv := FinishTurn(c, m, i);
      var rest := DeliverFinishing(c, Moved(c, m, mv), i);
      after := Prepend(c, m, mv, rest, i);
    } else {
      after := DeliverFinishing(c, m, i);
    }
  }

  lemma FinishTurn(c: Config, m: Machine, i: nat) returns (mv: Move)
    requires i in m.bodies && m.bodies[i].Active? && (m.bodies[i].lane.Executing? || m.bodies[i].lane.Reviewing?)
    requires m.bodies[i].lane.row.issue != ""
    ensures CanMove(m, mv) && !mv.Restart?
    ensures var u := Moved(c, m, mv);
            i in u.bodies && u.bodies[i].Active? && (u.bodies[i].lane.FinishingExecution? || u.bodies[i].lane.FinishingReview?)
  {
    var lane := m.bodies[i].lane;
    var raw := DecidingTurn(c, lane);
    DecidingTurnIsAccepted(c, lane);
    AcceptedWork(c, View(m, lane), raw);
    mv := Work(i, TurnReturns(raw));
  }

  lemma DeliverFinishing(c: Config, m: Machine, i: nat) returns (after: seq<Move>)
    requires i in m.bodies && m.bodies[i].Active? && (m.bodies[i].lane.FinishingExecution? || m.bodies[i].lane.FinishingReview?)
    ensures Runnable(c, m, after) && Restart !in after && Delivers(after, i)
  {
    FinishingWork(c, View(m, m.bodies[i].lane), 0);
    var mv := Work(i, Persist(0));
    MovesCompose(c, Moved(c, m, mv), [], m, mv);
    after := [mv] + [];
    assert IsDelivery(after[0], i);
  }

  lemma Prepend(c: Config, m: Machine, mv: Move, rest: seq<Move>, i: nat) returns (after: seq<Move>)
    requires CanMove(m, mv) && !mv.Restart? && Runnable(c, Moved(c, m, mv), rest) && Restart !in rest && Delivers(rest, i)
    ensures Runnable(c, m, after) && Restart !in after && Delivers(after, i)
  {
    MovesCompose(c, Moved(c, m, mv), rest, m, mv);
    after := [mv] + rest;
    var k :| 0 <= k < |rest| && IsDelivery(rest[k], i);
    assert after[k + 1] == rest[k];
  }

  /** The next move towards a waiting task: what runs before it is made to end. */
  lemma ClearTheWay(c: Config, m: Machine, i: nat) returns (mv: Move)
    requires MachineInv(m) && MayDeliver(m, i) && i !in m.bodies
    ensures CanMove(m, mv) && (mv.Work? || mv.Settle? || mv.React?)
    ensures MayDeliver(Moved(c, m, mv), i)
    ensures var u := Moved(c, m, mv);
            if mv.Work? then u.line.promises == m.line.promises && IsBusy(m.bodies) && !IsBusy(u.bodies)
            else EL.Remaining(u.line.promises) < EL.Remaining(m.line.promises)
  {
    var j := EL.FirstUnsettled(m.line, i);
    assert j > 0 && EL.LinkedAt(m.line, j);
    if j !in m.bodies {
      mv := React(j);
      EL.ProgressFalls(m.line, EL.React(j));
      ReactKeepsOpen(m, j, i);
    } else if m.bodies[j].Active? {
      mv := Work(j, LaneFails);
      StopBody(c, m, j);
    } else {
      mv := Settle(j);
      SettleKeeps(m, j);
      EL.ProgressFalls(m.line, EL.Settle(j, m.bodies[j].Returned?));
    }
  }

  lemma ReactKeepsOpen(m: Machine, j: nat, i: nat)
    requires MachineInv(m) && MayReact(m, j) && MayDeliver(m, i) && i !in m.bodies
    ensures MayDeliver(Reacted(m, j), i) && Reacted(m, j).line == EL.Next(m.line, EL.React(j))
  {
  }

  lemma StopBody(c: Config, m: Machine, j: nat)
    requires MachineInv(m) && j in m.bodies && m.bodies[j].Active?
    ensures CanMove(m, Work(j, LaneFails))
    ensures var u := Moved(c, m, Work(j, LaneFails));
            u.line == m.line && u.tasks == m.tasks && u.bodies == m.bodies[j := Threw] && IsBusy(m.bodies) && !IsBusy(u.bodies)
  {
    LaneOfBody(m, j);
    WorkShape(c, View(m, m.bodies[j].lane), LaneFails);
  }

  lemma {:induction false} DeliverWaiting(c: Config, m: Machine, i: nat) returns (after: seq<Move>)
    requires WorkerInv(c, m) && MayDeliver(m, i)
    ensures Runnable(c, m, after) && Restart !in after && Delivers(after, i)
    decreases EL.Remaining(m.line.promises), if IsBusy(m.bodies) then 1 else 0
  {
    if i in m.bodies {
      after := DeliverRunning(c, m, i);
    } else {
      var mv := ClearTheWay(c, m, i);
      MovePreserves(c, m, mv);
      var rest := DeliverWaiting(c, Moved(c, m, mv), i);
      after := Prepend(c, m, mv, rest, i);
    }
  }

  /** Shutdown reads the chain at some moment of a run. The row of a task enqueued before may still be delivered while it
      waits exactly when, at that moment, the task is undecided. */
  lemma DeliveredAfterShutdown(c: Config, before: seq<Move>, i: nat)
    requires Runnable(c, BOOT, before)
    requires var m := After(c, BOOT, before); i in m.tasks && m.tasks[i].RowTask?
    ensures var m := After(c, BOOT, before);
            (exists after :: Runnable(c, m, after) && Restart !in after && Delivers(after, i)) <==> MayDeliver(m, i)
  {
    var m := After(c, BOOT, before);
    BootInv(c);
    var labels := RunFollows(c, BOOT, before);
    if MayDeliver(m, i) {
      var after := DeliverWaiting(c, m, i);
    } else {
      forall after | Runnable(c, m, after) && Restart !in after ensures !Delivers(after, i) {
        DecidedStays(c, m, after, i);
      }
    }
  }
}
