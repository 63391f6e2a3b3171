/**
 * What the promise chain gives the worker: one turn at a time, the protocol's guarantees for the worker as it runs, and a
 * shutdown that waits for every write of the tasks before it.
 */
module LaneTheorems {
  import opened Protocol
  import opened ProtocolTheorems
  import opened ConcurrentWorker
  import opened LaneRefinement
  import EL = ExclusiveLane

  /** In every state the concurrent worker reaches: a body has started and not settled exactly when its promise is
      running, at most one has, and the protocol's lane is busy exactly while that one still works. */
  lemma OneTurnAtATime(c: Config, mvs: seq<Move>)
    requires Runnable(c, BOOT, mvs)
    ensures var m := After(c, BOOT, mvs);
            && (forall i: nat :: i in m.bodies <==> i < |m.line.promises| && m.line.promises[i].progress == EL.Running)
            && (forall i, j :: i in m.bodies && j in m.bodies ==> i == j)
            && (!Abs(m).lane.Idle? <==> exists i :: i in m.bodies && m.bodies[i].Active?)
            && (forall i :: i in m.bodies && m.bodies[i].Active? ==> Abs(m).lane == m.bodies[i].lane)
  {
    BootInv(c);
    var labels := RunFollows(c, BOOT, mvs);
    BodyIsLane(c, After(c, BOOT, mvs));
  }

  lemma BodyIsLane(c: Config, m: Machine)
    requires WorkerInv(c, m)
    ensures forall i, j :: i in m.bodies && j in m.bodies ==> i == j
    ensures !Abs(m).lane.Idle? <==> exists i :: i in m.bodies && m.bodies[i].Active?
    ensures forall i :: i in m.bodies && m.bodies[i].Active? ==> Abs(m).lane == m.bodies[i].lane
  {
    forall i, j | i in m.bodies && j in m.bodies ensures i == j {
      OneBody(m, i, j);
    }
    forall i | i in m.bodies && m.bodies[i].Active? ensures Abs(m).lane == m.bodies[i].lane {
      LaneOfBody(m, i);
    }
  }

  /** The protocol's whole-run guarantees hold of the concurrent worker, and its recorded turns are its tasks. */
  lemma EveryWorkerState(c: Config, mvs: seq<Move>)
    requires Runnable(c, BOOT, mvs)
    ensures var m := After(c, BOOT, mvs);
            && ActiveRowsUnique(m.db)
            && SnapshotsExact(Abs(m))
            && ExactlyOnce(m.h)
            && (forall issue :: RevisionsBounded(c, m.db, m.h, issue))
            && RowTurnsBounded(c, m.db, m.h)
            && WaitsBounded(c, m.db, m.h)
            && TurnsAreTasks(m)
  {
    BootInv(c);
    var labels := RunFollows(c, BOOT, mvs);
    InvariantConsequences(c, Abs(After(c, BOOT, mvs)));
  }

  // ---------------------------------------------------------------- shutdown

  /** What was enqueued stays enqueued until the worker is restarted. */
  ghost predicate Grows(m: Machine, u: Machine) {
    && |m.line.promises| <= |u.line.promises|
    && (forall i :: i in m.tasks ==> i in u.tasks && u.tasks[i] == m.tasks[i])
    && u.base == m.base
  }

  lemma MoveGrows(c: Config, m: Machine, mv: Move)
    requires MachineInv(m) && CanMove(m, mv) && !mv.Restart?
    ensures Grows(m, Moved(c, m, mv))
  {
    assert |m.line.promises| !in m.tasks;
  }

  lemma {:induction false} RunGrows(c: Config, m: Machine, mvs: seq<Move>)
    requires WorkerInv(c, m) && Runnable(c, m, mvs) && Restart !in mvs
    ensures Grows(m, After(c, m, mvs)) && WorkerInv(c, After(c, m, mvs))
    decreases |mvs|
  {
    if mvs != [] {
      assert mvs[0] in mvs;
      MoveGrows(c, m, mvs[0]);
      MovePreserves(c, m, mvs[0]);
      RunGrows(c, Moved(c, m, mvs[0]), mvs[1..]);
    }
  }

  /** The task has settled; if it did not throw, its body has done its last write, which for a row is the one recorded turn
      this task stands for. */
  ghost predicate Finished(u: Machine, i: nat) {
    && i in u.tasks && i !in u.bodies && i < |u.line.promises|
    && u.line.promises[i].Settled()
    && (u.line.promises[i].progress == EL.Fulfilled ==>
          && i in u.line.persisted
          && (u.tasks[i].RowTask? ==>
                var id := u.tasks[i].row.id;
                i in Written(u, id) && u.h.turns[id] == u.base[id] + |Written(u, id)|))
  }

  /** Shutdown: when the chain it read has settled, whatever has happened since, every task enqueued before is finished. */
  lemma ShutdownAwaitsWrites(c: Config, before: seq<Move>, after: seq<Move>)
    requires Runnable(c, BOOT, before) && Runnable(c, After(c, BOOT, before), after) && Restart !in after
    ensures var s := After(c, BOOT, before);
            var u := After(c, s, after);
            s.line.chain < |u.line.promises| &&
            (u.line.promises[s.line.chain].Settled() ==> forall i :: i in s.tasks ==> Finished(u, i) && u.tasks[i] == s.tasks[i])
  {
    BootInv(c);
    var labels := RunFollows(c, BOOT, before);
    var s := After(c, BOOT, before);
    RunGrows(c, s, after);
    ChainAwaitsWrites(s, After(c, s, after));
  }

  lemma ChainAwaitsWrites(s: Machine, u: Machine)
    requires MachineInv(s) && MachineInv(u) && TurnsAreTasks(u) && Grows(s, u)
    ensures s.line.chain < |u.line.promises|
    ensures u.line.promises[s.line.chain].Settled() ==> forall i :: i in s.tasks ==> Finished(u, i) && u.tasks[i] == s.tasks[i]
  {
    if u.line.promises[s.line.chain].Settled() {
      EL.AllBeforeSettled(u.line, s.line.chain);
      forall i | i in s.tasks ensures Finished(u, i) {
        assert i < s.line.chain || i == s.line.chain;
        SettledIsFinished(u, i);
      }
    }
  }

  lemma SettledIsFinished(u: Machine, i: nat)
    requires MachineInv(u) && TurnsAreTasks(u) && i in u.tasks && u.line.promises[i].Settled()
    ensures Finished(u, i)
  {
    assert EL.LinkedAt(u.line, i);
  }

  lemma MovesCompose(c: Config, u: Machine, rest: seq<Move>, m: Machine, mv: Move)
    requires CanMove(m, mv) && u == Moved(c, m, mv) && Runnable(c, u, rest)
    ensures Runnable(c, m, [mv] + rest) && After(c, m, [mv] + rest) == After(c, u, rest)
  {
    assert ([mv] + rest)[0] == mv && ([mv] + rest)[1..] == rest;
  }
}
