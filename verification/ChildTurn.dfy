/**
 * `spawnClaudeTurn`: the callbacks of one child process and the promise they settle. The child, its timer and its
 * abort signal may fire in any order; the promise settles at most once, on the first exit or error.
 */
module ChildTurn {
  import opened Json
  import opened ClaudeInvoker

  datatype ChildEvent =
    | TimerFires
    | AbortFires
    | StdoutData(chunk: string)
    | ChildError
    | ChildClose(code: Option<int>, signal: Option<string>)

  predicate Exits(ev: ChildEvent) {
    ev.ChildError? || ev.ChildClose?
  }

  class Turn {
    var settled: bool
    var timedOut: bool
    var aborted: bool
    var stdout: string
    var timerArmed: bool
    var listeningForAbort: bool
    var killRequests: nat
    var resolutions: seq<TurnResult<string>>  // one entry per `resolve` call

    constructor (alreadyAborted: bool)
      ensures !settled && !timedOut && stdout == "" && timerArmed && resolutions == []
      ensures aborted == alreadyAborted && listeningForAbort == !alreadyAborted
      ensures killRequests == if alreadyAborted then 1 else 0
    {
      settled, timedOut, stdout, timerArmed, resolutions := false, false, "", true, [];
      aborted := alreadyAborted;
      listeningForAbort := !alreadyAborted;
      killRequests := if alreadyAborted then 1 else 0;
    }

    /** `setTimeout` callback: a kill request, remembered as a timeout. */
    method OnTimer()
      modifies this`timedOut, this`timerArmed, this`killRequests
      ensures timedOut == (old(timedOut) || old(timerArmed)) && !timerArmed
      ensures killRequests == old(killRequests) + if old(timerArmed) then 1 else 0
    {
      if timerArmed {
        timedOut, timerArmed, killRequests := true, false, killRequests + 1;
      }
    }

    /** `abort` listener, registered with `once`. */
    method OnAbort()
      modifies this`aborted, this`listeningForAbort, this`killRequests
      ensures aborted == (old(aborted) || old(listeningForAbort)) && !listeningForAbort
      ensures killRequests == old(killRequests) + if old(listeningForAbort) then 1 else 0
    {
      if listeningForAbort {
        aborted, listeningForAbort, killRequests := true, false, killRequests + 1;
      }
    }

    method OnStdout(chunk: string)
      modifies this`stdout
      ensures stdout == old(stdout) + chunk
    {
      stdout := stdout + chunk;
    }

    /** `error` and `close` handlers: the first one clears the timer and the listener and resolves. */
    method OnExit(code: Option<int>, signal: Option<string>, spawnError: bool)
      modifies this`settled, this`timerArmed, this`listeningForAbort, this`resolutions
      ensures settled
      ensures old(settled) ==> timerArmed == old(timerArmed) && listeningForAbort == old(listeningForAbort) && resolutions == old(resolutions)
      ensures !old(settled) ==> !timerArmed && !listeningForAbort
      ensures !old(settled) ==> resolutions == old(resolutions) + [TurnResult(code, signal, timedOut, aborted, stdout, spawnError)]
    {
      if !settled {
        settled, timerArmed, listeningForAbort := true, false, false;
        resolutions := resolutions + [TurnResult(code, signal, timedOut, aborted, stdout, spawnError)];
      }
    }
  }

  /** The position of the first exit or error. */
  function FirstExit(events: seq<ChildEvent>): (k: nat)
    ensures k <= |events|
    ensures forall i :: 0 <= i < k ==> !Exits(events[i])
    ensures k < |events| ==> Exits(events[k])
  {
    if events == [] || Exits(events[0]) then 0 else 1 + FirstExit(events[1..])
  }

  function Output(events: seq<ChildEvent>): string {
    if events == [] then ""
    else Output(events[..|events| - 1]) + if events[|events| - 1].StdoutData? then events[|events| - 1].chunk else ""
  }

  /** What a turn must resolve with, read off its event history: everything before the first exit, nothing after it. */
  function Settlement(spawnThrows: bool, alreadyAborted: bool, events: seq<ChildEvent>): seq<TurnResult<string>> {
    var k := FirstExit(events);
    if spawnThrows then [TurnResult(None, None, false, false, "", true)]
    else if k == |events| then []
    else
      var code := if events[k].ChildClose? then events[k].code else None;
      var signal := if events[k].ChildClose? then events[k].signal else None;
      [TurnResult(code, signal, TimerFires in events[..k], alreadyAborted || AbortFires in events[..k], Output(events[..k]), events[k].ChildError?)]
  }

  /** How often a turn asks for its child to be killed: at most once for its timer and once for its abort signal, and not
      after its first exit. */
  function KillRequests(spawnThrows: bool, alreadyAborted: bool, events: seq<ChildEvent>): nat {
    var k := FirstExit(events);
    if spawnThrows then 0
    else (if TimerFires in events[..k] then 1 else 0) + (if alreadyAborted || AbortFires in events[..k] then 1 else 0)
  }

  lemma PrefixStep(events: seq<ChildEvent>, i: nat)
    requires i < |events|
    ensures TimerFires in events[..i + 1] <==> TimerFires in events[..i] || events[i] == TimerFires
    ensures AbortFires in events[..i + 1] <==> AbortFires in events[..i] || events[i] == AbortFires
    ensures Output(events[..i + 1]) == Output(events[..i]) + if events[i].StdoutData? then events[i].chunk else ""
  {
    assert events[..i + 1] == events[..i] + [events[i]];
    assert events[..i + 1][..i] == events[..i];
  }

  /** Runs a turn against an arbitrary event history: it settles at most once, with exactly the history's settlement. */
  method SpawnClaudeTurn(spawnThrows: bool, alreadyAborted: bool, events: seq<ChildEvent>)
    returns (resolutions: seq<TurnResult<string>>, killRequests: nat)
    ensures resolutions == Settlement(spawnThrows, alreadyAborted, events)
    ensures killRequests == KillRequests(spawnThrows, alreadyAborted, events)
  {
    if spawnThrows {
      return [TurnResult(None, None, false, false, "", true)], 0;
    }
    var turn := new Turn(alreadyAborted);
    var k := FirstExit(events);
    for i := 0 to |events|
      invariant turn.settled <==> k < i
      invariant !turn.settled ==> turn.resolutions == []
      invariant !turn.settled ==> turn.timedOut == (TimerFires in events[..i]) && turn.timerArmed == !turn.timedOut
      invariant !turn.settled ==> turn.aborted == (alreadyAborted || AbortFires in events[..i]) && turn.listeningForAbort == !turn.aborted
      invariant !turn.settled ==> turn.stdout == Output(events[..i])
      invariant !turn.settled ==> turn.killRequests == (if turn.timedOut then 1 else 0) + (if turn.aborted then 1 else 0)
      invariant turn.settled ==> turn.resolutions == Settlement(false, alreadyAborted, events)
      invariant turn.settled ==> !turn.timerArmed && !turn.listeningForAbort && turn.killRequests == KillRequests(false, alreadyAborted, events)
    {
      PrefixStep(events, i);
      match events[i] {
        case TimerFires => turn.OnTimer();
        case AbortFires => turn.OnAbort();
        case StdoutData(chunk) => turn.OnStdout(chunk);
        case ChildError => turn.OnExit(None, None, true);
        case ChildClose(code, signal) => turn.OnExit(code, signal, false);
      }
    }
    assert events[..|events|] == events;
    resolutions, killRequests := turn.resolutions, turn.killRequests;
  }

  /** Whatever the order of timeout, abort, error and close: at most one settlement, and none that timed out is accepted. */
  lemma SettledTurns(spawnThrows: bool, alreadyAborted: bool, events: seq<ChildEvent>, parse: string -> Envelope, e: Expected, rev: nat, max: nat, token: string)
    ensures var rs := Settlement(spawnThrows, alreadyAborted, events);
            && |rs| <= 1
            && (rs == [] <==> !spawnThrows && forall i :: 0 <= i < |events| ==> !Exits(events[i]))
            && (forall r :: r in rs && !spawnThrows && TimerFires in events[..FirstExit(events)] ==>
                  && EvaluateCompletionResult(ParseStdout(r, parse), e).Rejected?
                  && EvaluateReconciliationResult(ParseStdout(r, parse), e).Rejected?
                  && EvaluateReviewResult(ParseStdout(r, parse), e, rev, max, token).Rejected?)
  {
    var rs := Settlement(spawnThrows, alreadyAborted, events);
    forall r | r in rs && r.timedOut
      ensures EvaluateCompletionResult(ParseStdout(r, parse), e).Rejected?
      ensures EvaluateReconciliationResult(ParseStdout(r, parse), e).Rejected?
      ensures EvaluateReviewResult(ParseStdout(r, parse), e, rev, max, token).Rejected?
    {
      TimedOutIsNeverAccepted(ParseStdout(r, parse), e, rev, max, token);
    }
  }

  /** The first exit is a close with code 0 and no signal, and the timer has not fired before it. */
  ghost predicate ClosesCleanly(events: seq<ChildEvent>, k: nat) {
    && k < |events| && (events[k] == ChildClose(Some(0), None) || events[k] == ChildClose(Some(0), Some("")))
    && forall i :: 0 <= i < k ==> !Exits(events[i]) && events[i] != TimerFires
  }

  /** What the evaluators take for a clean turn is exactly a child that closed so, with the output it had written by then. */
  lemma CleanTurns(spawnThrows: bool, alreadyAborted: bool, events: seq<ChildEvent>, parse: string -> Envelope, r: TurnResult<string>)
    requires r in Settlement(spawnThrows, alreadyAborted, events)
    ensures var raw := ParseStdout(r, parse);
            !raw.spawnError && !raw.timedOut && (raw.signal == None || raw.signal == Some("")) && raw.code == Some(0) <==>
            !spawnThrows && exists k: nat :: ClosesCleanly(events, k) && raw.stdout == parse(Output(events[..k]))
  {
    var raw, k := ParseStdout(r, parse), FirstExit(events);
    if exists j: nat :: ClosesCleanly(events, j) && raw.stdout == parse(Output(events[..j])) {
      var j: nat :| ClosesCleanly(events, j) && raw.stdout == parse(Output(events[..j]));
      assert Exits(events[j]) && j == k;
    } else if !spawnThrows {
      assert !ClosesCleanly(events, k);
    }
  }
}
