/** The status bits of the binlog service, and who may still write the cache file (binlog/binlog.go,
    binlog/binlog_handler.go). Several goroutines run; a step is one section under `statusLock`, or one
    action between two of them. */
module BinlogStatus {
  import opened Bytes
  import opened BinlogHandler

  /** Where the goroutine of `lookStopService` stands in its loop. */
  datatype StopLoop = Waiting | Saving | Clearing | Closing | Finishing

  datatype Service = Service(
    status: bv8,
    stopSignals: seq<bool>,   // stopServiceChan
    loop: StopLoop,
    pendingRows: nat,         // OnRow calls past their test of the exit bit
    admitted: nat,            // how many there have been
    saves: seq<bytes>,        // what WriteAt was called with
    closes: nat,              // how often the cache handle was closed
    lateWrites: nat)          // writes to a closed handle

  datatype Step =
    | Exit                    // Close: the exit bit
    | SignalExit              // Close: StopService(true), behind it
    | SignalStop              // OnLeader(false): StopService(false)
    | Start                   // lookStartService
    | RunnerFailed            // RunFrom returns an error
    | AdmitRow                // OnRow: the test
    | FinishRow               // OnRow: its notifications are sent
    | Save(r: bytes)          // saveBinlogPositionCache
    | TakeSignal              // lookStopService, section by section
    | StopSave(r: bytes)
    | ClearOpen
    | CloseHandle
    | ClearRunning

  predicate Exiting(s: Service) {
    s.status & EXIT != 0
  }

  predicate Open(s: Service) {
    s.status & OPENED != 0
  }

  predicate Enabled(s: Service, step: Step) {
    match step
    case SignalExit => Exiting(s)
    case FinishRow => s.pendingRows > 0
    case TakeSignal => s.loop == Waiting && s.stopSignals != []
    case StopSave(_) => s.loop == Saving
    case ClearOpen => s.loop == Clearing
    case CloseHandle => s.loop == Closing
    case ClearRunning => s.loop == Finishing
    case _ => true
  }

  /** The section of `saveBinlogPositionCache`. */
  function SavedIn(s: Service, r: bytes): Service {
    if Exiting(s) || !Open(s) then s
    else s.(saves := s.saves + [r], lateWrites := s.lateWrites + if s.closes > 0 then 1 else 0)
  }

  function Next(s: Service, step: Step): Service
    requires Enabled(s, step)
  {
    match step
    case Exit => s.(status := s.status | EXIT)
    case SignalExit => s.(stopSignals := s.stopSignals + [true])
    case SignalStop => s.(stopSignals := s.stopSignals + [false])
    case Start => if s.status & RUNNING != 0 then s else s.(status := s.status | RUNNING)
    case RunnerFailed => s.(status := s.status ^ RUNNING)
    case AdmitRow =>
      if Exiting(s) then s else s.(pendingRows := s.pendingRows + 1, admitted := s.admitted + 1)
    case FinishRow => s.(pendingRows := s.pendingRows - 1)
    case Save(r) => SavedIn(s, r)
    case TakeSignal =>
      s.(stopSignals := s.stopSignals[1..], loop := if s.stopSignals[0] then Saving else Finishing)
    case StopSave(r) => SavedIn(s, r).(loop := Clearing)
    case ClearOpen =>
      if Open(s) then s.(status := s.status ^ OPENED, loop := Closing) else s.(loop := Finishing)
    case CloseHandle => s.(closes := s.closes + 1, loop := Finishing)
    case ClearRunning =>
      s.(status := if s.status & RUNNING != 0 then s.status ^ RUNNING else s.status, loop := Waiting)
  }

  /** After `handlerInit`. */
  const STARTED := Service(OPENED, [], Waiting, 0, 0, [], 0, 0)

  /** The handle is open as long as its bit is set; it is closed only after the bit was cleared; and only
      `Close`, which sets the exit bit first, ever asks the loop to do so. */
  predicate Inv(s: Service) {
    && (Open(s) ==> s.closes == 0 && s.loop != Closing)
    && (!Open(s) ==> Exiting(s) && (s.closes == 1 || s.loop == Closing))
    && (s.loop == Closing ==> s.closes == 0)
    && s.closes <= 1
    && s.lateWrites == 0
    && (true in s.stopSignals || s.loop in {Saving, Clearing, Closing} ==> Exiting(s))
  }

  /** No toggle of one bit touches another. */
  lemma Bits(status: bv8)
    ensures (status ^ RUNNING) & EXIT == status & EXIT && (status ^ RUNNING) & OPENED == status & OPENED
    ensures (status | RUNNING) & EXIT == status & EXIT && (status | RUNNING) & OPENED == status & OPENED
    ensures (status | EXIT) & OPENED == status & OPENED && (status | EXIT) & EXIT != 0
    ensures (status ^ OPENED) & EXIT == status & EXIT
    ensures status & OPENED != 0 ==> (status ^ OPENED) & OPENED == 0
  {
  }

  /** The status word after a step. */
  function StatusAfter(status: bv8, step: Step): bv8 {
    match step
    case Exit => status | EXIT
    case Start => if status & RUNNING != 0 then status else status | RUNNING
    case RunnerFailed => status ^ RUNNING
    case ClearOpen => if status & OPENED != 0 then status ^ OPENED else status
    case ClearRunning => if status & RUNNING != 0 then status ^ RUNNING else status
    case _ => status
  }

  lemma NextStatus(s: Service, step: Step)
    requires Enabled(s, step)
    ensures Next(s, step).status == StatusAfter(s.status, step)
  {
  }

  lemma StatusBits(status: bv8, step: Step)
    ensures StatusAfter(status, step) & EXIT != 0 <==> status & EXIT != 0 || step.Exit?
    ensures StatusAfter(status, step) & OPENED != 0 <==> status & OPENED != 0 && !step.ClearOpen?
  {
    Bits(status);
  }

  /** What a step does to the two bits: only `Exit` sets the one, only `ClearOpen` clears the other. */
  lemma BitsAfter(s: Service, step: Step)
    requires Enabled(s, step)
    ensures Exiting(Next(s, step)) <==> Exiting(s) || step.Exit?
    ensures Open(Next(s, step)) <==> Open(s) && !step.ClearOpen?
  {
    hide Next, Enabled, StatusAfter;
    NextStatus(s, step);
    StatusBits(s.status, step);
  }

  /** What it does to the loop, its signals and the handle. */
  lemma LoopAfter(s: Service, step: Step)
    requires Enabled(s, step)
    ensures var s' := Next(s, step);
            && (step.Exit? || step.Start? || step.RunnerFailed? || step.AdmitRow? || step.FinishRow? ==>
                  s'.loop == s.loop && s'.stopSignals == s.stopSignals &&
                  s'.closes == s.closes && s'.lateWrites == s.lateWrites)
            && (step.ClearOpen? ==>
                  s'.loop == (if Open(s) then Closing else Finishing) && s'.stopSignals == s.stopSignals &&
                  s'.closes == s.closes && s'.lateWrites == s.lateWrites)
            && (step.ClearRunning? ==>
                  s'.loop == Waiting && s'.stopSignals == s.stopSignals &&
                  s'.closes == s.closes && s'.lateWrites == s.lateWrites)
  {
  }

  lemma StepKeepsInv(s: Service, step: Step)
    requires Inv(s) && Enabled(s, step)
    ensures Inv(Next(s, step))
  {
    BitsAfter(s, step);
    LoopAfter(s, step);
    hide Exiting, Open;
    match step {
      case Exit | Start | RunnerFailed | AdmitRow | FinishRow | ClearOpen | ClearRunning =>
        hide Next;
      case _ =>
    }
  }

  /** Once the service is exiting it stays so, admits no row and writes no checkpoint. */
  lemma ExitStep(s: Service, step: Step)
    requires Enabled(s, step) && Exiting(s)
    ensures var s' := Next(s, step);
            Exiting(s') && s'.admitted == s.admitted && s'.saves == s.saves && s'.pendingRows <= s.pendingRows
  {
    BitsAfter(s, step);
    hide Exiting, Open;
  }

  predicate IsRun(s: Service, steps: seq<Step>)
    decreases |steps|
  {
    steps == [] || (Enabled(s, steps[0]) && IsRun(Next(s, steps[0]), steps[1..]))
  }

  function After(s: Service, steps: seq<Step>): Service
    requires IsRun(s, steps)
    decreases |steps|
  {
    if steps == [] then s else After(Next(s, steps[0]), steps[1..])
  }

  /** Exit is permanent: in every interleaving, from the moment the exit bit is set, no XOR clears it,
      no later row is admitted, and the last checkpoint in the cache file stays. */
  lemma {:induction false} ExitIsPermanent(s: Service, steps: seq<Step>)
    requires IsRun(s, steps) && Exiting(s)
    ensures var s' := After(s, steps);
            Exiting(s') && s'.admitted == s.admitted && s'.saves == s.saves
    decreases |steps|
  {
    if steps != [] {
      ExitStep(s, steps[0]);
      ExitIsPermanent(Next(s, steps[0]), steps[1..]);
    }
  }

  lemma {:induction false} RunKeepsInv(s: Service, steps: seq<Step>)
    requires Inv(s) && IsRun(s, steps)
    ensures Inv(After(s, steps))
    decreases |steps|
  {
    if steps != [] {
      StepKeepsInv(s, steps[0]);
      RunKeepsInv(Next(s, steps[0]), steps[1..]);
    }
  }

  /** The cache handle is safe: in every interleaving it is closed at most once, never while its bit is
      set, and never written after it was closed. */
  lemma CacheHandleIsSafe(steps: seq<Step>)
    requires IsRun(STARTED, steps)
    ensures var s := After(STARTED, steps);
            s.closes <= 1 && (Open(s) ==> s.closes == 0) && s.lateWrites == 0
  {
    Bits(OPENED);
    RunKeepsInv(STARTED, steps);
  }

  /** The save on the way out never happens: the loop packs the last position with an event index that
      may already be ahead of it, but by then the exit bit keeps it from being written. */
  lemma ShutdownSaveIsSuppressed(steps: seq<Step>, r: bytes)
    requires IsRun(STARTED, steps) && Enabled(After(STARTED, steps), StopSave(r))
    ensures Next(After(STARTED, steps), StopSave(r)).saves == After(STARTED, steps).saves
  {
    Bits(OPENED);
    RunKeepsInv(STARTED, steps);
  }

  // ---------- what does happen ----------

  /** The records saved before the exit bit is set. */
  function SavedBeforeExit(steps: seq<Step>): seq<bytes> {
    if steps == [] || steps[0].Exit? then []
    else (if steps[0].Save? then [steps[0].r] else []) + SavedBeforeExit(steps[1..])
  }

  function AdmittedBeforeExit(steps: seq<Step>): nat {
    if steps == [] || steps[0].Exit? then 0
    else (if steps[0].AdmitRow? then 1 else 0) + AdmittedBeforeExit(steps[1..])
  }

  lemma StepSaves(s: Service, step: Step)
    requires Inv(s) && Enabled(s, step) && !Exiting(s)
    ensures Next(s, step).saves == s.saves + if step.Save? then [step.r] else []
    ensures Next(s, step).admitted == s.admitted + if step.AdmitRow? then 1 else 0
    ensures Exiting(Next(s, step)) <==> step.Exit?
  {
    BitsAfter(s, step);
    hide Exiting, Open;
    assert s.loop != Closing && Open(s);
    assert s.saves + [] == s.saves;
  }

  lemma {:induction false} RunSaves(s: Service, steps: seq<Step>)
    requires Inv(s) && IsRun(s, steps) && !Exiting(s)
    ensures After(s, steps).saves == s.saves + SavedBeforeExit(steps)
    ensures After(s, steps).admitted == s.admitted + AdmittedBeforeExit(steps)
    decreases |steps|
  {
    hide Inv, Enabled, Next, Exiting;
    if steps != [] {
      StepSaves(s, steps[0]);
      StepKeepsInv(s, steps[0]);
      var s' := Next(s, steps[0]);
      if steps[0].Exit? {
        ExitIsPermanent(s', steps[1..]);
      } else {
        RunSaves(s', steps[1..]);
        var first := if steps[0].Save? then [steps[0].r] else [];
        assert s.saves + first + SavedBeforeExit(steps[1..]) == s.saves + (first + SavedBeforeExit(steps[1..]));
      }
    }
  }

  /** Nothing more and nothing less: in every interleaving exactly the checkpoints saved before the exit bit is
      set are written, and exactly the rows that come before it are admitted. */
  lemma SavesUntilExit(steps: seq<Step>)
    requires IsRun(STARTED, steps)
    ensures After(STARTED, steps).saves == SavedBeforeExit(steps)
    ensures After(STARTED, steps).admitted == AdmittedBeforeExit(steps)
  {
    Bits(OPENED);
    RunSaves(STARTED, steps);
    assert STARTED.saves + SavedBeforeExit(steps) == SavedBeforeExit(steps);
  }

  function SignalsSent(steps: seq<Step>): seq<bool> {
    if steps == [] then []
    else
      var sent := if steps[0].SignalExit? then [true] else if steps[0].SignalStop? then [false] else [];
      sent + SignalsSent(steps[1..])
  }

  function CountOf(steps: seq<Step>, step: Step): nat {
    if steps == [] then 0 else (if steps[0] == step then 1 else 0) + CountOf(steps[1..], step)
  }

  /** Nothing gets lost: in every interleaving the rows that are pending are those admitted and not yet
      finished, and the signals that wait are those sent and not yet taken, in order. */
  lemma {:induction false} NothingLost(s: Service, steps: seq<Step>)
    requires IsRun(s, steps)
    ensures var s' := After(s, steps);
            && s'.pendingRows + CountOf(steps, FinishRow) == s.pendingRows + (s'.admitted - s.admitted)
            && CountOf(steps, TakeSignal) <= |s.stopSignals + SignalsSent(steps)|
            && s'.stopSignals == (s.stopSignals + SignalsSent(steps))[CountOf(steps, TakeSignal)..]
    decreases |steps|
  {
    hide Enabled, Next;
    if steps == [] {
      assert s.stopSignals + [] == s.stopSignals;
    } else {
      var s1 := Next(s, steps[0]);
      NothingLost(s1, steps[1..]);
      StepPending(s, steps[0]);
      StepSignals(s, steps[0], SignalsSent(steps[1..]), CountOf(steps[1..], TakeSignal));
    }
  }

  lemma StepPending(s: Service, step: Step)
    requires Enabled(s, step)
    ensures var s' := Next(s, step);
            s'.pendingRows + (if step == FinishRow then 1 else 0) == s.pendingRows + (s'.admitted - s.admitted)
  {
    hide Exiting, Open;
    match step {
      case AdmitRow =>
      case FinishRow =>
      case _ => assert Next(s, step).pendingRows == s.pendingRows && Next(s, step).admitted == s.admitted;
    }
  }

  lemma StepSignals(s: Service, step: Step, more: seq<bool>, taken: nat)
    requires Enabled(s, step)
    requires taken <= |Next(s, step).stopSignals + more|
    ensures var sent := (if step.SignalExit? then [true] else if step.SignalStop? then [false] else []) + more;
            var taken' := taken + if step.TakeSignal? then 1 else 0;
            && taken' <= |s.stopSignals + sent|
            && (Next(s, step).stopSignals + more)[taken..] == (s.stopSignals + sent)[taken'..]
  {
    if step.TakeSignal? {
      assert (s.stopSignals + more)[1..] == s.stopSignals[1..] + more;
      assert [] + more == more;
    } else if step.SignalExit? {
      assert s.stopSignals + [true] + more == s.stopSignals + ([true] + more);
    } else if step.SignalStop? {
      assert s.stopSignals + [false] + more == s.stopSignals + ([false] + more);
    } else {
      assert [] + more == more;
    }
  }

  /** On the way from an exit signal to the closed handle, or there. */
  predicate Leaving(s: Service) {
    s.loop in {Saving, Clearing, Closing} || (s.closes == 1 && !Open(s))
  }

  lemma StepLeaves(s: Service, step: Step)
    requires Inv(s) && Enabled(s, step) && Leaving(s)
    ensures Leaving(Next(s, step))
  {
    BitsAfter(s, step);
    LoopAfter(s, step);
    StepKeepsInv(s, step);
    hide Exiting, Open;
    match step {
      case Exit | Start | RunnerFailed | AdmitRow | FinishRow | ClearOpen | ClearRunning =>
        hide Next;
      case _ =>
    }
  }

  lemma {:induction false} RunLeaves(s: Service, steps: seq<Step>)
    requires Inv(s) && IsRun(s, steps) && Leaving(s)
    ensures Inv(After(s, steps)) && Leaving(After(s, steps))
    decreases |steps|
  {
    hide Inv, Enabled, Next, Leaving;
    if steps != [] {
      StepLeaves(s, steps[0]);
      StepKeepsInv(s, steps[0]);
      RunLeaves(Next(s, steps[0]), steps[1..]);
    }
  }

  /** An exit signal closes the handle: whenever the loop has taken one, and whatever has happened since, the
      handle has been closed once the loop waits for signals again. */
  lemma ExitSignalCloses(before: seq<Step>, later: seq<Step>)
    requires IsRun(STARTED, before)
    requires var s := After(STARTED, before);
             Enabled(s, TakeSignal) && s.stopSignals[0] && IsRun(Next(s, TakeSignal), later)
    ensures var s' := After(Next(After(STARTED, before), TakeSignal), later);
            s'.loop == Waiting ==> s'.closes == 1 && !Open(s')
  {
    Bits(OPENED);
    RunKeepsInv(STARTED, before);
    var s := After(STARTED, before);
    StepKeepsInv(s, TakeSignal);
    RunLeaves(Next(s, TakeSignal), later);
  }

  /** The next section of the loop, on the way back to its signals. */
  function LoopStep(s: Service, r: bytes): Step
    requires s.loop != Waiting
  {
    match s.loop
    case Saving => StopSave(r)
    case Clearing => ClearOpen
    case Closing => CloseHandle
    case Finishing => ClearRunning
  }

  function StepsLeft(loop: StopLoop): nat {
    match loop
    case Waiting => 0
    case Finishing => 1
    case Closing => 2
    case Clearing => 3
    case Saving => 4
  }

  /** And the loop gets there: it can always take its next section, which brings it closer, and no other
      goroutine holds it up. */
  lemma LoopGoesOn(s: Service, step: Step, r: bytes)
    requires Enabled(s, step) && s.loop != Waiting
    ensures Enabled(s, LoopStep(s, r)) && StepsLeft(Next(s, LoopStep(s, r)).loop) < StepsLeft(s.loop)
    ensures Next(s, step).loop == s.loop || exists r' :: step == LoopStep(s, r')
  {
    if step.StopSave? {
      assert step == LoopStep(s, step.r);
    } else if step.ClearOpen? || step.CloseHandle? || step.ClearRunning? {
      assert step == LoopStep(s, r);
    }
  }

  predicate Running(s: Service) {
    s.status & RUNNING != 0
  }

  lemma RunningBits(status: bv8)
    ensures (status | RUNNING) & RUNNING != 0 && (status | EXIT) & RUNNING == status & RUNNING
    ensures (status ^ RUNNING) & RUNNING != 0 <==> status & RUNNING == 0
    ensures (status ^ OPENED) & RUNNING == status & RUNNING
  {
  }

  lemma RunningAfter(s: Service, step: Step)
    requires Enabled(s, step)
    ensures Running(Next(s, step)) <==>
              if step.Start? then true
              else if step.RunnerFailed? then !Running(s)
              else Running(s) && !step.ClearRunning?
  {
    NextStatus(s, step);
    hide Next, Enabled;
    RunningBits(s.status);
  }

  /** A runner that fails toggles the running bit instead of clearing it. If a stop has already cleared it, it is
      set now, although nothing runs, and every start from then on is ignored until the next stop or
      failure. */
  lemma {:induction false} LateFailureBlocksStarts(s: Service, starts: nat)
    requires !Running(s)
    ensures var s' := Next(s, RunnerFailed);
            && Running(s')
            && IsRun(s', seq(starts, _ => Start)) && After(s', seq(starts, _ => Start)) == s'
  {
    RunningAfter(s, RunnerFailed);
    StartsIgnored(Next(s, RunnerFailed), starts);
  }

  lemma {:induction false} StartsIgnored(s: Service, starts: nat)
    requires Running(s)
    ensures IsRun(s, seq(starts, _ => Start)) && After(s, seq(starts, _ => Start)) == s
    decreases starts
  {
    if starts > 0 {
      assert seq(starts, _ => Start)[1..] == seq(starts - 1, _ => Start);
      StartsIgnored(s, starts - 1);
    }
  }
}
