/** The status machine of a request and its time accounting. */
module SequenceState {
  import opened Sequences

  datatype Time = None | At(t: real)
  {
    function Or0(): real { if At? then t else 0.0 }

    // How Python's `if` reads it: neither None nor zero.
    predicate Truthy() { At? && t != 0.0 }
  }

  datatype Record = Record(
    status: Status,
    isScheduled: bool,
    isCompleted: bool,
    isIgnoreFinished: bool,
    aborted: bool,
    scheduledAt: Time,
    completedAt: Time,
    lastRestartAt: Time,
    lastPauseAt: Time,
    lastExecutionStartAt: Time,
    executionTime: real,
    preemptedTime: real,
    pausedTime: real,
    numRestarts: nat,
    numPauses: nat)

  const NEW: Record := Record(WAITING, false, false, false, false, None, None, None, None, None, 0.0, 0.0, 0.0, 0, 0)

  datatype Attempt = Attempt(now: real, to: Status)

  predicate LegalMove(from: Status, to: Status) {
    match from
    case WAITING => to.RUNNING? || to.FINISHED_IGNORED? || to.FINISHED_ABORTED?
    case RUNNING => to.PAUSED? || to.WAITING?
    case PAUSED => to.RUNNING? || to.WAITING? || to.FINISHED_STOPPED? || to.FINISHED_LENGTH_CAPPED?
    case _ => false
  }

  function FromWaiting(r: Record, now: real, to: Status): Record {
    if to.RUNNING? then
      var s := if r.scheduledAt.None? then r.(isScheduled := true, scheduledAt := At(now))
               else r.(preemptedTime := r.preemptedTime + (now - r.lastRestartAt.Or0()));
      s.(lastExecutionStartAt := At(now), status := to)
    else if to.FINISHED_IGNORED? then
      r.(isIgnoreFinished := true, isCompleted := true, completedAt := At(now), scheduledAt := At(now), status := to)
    else if to.FINISHED_ABORTED? then
      r.(aborted := true, isCompleted := true, completedAt := At(now), scheduledAt := At(now), status := to)
    else r
  }

  // The time since the last start is booked before the move is found to be illegal.
  function FromRunning(r: Record, now: real, to: Status): Record {
    var s := r.(executionTime := r.executionTime + (now - r.lastExecutionStartAt.Or0()));
    if to.PAUSED? then s.(numPauses := s.numPauses + 1, lastPauseAt := At(now), status := to)
    else if to.WAITING? then s.(numRestarts := s.numRestarts + 1, lastRestartAt := At(now), status := to)
    else s
  }

  function FromPaused(r: Record, now: real, to: Status): Record {
    var gap := now - r.lastPauseAt.Or0();
    var s := r.(pausedTime := r.pausedTime + gap, preemptedTime := r.preemptedTime + gap);
    if to.FINISHED_STOPPED? || to.FINISHED_LENGTH_CAPPED? then s.(isCompleted := true, completedAt := At(now), status := to)
    else if to.RUNNING? then s.(lastExecutionStartAt := At(now), status := to)
    else if to.WAITING? then s.(numRestarts := s.numRestarts + 1, lastRestartAt := At(now), status := to)
    else s
  }

  // set_status, whether it returns or raises.
  function SetStatus(r: Record, a: Attempt): Record {
    match r.status
    case WAITING => FromWaiting(r, a.now, a.to)
    case RUNNING => FromRunning(r, a.now, a.to)
    case PAUSED => FromPaused(r, a.now, a.to)
    case _ => r
  }

  function RunOf(r: Record, attempts: seq<Attempt>): Record
    decreases |attempts|
  {
    if attempts == [] then r else RunOf(SetStatus(r, attempts[0]), attempts[1..])
  }

  // The time a rejected attempt leaves booked.
  function Drift(r: Record, a: Attempt): real {
    if LegalMove(r.status, a.to) then 0.0
    else if r.status.RUNNING? then a.now - r.lastExecutionStartAt.Or0()
    else if r.status.PAUSED? then a.now - r.lastPauseAt.Or0()
    else 0.0
  }

  function DriftOf(r: Record, attempts: seq<Attempt>): real
    decreases |attempts|
  {
    if attempts == [] then 0.0 else Drift(r, attempts[0]) + DriftOf(SetStatus(r, attempts[0]), attempts[1..])
  }

  ghost predicate Legal(r: Record, attempts: seq<Attempt>)
    decreases |attempts|
  {
    attempts != [] ==> LegalMove(r.status, attempts[0].to) && Legal(SetStatus(r, attempts[0]), attempts[1..])
  }

  function Booked(r: Record): real { r.executionTime + r.preemptedTime }

  // Everything between first being scheduled and the last status change is booked, and a drift.
  ghost predicate Accounts(r: Record, drift: real) {
    match r.status
    case WAITING =>
      if r.scheduledAt.None? then r.numRestarts == 0 && Booked(r) == 0.0 && drift == 0.0 && !r.isScheduled
      else r.numRestarts > 0 && r.lastRestartAt.At? && r.isScheduled
           && Booked(r) == r.lastRestartAt.t - r.scheduledAt.t + drift
    case RUNNING =>
      r.scheduledAt.At? && r.lastExecutionStartAt.At? && r.isScheduled
      && Booked(r) == r.lastExecutionStartAt.t - r.scheduledAt.t + drift
    case PAUSED =>
      r.scheduledAt.At? && r.lastPauseAt.At? && r.isScheduled
      && Booked(r) == r.lastPauseAt.t - r.scheduledAt.t + drift
    case FINISHED_STOPPED => Completed(r) && r.isScheduled && Booked(r) == r.completedAt.t - r.scheduledAt.t + drift
    case FINISHED_LENGTH_CAPPED => Completed(r) && r.isScheduled && Booked(r) == r.completedAt.t - r.scheduledAt.t + drift
    case FINISHED_IGNORED => Completed(r) && r.completedAt == r.scheduledAt && (!r.isScheduled ==> Booked(r) == 0.0 && drift == 0.0)
    case FINISHED_ABORTED => Completed(r) && r.completedAt == r.scheduledAt && (!r.isScheduled ==> Booked(r) == 0.0 && drift == 0.0)
  }

  predicate Completed(r: Record) { r.isCompleted && r.completedAt.At? && r.scheduledAt.At? }

  lemma AttemptAccounts(r: Record, a: Attempt, drift: real)
    requires Accounts(r, drift)
    ensures Accounts(SetStatus(r, a), drift + Drift(r, a))
    ensures !LegalMove(r.status, a.to) ==> SetStatus(r, a).status == r.status
    ensures LegalMove(r.status, a.to) ==> SetStatus(r, a).status == a.to
  {
    match r.status
    case WAITING => WaitingAccounts(r, a, drift);
    case RUNNING => RunningAccounts(r, a, drift);
    case PAUSED => PausedAccounts(r, a, drift);
    case _ =>
  }

  lemma WaitingAccounts(r: Record, a: Attempt, drift: real)
    requires r.status.WAITING? && Accounts(r, drift)
    ensures Accounts(SetStatus(r, a), drift + Drift(r, a))
  {}

  lemma RunningAccounts(r: Record, a: Attempt, drift: real)
    requires r.status.RUNNING? && Accounts(r, drift)
    ensures Accounts(SetStatus(r, a), drift + Drift(r, a))
  {}

  lemma PausedAccounts(r: Record, a: Attempt, drift: real)
    requires r.status.PAUSED? && Accounts(r, drift)
    ensures Accounts(SetStatus(r, a), drift + Drift(r, a))
  {}

  lemma {:induction false} RunAccounts(r: Record, attempts: seq<Attempt>, drift: real)
    requires Accounts(r, drift)
    ensures Accounts(RunOf(r, attempts), drift + DriftOf(r, attempts))
    decreases |attempts|
  {
    if attempts != [] {
      AttemptAccounts(r, attempts[0], drift);
      RunAccounts(SetStatus(r, attempts[0]), attempts[1..], drift + Drift(r, attempts[0]));
    }
  }

  /** Time accounting: a sequence that ran to its end has every moment since it was first
      scheduled booked as execution or preemption, whatever the clock read and however often it
      was paused and restarted, if and only if the attempts that were rejected booked nothing. */
  lemma TimeAccounting(attempts: seq<Attempt>)
    requires var r := RunOf(NEW, attempts); r.status.FINISHED_STOPPED? || r.status.FINISHED_LENGTH_CAPPED?
    ensures var r := RunOf(NEW, attempts);
            && r.completedAt.At? && r.scheduledAt.At?
            && (Booked(r) == r.completedAt.t - r.scheduledAt.t <==> DriftOf(NEW, attempts) == 0.0)
  {
    RunAccounts(NEW, attempts, 0.0);
  }

  lemma {:induction false} LegalRunsDoNotDrift(r: Record, attempts: seq<Attempt>)
    requires Legal(r, attempts)
    ensures DriftOf(r, attempts) == 0.0
    decreases |attempts|
  {
    if attempts != [] { LegalRunsDoNotDrift(SetStatus(r, attempts[0]), attempts[1..]); }
  }

  /** Finished states are absorbing: no later attempt changes anything. */
  lemma {:induction false} FinishedIsAbsorbing(r: Record, attempts: seq<Attempt>)
    requires r.status.Finished()
    ensures RunOf(r, attempts) == r
    decreases |attempts|
  {
    if attempts != [] { FinishedIsAbsorbing(r, attempts[1..]); }
  }

  /** What is booked where, told from the attempts alone. */

  // The time spent in a status that was then left.
  function TimeIn(what: Status, attempts: seq<Attempt>): real
    decreases |attempts|
  {
    if |attempts| < 2 then 0.0
    else (if attempts[0].to == what then attempts[1].now - attempts[0].now else 0.0) + TimeIn(what, attempts[1..])
  }

  // The time spent waiting to run again.
  function TimeRequeued(attempts: seq<Attempt>): real
    decreases |attempts|
  {
    if |attempts| < 2 then 0.0
    else (if attempts[0].to.WAITING? && attempts[1].to.RUNNING? then attempts[1].now - attempts[0].now else 0.0)
         + TimeRequeued(attempts[1..])
  }

  function TimesTo(what: Status, attempts: seq<Attempt>): nat {
    if attempts == [] then 0 else (if attempts[0].to == what then 1 else 0) + TimesTo(what, attempts[1..])
  }

  // When the present stay began, where that is on record.
  ghost predicate Since(r: Record, at: real) {
    && (r.status.RUNNING? ==> r.lastExecutionStartAt == At(at))
    && (r.status.PAUSED? ==> r.lastPauseAt == At(at))
    && (r.status.WAITING? && r.scheduledAt.At? ==> r.lastRestartAt == At(at))
  }

  // What the end of the present stay will book as execution, as a pause, and as waiting again.
  function Running(r: Record, at: real, attempts: seq<Attempt>): real {
    if attempts != [] && r.status.RUNNING? then attempts[0].now - at else 0.0
  }

  function Pausing(r: Record, at: real, attempts: seq<Attempt>): real {
    if attempts != [] && r.status.PAUSED? then attempts[0].now - at else 0.0
  }

  function Requeued(r: Record, at: real, attempts: seq<Attempt>): real {
    if attempts != [] && r.status.WAITING? && r.scheduledAt.At? && attempts[0].to.RUNNING? then attempts[0].now - at else 0.0
  }

  lemma OneStay(r: Record, at: real, a: Attempt)
    requires LegalMove(r.status, a.to) && Since(r, at)
    ensures var t := SetStatus(r, a);
            && Since(t, a.now) && t.status == a.to
            && t.executionTime == r.executionTime + Running(r, at, [a])
            && t.pausedTime == r.pausedTime + Pausing(r, at, [a])
            && t.preemptedTime == r.preemptedTime + Pausing(r, at, [a]) + Requeued(r, at, [a])
            && t.numPauses == r.numPauses + (if a.to.PAUSED? then 1 else 0)
            && t.numRestarts == r.numRestarts + (if a.to.WAITING? then 1 else 0)
            && (a.to.WAITING? ==> t.scheduledAt == r.scheduledAt)
            && (r.scheduledAt.At? ==> t.scheduledAt.At?) && (a.to.RUNNING? || a.to.PAUSED? ==> r.status.WAITING? || t.scheduledAt == r.scheduledAt)
  {}

  lemma {:induction false} StaysAddUp(r: Record, at: real, attempts: seq<Attempt>)
    requires Legal(r, attempts) && Since(r, at)
    requires r.status.RUNNING? || r.status.PAUSED? ==> r.scheduledAt.At?
    ensures var t := RunOf(r, attempts);
            && t.executionTime == r.executionTime + Running(r, at, attempts) + TimeIn(RUNNING, attempts)
            && t.pausedTime == r.pausedTime + Pausing(r, at, attempts) + TimeIn(PAUSED, attempts)
            && t.preemptedTime == r.preemptedTime + Pausing(r, at, attempts) + Requeued(r, at, attempts)
                                  + TimeIn(PAUSED, attempts) + TimeRequeued(attempts)
            && t.numPauses == r.numPauses + TimesTo(PAUSED, attempts)
            && t.numRestarts == r.numRestarts + TimesTo(WAITING, attempts)
    decreases |attempts|
  {
    if attempts != [] {
      var a := attempts[0];
      var t := SetStatus(r, a);
      OneStay(r, at, a);
      StaysAddUp(t, a.now, attempts[1..]);
    }
  }

  /** Each part on its own: execution is the time running, paused time the time paused, and
      preempted time that and the time waiting to run again; restarts and pauses are counted. */
  lemma PartsAccount(attempts: seq<Attempt>)
    requires Legal(NEW, attempts)
    ensures var r := RunOf(NEW, attempts);
            && r.executionTime == TimeIn(RUNNING, attempts)
            && r.pausedTime == TimeIn(PAUSED, attempts)
            && r.preemptedTime == TimeIn(PAUSED, attempts) + TimeRequeued(attempts)
            && r.numPauses == TimesTo(PAUSED, attempts) && r.numRestarts == TimesTo(WAITING, attempts)
  {
    StaysAddUp(NEW, 0.0, attempts);
  }

  // What the flags of a record tell, whatever was attempted.
  predicate FlagsAreRight(r: Record) {
    && (r.aborted <==> r.status.FINISHED_ABORTED?)
    && (r.isIgnoreFinished <==> r.status.FINISHED_IGNORED?)
    && (r.isCompleted <==> r.status.Finished())
    && (r.completedAt.At? <==> r.status.Finished())
  }

  lemma {:induction false} FlagsTellStatus(r: Record, attempts: seq<Attempt>)
    requires FlagsAreRight(r)
    ensures FlagsAreRight(RunOf(r, attempts))
    decreases |attempts|
  {
    if attempts != [] { FlagsTellStatus(SetStatus(r, attempts[0]), attempts[1..]); }
  }

  // The first start among the attempts.
  function FirstStart(attempts: seq<Attempt>): Time {
    if attempts == [] then None else if attempts[0].to.RUNNING? then At(attempts[0].now) else FirstStart(attempts[1..])
  }

  lemma {:induction false} StampsAreKept(r: Record, attempts: seq<Attempt>)
    requires Legal(r, attempts) && !RunOf(r, attempts).status.FINISHED_IGNORED? && !RunOf(r, attempts).status.FINISHED_ABORTED?
    requires FlagsAreRight(r) && (r.status.WAITING? || r.scheduledAt.At?)
    ensures RunOf(r, attempts).scheduledAt == if r.scheduledAt.At? then r.scheduledAt else FirstStart(attempts)
    ensures attempts != [] && RunOf(r, attempts).status.Finished() ==> RunOf(r, attempts).completedAt == At(attempts[|attempts| - 1].now)
    decreases |attempts|
  {
    if attempts != [] {
      var t := SetStatus(r, attempts[0]);
      FlagsTellStatus(r, [attempts[0]]);
      if t.status.Finished() {
        assert attempts[1..] == [];
      } else {
        StampsAreKept(t, attempts[1..]);
      }
    }
  }

  /** The flags and stamps of a record: aborted, ignored and completed as its status says, whatever was
      attempted; and for a request that is not dropped, scheduled when it was first started and completed
      at its last change. */
  lemma StampsTellTheLife(attempts: seq<Attempt>)
    ensures FlagsAreRight(RunOf(NEW, attempts))
    ensures var r := RunOf(NEW, attempts);
            Legal(NEW, attempts) && !r.status.FINISHED_IGNORED? && !r.status.FINISHED_ABORTED? ==>
              && r.scheduledAt == FirstStart(attempts)
              && (r.status.Finished() ==> attempts != [] && r.completedAt == At(attempts[|attempts| - 1].now))
  {
    FlagsTellStatus(NEW, attempts);
    var r := RunOf(NEW, attempts);
    if Legal(NEW, attempts) && !r.status.FINISHED_IGNORED? && !r.status.FINISHED_ABORTED? { StampsAreKept(NEW, attempts); }
  }

  // Readings of a clock that always advances.
  ghost predicate Ticking(from: real, attempts: seq<Attempt>)
    decreases |attempts|
  {
    attempts != [] ==> attempts[0].now > from && Ticking(attempts[0].now, attempts[1..])
  }

  // Under such a clock a scheduled sequence that is not running its first stretch has time booked.
  ghost predicate Positive(r: Record, last: real) {
    && (r.isScheduled ==> Booked(r) >= 0.0)
    && (r.isScheduled && !r.status.RUNNING? ==> Booked(r) > 0.0)
    && (r.status.RUNNING? && r.lastExecutionStartAt.At? ==> r.lastExecutionStartAt.t <= last)
    && (r.status.PAUSED? && r.lastPauseAt.At? ==> r.lastPauseAt.t <= last)
    && (r.status.WAITING? && r.lastRestartAt.At? ==> r.lastRestartAt.t <= last)
  }

  // No attempt is rejected while the sequence runs or is paused.
  ghost predicate NoneRejectedLate(r: Record, attempts: seq<Attempt>)
    decreases |attempts|
  {
    attempts != [] ==>
      && (r.status.Executing() ==> LegalMove(r.status, attempts[0].to))
      && NoneRejectedLate(SetStatus(r, attempts[0]), attempts[1..])
  }

  lemma {:induction false} DriftExactly(r: Record, attempts: seq<Attempt>, from: real, drift: real)
    requires Accounts(r, drift) && Positive(r, from)
    requires Ticking(from, attempts)
    ensures DriftOf(r, attempts) >= 0.0
    ensures DriftOf(r, attempts) == 0.0 <==> NoneRejectedLate(r, attempts)
    decreases |attempts|
  {
    if attempts != [] {
      AttemptAccounts(r, attempts[0], drift);
      DriftExactly(SetStatus(r, attempts[0]), attempts[1..], attempts[0].now, drift + Drift(r, attempts[0]));
    }
  }

  /** Under a clock that advances the accounting holds exactly when no status change was rejected
      while the sequence was running or paused. */
  lemma TimeAccountingExactly(attempts: seq<Attempt>)
    requires Ticking(0.0, attempts)
    requires var r := RunOf(NEW, attempts); r.status.FINISHED_STOPPED? || r.status.FINISHED_LENGTH_CAPPED?
    ensures var r := RunOf(NEW, attempts);
            && r.completedAt.At? && r.scheduledAt.At?
            && (Booked(r) == r.completedAt.t - r.scheduledAt.t <==> NoneRejectedLate(NEW, attempts))
  {
    TimeAccounting(attempts);
    NewDriftsExactly(attempts);
  }

  // Started at 1, stopped in vain at 2, paused at 3 and stopped at 4: four units are booked for three.
  const RejectedStop: seq<Attempt> := [Attempt(1.0, RUNNING), Attempt(2.0, FINISHED_STOPPED)] + [Attempt(3.0, PAUSED), Attempt(4.0, FINISHED_STOPPED)]

  lemma RejectedStopIsBookedTwice()
    ensures Ticking(0.0, RejectedStop) && !NoneRejectedLate(NEW, RejectedStop)
    ensures var r := RunOf(NEW, RejectedStop);
            r.status.FINISHED_STOPPED? && r.scheduledAt == At(1.0) && r.completedAt == At(4.0) && Booked(r) == 4.0
  {
    var a, b, c, d := RejectedStop[0], RejectedStop[1], RejectedStop[2], RejectedStop[3];
    var r1 := SetStatus(NEW, a);
    var r2 := SetStatus(r1, b);
    var r3 := SetStatus(r2, c);
    assert RejectedStop[1..] == [b, c, d];
    assert [b, c, d][1..] == [c, d];
    assert [c, d][1..] == [d];
    assert [d][1..] == [];
    assert r1.status.RUNNING? && !LegalMove(r1.status, b.to);
    assert RunOf(NEW, RejectedStop) == RunOf(r1, [b, c, d]) == RunOf(r2, [c, d]) == RunOf(r3, [d]) == SetStatus(r3, d);
    assert Ticking(3.0, [d]) && Ticking(2.0, [c, d]) && Ticking(1.0, [b, c, d]);
    assert !NoneRejectedLate(r1, [b, c, d]);
  }

  lemma NewDriftsExactly(attempts: seq<Attempt>)
    requires Ticking(0.0, attempts)
    ensures DriftOf(NEW, attempts) == 0.0 <==> NoneRejectedLate(NEW, attempts)
  {
    var r := NEW;
    assert Accounts(r, 0.0) && Positive(r, 0.0);
    DriftExactly(r, attempts, 0.0, 0.0);
  }

  lemma {:induction false} BookedIsPositive(r: Record, attempts: seq<Attempt>, from: real, drift: real)
    requires Accounts(r, drift) && Positive(r, from)
    requires Ticking(from, attempts)
    ensures RunOf(r, attempts).isScheduled && !RunOf(r, attempts).status.RUNNING? ==> Booked(RunOf(r, attempts)) > 0.0
    decreases |attempts|
  {
    if attempts != [] {
      AttemptAccounts(r, attempts[0], drift);
      BookedIsPositive(SetStatus(r, attempts[0]), attempts[1..], attempts[0].now, drift + Drift(r, attempts[0]));
    }
  }

  // Of the attempts a waiting request accepts the first starts it, and does not drop it.
  predicate StartsFirst(attempts: seq<Attempt>)
    decreases |attempts|
  {
    attempts != [] &&
    (attempts[0].to.RUNNING? ||
     (!attempts[0].to.FINISHED_IGNORED? && !attempts[0].to.FINISHED_ABORTED? && StartsFirst(attempts[1..])))
  }

  lemma {:induction false} ScheduledStays(r: Record, attempts: seq<Attempt>)
    requires r.isScheduled
    ensures RunOf(r, attempts).isScheduled
    decreases |attempts|
  {
    if attempts != [] { ScheduledStays(SetStatus(r, attempts[0]), attempts[1..]); }
  }

  lemma {:induction false} ScheduledExactly(attempts: seq<Attempt>)
    ensures RunOf(NEW, attempts).isScheduled <==> StartsFirst(attempts)
    decreases |attempts|
  {
    if attempts != [] {
      var a := attempts[0];
      var r := SetStatus(NEW, a);
      if a.to.RUNNING? {
        ScheduledStays(r, attempts[1..]);
      } else if a.to.FINISHED_IGNORED? || a.to.FINISHED_ABORTED? {
        FinishedIsAbsorbing(r, attempts[1..]);
      } else {
        ScheduledExactly(attempts[1..]);
      }
    }
  }

  /** For a request that is ignored or aborted the accounting holds exactly when it was dropped
      before it was ever started: being dropped after a restart overwrites scheduled_at. */
  lemma DroppedAccounting(attempts: seq<Attempt>)
    requires Ticking(0.0, attempts)
    requires var r := RunOf(NEW, attempts); r.status.FINISHED_IGNORED? || r.status.FINISHED_ABORTED?
    ensures var r := RunOf(NEW, attempts);
            && r.completedAt.At? && r.scheduledAt.At?
            && (Booked(r) == r.completedAt.t - r.scheduledAt.t <==> !StartsFirst(attempts))
  {
    RunAccounts(NEW, attempts, 0.0);
    BookedIsPositive(NEW, attempts, 0.0, 0.0);
    ScheduledExactly(attempts);
  }

  // Started at 1, paused at 2, preempted at 3 and aborted at 4: two units are booked for none.
  const RestartDropped: seq<Attempt> := [Attempt(1.0, RUNNING), Attempt(2.0, PAUSED)] + [Attempt(3.0, WAITING), Attempt(4.0, FINISHED_ABORTED)]

  lemma DroppedRestartIsOverbooked()
    ensures Ticking(0.0, RestartDropped) && Legal(NEW, RestartDropped) && StartsFirst(RestartDropped)
    ensures var r := RunOf(NEW, RestartDropped);
            r.status.FINISHED_ABORTED? && r.scheduledAt == At(4.0) && r.completedAt == At(4.0) && Booked(r) == 2.0
  {
    var a, b, c, d := RestartDropped[0], RestartDropped[1], RestartDropped[2], RestartDropped[3];
    var r1 := SetStatus(NEW, a);
    var r2 := SetStatus(r1, b);
    var r3 := SetStatus(r2, c);
    assert RestartDropped[1..] == [b, c, d];
    assert [b, c, d][1..] == [c, d];
    assert [c, d][1..] == [d];
    assert [d][1..] == [];
    assert RunOf(NEW, RestartDropped) == RunOf(r1, [b, c, d]) == RunOf(r2, [c, d]) == RunOf(r3, [d]) == SetStatus(r3, d);
    assert Ticking(3.0, [d]) && Ticking(2.0, [c, d]) && Ticking(1.0, [b, c, d]);
    assert Legal(r3, [d]) && Legal(r2, [c, d]) && Legal(r1, [b, c, d]);
  }

  /** Where the end-to-end time goes. */

  // What a property gives: a time, nothing yet, or an error over a missing time stamp.
  datatype Reading = Is(t: real) | Absent | Raises

  datatype Journey = Journey(
    arrivedAt: real,
    seqLeftAt: Time,         // left the first instance
    seqArriveAt: Time,       // reached the second one
    rescheduleStart: Time,
    rescheduleEnd: Time,
    leftPrefillAt: Time,     // the same for a sequence decoded elsewhere
    arrivedDecodeAt: Time,
    transferStart: Time,
    transferEnd: Time)
  {
    // The time stamps e2e_time computes with, beside completed_at.
    predicate Stamped() {
      if arrivedDecodeAt.Truthy() then leftPrefillAt.At? && transferStart.At? && transferEnd.At?
      else seqLeftAt.Truthy() ==> Rescheduled() && seqArriveAt.At?
    }

    predicate Rescheduled() { rescheduleStart.At? && rescheduleEnd.At? }

    // e2e_time
    function E2e(r: Record): Reading {
      if r.completedAt.None? then Absent
      else if arrivedDecodeAt.Truthy() then
        if !Stamped() then Raises
        else Is((leftPrefillAt.t - arrivedAt) + (r.completedAt.t - arrivedDecodeAt.t) + (transferEnd.t - transferStart.t))
      else if seqLeftAt.Truthy() then
        if !Stamped() then Raises
        else Is((seqLeftAt.t - arrivedAt) + (rescheduleEnd.t - rescheduleStart.t) + (r.completedAt.t - seqArriveAt.t))
      else Is(r.completedAt.t - arrivedAt)
    }

    // scheduling_delay
    function SchedulingDelay(r: Record): Reading {
      if seqArriveAt.Truthy() then
        if r.scheduledAt.None? || !Rescheduled() || seqLeftAt.None? then Raises
        else Is((r.scheduledAt.t - seqArriveAt.t) + (rescheduleEnd.t - rescheduleStart.t) + (seqLeftAt.t - arrivedAt))
      else if r.scheduledAt.At? then Is(r.scheduledAt.t - arrivedAt)
      else Absent
    }
  }

  // The instants the two properties add and take away between arrival and the last stay agree.
  predicate SameAccount(j: Journey) {
    var moved := j.seqLeftAt.Or0() + (j.rescheduleEnd.Or0() - j.rescheduleStart.Or0()) - j.seqArriveAt.Or0();
    if j.arrivedDecodeAt.Truthy() then
      j.leftPrefillAt.Or0() + (j.transferEnd.Or0() - j.transferStart.Or0()) - j.arrivedDecodeAt.t
        == if j.seqArriveAt.Truthy() then moved else 0.0
    else (j.seqLeftAt.Truthy() <==> j.seqArriveAt.Truthy()) || moved == 0.0
  }

  /** End-to-end time is scheduling delay plus execution and preemption, for a sequence served
      where it arrived and for a rescheduled one, if and only if the two properties take the same
      branch, or happen to agree: a time stamp of exactly zero counts as absent in each alone.
      For a sequence decoded elsewhere the time in transit must match the two clocks. Each
      property raises exactly when a time stamp it computes with is missing. */
  lemma EndToEnd(j: Journey, attempts: seq<Attempt>)
    requires Legal(NEW, attempts)
    requires var r := RunOf(NEW, attempts); r.status.FINISHED_STOPPED? || r.status.FINISHED_LENGTH_CAPPED?
    ensures var r := RunOf(NEW, attempts);
            && (if j.Stamped() then j.E2e(r).Is? else j.E2e(r).Raises?)
            && (if j.seqArriveAt.Truthy() ==> j.Rescheduled() && j.seqLeftAt.At? then j.SchedulingDelay(r).Is?
                else j.SchedulingDelay(r).Raises?)
            && (j.E2e(r).Is? && j.SchedulingDelay(r).Is? ==>
                  (j.E2e(r).t == j.SchedulingDelay(r).t + Booked(r) <==> SameAccount(j)))
  {
    LegalRunsDoNotDrift(NEW, attempts);
    TimeAccounting(attempts);
  }

  /** The object. */
  class State {
    var status: Status
    var isScheduled: bool
    var isCompleted: bool
    var isIgnoreFinished: bool
    var aborted: bool
    var scheduledAt: Time
    var completedAt: Time
    var lastRestartAt: Time
    var lastPauseAt: Time
    var lastExecutionStartAt: Time
    var executionTime: real
    var preemptedTime: real
    var pausedTime: real
    var numRestarts: nat
    var numPauses: nat

    function View(): Record
      reads this
    {
      Record(status, isScheduled, isCompleted, isIgnoreFinished, aborted, scheduledAt, completedAt, lastRestartAt,
             lastPauseAt, lastExecutionStartAt, executionTime, preemptedTime, pausedTime, numRestarts, numPauses)
    }

    ghost predicate Valid()
      reads this
    {
      exists drift :: Accounts(View(), drift)
    }

    constructor ()
      ensures Valid() && View() == NEW
    {
      status := WAITING;
      isScheduled, isCompleted, isIgnoreFinished, aborted := false, false, false, false;
      scheduledAt, completedAt, lastRestartAt, lastPauseAt, lastExecutionStartAt := None, None, None, None, None;
      executionTime, preemptedTime, pausedTime := 0.0, 0.0, 0.0;
      numRestarts, numPauses := 0, 0;
      new;
      assert Accounts(View(), 0.0);
    }

    // Both assertions about restarts hold; ok is false where the source raises.
    method HandleTransitionsFromWaiting(now: real, to: Status) returns (ok: bool)
      requires Valid() && status.WAITING?
      modifies this
      ensures ok <==> LegalMove(WAITING, to)
      ensures View() == FromWaiting(old(View()), now, to).(status := WAITING)
    {
      if to.RUNNING? {
        if scheduledAt.None? {
          assert numRestarts == 0;
          isScheduled := true;
          scheduledAt := At(now);
        } else {
          assert numRestarts > 0 && lastRestartAt.At?;
          preemptedTime := preemptedTime + (now - lastRestartAt.t);
        }
        lastExecutionStartAt := At(now);
      } else if to.FINISHED_IGNORED? {
        isIgnoreFinished, isCompleted := true, true;
        completedAt := At(now);
        scheduledAt := At(now);
      } else if to.FINISHED_ABORTED? {
        aborted, isCompleted := true, true;
        completedAt := At(now);
        scheduledAt := At(now);
      } else {
        return false;
      }
      return true;
    }

    method HandleTransitionsFromRunning(now: real, to: Status) returns (ok: bool)
      requires Valid() && status.RUNNING?
      modifies this
      ensures ok <==> LegalMove(RUNNING, to)
      ensures View() == FromRunning(old(View()), now, to).(status := RUNNING)
    {
      assert lastExecutionStartAt.At?;
      executionTime := executionTime + (now - lastExecutionStartAt.t);
      if to.PAUSED? {
        numPauses := numPauses + 1;
        lastPauseAt := At(now);
      } else if to.WAITING? {
        numRestarts := numRestarts + 1;
        lastRestartAt := At(now);
      } else {
        return false;
      }
      return true;
    }

    method HandleTransitionsFromPaused(now: real, to: Status) returns (ok: bool)
      requires Valid() && status.PAUSED?
      modifies this
      ensures ok <==> LegalMove(PAUSED, to)
      ensures View() == FromPaused(old(View()), now, to).(status := PAUSED)
    {
      assert lastPauseAt.At?;
      pausedTime := pausedTime + (now - lastPauseAt.t);
      preemptedTime := preemptedTime + (now - lastPauseAt.t);
      if to.FINISHED_STOPPED? || to.FINISHED_LENGTH_CAPPED? {
        isCompleted := true;
        completedAt := At(now);
      } else if to.RUNNING? {
        lastExecutionStartAt := At(now);
      } else if to.WAITING? {
        numRestarts := numRestarts + 1;
        lastRestartAt := At(now);
      } else {
        return false;
      }
      return true;
    }

    method HandleTransitions(now: real, to: Status) returns (ok: bool)
      requires Valid()
      modifies this
      ensures ok <==> LegalMove(old(status), to)
      ensures View() == SetStatus(old(View()), Attempt(now, to)).(status := old(status))
    {
      match status
      case WAITING => ok := HandleTransitionsFromWaiting(now, to);
      case RUNNING => ok := HandleTransitionsFromRunning(now, to);
      case PAUSED => ok := HandleTransitionsFromPaused(now, to);
      case _ => ok := false;
    }

    /** set_status: raises exactly on the illegal moves, which keep the status but, while running
        or paused, still book the time. */
    method SetStatusTo(now: real, to: Status) returns (ok: bool)
      requires Valid()
      modifies this
      ensures Valid()
      ensures ok <==> LegalMove(old(status), to)
      ensures View() == SetStatus(old(View()), Attempt(now, to))
    {
      ghost var r, a := View(), Attempt(now, to);
      AttemptIsAccounted(r, a);
      ok := HandleTransitions(now, to);
      ghost var w := View();
      if ok {
        status := to;
      }
      assert View() == w.(status := status);
    }
  }

  lemma AttemptIsAccounted(r: Record, a: Attempt)
    requires exists drift :: Accounts(r, drift)
    ensures exists drift :: Accounts(SetStatus(r, a), drift)
    ensures SetStatus(r, a).status == if LegalMove(r.status, a.to) then a.to else r.status
  {
    var drift :| Accounts(r, drift);
    AttemptAccounts(r, a, drift);
  }
}
