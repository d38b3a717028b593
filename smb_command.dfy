/**
 * The automated micro-bolus (SMB) command of the pump command queue.
 * `Execute` consults the time of the last bolus and the request's
 * deadline and either hands the request to the pump driver or produces a
 * failed result without contacting the pump; both paths report exactly one
 * result to the callback, when there is one. `Cancel` reports a failed
 * result and never contacts the pump.
 */
module SmbCommand {
  import opened Interfaces

  /** `T.mins(3).msecs()`: the minimum spacing between two boluses. */
  const BolusIntervalMs: int := 3 * 60 * 1000
  /** `T.mins(1).msecs()`: the grace period after the delivery deadline. */
  const DeadlineGraceMs: int := 1 * 60 * 1000

  const IntervalComment: Comment := Text("SMB requested but still in 3 min interval")
  const TooOldComment: Comment := Text("SMB request too old")
  const CancelComment: Comment := Resource("connectiontimedout")

  /** The bolus request; `deliverAtTheLatest` is 0 when no deadline was set. */
  datatype DetailedBolusInfo = DetailedBolusInfo(insulin: real, deliverAtTheLatest: int)

  /** A delivered bolus as the repository stores it. */
  datatype BolusRecord = BolusRecord(timestamp: int)

  /** The last bolus time used by the guard: 0 when there is no record. */
  function LastBolusTime(lastBolusRecord: Option<BolusRecord>): (t: int)
    ensures lastBolusRecord.None? ==> t == 0
    ensures lastBolusRecord.Some? ==> t == lastBolusRecord.value.timestamp
  {
    match lastBolusRecord
    case None => 0
    case Some(record) => record.timestamp
  }

  /** The three ways `Execute` can go. */
  datatype Verdict = StillInInterval | Deliver | TooOld

  /** A last bolus less than three minutes before `now` (0 means none). */
  predicate WithinInterval(lastBolusTime: int, now: int)
  {
    lastBolusTime != 0 && now - lastBolusTime < BolusIntervalMs
  }

  /** A deadline that is set and less than a minute in the past. */
  predicate DeadlineOpen(deliverAtTheLatest: int, currentTime: int)
  {
    deliverAtTheLatest != 0 && currentTime - deliverAtTheLatest < DeadlineGraceMs
  }

  /**
   * The guard chain of `execute`: the interval guard (read against
   * `dateUtil.now()`) first, then the deadline guard (read against
   * `System.currentTimeMillis()`).
   */
  function Decide(lastBolusTime: int, deliverAtTheLatest: int, now: int, currentTime: int): (v: Verdict)
    ensures v == StillInInterval <==> WithinInterval(lastBolusTime, now)
    ensures v == Deliver <==>
      !WithinInterval(lastBolusTime, now) && DeadlineOpen(deliverAtTheLatest, currentTime)
    ensures v == TooOld <==>
      !WithinInterval(lastBolusTime, now) && !DeadlineOpen(deliverAtTheLatest, currentTime)
  {
    if lastBolusTime != 0 && lastBolusTime + BolusIntervalMs > now then StillInInterval
    else if deliverAtTheLatest != 0 && deliverAtTheLatest + DeadlineGraceMs > currentTime then Deliver
    else TooOld
  }

  /** The result `execute` reports, given what the pump answers when asked. */
  function ExecuteResult(v: Verdict, pumpAnswer: PumpEnactResult): (r: PumpEnactResult)
    ensures v.Deliver? ==> r == pumpAnswer
    ensures v.StillInInterval? ==> r == PumpEnactResult(false, false, IntervalComment)
    ensures v.TooOld? ==> r == PumpEnactResult(false, false, TooOldComment)
  {
    match v
    case StillInInterval => Failed(IntervalComment)
    case Deliver => pumpAnswer
    case TooOld => Failed(TooOldComment)
  }

  /** The result `cancel` reports. */
  const CancelResult: PumpEnactResult := Failed(CancelComment)

  /**
   * The active pump driver, as far as this command sees it: every call to
   * `deliverTreatment` is recorded in `treatments`, and the driver answers
   * with `answer`.
   */
  class PumpDriver {
    var treatments: seq<DetailedBolusInfo>
    var answer: PumpEnactResult

    constructor (answer: PumpEnactResult)
      ensures treatments == [] && this.answer == answer
    {
      treatments := [];
      this.answer := answer;
    }

    method DeliverTreatment(info: DetailedBolusInfo) returns (r: PumpEnactResult)
      modifies this`treatments
      ensures treatments == old(treatments) + [info]
      ensures r == answer
    {
      treatments := treatments + [info];
      r := answer;
    }
  }

  /** The last-bolus lookup of the application repository. */
  class AppRepository {
    var lastBolusRecord: Option<BolusRecord>

    constructor (lastBolusRecord: Option<BolusRecord>)
      ensures this.lastBolusRecord == lastBolusRecord
    {
      this.lastBolusRecord := lastBolusRecord;
    }

    function GetLastBolusRecord(): (r: Option<BolusRecord>)
      reads this
      ensures r == lastBolusRecord
    {
      lastBolusRecord
    }
  }

  class CommandSmbBolus {
    const detailedBolusInfo: DetailedBolusInfo
    const callback: Callback?
    const pump: PumpDriver
    const repository: AppRepository

    constructor (detailedBolusInfo: DetailedBolusInfo, callback: Callback?, pump: PumpDriver, repository: AppRepository)
      ensures this.detailedBolusInfo == detailedBolusInfo && this.callback == callback
      ensures this.pump == pump && this.repository == repository
    {
      this.detailedBolusInfo := detailedBolusInfo;
      this.callback := callback;
      this.pump := pump;
      this.repository := repository;
    }

    /** The verdict of the guard chain for the given readings of the two clocks. */
    function VerdictAt(now: int, currentTimeMillis: int): (v: Verdict)
      reads repository
    {
      Decide(LastBolusTime(repository.GetLastBolusRecord()), detailedBolusInfo.deliverAtTheLatest, now, currentTimeMillis)
    }

    /**
     * `execute()`: `now` is the reading of `dateUtil.now()` and
     * `currentTimeMillis` that of `System.currentTimeMillis()`.
     * The pump is called once exactly when the verdict is `Deliver`; the
     * callback, if any, receives exactly one result.
     */
    method Execute(now: int, currentTimeMillis: int)
      modifies pump`treatments, callback
      ensures pump.treatments == old(pump.treatments) +
        (if old(VerdictAt(now, currentTimeMillis)).Deliver? then [detailedBolusInfo] else [])
      ensures callback != null ==>
        callback.results == old(callback.results) + [ExecuteResult(old(VerdictAt(now, currentTimeMillis)), old(pump.answer))]
      ensures pump.answer == old(pump.answer)
      ensures repository.lastBolusRecord == old(repository.lastBolusRecord)
    {
      var r: PumpEnactResult;
      var lastBolusTime := LastBolusTime(repository.GetLastBolusRecord());
      if lastBolusTime != 0 && lastBolusTime + BolusIntervalMs > now {
        r := Failed(IntervalComment);
      } else if detailedBolusInfo.deliverAtTheLatest != 0 && detailedBolusInfo.deliverAtTheLatest + DeadlineGraceMs > currentTimeMillis {
        r := pump.DeliverTreatment(detailedBolusInfo);
      } else {
        r := Failed(TooOldComment);
      }
      if callback != null {
        callback.Deliver(r);
      }
    }

    /** `cancel()`: one failed result to the callback, if any; the pump is untouched. */
    method Cancel()
      modifies callback
      ensures callback != null ==> callback.results == old(callback.results) + [CancelResult]
      ensures pump.treatments == old(pump.treatments) && pump.answer == old(pump.answer)
    {
      if callback != null {
        callback.Deliver(CancelResult);
      }
    }
  }

  // Properties of the guard chain.

  /** Inside the interval the result is the interval rejection and the pump is not asked. */
  lemma IntervalGuardRejects(lastBolusTime: int, deliverAtTheLatest: int, now: int, currentTime: int, pumpAnswer: PumpEnactResult)
    requires lastBolusTime != 0 && lastBolusTime + BolusIntervalMs > now
    ensures Decide(lastBolusTime, deliverAtTheLatest, now, currentTime) != Deliver
    ensures ExecuteResult(Decide(lastBolusTime, deliverAtTheLatest, now, currentTime), pumpAnswer)
      == PumpEnactResult(false, false, IntervalComment)
  {
  }

  /** A missing record reads as time 0, which never triggers the interval guard. */
  lemma MissingRecordNeverInInterval(deliverAtTheLatest: int, now: int, currentTime: int)
    ensures Decide(LastBolusTime(None), deliverAtTheLatest, now, currentTime) != StillInInterval
  {
  }

  /** Exactly three minutes after the last bolus the interval is over. */
  lemma IntervalBoundaryIsStrict(lastBolusTime: int, deliverAtTheLatest: int, currentTime: int)
    ensures Decide(lastBolusTime, deliverAtTheLatest, lastBolusTime + BolusIntervalMs, currentTime) != StillInInterval
    ensures lastBolusTime != 0 ==>
      Decide(lastBolusTime, deliverAtTheLatest, lastBolusTime + BolusIntervalMs - 1, currentTime) == StillInInterval
  {
  }

  /** Exactly one minute after the deadline the request is too old; 1 ms earlier it goes to the pump. */
  lemma DeadlineBoundaryIsStrict(lastBolusTime: int, deliverAtTheLatest: int, now: int)
    requires !WithinInterval(lastBolusTime, now) && deliverAtTheLatest != 0
    ensures Decide(lastBolusTime, deliverAtTheLatest, now, deliverAtTheLatest + DeadlineGraceMs) == TooOld
    ensures Decide(lastBolusTime, deliverAtTheLatest, now, deliverAtTheLatest + DeadlineGraceMs - 1) == Deliver
  {
  }

  /** When both guards would reject, the interval comment is the one reported. */
  lemma IntervalGuardTakesPrecedence(lastBolusTime: int, deliverAtTheLatest: int, now: int, currentTime: int, pumpAnswer: PumpEnactResult)
    requires WithinInterval(lastBolusTime, now)
    requires !DeadlineOpen(deliverAtTheLatest, currentTime)
    ensures ExecuteResult(Decide(lastBolusTime, deliverAtTheLatest, now, currentTime), pumpAnswer).comment == IntervalComment
  {
  }

  /** An unset or expired deadline (past the interval guard) gives the too-old rejection. */
  lemma StaleRequestRejected(lastBolusTime: int, deliverAtTheLatest: int, now: int, currentTime: int, pumpAnswer: PumpEnactResult)
    requires !WithinInterval(lastBolusTime, now)
    requires deliverAtTheLatest == 0 || deliverAtTheLatest + DeadlineGraceMs <= currentTime
    ensures Decide(lastBolusTime, deliverAtTheLatest, now, currentTime) == TooOld
    ensures ExecuteResult(TooOld, pumpAnswer) == PumpEnactResult(false, false, TooOldComment)
  {
  }

  /** Every rejection by a guard is a failed, non-enacted result. */
  lemma RejectionsNeverEnact(v: Verdict, pumpAnswer: PumpEnactResult)
    requires !v.Deliver?
    ensures !ExecuteResult(v, pumpAnswer).success && !ExecuteResult(v, pumpAnswer).enacted
  {
  }

  /** The cancel result is failed. */
  lemma CancelResultFails()
    ensures !CancelResult.success && !CancelResult.enacted && CancelResult.comment == CancelComment
  {
  }

  /**
   * A client of the command: with a record two minutes old the pump is not
   * called and the caller sees the interval rejection; four minutes later
   * the request goes to the pump, whose answer is passed through.
   */
  method IntervalScenario(t: int, answer: PumpEnactResult)
    requires t > 0
  {
    var pump := new PumpDriver(answer);
    var repository := new AppRepository(Some(BolusRecord(t)));
    var sink := new Callback();
    var info := DetailedBolusInfo(0.3, t + 2 * 60 * 1000);
    var command := new CommandSmbBolus(info, sink, pump, repository);
    command.Execute(t + 2 * 60 * 1000, t + 2 * 60 * 1000);
    assert pump.treatments == [];
    assert sink.results == [PumpEnactResult(false, false, IntervalComment)];
    var later := new CommandSmbBolus(DetailedBolusInfo(0.3, t + 4 * 60 * 1000), sink, pump, repository);
    later.Execute(t + 4 * 60 * 1000, t + 4 * 60 * 1000);
    assert |pump.treatments| == 1;
    assert sink.results[1] == answer;
  }
}
