/** The heart-rate page: a simulated measurement whose progress advances on a
    100 ms interval and which, when stopped, shows and saves one reading.
    Each interval callback is one call of `Tick`; the random draw is the
    parameter `random` in [0, 1), and the day stamp is the parameter `today`. */
module HeartRateMeasure {
  import opened Wrappers
  import opened HealthData

  const IdleSignal := "Place finger on camera"
  const MeasuringSignal := "Measuring... Hold still"
  const CompleteSignal := "Measurement complete \U{2713}"

  /** `Math.floor(Math.random() * 25) + 65`. */
  function MeasuredBpm(random: real): (bpm: int)
    requires 0.0 <= random < 1.0
    ensures 65 <= bpm <= 89
  {
    (random * 25.0).Floor + 65
  }

  /** Every reading in [65, 89] is produced by some draw. */
  lemma EveryBpmInRangeIsDrawn(bpm: int)
    requires 65 <= bpm <= 89
    ensures 0.0 <= (bpm - 65) as real / 25.0 < 1.0
    ensures MeasuredBpm((bpm - 65) as real / 25.0) == bpm
  {
    var r := (bpm - 65) as real / 25.0;
    assert r * 25.0 == (bpm - 65) as real;
  }

  /** The record a measurement saves: its day and heart rate, nothing else. */
  function HeartRateRecord(today: string, bpm: int): (rec: HealthRecord)
    ensures rec.date == today && rec.heartRate == Some(bpm)
    ensures rec.bloodPressureSystolic.None? && rec.bloodPressureDiastolic.None?
    ensures rec.cholesterol.None? && rec.bloodSugar.None? && rec.weight.None?
    ensures rec.riskLevel.None? && rec.riskPercentage.None?
  {
    HealthRecord(today, Some(bpm), None, None, None, None, None, None, None)
  }

  /** The progress updater of one tick. */
  function NextProgress(prev: int): int {
    if prev >= 100 then 100 else prev + 2
  }

  /** Progress after `ticks` ticks of a measurement that is never stopped by
      hand. */
  function ProgressAfter(ticks: nat): int {
    if ticks == 0 then 0 else NextProgress(ProgressAfter(ticks - 1))
  }

  /** Progress climbs by 2 a tick to exactly 100 and stays there. */
  lemma {:induction false} ProgressAfterTicks(ticks: nat)
    ensures ProgressAfter(ticks) == if ticks <= 50 then 2 * ticks else 100
  {
    if ticks > 0 {
      ProgressAfterTicks(ticks - 1);
    }
  }

  /** A tick stops the measurement when it sees progress at 100: the 51st
      tick is the first to do so, 5.1 seconds in. */
  lemma FiftyFirstTickStops(ticks: nat)
    requires ticks >= 1
    ensures ProgressAfter(ticks - 1) >= 100 <==> ticks >= 51
  {
    ProgressAfterTicks(ticks - 1);
  }

  class HeartRateMonitor {
    var isRecording: bool
    var bpm: Option<int>
    var progress: int
    var signal: string
    /** Whether the interval is set (`intervalRef.current` not cleared). */
    var intervalActive: bool

    /** Progress stays an even number in [0, 100]; the interval runs exactly
        while recording; a reading is shown only when not recording and is
        always in [65, 89]. */
    ghost predicate Valid()
      reads this
    {
      && 0 <= progress <= 100 && progress % 2 == 0
      && intervalActive == isRecording
      && (isRecording ==> bpm.None?)
      && (bpm.Some? ==> 65 <= bpm.value <= 89)
    }

    constructor ()
      ensures Valid() && !isRecording && bpm.None? && progress == 0 && signal == IdleSignal
    {
      isRecording, bpm, progress, signal, intervalActive := false, None, 0, IdleSignal, false;
    }

    /** `startMeasurement`, reached from the button when not recording. */
    method Start()
      requires Valid() && !isRecording
      modifies this
      ensures Valid() && isRecording && bpm.None? && progress == 0 && signal == MeasuringSignal
    {
      isRecording := true;
      bpm := None;
      progress := 0;
      signal := MeasuringSignal;
      intervalActive := true;
    }

    /** `stopMeasurement`: recording ends, the interval is cleared, and one
        heart-rate record holding the displayed reading is saved. */
    method Stop(store: HealthStore, random: real, today: string)
      requires Valid() && 0.0 <= random < 1.0
      modifies this, store
      ensures Valid() && !isRecording && !intervalActive && progress == old(progress)
      ensures bpm == Some(MeasuredBpm(random)) && signal == CompleteSignal
      ensures store.healthRecords == old(store.healthRecords) + [HeartRateRecord(today, bpm.value)]
    {
      isRecording := false;
      intervalActive := false;
      var measuredBpm := MeasuredBpm(random);
      bpm := Some(measuredBpm);
      signal := CompleteSignal;
      store.AddHealthRecord(HeartRateRecord(today, measuredBpm));
    }

    /** One interval callback: below 100 progress moves up by 2; at 100 the
        measurement stops and progress stays at 100. */
    method Tick(store: HealthStore, random: real, today: string)
      requires Valid() && intervalActive && 0.0 <= random < 1.0
      modifies this, store
      ensures Valid()
      ensures progress == NextProgress(old(progress))
      ensures old(progress) < 100 ==>
                && isRecording && bpm == old(bpm) && signal == old(signal)
                && store.healthRecords == old(store.healthRecords)
      ensures old(progress) >= 100 ==>
                && !isRecording && bpm == Some(MeasuredBpm(random)) && signal == CompleteSignal
                && store.healthRecords == old(store.healthRecords) + [HeartRateRecord(today, bpm.value)]
    {
      if progress >= 100 {
        Stop(store, random, today);
        progress := 100;
      } else {
        progress := progress + 2;
      }
    }

    /** The main button: stop while recording, start otherwise. */
    method Press(store: HealthStore, random: real, today: string)
      requires Valid() && 0.0 <= random < 1.0
      modifies this, store
      ensures Valid() && isRecording == !old(isRecording)
      ensures old(isRecording) ==>
                && bpm == Some(MeasuredBpm(random)) && signal == CompleteSignal
                && progress == old(progress)
                && store.healthRecords == old(store.healthRecords) + [HeartRateRecord(today, bpm.value)]
      ensures !old(isRecording) ==>
                && progress == 0 && bpm.None? && signal == MeasuringSignal
                && store.healthRecords == old(store.healthRecords)
    {
      if isRecording {
        Stop(store, random, today);
      } else {
        Start();
      }
    }
  }
}
