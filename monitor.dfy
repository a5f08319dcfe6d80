/** The control pipeline of Src/main.c: the TIM16 tick flag, the sensor read it
    gates, the OLED status machine with its render counter, the sensor on/off
    switch and the heart-rate alarm, over the globals the source keeps. The
    sensor, display, LED and scheduler drivers are not part of this model;
    their calls are recorded as actions in a trace, and the readings they
    return are inputs. */
module Monitor {
  import opened Bytes

  /** The display states of oled.h. The model assumes only that they differ. */
  datatype OledCodes = OledCodes(def: UInt8, shutDown: UInt8, max30102: UInt8, ble: UInt8)

  type DistinctOledCodes = c: OledCodes
    | c.def != c.shutDown && c.def != c.max30102 && c.def != c.ble
      && c.shutDown != c.max30102 && c.shutDown != c.ble && c.max30102 != c.ble
    witness OledCodes(0, 1, 2, 3)

  const OLED: DistinctOledCodes
  const OLED_STATUS_DEF: UInt8 := OLED.def
  const OLED_STATUS_SHUT_DOWN: UInt8 := OLED.shutDown
  const OLED_STATUS_MAX30102: UInt8 := OLED.max30102
  const OLED_STATUS_BLE: UInt8 := OLED.ble

  /** Calls between two renders in the BLE and MAX30102 statuses. */
  const OLED_COUNTER_TIME_OUT: UInt8
  const OLED_COUNTER_TIME_OUT_MAX30102: UInt8

  /** Bit of the sensor mask that switches the MAX30102 on. */
  type BitPosition = p: nat | p < 8
  const MAX30102_BIT_POSITION: BitPosition

  const MAX_BPM_THRESHOLD: UInt8 := 130
  const MIN_BPM_THRESHOLD: UInt8 := 60

  /** The hardware timers whose period can elapse. */
  datatype Timer = Tim1 | Tim16 | Tim17

  /** What the sensor driver reports: heart rate, SpO2 and the `usGetMax30102Diff` value. */
  datatype Vitals = Vitals(hr: UInt8, spo2: UInt8, diff: nat)

  /** Calls into drivers outside the model, in the order the pipeline makes them. */
  datatype Action =
    | SchedulerRun
    | Max30102ReadData
    | Max30102StartUp
    | Max30102Init
    | Max30102Shutdown
    | OledMaxInit
    | OledClearScreen
    | OledPrintMax30102(hr: UInt8, spo2: UInt8, diff: nat)
    | OledPrintBle
    | LedBlue(on: bool)

  // ---------------------------------------------------------------- vShowOledScreenProcess

  /** The call renders: the status is MAX30102 or BLE and the counter has
      reached that status's timeout. */
  predicate Renders(counter: UInt8, status: UInt8)
  {
    (status == OLED_STATUS_MAX30102 && counter >= OLED_COUNTER_TIME_OUT_MAX30102)
    || (status == OLED_STATUS_BLE && counter >= OLED_COUNTER_TIME_OUT)
  }

  /** `ucPrintCounter` after one call: reset by DEF, SHUT_DOWN and a render,
      then incremented as a `uint8_t`. */
  function NextCounter(counter: UInt8, status: UInt8): UInt8
  {
    var base := if status == OLED_STATUS_DEF || status == OLED_STATUS_SHUT_DOWN || Renders(counter, status)
                then 0 else counter;
    (base + 1) % 256
  }

  /** The display calls one call makes. */
  function ScreenActions(counter: UInt8, status: UInt8, v: Vitals): seq<Action>
  {
    if status == OLED_STATUS_SHUT_DOWN then [OledClearScreen]
    else if status == OLED_STATUS_MAX30102 && Renders(counter, status) then [OledPrintMax30102(v.hr, v.spo2, v.diff)]
    else if status == OLED_STATUS_BLE && Renders(counter, status) then [OledPrintBle]
    else []
  }

  /** DEF and SHUT_DOWN leave the counter at 1 whatever it was, and only
      SHUT_DOWN clears the screen; MAX30102 and BLE render exactly when the
      counter has reached their timeout, ending at 1 after a render and one
      higher (mod 256) otherwise (DEF aside); any other status only counts. */
  lemma DisplayStatuses(counter: UInt8, status: UInt8, v: Vitals)
    ensures status == OLED_STATUS_DEF ==> NextCounter(counter, status) == 1 && ScreenActions(counter, status, v) == []
    ensures status == OLED_STATUS_SHUT_DOWN ==>
      NextCounter(counter, status) == 1 && ScreenActions(counter, status, v) == [OledClearScreen]
    ensures status == OLED_STATUS_MAX30102 ==>
      (ScreenActions(counter, status, v) != [] <==> counter >= OLED_COUNTER_TIME_OUT_MAX30102)
    ensures status == OLED_STATUS_BLE ==>
      (ScreenActions(counter, status, v) != [] <==> counter >= OLED_COUNTER_TIME_OUT)
    ensures ScreenActions(counter, status, v) != [] && status != OLED_STATUS_SHUT_DOWN ==> NextCounter(counter, status) == 1
    ensures ScreenActions(counter, status, v) == [] && status != OLED_STATUS_DEF ==> NextCounter(counter, status) == (counter + 1) % 256
    ensures status !in {OLED_STATUS_DEF, OLED_STATUS_SHUT_DOWN, OLED_STATUS_MAX30102, OLED_STATUS_BLE} ==>
      NextCounter(counter, status) == (counter + 1) % 256 && ScreenActions(counter, status, v) == []
  {
  }

  /** The counter after `n` successive calls with the same status. */
  function CounterAfter(counter: UInt8, status: UInt8, n: nat): UInt8
    decreases n
  {
    if n == 0 then counter else CounterAfter(NextCounter(counter, status), status, n - 1)
  }

  /** The display calls made by `n` successive calls with the same status and readings. */
  function ActionsAfter(counter: UInt8, status: UInt8, v: Vitals, n: nat): seq<Action>
    decreases n
  {
    if n == 0 then []
    else ScreenActions(counter, status, v) + ActionsAfter(NextCounter(counter, status), status, v, n - 1)
  }

  /** Below the MAX30102 timeout each call only counts up by one. */
  lemma {:induction false} QuietCalls(counter: UInt8, v: Vitals, n: nat)
    requires counter + n <= OLED_COUNTER_TIME_OUT_MAX30102
    ensures CounterAfter(counter, OLED_STATUS_MAX30102, n) == counter + n
    ensures ActionsAfter(counter, OLED_STATUS_MAX30102, v, n) == []
    decreases n
  {
    if n > 0 {
      assert NextCounter(counter, OLED_STATUS_MAX30102) == counter + 1;
      QuietCalls(counter + 1, v, n - 1);
    }
  }

  /** From a counter `n` calls short of the MAX30102 timeout, the next `n + 1` calls
      render exactly once, on the last call, and leave the counter at 1. */
  lemma {:induction false} RenderAfterTimeout(counter: UInt8, v: Vitals, n: nat)
    requires counter + n == OLED_COUNTER_TIME_OUT_MAX30102
    ensures CounterAfter(counter, OLED_STATUS_MAX30102, n + 1) == 1
    ensures ActionsAfter(counter, OLED_STATUS_MAX30102, v, n + 1) == [OledPrintMax30102(v.hr, v.spo2, v.diff)]
    decreases n
  {
    if n == 0 {
      assert Renders(counter, OLED_STATUS_MAX30102);
    } else {
      assert NextCounter(counter, OLED_STATUS_MAX30102) == counter + 1;
      RenderAfterTimeout(counter + 1, v, n - 1);
    }
  }

  /** From the initial counter 0, the first T calls in the MAX30102 status
      render nothing and call T + 1 renders once, T being its timeout; from
      then on a render happens every T calls. */
  lemma FirstRender(v: Vitals)
    ensures ActionsAfter(0, OLED_STATUS_MAX30102, v, OLED_COUNTER_TIME_OUT_MAX30102) == []
    ensures ActionsAfter(0, OLED_STATUS_MAX30102, v, OLED_COUNTER_TIME_OUT_MAX30102 + 1)
            == [OledPrintMax30102(v.hr, v.spo2, v.diff)]
    ensures CounterAfter(0, OLED_STATUS_MAX30102, OLED_COUNTER_TIME_OUT_MAX30102 + 1) == 1
    ensures OLED_COUNTER_TIME_OUT_MAX30102 >= 1 ==>
      ActionsAfter(1, OLED_STATUS_MAX30102, v, OLED_COUNTER_TIME_OUT_MAX30102)
      == [OledPrintMax30102(v.hr, v.spo2, v.diff)]
  {
    QuietCalls(0, v, OLED_COUNTER_TIME_OUT_MAX30102);
    RenderAfterTimeout(0, v, OLED_COUNTER_TIME_OUT_MAX30102);
    if OLED_COUNTER_TIME_OUT_MAX30102 >= 1 {
      RenderAfterTimeout(1, v, OLED_COUNTER_TIME_OUT_MAX30102 - 1);
    }
  }

  // ---------------------------------------------------------------- checkBPMAndControlLED

  /** The out-of-band test of `checkBPMAndControlLED`. */
  predicate OutOfBand(bpm: UInt8)
  {
    bpm > MAX_BPM_THRESHOLD || bpm < MIN_BPM_THRESHOLD
  }

  /** The alarm flags' value after a reading: 0 inside the band [60, 130], 1 outside it. */
  function AlarmLevel(bpm: UInt8): (level: UInt8)
    ensures level == (if 60 <= bpm <= 130 then 0 else 1)
  {
    if OutOfBand(bpm) then 1 else 0
  }

  /** The bounds are strict: 60 and 130 are normal, 59 and 131 raise the alarm. */
  lemma AlarmBounds(bpm: UInt8)
    ensures OutOfBand(bpm) <==> !(60 <= bpm <= 130)
    ensures !OutOfBand(60) && !OutOfBand(130) && OutOfBand(59) && OutOfBand(131)
  {
  }

  // ---------------------------------------------------------------- setActiveSensor

  /** `(data >> p) & 1U` as a truth value. */
  predicate BitSet(data: UInt8, p: BitPosition)
  {
    (data as bv8 >> p) & 1 == 1
  }

  function Pow2(p: nat): (r: nat)
    ensures r >= 1
  {
    if p == 0 then 1 else 2 * Pow2(p - 1)
  }

  /** The bit test reads digit `p` of `data` in base 2; so `1 << p`, the mask
      main passes at start-up, has the bit set. */
  lemma BitSetIsBinaryDigit(data: UInt8, p: BitPosition)
    ensures Pow2(p) < 256
    ensures BitSet(data, p) <==> (data / Pow2(p)) % 2 == 1
    ensures BitSet(Pow2(p), p)
  {
    if p == 0 {
    } else if p == 1 {
    } else if p == 2 {
    } else if p == 3 {
    } else if p == 4 {
    } else if p == 5 {
    } else if p == 6 {
    } else {
    }
  }

  // ---------------------------------------------------------------- the pipeline's globals

  /** Display and sensor calls `vReadSensorData` makes when the tick flag is `flag`. */
  function ReadActions(flag: UInt8, active: UInt8, counter: UInt8, status: UInt8, v: Vitals): seq<Action>
  {
    if flag == 1 then (if active != 0 then [Max30102ReadData] else []) + ScreenActions(counter, status, v)
    else []
  }

  /** The render counter after `vReadSensorData` with tick flag `flag`. */
  function CounterAfterRead(flag: UInt8, counter: UInt8, status: UInt8): UInt8
  {
    if flag == 1 then NextCounter(counter, status) else counter
  }

  /** The calls `setActiveSensor` makes. */
  function SwitchActions(on: bool): seq<Action>
  {
    if on then [Max30102StartUp, Max30102Init, OledMaxInit] else [Max30102Shutdown]
  }

  class ControlLoop {
    var sensorReadFlag: UInt8
    var oledStatusFlag: UInt8
    var printCounter: UInt8
    var isMax30102Active: UInt8
    var highBpmDetected: UInt8
    var lowBpmDetected: UInt8
    /** The driver calls made so far. */
    var trace: seq<Action>

    /** The globals' initial values (Src/main.c:66-67, 112-116). */
    constructor ()
      ensures sensorReadFlag == 0 && oledStatusFlag == 7 && printCounter == 0
      ensures isMax30102Active == 1 && highBpmDetected == 0 && lowBpmDetected == 0
      ensures trace == []
    {
      sensorReadFlag := 0;
      oledStatusFlag := 7;
      printCounter := 0;
      isMax30102Active := 1;
      highBpmDetected := 0;
      lowBpmDetected := 0;
      trace := [];
    }

    /** `HAL_TIM_PeriodElapsedCallback`: TIM16 raises the tick flag, other timers change nothing. */
    method TimerElapsed(t: Timer)
      modifies this
      ensures t == Tim16 ==> sensorReadFlag == 1
      ensures t != Tim16 ==> sensorReadFlag == old(sensorReadFlag)
      ensures oledStatusFlag == old(oledStatusFlag) && printCounter == old(printCounter)
      ensures isMax30102Active == old(isMax30102Active)
      ensures highBpmDetected == old(highBpmDetected) && lowBpmDetected == old(lowBpmDetected)
      ensures trace == old(trace)
    {
      if t == Tim16 {
        sensorReadFlag := 1;
      }
    }

    /** `vShowOledScreenProcess`. */
    method ShowOledScreenProcess(status: UInt8, v: Vitals)
      modifies this
      ensures printCounter == NextCounter(old(printCounter), status)
      ensures trace == old(trace) + ScreenActions(old(printCounter), status, v)
      ensures sensorReadFlag == old(sensorReadFlag) && oledStatusFlag == old(oledStatusFlag)
      ensures isMax30102Active == old(isMax30102Active)
      ensures highBpmDetected == old(highBpmDetected) && lowBpmDetected == old(lowBpmDetected)
    {
      if status == OLED_STATUS_DEF {
        printCounter := 0;
      } else if status == OLED_STATUS_SHUT_DOWN {
        printCounter := 0;
        trace := trace + [OledClearScreen];
      } else if status == OLED_STATUS_MAX30102 {
        if printCounter >= OLED_COUNTER_TIME_OUT_MAX30102 {
          trace := trace + [OledPrintMax30102(v.hr, v.spo2, v.diff)];
          printCounter := 0;
        }
      } else if status == OLED_STATUS_BLE {
        if printCounter >= OLED_COUNTER_TIME_OUT {
          trace := trace + [OledPrintBle];
          printCounter := 0;
        }
      }
      printCounter := (printCounter + 1) % 256;
    }

    /** `vReadSensorData`: nothing unless the tick flag is 1; then the flag is
        consumed, the sensor read when active, and the display advanced with
        the current status whether or not the sensor is active. */
    method ReadSensorData(v: Vitals)
      modifies this
      ensures old(sensorReadFlag) != 1 ==> unchanged(this)
      ensures old(sensorReadFlag) == 1 ==> sensorReadFlag == 0
      ensures printCounter == CounterAfterRead(old(sensorReadFlag), old(printCounter), oledStatusFlag)
      ensures trace == old(trace)
        + ReadActions(old(sensorReadFlag), isMax30102Active, old(printCounter), oledStatusFlag, v)
      ensures oledStatusFlag == old(oledStatusFlag) && isMax30102Active == old(isMax30102Active)
      ensures highBpmDetected == old(highBpmDetected) && lowBpmDetected == old(lowBpmDetected)
    {
      if sensorReadFlag == 1 {
        if isMax30102Active != 0 {
          trace := trace + [Max30102ReadData];
        }
        sensorReadFlag := 0;
        ShowOledScreenProcess(oledStatusFlag, v);
      }
    }

    /** `setActiveSensor`: the active flag follows bit MAX30102_BIT_POSITION of
        `data`; switching on starts, initialises and announces the sensor in
        that order, switching off only shuts it down. */
    method SetActiveSensor(data: UInt8)
      modifies this
      ensures isMax30102Active == (if BitSet(data, MAX30102_BIT_POSITION) then 1 else 0)
      ensures trace == old(trace) + SwitchActions(BitSet(data, MAX30102_BIT_POSITION))
      ensures sensorReadFlag == old(sensorReadFlag) && oledStatusFlag == old(oledStatusFlag)
      ensures printCounter == old(printCounter)
      ensures highBpmDetected == old(highBpmDetected) && lowBpmDetected == old(lowBpmDetected)
    {
      if (data as bv8 >> MAX30102_BIT_POSITION) & 1 == 1 {
        isMax30102Active := 1;
        trace := trace + [Max30102StartUp];
        trace := trace + [Max30102Init];
        trace := trace + [OledMaxInit];
      } else {
        isMax30102Active := 0;
        trace := trace + [Max30102Shutdown];
      }
    }

    /** `checkBPMAndControlLED`: both flags and the blue LED follow the
        current reading alone. */
    method CheckBpmAndControlLed(bpm: UInt8)
      modifies this
      ensures highBpmDetected == AlarmLevel(bpm) && lowBpmDetected == AlarmLevel(bpm)
      ensures trace == old(trace) + [LedBlue(OutOfBand(bpm))]
      ensures sensorReadFlag == old(sensorReadFlag) && oledStatusFlag == old(oledStatusFlag)
      ensures printCounter == old(printCounter) && isMax30102Active == old(isMax30102Active)
    {
      if bpm > MAX_BPM_THRESHOLD || bpm < MIN_BPM_THRESHOLD {
        trace := trace + [LedBlue(true)];
        highBpmDetected := 1;
        lowBpmDetected := 1;
      } else {
        trace := trace + [LedBlue(false)];
        highBpmDetected := 0;
        lowBpmDetected := 0;
      }
    }

    /** One pass of the main loop: scheduler, tick-gated read, alarm check
        while the sensor is active, then a MAX30102 display step. The tasks
        the scheduler runs are not part of this model. */
    method LoopIteration(v: Vitals)
      modifies this
      ensures sensorReadFlag == (if old(sensorReadFlag) == 1 then 0 else old(sensorReadFlag))
      ensures printCounter == NextCounter(
        CounterAfterRead(old(sensorReadFlag), old(printCounter), oledStatusFlag), OLED_STATUS_MAX30102)
      ensures isMax30102Active != 0 ==> highBpmDetected == AlarmLevel(v.hr) && lowBpmDetected == AlarmLevel(v.hr)
      ensures isMax30102Active == 0 ==>
        highBpmDetected == old(highBpmDetected) && lowBpmDetected == old(lowBpmDetected)
      ensures trace == old(trace) + [SchedulerRun]
        + ReadActions(old(sensorReadFlag), isMax30102Active, old(printCounter), oledStatusFlag, v)
        + (if isMax30102Active != 0 then [LedBlue(OutOfBand(v.hr))] else [])
        + ScreenActions(CounterAfterRead(old(sensorReadFlag), old(printCounter), oledStatusFlag),
                        OLED_STATUS_MAX30102, v)
      ensures oledStatusFlag == old(oledStatusFlag) && isMax30102Active == old(isMax30102Active)
    {
      trace := trace + [SchedulerRun];
      ReadSensorData(v);
      if isMax30102Active != 0 {
        CheckBpmAndControlLed(v.hr);
      }
      ShowOledScreenProcess(OLED_STATUS_MAX30102, v);
    }
  }
}
