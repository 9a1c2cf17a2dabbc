/** The heart-rate demo: the transmitter's page schedule, the receiver's detector, and beat times. */
module HeartRate {
  import opened CentralTypes

  const MASK_TOGGLE_BIT := 0x80
  const SCHEDULE := 68

  // ---- transmitter ----

  /** The page sent at the `n`th EVENT_TX: four background pages, then 64 main pages. */
  function PageAt(n: nat): byte {
    if n % SCHEDULE < 4 then 1 + n / SCHEDULE % 3 else 0
  }

  /** The toggle bit changes every four messages. */
  predicate ToggleAt(n: nat) {
    n / 4 % 2 == 1
  }

  function FirstByte(n: nat): byte {
    PageAt(n) + if ToggleAt(n) then MASK_TOGGLE_BIT else 0
  }

  /** Four background pages in every 68 messages, taking turns from page 1. */
  lemma PageSchedule(n: nat)
    ensures PageAt(n) != 0 <==> n % 68 < 4
    ensures n < 4 ==> PageAt(n) == 1
    ensures PageAt(n) != 0 ==> PageAt(n + 68) == if PageAt(n) == 3 then 1 else PageAt(n) + 1
  {
    assert (n + 68) / 68 == n / 68 + 1 && (n + 68) % 68 == n % 68;
  }

  /** The toggle bit is clear in the first four messages and changes with every fourth. */
  lemma ToggleSchedule(n: nat)
    ensures n < 4 ==> !ToggleAt(n)
    ensures ToggleAt(n + 4) <==> !ToggleAt(n)
    ensures n % 4 != 3 ==> (ToggleAt(n + 1) <==> ToggleAt(n))
  {
  }

  // The transmitter's static counters just before the `n`th event.

  function CounterAt(n: nat): nat {
    n % SCHEDULE
  }

  /** Background pages 1, 2 and 3 take turns; the next one is chosen after the fourth message. */
  function BackgroundAt(n: nat): byte {
    1 + (n / SCHEDULE + if n % SCHEDULE >= 4 then 1 else 0) % 3
  }

  function PatternAt(n: nat): byte {
    if n == 0 || ToggleAt(n - 1) then MASK_TOGGLE_BIT else 0xFF - MASK_TOGGLE_BIT
  }

  lemma CounterStep(n: nat)
    ensures CounterAt(n + 1) == if CounterAt(n) + 1 == SCHEDULE then 0 else CounterAt(n) + 1
    ensures CounterAt(n) % 4 == n % 4
  {
    var q, r := n / SCHEDULE, n % SCHEDULE;
    assert n == SCHEDULE * q + r && n == 4 * (17 * q) + r;
  }

  lemma BackgroundStep(n: nat)
    ensures BackgroundAt(n + 1) ==
      if CounterAt(n) != 3 then BackgroundAt(n) else if BackgroundAt(n) == 3 then 1 else BackgroundAt(n) + 1
    ensures PageAt(n) == if CounterAt(n) < 4 then BackgroundAt(n) else 0
  {
  }

  lemma PatternStep(n: nat)
    ensures PatternAt(n + 1) == if n % 4 == 0 then 0xFF - PatternAt(n) else PatternAt(n)
    ensures PatternAt(n + 1) == MASK_TOGGLE_BIT <==> ToggleAt(n)
  {
  }

  class Transmitter {
    var txCounter: int
    var backgroundPage: byte
    var togglePattern: byte
    const buffer: array<byte>
    ghost var sent: nat  // EVENT_TX handled so far

    ghost predicate Valid()
      reads this
    {
      && buffer.Length == 8
      && txCounter == CounterAt(sent)
      && backgroundPage == BackgroundAt(sent)
      && togglePattern == PatternAt(sent)
    }

    constructor ()
      ensures Valid() && sent == 0
    {
      txCounter, backgroundPage, togglePattern := 0, 1, MASK_TOGGLE_BIT;
      buffer := new byte[8];
      sent := 0;
    }

    /** Prepares the next message: page number and toggle bit, then the beat fields common to all pages. */
    method EventTx(heartRate: byte, beatCount: byte, eventTime: int)
      requires Valid() && 0 <= eventTime < 0x1_0000
      modifies this, buffer
      ensures Valid() && sent == old(sent) + 1
      ensures buffer[0] == FirstByte(old(sent))
      ensures buffer[0] % 128 == if old(sent) % 68 < 4 then 1 + old(sent) / 68 % 3 else 0
      ensures buffer[0] >= 128 <==> old(sent) / 4 % 2 == 1
      ensures buffer[7] == heartRate && buffer[6] == beatCount
      ensures buffer[5] as int * 256 + buffer[4] as int == eventTime
    {
      buffer[7] := heartRate;
      buffer[6] := beatCount;
      buffer[5] := eventTime / 256;
      buffer[4] := eventTime % 256;
      PutPage();
      PutToggle();
      CounterStep(sent);
      txCounter := txCounter + 1;
      if txCounter == SCHEDULE {
        txCounter := 0;
      }
      sent := sent + 1;
    }

    /** Writes the page number, and chooses the next background page after the fourth message. */
    method PutPage()
      requires Valid()
      modifies this`backgroundPage, buffer
      ensures backgroundPage == BackgroundAt(sent + 1)
      ensures buffer[0] == PageAt(sent) && buffer[1..] == old(buffer[1..])
    {
      BackgroundStep(sent);
      if txCounter >= 0 && txCounter < 4 {
        buffer[0] := backgroundPage;
        if txCounter == 3 {
          backgroundPage := if backgroundPage == 3 then 1 else backgroundPage + 1;
        }
      } else {
        buffer[0] := 0;
      }
    }

    /** Flips the toggle pattern every fourth message, and sets or clears the page byte's top bit with it. */
    method PutToggle()
      requires buffer.Length == 8 && txCounter == CounterAt(sent) && togglePattern == PatternAt(sent)
      requires buffer[0] == PageAt(sent)
      modifies this`togglePattern, buffer
      ensures togglePattern == PatternAt(sent + 1)
      ensures buffer[0] == FirstByte(sent) && buffer[1..] == old(buffer[1..])
    {
      CounterStep(sent);
      PatternStep(sent);
      if txCounter % 4 == 0 {
        togglePattern := 0xFF - togglePattern;  // complement of a byte
      }
      if togglePattern == MASK_TOGGLE_BIT {
        buffer[0] := buffer[0] % MASK_TOGGLE_BIT + MASK_TOGGLE_BIT;  // set the top bit
      } else {
        buffer[0] := buffer[0] % MASK_TOGGLE_BIT;  // clear it
      }
    }
  }

  // ---- receiver ----

  datatype DeviceType = UNDETECTED | LEGACY | CURRENT

  const MAX_TOGGLE_ATTEMPTS := 6

  datatype Detector = Detector(device: DeviceType, oldBit: Option<bool>, attempts: nat)

  const FRESH := Detector(UNDETECTED, None, 0)

  /** One message while the device type is still unknown; later messages change nothing. */
  function Detect(d: Detector, bit: bool): Detector {
    if d.device != UNDETECTED then d else
    var d1 :=
      if d.attempts < MAX_TOGGLE_ATTEMPTS then
        if d.oldBit.Some? && bit != d.oldBit.value then d.(device := CURRENT)
        else d.(oldBit := Some(bit), attempts := d.attempts + 1)
      else d;
    if d1.attempts >= MAX_TOGGLE_ATTEMPTS && d1.device == UNDETECTED then d1.(device := LEGACY) else d1
  }

  function DetectAll(bits: seq<bool>): Detector {
    if bits == [] then FRESH else Detect(DetectAll(bits[..|bits| - 1]), bits[|bits| - 1])
  }

  class Receiver {
    var device: DeviceType
    var oldToggleBit: Option<bool>
    var toggleAttempts: nat

    function View(): Detector
      reads this
    {
      Detector(device, oldToggleBit, toggleAttempts)
    }

    constructor ()
      ensures View() == FRESH
    {
      device, oldToggleBit, toggleAttempts := UNDETECTED, None, 0;
    }

    method DetectDevice(bit: bool)
      requires device == UNDETECTED
      modifies this
      ensures View() == Detect(old(View()), bit)
    {
      if toggleAttempts < MAX_TOGGLE_ATTEMPTS {
        if oldToggleBit.Some? && bit != oldToggleBit.value {
          device := CURRENT;
        } else {
          oldToggleBit := Some(bit);
          toggleAttempts := toggleAttempts + 1;
        }
      }
      if toggleAttempts >= MAX_TOGGLE_ATTEMPTS && device == UNDETECTED {
        device := LEGACY;
      }
    }
  }

  /** The bits agree up to position `n`. */
  predicate Steady(bits: seq<bool>, n: nat) {
    forall i :: 0 <= i < n && i < |bits| ==> bits[i] == bits[0]
  }

  /** The verdict depends on the first six bits only: legacy iff they are equal, current iff they are not. */
  lemma {:induction false} DetectorVerdict(bits: seq<bool>)
    ensures DetectAll(bits).device ==
      if !Steady(bits, 6) then CURRENT
      else if |bits| >= 6 then LEGACY
      else UNDETECTED
    ensures DetectAll(bits).device == UNDETECTED ==>
      DetectAll(bits).attempts == |bits| && DetectAll(bits).oldBit == if bits == [] then None else Some(bits[0])
  {
    if bits != [] {
      var n := |bits| - 1;
      var init := bits[..n];
      DetectorVerdict(init);
      assert forall i :: 0 <= i < n ==> init[i] == bits[i];
      if n >= MAX_TOGGLE_ATTEMPTS {
        assert Steady(bits, MAX_TOGGLE_ATTEMPTS) <==> Steady(init, MAX_TOGGLE_ATTEMPTS);
      } else if n > 0 {
        assert Steady(bits, MAX_TOGGLE_ATTEMPTS) <==> Steady(init, MAX_TOGGLE_ATTEMPTS) && bits[n] == bits[0];
      }
    }
  }

  /** The toggle bits of consecutive messages, starting with the `m`th. */
  function Window(m: nat, len: nat): seq<bool> {
    seq(len, i requires 0 <= i => ToggleAt(m + i))
  }

  /** Up to four messages on, the bit has changed iff a multiple of four was passed. */
  lemma ToggleChanges(m: nat, i: nat)
    requires i < 5
    ensures ToggleAt(m + i) == ToggleAt(m) <==> m % 4 + i < 4
  {
  }

  /**
   A receiver that starts anywhere in the schedule detects a current device as
   soon as its window passes a multiple of four: within five messages, always.
   */
  lemma CurrentDeviceDetected(m: nat, len: nat)
    ensures DetectAll(Window(m, len)).device == CURRENT <==> m % 4 + len > 4
    ensures len >= 5 ==> DetectAll(Window(m, len)).device == CURRENT
  {
    var bits := Window(m, len);
    DetectorVerdict(bits);
    if len > 0 {
      forall i: nat | i < len && i < 5
        ensures bits[i] == bits[0] <==> m % 4 + i < 4
      {
        ToggleChanges(m, i);
        ToggleChanges(m, 0);
      }
      if m % 4 + len > 4 {
        var first := 4 - m % 4;
        assert bits[first] != bits[0];
      }
    }
  }

  /** The receiver takes the page number and the toggle bit apart again. */
  lemma PageSurvivesToggle(n: nat)
    ensures FirstByte(n) % MASK_TOGGLE_BIT == PageAt(n)
    ensures FirstByte(n) / MASK_TOGGLE_BIT == 1 <==> ToggleAt(n)
  {
  }

  // ---- beat times ----

  /** Milliseconds since start-up in units of 1/1024 s. */
  function Ticks(ms: nat): nat {
    ms * 1024 / 1000
  }

  /** A second is 1024 ticks, and a tick never comes early. */
  lemma TicksPerSecond(ms: nat)
    ensures Ticks(ms + 1000) == Ticks(ms) + 1024
    ensures Ticks(ms) * 1000 <= ms * 1024 < (Ticks(ms) + 1) * 1000
  {
  }

  /** Times travel as 16-bit tick counts. */
  function EventTime(ms: nat): nat {
    Ticks(ms) % 0x1_0000
  }

  /** The receiver's 16-bit subtraction and conversion back to milliseconds. */
  function RRIntervalMs(previous: nat, current: nat): nat {
    (current - previous) % 0x1_0000 * 1000 / 1024 % 0x1_0000
  }

  lemma WrappedDifference(x: nat, y: nat)
    requires x <= y
    ensures (y % 0x1_0000 - x % 0x1_0000) % 0x1_0000 == (y - x) % 0x1_0000
  {
  }

  /** Converting an interval to ticks and back loses at most one millisecond. */
  lemma TickInterval(a: nat, b: nat)
    requires a <= b
    ensures Ticks(a) <= Ticks(b)
    ensures b - a - 1 <= (Ticks(b) - Ticks(a)) * 1000 / 1024 <= b - a
  {
  }

  /**
   The recovered interval between two beats is exact to one millisecond exactly
   when fewer than 65536 ticks passed between them.
   */
  lemma IntervalExactIff(a: nat, b: nat)
    requires a <= b
    ensures (b - a - 1 <= RRIntervalMs(EventTime(a), EventTime(b)) <= b - a) <==> Ticks(b) - Ticks(a) < 0x1_0000
  {
    var d := Ticks(b) - Ticks(a);
    var recovered := d % 0x1_0000 * 1000 / 1024;
    assert RRIntervalMs(EventTime(a), EventTime(b)) == recovered by {
      WrappedDifference(Ticks(a), Ticks(b));
      WholeWraps(d);
    }
    assert (b - a - 1 <= recovered <= b - a) <==> d / 0x1_0000 == 0 by {
      TickInterval(a, b);
      WholeWraps(d);
    }
  }

  /** Every 65536 ticks lost are 64000 ms lost. */
  lemma WholeWraps(d: nat)
    ensures d * 1000 / 1024 == d % 0x1_0000 * 1000 / 1024 + 64000 * (d / 0x1_0000)
    ensures d % 0x1_0000 * 1000 / 1024 < 0x1_0000
  {
  }
}
