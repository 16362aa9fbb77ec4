/**
 * `CounterService` (CVX-QLSX.App/Services/CounterService.cs): the master counter that turns the
 * camera's session counters, which restart from zero when the camera is power-cycled, into counts
 * that only restart on a new shift. Every arithmetic step is C#'s unchecked `int` arithmetic.
 */
module Counter {
  import opened Int32s
  import PacketParser

  /** Three counts: the master counts, the camera baseline, and `CounterUpdatedEventArgs`. */
  datatype Counts = Counts(total: Int32, ok: Int32, ng: Int32)

  const Zero := Counts(0, 0, 0)

  /** The six counters and the first-packet flag. */
  datatype CounterState = CounterState(app: Counts, last: Counts, isFirstPacket: bool)

  /** The state after construction and after `ResetForNewShift`. */
  const Initial := CounterState(Zero, Zero, true)

  /** The three channels, which are processed independently. */
  datatype Channel = Total | Ok | Ng

  function Get(c: Counts, ch: Channel): Int32 {
    match ch
    case Total => c.total
    case Ok => c.ok
    case Ng => c.ng
  }

  /** `CalculateDelta`: the camera's increase, or, when the camera went backwards (a power cycle), the
      whole of its current value. */
  function CalculateDelta(current: Int32, last: Int32): (delta: Int32) {
    var d := Wrap(current - last);
    if d < 0 then current else d
  }

  /** Adds a packet's deltas to the master counts. */
  function AddDeltas(app: Counts, last: Counts, packet: Counts): Counts {
    Counts(
      Wrap(app.total + CalculateDelta(packet.total, last.total)),
      Wrap(app.ok + CalculateDelta(packet.ok, last.ok)),
      Wrap(app.ng + CalculateDelta(packet.ng, last.ng)))
  }

  /** The state change of `ProcessPacket`: a first packet only records the baseline. */
  function Process(s: CounterState, packet: Counts): CounterState {
    if s.isFirstPacket then CounterState(s.app, packet, false)
    else CounterState(AddDeltas(s.app, s.last, packet), packet, false)
  }

  /** The state change of `RestoreState`: the master counts are replaced, the baseline is kept. */
  function Restore(s: CounterState, saved: Counts): CounterState {
    CounterState(saved, s.last, true)
  }

  /** The counts a decoded packet carries. */
  function PacketCounts(p: PacketParser.CameraPacket): Counts {
    Counts(p.totalCount, p.okCount, p.ngCount)
  }

  /** A run of packets processed one after another. */
  function ProcessAll(s: CounterState, packets: seq<Counts>): CounterState
    decreases |packets|
  {
    if |packets| == 0 then s else ProcessAll(Process(s, packets[0]), packets[1..])
  }

  /** For camera counts that are not negative, the delta is the increase when the camera went up
      or stayed, and the current value when it went down; it is never negative. */
  lemma DeltaOfCameraCounts(current: Int32, last: Int32)
    requires 0 <= current && 0 <= last
    ensures CalculateDelta(current, last) == if current >= last then current - last else current
    ensures CalculateDelta(current, last) >= 0
  {
  }

  /** A non-negative camera value never gives a negative delta, whatever the baseline (even one
      whose difference wraps around). */
  lemma DeltaNonNegative(current: Int32, last: Int32)
    requires 0 <= current
    ensures 0 <= CalculateDelta(current, last) <= MaxInt32
  {
  }

  /** Each channel of the master counts depends only on that channel of the state and the packet. */
  lemma ChannelsIndependent(s: CounterState, packet: Counts, ch: Channel)
    ensures Get(Process(s, packet).app, ch) ==
      if s.isFirstPacket then Get(s.app, ch)
      else Wrap(Get(s.app, ch) + CalculateDelta(Get(packet, ch), Get(s.last, ch)))
  {
  }

  /** The first packet after construction, reset or restore leaves the master counts alone, becomes
      the baseline and clears the flag. */
  lemma FirstPacketSetsBaseline(s: CounterState, packet: Counts)
    requires s.isFirstPacket
    ensures Process(s, packet) == CounterState(s.app, packet, false)
  {
  }

  /** A later packet adds the increase of each channel, or its whole value after a camera reset,
      as long as the sum stays an Int32. */
  lemma LaterPacketAddsIncrease(s: CounterState, packet: Counts, ch: Channel)
    requires !s.isFirstPacket
    requires 0 <= Get(packet, ch) && 0 <= Get(s.last, ch)
    requires Get(s.app, ch) as int + Get(packet, ch) <= MaxInt32
    ensures Get(Process(s, packet).app, ch) == Get(s.app, ch) +
      if Get(packet, ch) >= Get(s.last, ch) then Get(packet, ch) - Get(s.last, ch) else Get(packet, ch)
  {
    ChannelsIndependent(s, packet, ch);
    DeltaOfCameraCounts(Get(packet, ch), Get(s.last, ch));
  }

  /** After any packet the baseline is that packet's counts and the flag is clear. */
  lemma BaselineIsLastPacket(s: CounterState, packet: Counts)
    ensures Process(s, packet).last == packet && !Process(s, packet).isFirstPacket
  {
  }

  /** With non-negative camera counts a packet never lowers a master count, unless the sum passes
      MaxInt32 and wraps. */
  lemma ProcessNeverDecreases(s: CounterState, packet: Counts, ch: Channel)
    requires 0 <= Get(packet, ch) && 0 <= Get(s.last, ch)
    requires Get(s.app, ch) as int + Get(packet, ch) <= MaxInt32
    ensures Get(Process(s, packet).app, ch) >= Get(s.app, ch)
  {
    ChannelsIndependent(s, packet, ch);
    DeltaOfCameraCounts(Get(packet, ch), Get(s.last, ch));
  }

  /** After a reset the next packet is only a baseline: the master counts stay zero. */
  lemma ResetThenPacketCountsNothing(packet: Counts)
    ensures Process(Initial, packet).app == Zero
  {
  }

  /** After a restore the next packet adds nothing to the restored counts. */
  lemma RestoreThenPacketAddsNothing(s: CounterState, saved: Counts, packet: Counts)
    ensures Process(Restore(s, saved), packet).app == saved
    ensures Process(Restore(s, saved), packet).last == packet
  {
  }

  /** A camera that only counts up: over a run of packets with non-decreasing, non-negative values
      in one channel, the master count grows by exactly the camera's overall increase. */
  lemma {:induction false} SteadyCameraTelescopes(s: CounterState, packets: seq<Counts>, ch: Channel)
    requires !s.isFirstPacket && |packets| > 0
    requires 0 <= Get(s.last, ch) <= Get(packets[0], ch)
    requires forall i :: 0 < i < |packets| ==> Get(packets[i - 1], ch) <= Get(packets[i], ch)
    requires Get(s.app, ch) as int + Get(packets[|packets| - 1], ch) - Get(s.last, ch) <= MaxInt32
    ensures Get(ProcessAll(s, packets).app, ch) ==
      Get(s.app, ch) + Get(packets[|packets| - 1], ch) - Get(s.last, ch)
    ensures ProcessAll(s, packets).last == packets[|packets| - 1]
    decreases |packets|
  {
    var next := Process(s, packets[0]);
    ChannelsIndependent(s, packets[0], ch);
    DeltaOfCameraCounts(Get(packets[0], ch), Get(s.last, ch));
    assert Get(next.app, ch) == Get(s.app, ch) + Get(packets[0], ch) - Get(s.last, ch) by {
      assert Get(packets[0], ch) <= Get(packets[|packets| - 1], ch) by {
        NonDecreasingEnds(packets, ch, 0, |packets| - 1);
      }
    }
    if |packets| > 1 {
      var rest := packets[1..];
      assert forall i :: 0 < i < |rest| ==> Get(rest[i - 1], ch) <= Get(rest[i], ch) by {
        forall i | 0 < i < |rest| ensures Get(rest[i - 1], ch) <= Get(rest[i], ch) {
          assert rest[i - 1] == packets[i] && rest[i] == packets[i + 1];
        }
      }
      SteadyCameraTelescopes(next, rest, ch);
    }
  }

  /** In a non-decreasing run, an earlier value is at most a later one. */
  lemma {:induction false} NonDecreasingEnds(packets: seq<Counts>, ch: Channel, i: nat, j: nat)
    requires i <= j < |packets|
    requires forall k :: 0 < k < |packets| ==> Get(packets[k - 1], ch) <= Get(packets[k], ch)
    ensures Get(packets[i], ch) <= Get(packets[j], ch)
    decreases j - i
  {
    if i < j {
      NonDecreasingEnds(packets, ch, i + 1, j);
    }
  }

  /** `CounterService`: the master counters, the camera baseline, the first-packet flag, and the
      `CountsUpdated` notifications raised so far (their event arguments, in order). */
  class CounterService {
    var appTotal: Int32
    var appOK: Int32
    var appNG: Int32
    var lastCameraTotal: Int32
    var lastCameraOK: Int32
    var lastCameraNG: Int32
    var isFirstPacket: bool
    var updates: seq<Counts>

    function State(): CounterState
      reads this
    {
      CounterState(Counts(appTotal, appOK, appNG), Counts(lastCameraTotal, lastCameraOK, lastCameraNG), isFirstPacket)
    }

    /** `AppTotal`, `AppOK`, `AppNG`: the arguments of the next notification. */
    function Snapshot(): Counts
      reads this
    {
      Counts(appTotal, appOK, appNG)
    }

    constructor()
      ensures State() == Initial && updates == []
    {
      appTotal, appOK, appNG := 0, 0, 0;
      lastCameraTotal, lastCameraOK, lastCameraNG := 0, 0, 0;
      isFirstPacket := true;
      updates := [];
    }

    /** `OnCountsUpdated`: raises one notification with the master counts. */
    method Notify()
      modifies this
      ensures State() == old(State())
      ensures updates == old(updates) + [Snapshot()]
    {
      updates := updates + [Counts(appTotal, appOK, appNG)];
    }

    method ProcessPacket(packet: PacketParser.CameraPacket)
      modifies this
      ensures State() == Process(old(State()), PacketCounts(packet))
      ensures updates == old(updates) + [Snapshot()]
    {
      if isFirstPacket {
        lastCameraTotal := packet.totalCount;
        lastCameraOK := packet.okCount;
        lastCameraNG := packet.ngCount;
        isFirstPacket := false;
      } else {
        var deltaTotal := CalculateDelta(packet.totalCount, lastCameraTotal);
        var deltaOK := CalculateDelta(packet.okCount, lastCameraOK);
        var deltaNG := CalculateDelta(packet.ngCount, lastCameraNG);
        appTotal := Wrap(appTotal + deltaTotal);
        appOK := Wrap(appOK + deltaOK);
        appNG := Wrap(appNG + deltaNG);
        lastCameraTotal := packet.totalCount;
        lastCameraOK := packet.okCount;
        lastCameraNG := packet.ngCount;
      }
      Notify();
    }

    method ResetForNewShift()
      modifies this
      ensures State() == Initial
      ensures updates == old(updates) + [Zero]
    {
      appTotal, appOK, appNG := 0, 0, 0;
      lastCameraTotal, lastCameraOK, lastCameraNG := 0, 0, 0;
      isFirstPacket := true;
      Notify();
    }

    method RestoreState(savedTotal: Int32, savedOK: Int32, savedNG: Int32)
      modifies this
      ensures State() == Restore(old(State()), Counts(savedTotal, savedOK, savedNG))
      ensures updates == old(updates) + [Counts(savedTotal, savedOK, savedNG)]
    {
      appTotal := savedTotal;
      appOK := savedOK;
      appNG := savedNG;
      isFirstPacket := true;
      Notify();
    }
  }
}
