/**
 * `TcpService` (CVX-QLSX.App/Services/TcpService.cs): the TCP client that reads the camera's
 * records, reports connection changes and reconnects with exponential backoff.
 *
 * The sockets are not modelled. What the network does is an input: whether a connect attempt
 * succeeds, whether the socket is still up, and what a read returns. `Task.Delay` is recorded as
 * the list of delays awaited, and the two events are recorded as the list of notifications raised.
 */
module Tcp {
  import opened Wrappers
  import opened Int32s
  import opened Text
  import ProductionDataModule

  /** `_reconnectDelayMs`, the first reconnect `delay` and the wait after a read error. */
  const ReconnectDelayMs := 5000
  /** `maxRetries` of one reconnect call. */
  const MaxRetries := 10
  /** The cap on the reconnect backoff. */
  const MaxBackoffMs := 60000
  /** The wait of the read loop while there is no usable connection. */
  const IdleDelayMs := 1000

  /** `ConnectionStatusChanged(isConnected)` and `DataReceived(data)`. */
  datatype ServiceEvent =
    | ConnectionStatusChanged(isConnected: bool)
    | DataReceived(data: ProductionDataModule.ProductionData)

  /** The connection: `_client != null`, `_client.Connected` and `_stream != null`. */
  datatype Link = Link(hasClient: bool, socketConnected: bool, hasStream: bool)

  /** After `Disconnect`: no client and no stream. */
  const Down := Link(false, false, false)
  /** After a successful connect. */
  const Up := Link(true, true, true)
  /** After a failed connect: a fresh `TcpClient` that is not connected and no stream. */
  const Dialled := Link(true, false, false)

  /** The fields that connecting, reading and disconnecting leave alone. */
  datatype Control = Control(
    ipAddress: string,
    port: Int32,
    shouldReconnect: bool,
    hasReadingCts: bool,
    readingCancelled: bool,
    isDisposed: bool)

  lemma Associative<T>(a: seq<T>, b: seq<T>, c: seq<T>)
    ensures (a + b) + c == a + (b + c)
  {
  }

  function Min(a: int, b: int): int {
    if a <= b then a else b
  }

  function Pow2(k: nat): (p: nat)
    ensures p >= 1
  {
    if k == 0 then 1 else 2 * Pow2(k - 1)
  }

  /** The reconnect `delay` after `k` failed attempts of one call. */
  function Backoff(k: nat): (d: int)
    ensures ReconnectDelayMs <= d <= MaxBackoffMs
  {
    if k == 0 then ReconnectDelayMs else Min(2 * Backoff(k - 1), MaxBackoffMs)
  }

  /** The wait after the k-th consecutive failure is min(5000 * 2^k, 60000). */
  lemma {:induction false} BackoffClosedForm(k: nat)
    ensures Backoff(k) == Min(ReconnectDelayMs * Pow2(k), MaxBackoffMs)
  {
    if k > 0 {
      BackoffClosedForm(k - 1);
    }
  }

  /** From the fourth failure on, every wait is the 60 s cap. */
  lemma {:induction false} BackoffCapped(k: nat)
    requires k >= 4
    ensures Backoff(k) == MaxBackoffMs
  {
    if k > 4 {
      BackoffCapped(k - 1);
    }
  }

  /** The waits are 10 s, 20 s, 40 s, then 60 s, and the backoff never gets shorter. */
  lemma BackoffSchedule(k: nat)
    ensures Backoff(1) == 10000 && Backoff(2) == 20000 && Backoff(3) == 40000 && Backoff(4) == 60000
    ensures Backoff(k) <= Backoff(k + 1)
  {
  }

  /** The waits of one reconnect call after `n` failures. */
  function Waits(n: nat): seq<int> {
    if n == 0 then [] else Waits(n - 1) + [Backoff(n)]
  }

  /** The i-th wait of a call is the backoff after i + 1 failures. */
  lemma {:induction false} WaitsAreBackoffs(n: nat)
    ensures |Waits(n)| == n
    ensures forall i :: 0 <= i < n ==> Waits(n)[i] == Backoff(i + 1)
  {
    if n > 0 {
      WaitsAreBackoffs(n - 1);
    }
  }

  /** Whether connect attempt `i` of a call succeeds; a script that runs out fails. */
  predicate Succeeds(attempts: seq<bool>, i: nat) {
    i < |attempts| && attempts[i]
  }

  /** The number of attempts one reconnect call makes, counting from attempt `k`. */
  function AttemptsFrom(attempts: seq<bool>, k: nat): (n: nat)
    requires k < MaxRetries
    ensures k < n <= MaxRetries
    ensures forall i :: k <= i < n - 1 ==> !Succeeds(attempts, i)
    ensures n < MaxRetries ==> Succeeds(attempts, n - 1)
    decreases MaxRetries - k
  {
    if Succeeds(attempts, k) || k + 1 == MaxRetries then k + 1 else AttemptsFrom(attempts, k + 1)
  }

  /** The attempts of an uncancelled reconnect call: up to the first success, at most ten. */
  function AttemptsMade(attempts: seq<bool>): (n: nat)
    ensures 1 <= n <= MaxRetries
    ensures forall i :: 0 <= i < n - 1 ==> !Succeeds(attempts, i)
    ensures n < MaxRetries ==> Succeeds(attempts, n - 1)
  {
    AttemptsFrom(attempts, 0)
  }

  /** Whether the reconnect call ends connected. */
  predicate Reconnected(attempts: seq<bool>) {
    Succeeds(attempts, AttemptsMade(attempts) - 1)
  }

  /** A call reconnects exactly when one of the first ten attempts succeeds, and then it stops
      at the first success. */
  lemma ReconnectedIff(attempts: seq<bool>)
    ensures Reconnected(attempts) <==> exists i :: 0 <= i < MaxRetries && Succeeds(attempts, i)
    ensures Reconnected(attempts) ==>
      forall i :: 0 <= i < AttemptsMade(attempts) - 1 ==> !Succeeds(attempts, i)
  {
    var n := AttemptsMade(attempts);
    if exists i :: 0 <= i < MaxRetries && Succeeds(attempts, i) {
      var i :| 0 <= i < MaxRetries && Succeeds(attempts, i);
      assert i >= n - 1;
    }
  }

  /** The first success among attempts `0..r` fixes the attempts made at `r + 1`. */
  lemma AttemptsMadeAt(attempts: seq<bool>, r: nat)
    requires r < MaxRetries && Succeeds(attempts, r)
    requires forall i :: 0 <= i < r ==> !Succeeds(attempts, i)
    ensures AttemptsMade(attempts) == r + 1 && Reconnected(attempts)
  {
  }

  /** The outcomes of attempts `0..n`. */
  function Outcomes(attempts: seq<bool>, n: nat): seq<bool> {
    if n == 0 then [] else Outcomes(attempts, n - 1) + [Succeeds(attempts, n - 1)]
  }

  lemma {:induction false} OutcomesSpec(attempts: seq<bool>, n: nat)
    ensures |Outcomes(attempts, n)| == n
    ensures forall i :: 0 <= i < n ==> Outcomes(attempts, n)[i] == Succeeds(attempts, i)
  {
    if n > 0 {
      OutcomesSpec(attempts, n - 1);
    }
  }

  /** The notifications of a run of `InternalConnectAsync` calls with these outcomes: each raises
      "disconnected" from its `Disconnect`, then its own result. */
  function DialEvents(rs: seq<bool>): seq<ServiceEvent> {
    if rs == [] then []
    else DialEvents(rs[..|rs| - 1]) + [ConnectionStatusChanged(false), ConnectionStatusChanged(rs[|rs| - 1])]
  }

  /** Attempt i raises "disconnected" and then its outcome, at positions 2i and 2i + 1. */
  lemma {:induction false} DialEventsSpec(rs: seq<bool>)
    ensures |DialEvents(rs)| == 2 * |rs|
    ensures forall i :: 0 <= i < |rs| ==>
      DialEvents(rs)[2 * i] == ConnectionStatusChanged(false) && DialEvents(rs)[2 * i + 1] == ConnectionStatusChanged(rs[i])
  {
    if rs != [] {
      var init := rs[..|rs| - 1];
      DialEventsSpec(init);
      forall i | 0 <= i < |rs|
        ensures DialEvents(rs)[2 * i] == ConnectionStatusChanged(false)
        ensures DialEvents(rs)[2 * i + 1] == ConnectionStatusChanged(rs[i])
      {
        if i < |init| {
          assert rs[i] == init[i];
        }
      }
    }
  }

  /** One more attempt appends its two notifications. */
  lemma DialStep(attempts: seq<bool>, r: nat)
    ensures DialEvents(Outcomes(attempts, r + 1)) ==
      DialEvents(Outcomes(attempts, r)) + [ConnectionStatusChanged(false), ConnectionStatusChanged(Succeeds(attempts, r))]
  {
    var rs := Outcomes(attempts, r + 1);
    OutcomesSpec(attempts, r);
    assert rs[..|rs| - 1] == Outcomes(attempts, r);
  }

  /** The data events among the notifications, in order. */
  function DataEvents(evs: seq<ServiceEvent>): seq<ProductionDataModule.ProductionData> {
    if evs == [] then []
    else (if evs[0].DataReceived? then [evs[0].data] else []) + DataEvents(evs[1..])
  }

  lemma {:induction false} DataEventsAppend(a: seq<ServiceEvent>, b: seq<ServiceEvent>)
    ensures DataEvents(a + b) == DataEvents(a) + DataEvents(b)
    decreases |a|
  {
    if a == [] {
      assert a + b == b;
    } else {
      assert (a + b)[0] == a[0] && (a + b)[1..] == a[1..] + b;
      DataEventsAppend(a[1..], b);
    }
  }

  /** Connecting raises status notifications only. */
  lemma {:induction false} DialEventsCarryNoData(rs: seq<bool>)
    ensures DataEvents(DialEvents(rs)) == []
  {
    if rs != [] {
      var status := [ConnectionStatusChanged(false), ConnectionStatusChanged(rs[|rs| - 1])];
      DialEventsCarryNoData(rs[..|rs| - 1]);
      DataEventsAppend(DialEvents(rs[..|rs| - 1]), status);
      assert DataEvents(status) == [] by {
        assert DataEvents(status[1..][1..]) == [];
        assert DataEvents(status[1..]) == [];
      }
    }
  }

  /** `ProcessMessage`: a `DataReceived` notification when `ProductionData.TryParse` accepts the
      text, nothing otherwise. */
  function MessageEvents(message: string): seq<ServiceEvent> {
    match ProductionDataModule.TryParse(message)
    case Some(d) => [DataReceived(d)]
    case None => []
  }

  /** The records decoded from a run of received texts, skipping those the parser refuses. */
  function ParsedAll(messages: seq<string>): seq<ProductionDataModule.ProductionData> {
    if messages == [] then []
    else
      ParsedAll(messages[..|messages| - 1]) +
      match ProductionDataModule.TryParse(messages[|messages| - 1])
      case Some(d) => [d]
      case None => []
  }

  lemma ParsedAllSnoc(messages: seq<string>, message: string)
    ensures ParsedAll(messages + [message]) == ParsedAll(messages) + ParsedAll([message])
  {
    assert (messages + [message])[..|messages|] == messages;
    assert [message][..0] == [];
  }

  /** A received text yields data exactly when the parser accepts it, and then exactly its record. */
  lemma MessageYieldsParsedData(message: string)
    ensures DataEvents(MessageEvents(message)) == ParsedAll([message])
    ensures |MessageEvents(message)| == 1 <==> ProductionDataModule.TryParse(message).Some?
    ensures ProductionDataModule.TryParse(message).None? ==> MessageEvents(message) == []
  {
    assert [message][..0] == [];
    var evs := MessageEvents(message);
    if evs != [] {
      assert evs[..0] == [];
    }
  }

  /** What one pass of the read loop does once the connection has been checked. */
  datatype ReadResult =
    | Received(bytes: seq<byte>)  // `ReadAsync` returned these bytes (none: the server closed)
    | ReadFailed                  // `ReadAsync` threw an I/O error
    | ReadCancelled               // the token was cancelled during the read

  /** The outcome of one pass. */
  datatype Step =
    | Idle               // no usable connection: wait 1 s and retry
    | Closed             // a zero-byte read
    | Ignored            // whitespace only
    | Message(text: string)
    | Failed             // a read error
    | Stopped            // cancellation: leave the loop

  /** The decision of lines 91-130 for a connection that is `ready` (a stream and a connected
      client) and the result of the read. */
  function Decide(ready: bool, read: ReadResult): (step: Step)
    ensures !ready <==> step.Idle?
    ensures step.Message? ==> !IsBlank(step.text) && Trim(step.text) == step.text
    ensures ready && read.Received? && |read.bytes| == 0 ==> step.Closed?
    ensures step.Closed? ==> read.Received? && |read.bytes| == 0
    ensures step.Stopped? ==> read.ReadCancelled?
  {
    if !ready then Idle
    else
      match read
      case Received(bytes) =>
        if |bytes| == 0 then Closed
        else
          var text := Trim(AsciiDecode(bytes));
          if IsBlank(text) then Ignored
          else
            TrimByIdempotent(AsciiDecode(bytes), WhiteSpace);
            Message(text)
      case ReadFailed => Failed
      case ReadCancelled => Stopped
  }

  /** A non-blank text arrives trimmed: the decoded bytes with their outer blanks removed. */
  lemma MessageIsTrimmedText(bytes: seq<byte>)
    requires |bytes| > 0
    ensures var step := Decide(true, Received(bytes));
      step.Ignored? <==> IsBlank(AsciiDecode(bytes))
    ensures var step := Decide(true, Received(bytes));
      step.Message? ==> step.text == Trim(AsciiDecode(bytes))
  {
    BlankIffTrimEmpty(AsciiDecode(bytes));
    BlankIffTrimEmpty(Trim(AsciiDecode(bytes)));
    TrimByIdempotent(AsciiDecode(bytes), WhiteSpace);
  }

  /** The notifications raised by a pass. */
  function StepEvents(step: Step): seq<ServiceEvent> {
    match step
    case Closed => [ConnectionStatusChanged(false)]
    case Failed => [ConnectionStatusChanged(false)]
    case Message(text) => MessageEvents(text)
    case _ => []
  }

  /** The delays awaited by a pass. */
  function StepDelays(step: Step, shouldReconnect: bool): seq<int> {
    match step
    case Idle => [IdleDelayMs]
    case Failed => if shouldReconnect then [ReconnectDelayMs] else []
    case _ => []
  }

  /** The data a pass yields is that of its message, if any. */
  lemma StepData(step: Step)
    ensures DataEvents(StepEvents(step)) == if step.Message? then ParsedAll([step.text]) else []
  {
    match step
    case Message(text) => MessageYieldsParsedData(text);
    case Closed => assert [ConnectionStatusChanged(false)][..0] == [];
    case Failed => assert [ConnectionStatusChanged(false)][..0] == [];
    case _ =>
  }

  /** What the network does in one pass of the read loop. */
  datatype Tick =
    | Cancel   // the token is cancelled before the pass
    | Tick(socketUp: bool, attempts: seq<bool>, read: ReadResult)

  /** A connection the read loop can read from: a stream and a connected client (line 91). */
  predicate Ready(link: Link) {
    link.hasStream && link.hasClient && link.socketConnected
  }

  /** The connection once the socket has reported whether it is still up. */
  function Observed(link: Link, socketUp: bool): Link {
    link.(socketConnected := link.socketConnected && socketUp)
  }

  /** Line 86: a lost connection is re-established only while reconnection is on. */
  predicate NeedsReconnect(link: Link, shouldReconnect: bool) {
    !(link.hasClient && link.socketConnected) && shouldReconnect
  }

  /** The connection after lines 86-89 of a pass. */
  function Checked(link: Link, shouldReconnect: bool, tick: Tick): (l: Link)
    requires tick.Tick?
    ensures NeedsReconnect(Observed(link, tick.socketUp), shouldReconnect) ==>
      (Ready(l) <==> Reconnected(tick.attempts))
    ensures !NeedsReconnect(Observed(link, tick.socketUp), shouldReconnect) ==>
      l.socketConnected == (link.socketConnected && tick.socketUp)
  {
    var l := Observed(link, tick.socketUp);
    if NeedsReconnect(l, shouldReconnect) then (if Reconnected(tick.attempts) then Up else Dialled) else l
  }

  /** The notifications of lines 86-89: those of the reconnect call, if there is one. */
  function CheckEvents(link: Link, shouldReconnect: bool, tick: Tick): seq<ServiceEvent>
    requires tick.Tick?
  {
    if NeedsReconnect(Observed(link, tick.socketUp), shouldReconnect)
    then DialEvents(Outcomes(tick.attempts, AttemptsMade(tick.attempts)))
    else []
  }

  /** The delays of lines 86-89: the backoffs of the reconnect call's failed attempts. */
  function CheckDelays(link: Link, shouldReconnect: bool, tick: Tick): seq<int>
    requires tick.Tick?
  {
    if NeedsReconnect(Observed(link, tick.socketUp), shouldReconnect)
    then Waits(if Reconnected(tick.attempts) then AttemptsMade(tick.attempts) - 1 else AttemptsMade(tick.attempts))
    else []
  }

  /** The decision a pass takes: the read result acted on over the checked connection. */
  function PassStep(link: Link, shouldReconnect: bool, tick: Tick): Step
    requires tick.Tick?
  {
    Decide(Ready(Checked(link, shouldReconnect, tick)), tick.read)
  }

  /** The passes `ReadLoopAsync` runs over a script of ticks from the connection `link`: it stops
      before a cancelled tick, after a cancelled read, or when the script ends. */
  function Trace(link: Link, shouldReconnect: bool, ticks: seq<Tick>): seq<Step>
    decreases |ticks|
  {
    if ticks == [] || ticks[0].Cancel? then []
    else
      var step := PassStep(link, shouldReconnect, ticks[0]);
      [step] + if step.Stopped? then [] else Trace(Checked(link, shouldReconnect, ticks[0]), shouldReconnect, ticks[1..])
  }

  /** The loop makes one pass per tick until it stops, every pass it makes had a tick, it stops
      early only at a cancelled tick or after a cancelled read, and only its last pass can be a
      stop. */
  lemma {:induction false} TraceShape(link: Link, shouldReconnect: bool, ticks: seq<Tick>)
    ensures var t := Trace(link, shouldReconnect, ticks);
      |t| <= |ticks|
      && (forall j :: 0 <= j < |t| ==> ticks[j].Tick?)
      && (forall j :: 0 <= j < |t| - 1 ==> !t[j].Stopped?)
      && (|t| < |ticks| ==> ticks[|t|].Cancel? || (|t| > 0 && t[|t| - 1].Stopped?))
      && (|t| > 0 && t[|t| - 1].Stopped? ==> ticks[|t| - 1].read.ReadCancelled?)
    decreases |ticks|
  {
    if ticks != [] && ticks[0].Tick? {
      var step := PassStep(link, shouldReconnect, ticks[0]);
      if !step.Stopped? {
        var rest := ticks[1..];
        TraceShape(Checked(link, shouldReconnect, ticks[0]), shouldReconnect, rest);
        var t := Trace(link, shouldReconnect, ticks);
        var r := Trace(Checked(link, shouldReconnect, ticks[0]), shouldReconnect, rest);
        assert t == [step] + r;
        forall j | 0 <= j < |t| ensures ticks[j].Tick? {
          if j > 0 {
            assert ticks[j] == rest[j - 1];
          }
        }
        forall j | 0 <= j < |t| - 1 ensures !t[j].Stopped? {
          if j > 0 {
            assert t[j] == r[j - 1];
          }
        }
        if |t| < |ticks| {
          assert ticks[|t|] == rest[|r|];
          if |r| > 0 {
            assert t[|t| - 1] == r[|r| - 1];
            assert ticks[|t| - 1] == rest[|r| - 1];
          }
        }
      }
    }
  }

  /** The texts a run of passes hands on: those of its `Message` passes, in order. */
  function Texts(steps: seq<Step>): seq<string> {
    if steps == [] then [] else Texts(steps[..|steps| - 1]) + TextOf(steps[|steps| - 1])
  }

  /** The text a pass hands on, if any. */
  function TextOf(step: Step): seq<string> {
    if step.Message? then [step.text] else []
  }

  lemma TextsSnoc(steps: seq<Step>, step: Step)
    ensures Texts(steps + [step]) == Texts(steps) + TextOf(step)
  {
    assert (steps + [step])[..|steps|] == steps;
  }

  /** The passes from tick `k` on: the pass on tick `k`, then, unless it stops, those after it. */
  lemma TraceFrom(link: Link, shouldReconnect: bool, ticks: seq<Tick>, k: nat)
    requires k < |ticks| && ticks[k].Tick?
    ensures Trace(link, shouldReconnect, ticks[k..]) ==
      [PassStep(link, shouldReconnect, ticks[k])] +
      if PassStep(link, shouldReconnect, ticks[k]).Stopped? then []
      else Trace(Checked(link, shouldReconnect, ticks[k]), shouldReconnect, ticks[k + 1..])
  {
    assert ticks[k..][0] == ticks[k] && ticks[k..][1..] == ticks[k + 1..];
  }

  /** The data a pass raises is the record of the text it hands on, if the parser accepts it. */
  lemma PassData(link: Link, shouldReconnect: bool, tick: Tick)
    requires tick.Tick?
    ensures var step := PassStep(link, shouldReconnect, tick);
      DataEvents(CheckEvents(link, shouldReconnect, tick) + StepEvents(step)) ==
        if step.Message? then ParsedAll([step.text]) else []
  {
    var step := PassStep(link, shouldReconnect, tick);
    CheckCarriesNoData(link, shouldReconnect, tick);
    StepData(step);
    DataEventsAppend(CheckEvents(link, shouldReconnect, tick), StepEvents(step));
  }

  /** Every text the loop hands on is trimmed and not blank. */
  lemma TraceTexts(link: Link, shouldReconnect: bool, ticks: seq<Tick>)
    ensures forall m :: m in Texts(Trace(link, shouldReconnect, ticks)) ==> !IsBlank(m) && Trim(m) == m
  {
    var t := Trace(link, shouldReconnect, ticks);
    TextsOfMessages(t);
    TraceMessages(link, shouldReconnect, ticks);
  }

  /** Every `Message` pass of the loop carries a trimmed, non-blank text. */
  lemma {:induction false} TraceMessages(link: Link, shouldReconnect: bool, ticks: seq<Tick>)
    ensures forall step :: step in Trace(link, shouldReconnect, ticks) && step.Message? ==>
      !IsBlank(step.text) && Trim(step.text) == step.text
    decreases |ticks|
  {
    if ticks != [] && ticks[0].Tick? {
      var step := PassStep(link, shouldReconnect, ticks[0]);
      if !step.Stopped? {
        TraceMessages(Checked(link, shouldReconnect, ticks[0]), shouldReconnect, ticks[1..]);
      }
    }
  }

  /** Every text handed on comes from a `Message` pass. */
  lemma {:induction false} TextsOfMessages(steps: seq<Step>)
    ensures forall m :: m in Texts(steps) ==> Message(m) in steps
  {
    if steps != [] {
      var init := steps[..|steps| - 1];
      TextsOfMessages(init);
      assert steps == init + [steps[|steps| - 1]];
      forall m | m in Texts(steps) ensures Message(m) in steps {
        if m in Texts(init) {
          assert Message(m) in init;
        }
      }
    }
  }

  /** One more pass of the loop: the passes so far, followed by the passes from the connection
      this one leaves, are still the whole run, or the whole run when this pass stops. */
  lemma TraceStep(link0: Link, shouldReconnect: bool, ticks: seq<Tick>, steps: seq<Step>, link: Link)
    requires |steps| < |ticks| && ticks[|steps|].Tick?
    requires Trace(link0, shouldReconnect, ticks) == steps + Trace(link, shouldReconnect, ticks[|steps|..])
    ensures var step := PassStep(link, shouldReconnect, ticks[|steps|]);
      var next := Checked(link, shouldReconnect, ticks[|steps|]);
      Trace(link0, shouldReconnect, ticks) ==
        (steps + [step]) + (if step.Stopped? then [] else Trace(next, shouldReconnect, ticks[|steps| + 1..]))
  {
    var step := PassStep(link, shouldReconnect, ticks[|steps|]);
    TraceFrom(link, shouldReconnect, ticks, |steps|);
    Associative(steps, [step], if step.Stopped? then [] else
      Trace(Checked(link, shouldReconnect, ticks[|steps|]), shouldReconnect, ticks[|steps| + 1..]));
  }

  /** One more pass of the loop keeps the data raised equal to the parsed texts handed on. */
  lemma DataStep(added: seq<ServiceEvent>, messages: seq<string>, link: Link, shouldReconnect: bool, tick: Tick)
    requires tick.Tick?
    requires DataEvents(added) == ParsedAll(messages)
    ensures var step := PassStep(link, shouldReconnect, tick);
      DataEvents(added + (CheckEvents(link, shouldReconnect, tick) + StepEvents(step))) ==
        ParsedAll(messages + TextOf(step))
  {
    var step := PassStep(link, shouldReconnect, tick);
    PassData(link, shouldReconnect, tick);
    DataEventsAppend(added, CheckEvents(link, shouldReconnect, tick) + StepEvents(step));
    if step.Message? {
      ParsedAllSnoc(messages, step.text);
    } else {
      assert messages + TextOf(step) == messages;
    }
  }

  /** On a connection that is up and stays up, a pass hands on exactly the trimmed text of the
      bytes it read, unless that text is blank. */
  lemma PassOnLiveLink(link: Link, shouldReconnect: bool, socketUp: bool, attempts: seq<bool>, bytes: seq<byte>)
    requires Ready(link) && socketUp && |bytes| > 0
    ensures var step := PassStep(link, shouldReconnect, Tick(socketUp, attempts, Received(bytes)));
      if IsBlank(AsciiDecode(bytes)) then step == Ignored else step == Message(Trim(AsciiDecode(bytes)))
  {
    MessageIsTrimmedText(bytes);
  }

  /** Checking the connection raises status notifications only. */
  lemma CheckCarriesNoData(link: Link, shouldReconnect: bool, tick: Tick)
    requires tick.Tick?
    ensures DataEvents(CheckEvents(link, shouldReconnect, tick)) == []
  {
    DialEventsCarryNoData(Outcomes(tick.attempts, AttemptsMade(tick.attempts)));
  }

  class TcpService {
    var hasClient: bool
    var socketConnected: bool
    var hasStream: bool
    var hasReadingCts: bool
    var readingCancelled: bool
    var isDisposed: bool
    var ipAddress: string
    var port: Int32
    var shouldReconnect: bool
    /** The notifications raised so far. */
    var events: seq<ServiceEvent>
    /** The `Task.Delay` durations awaited so far, in milliseconds. */
    var delays: seq<int>

    function LinkState(): Link
      reads this
    {
      Link(hasClient, socketConnected, hasStream)
    }

    function ControlState(): Control
      reads this
    {
      Control(ipAddress, port, shouldReconnect, hasReadingCts, readingCancelled, isDisposed)
    }

    /** `IsConnected`: a client exists and reports connected. */
    function IsConnected(): bool
      reads this
    {
      hasClient && socketConnected
    }

    constructor()
      ensures LinkState() == Down && !IsConnected()
      ensures ControlState() == Control("", 0, true, false, false, false)
      ensures events == [] && delays == []
    {
      hasClient, socketConnected, hasStream := false, false, false;
      hasReadingCts, readingCancelled, isDisposed := false, false, false;
      ipAddress, port := "", 0;
      shouldReconnect := true;
      events, delays := [], [];
    }

    /** `Disconnect`: closes the stream and the client and reports "disconnected", whatever the
        state, so calling it again is harmless. */
    method Disconnect()
      modifies this
      ensures LinkState() == Down && !IsConnected()
      ensures events == old(events) + [ConnectionStatusChanged(false)]
      ensures ControlState() == old(ControlState()) && delays == old(delays)
    {
      hasStream := false;
      hasClient := false;
      socketConnected := false;
      events := events + [ConnectionStatusChanged(false)];
    }

    /** `InternalConnectAsync`: disconnects first, then dials; `connects` is the outcome of the
        dial and `ok` is false where the source rethrows. */
    method InternalConnect(connects: bool) returns (ok: bool)
      modifies this
      ensures ok == connects && IsConnected() == connects
      ensures LinkState() == if connects then Up else Dialled
      ensures events == old(events) + [ConnectionStatusChanged(false), ConnectionStatusChanged(connects)]
      ensures ControlState() == old(ControlState()) && delays == old(delays)
    {
      Disconnect();
      hasClient := true;
      socketConnected := false;
      if connects {
        socketConnected := true;
        hasStream := true;
        events := events + [ConnectionStatusChanged(true)];
        ok := true;
      } else {
        events := events + [ConnectionStatusChanged(false)];
        ok := false;
      }
    }

    /** `ConnectAsync`: records the endpoint and re-enables reconnection, then connects. */
    method Connect(ip: string, portNumber: Int32, connects: bool) returns (ok: bool)
      modifies this
      ensures ok == connects && IsConnected() == connects
      ensures LinkState() == if connects then Up else Dialled
      ensures ControlState() == old(ControlState()).(ipAddress := ip, port := portNumber, shouldReconnect := true)
      ensures events == old(events) + [ConnectionStatusChanged(false), ConnectionStatusChanged(connects)]
      ensures delays == old(delays)
    {
      ipAddress := ip;
      port := portNumber;
      shouldReconnect := true;
      ok := InternalConnect(connects);
    }

    /** `ReconnectAsync`: at most ten connect attempts with `attempts` as their outcomes, stopping
        at the first success; after each failure the delay doubles, capped at 60 s, and is
        awaited. A call whose token is already cancelled does nothing. */
    method Reconnect(attempts: seq<bool>, cancelled: bool) returns (tries: nat)
      modifies this
      ensures cancelled ==> (tries == 0 && LinkState() == old(LinkState())
        && events == old(events) && delays == old(delays))
      ensures !cancelled ==> tries == AttemptsMade(attempts)
      ensures !cancelled ==> LinkState() == if Reconnected(attempts) then Up else Dialled
      ensures !cancelled ==> events == old(events) + DialEvents(Outcomes(attempts, tries))
      ensures !cancelled ==> delays == old(delays) + Waits(if Reconnected(attempts) then tries - 1 else tries)
      ensures ControlState() == old(ControlState())
    {
      var retryCount := 0;
      var delay := ReconnectDelayMs;
      while !cancelled && retryCount < MaxRetries
        invariant 0 <= retryCount <= MaxRetries
        invariant cancelled ==> retryCount == 0
        invariant delay == Backoff(retryCount)
        invariant forall i :: 0 <= i < retryCount ==> !Succeeds(attempts, i)
        invariant retryCount == 0 ==> LinkState() == old(LinkState())
        invariant retryCount > 0 ==> LinkState() == Dialled
        invariant events == old(events) + DialEvents(Outcomes(attempts, retryCount))
        invariant delays == old(delays) + Waits(retryCount)
        invariant ControlState() == old(ControlState())
      {
        var connected;
        connected, delay := Attempt(attempts, retryCount, delay);
        DialStep(attempts, retryCount);
        Associative(old(events), DialEvents(Outcomes(attempts, retryCount)),
          [ConnectionStatusChanged(false), ConnectionStatusChanged(connected)]);
        if connected {
          tries := retryCount + 1;
          AttemptsMadeAt(attempts, retryCount);
          return;
        }
        Associative(old(delays), Waits(retryCount), [Backoff(retryCount + 1)]);
        assert forall i :: 0 <= i <= retryCount ==> !Succeeds(attempts, i);
        retryCount := retryCount + 1;
      }
      tries := retryCount;
      if !cancelled {
        assert !Reconnected(attempts) && AttemptsMade(attempts) == MaxRetries by {
          ReconnectedIff(attempts);
        }
      }
    }

    /** One pass of the reconnect loop: attempt `retryCount` connects, or it fails and the doubled
        delay, capped at 60 s, is awaited. The notifications and delays so far are those of the
        earlier failed attempts. */
    method Attempt(attempts: seq<bool>, retryCount: nat, delay: int) returns (connected: bool, nextDelay: int)
      requires retryCount < MaxRetries && delay == Backoff(retryCount)
      modifies this
      ensures connected == Succeeds(attempts, retryCount)
      ensures LinkState() == if connected then Up else Dialled
      ensures events == old(events) + [ConnectionStatusChanged(false), ConnectionStatusChanged(connected)]
      ensures connected ==> delays == old(delays) && nextDelay == delay
      ensures !connected ==> nextDelay == Backoff(retryCount + 1) && delays == old(delays) + [nextDelay]
      ensures ControlState() == old(ControlState())
    {
      connected := InternalConnect(Succeeds(attempts, retryCount));
      nextDelay := delay;
      if !connected {
        nextDelay := Min(delay * 2, MaxBackoffMs);
        delays := delays + [nextDelay];
      }
    }

    /** The socket reports whether it is still up; a dropped socket stays dropped. */
    method ObserveSocket(socketUp: bool)
      modifies this
      ensures LinkState() == old(LinkState()).(socketConnected := old(socketConnected) && socketUp)
      ensures ControlState() == old(ControlState()) && events == old(events) && delays == old(delays)
    {
      socketConnected := socketConnected && socketUp;
    }

    /** `ProcessMessage`: hands the text to `ProductionData.TryParse` and raises `DataReceived`
        with the record it yields. */
    method ProcessMessage(message: string)
      modifies this
      ensures events == old(events) + MessageEvents(message)
      ensures LinkState() == old(LinkState()) && ControlState() == old(ControlState()) && delays == old(delays)
    {
      var data := ProductionDataModule.TryParse(message);
      if data.Some? {
        events := events + [DataReceived(data.value)];
      }
    }

    /** Lines 91-130 of one pass: wait while there is no usable connection, otherwise act on the
        read result. `step` is the decision taken. */
    method ReadOnce(read: ReadResult) returns (stop: bool, message: Option<string>, ghost step: Step)
      modifies this
      ensures step == Decide(old(hasStream) && old(IsConnected()), read)
      ensures stop == step.Stopped?
      ensures message == if step.Message? then Some(step.text) else None
      ensures events == old(events) + StepEvents(step)
      ensures delays == old(delays) + StepDelays(step, old(shouldReconnect))
      ensures LinkState() == old(LinkState()) && ControlState() == old(ControlState())
    {
      step := Decide(hasStream && IsConnected(), read);
      stop, message := false, None;
      if !hasStream || !IsConnected() {
        delays := delays + [IdleDelayMs];
        return;
      }
      match read
      case Received(bytes) =>
        if |bytes| == 0 {
          events := events + [ConnectionStatusChanged(false)];
        } else {
          var data := Trim(AsciiDecode(bytes));
          if !IsBlank(data) {
            ProcessMessage(data);
            message := Some(data);
          }
        }
      case ReadFailed =>
        events := events + [ConnectionStatusChanged(false)];
        if shouldReconnect {
          delays := delays + [ReconnectDelayMs];
        }
      case ReadCancelled =>
        stop := true;
    }

    /** Lines 86-89: the socket reports whether it is still up, and a lost connection is
        re-established when reconnection is on. */
    method CheckConnection(tick: Tick)
      requires tick.Tick?
      modifies this
      ensures LinkState() == Checked(old(LinkState()), old(shouldReconnect), tick)
      ensures events == old(events) + CheckEvents(old(LinkState()), old(shouldReconnect), tick)
      ensures delays == old(delays) + CheckDelays(old(LinkState()), old(shouldReconnect), tick)
      ensures ControlState() == old(ControlState())
    {
      ObserveSocket(tick.socketUp);
      assert LinkState() == Observed(old(LinkState()), tick.socketUp);
      if !IsConnected() && shouldReconnect {
        var tries := Reconnect(tick.attempts, false);
      }
    }

    /** One pass of `ReadLoopAsync`: check the connection, then read. `step` is the decision the
        pass takes on the checked connection and the tick's read. */
    method ReadPass(tick: Tick) returns (stop: bool, message: Option<string>, ghost step: Step)
      requires tick.Tick?
      modifies this
      ensures step == PassStep(old(LinkState()), old(shouldReconnect), tick)
      ensures stop == step.Stopped?
      ensures message == if step.Message? then Some(step.text) else None
      ensures LinkState() == Checked(old(LinkState()), old(shouldReconnect), tick)
      ensures events == old(events) + CheckEvents(old(LinkState()), old(shouldReconnect), tick) + StepEvents(step)
      ensures delays == old(delays) + CheckDelays(old(LinkState()), old(shouldReconnect), tick)
        + StepDelays(step, old(shouldReconnect))
      ensures ControlState() == old(ControlState())
    {
      CheckConnection(tick);
      stop, message, step := ReadOnce(tick.read);
    }

    /** `ReadLoopAsync` over a script of passes. `steps` are the decisions of its passes, which
        are `Trace` of the ticks: one per tick, each taken on that tick's read, until the token is
        cancelled, a read is cancelled, or the script ends (`TraceShape`). The texts it hands on
        are those of its `Message` passes, trimmed and not blank (`TraceTexts`), and the data
        notifications among those it raises (`added`) are exactly the records the parser accepts
        among those texts. */
    method ReadLoop(ticks: seq<Tick>) returns (passes: nat, messages: seq<string>, ghost steps: seq<Step>,
        ghost added: seq<ServiceEvent>)
      modifies this
      ensures steps == Trace(old(LinkState()), old(shouldReconnect), ticks)
      ensures passes == |steps| <= |ticks|
      ensures messages == Texts(steps)
      ensures events == old(events) + added
      ensures DataEvents(added) == ParsedAll(messages)
      ensures ControlState() == old(ControlState())
    {
      passes, messages, steps, added := 0, [], [], [];
      var stop := false;
      while !stop && passes < |ticks| && !ticks[passes].Cancel?
        invariant passes == |steps| <= |ticks|
        invariant stop ==> steps == Trace(old(LinkState()), old(shouldReconnect), ticks)
        invariant !stop ==> (Trace(old(LinkState()), old(shouldReconnect), ticks) ==
          steps + Trace(LinkState(), old(shouldReconnect), ticks[passes..]))
        invariant messages == Texts(steps)
        invariant events == old(events) + added
        invariant DataEvents(added) == ParsedAll(messages)
        invariant ControlState() == old(ControlState())
      {
        stop, messages, steps, added := LoopPass(ticks, passes, old(LinkState()), messages, steps, old(events), added);
        passes := passes + 1;
      }
      if !stop {
        assert Trace(LinkState(), shouldReconnect, ticks[passes..]) == [];
      }
    }

    /** The body of the read loop: one pass on the next tick, with the passes, the texts handed on
        and the notifications raised so far extended by this pass's. */
    method LoopPass(ticks: seq<Tick>, passes: nat, ghost link0: Link, messages: seq<string>, ghost steps: seq<Step>,
        ghost events0: seq<ServiceEvent>, ghost added: seq<ServiceEvent>)
      returns (stop: bool, messages': seq<string>, ghost steps': seq<Step>, ghost added': seq<ServiceEvent>)
      requires passes == |steps| < |ticks| && ticks[passes].Tick?
      requires Trace(link0, shouldReconnect, ticks) == steps + Trace(LinkState(), shouldReconnect, ticks[|steps|..])
      requires messages == Texts(steps)
      requires events == events0 + added
      requires DataEvents(added) == ParsedAll(messages)
      modifies this
      ensures |steps'| == |steps| + 1
      ensures stop ==> steps' == Trace(link0, shouldReconnect, ticks)
      ensures !stop ==> (Trace(link0, shouldReconnect, ticks) ==
        steps' + Trace(LinkState(), shouldReconnect, ticks[|steps'|..]))
      ensures messages' == Texts(steps')
      ensures events == events0 + added'
      ensures DataEvents(added') == ParsedAll(messages')
      ensures ControlState() == old(ControlState())
    {
      ghost var link := LinkState();
      ghost var before := events;
      var tick := ticks[passes];
      TraceStep(link0, shouldReconnect, ticks, steps, link);
      DataStep(added, messages, link, shouldReconnect, tick);
      var message;
      ghost var step;
      stop, message, step := ReadPass(tick);
      ghost var more := CheckEvents(link, old(shouldReconnect), tick) + StepEvents(step);
      Associative(before, CheckEvents(link, old(shouldReconnect), tick), StepEvents(step));
      Associative(events0, added, more);
      added' := added + more;
      TextsSnoc(steps, step);
      steps' := steps + [step];
      messages' := messages;
      if message.Some? {
        messages' := messages + [message.value];
      }
    }

    /** `StartReadingAsync`: a fresh cancellation source for the loop, which `ReadLoop` then runs. */
    method StartReading()
      modifies this
      ensures ControlState() == old(ControlState()).(hasReadingCts := true, readingCancelled := false)
      ensures LinkState() == old(LinkState()) && events == old(events) && delays == old(delays)
    {
      hasReadingCts := true;
      readingCancelled := false;
    }

    /** `StopReadingAsync`: turns reconnection off before cancelling the loop. */
    method StopReading()
      modifies this
      ensures !shouldReconnect
      ensures ControlState() == old(ControlState()).(shouldReconnect := false,
        readingCancelled := old(readingCancelled) || old(hasReadingCts))
      ensures LinkState() == old(LinkState()) && events == old(events) && delays == old(delays)
    {
      shouldReconnect := false;
      if hasReadingCts {
        readingCancelled := true;
      }
    }

    /** `DisconnectAsync`: stops reading, then disconnects. */
    method DisconnectAll()
      modifies this
      ensures !shouldReconnect && LinkState() == Down
      ensures ControlState() == old(ControlState()).(shouldReconnect := false,
        readingCancelled := old(readingCancelled) || old(hasReadingCts))
      ensures events == old(events) + [ConnectionStatusChanged(false)] && delays == old(delays)
    {
      StopReading();
      Disconnect();
    }

    /** `Dispose`: the first call cancels the loop and disconnects; later calls do nothing. */
    method Dispose()
      modifies this
      ensures old(isDisposed) ==> unchanged(this)
      ensures !old(isDisposed) ==> (isDisposed && LinkState() == Down
        && ControlState() == old(ControlState()).(isDisposed := true,
          readingCancelled := old(readingCancelled) || old(hasReadingCts))
        && events == old(events) + [ConnectionStatusChanged(false)] && delays == old(delays))
    {
      if isDisposed {
        return;
      }
      isDisposed := true;
      if hasReadingCts {
        readingCancelled := true;
      }
      Disconnect();
    }
  }
}
