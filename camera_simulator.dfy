/**
 * The camera simulator's window (CameraSimulator/MainWindow.xaml.cs): a TCP server that accepts one
 * client and, on every OK or NG click, sends the running counts as a comma-separated record. The
 * clock, the product-id box, the socket's `Connected` flag and whether I/O succeeds are inputs; the
 * text the window shows other than the three counters is not modelled.
 */
module CameraSimulator {
  import opened Wrappers
  import opened Int32s
  import opened Text
  import opened Numbers
  import opened Dates
  import PacketParser
  import ProductionDataModule

  function Min(a: int, b: int): int {
    if a <= b then a else b
  }

  /** `DateTime.AddYears(1)`: the same day and month a year on, or the last day of that month when
      it is shorter (29 February); the year after 9999 cannot be represented and throws. */
  function NextYear(d: DateValue): (r: Option<DateValue>)
    ensures r.Some? <==> d.year < 9999
    ensures r.Some? ==> (r.value.year == d.year + 1 && r.value.month == d.month
      && r.value.day == Min(d.day, DaysInMonth(d.year + 1, d.month)))
  {
    if d.year == 9999 then None
    else if d.month == 2 && d.day == 29 && !IsLeapYear(d.year + 1) then Some(Date(d.year + 1, 2, 28))
    else Some(Date(d.year + 1, d.month, d.day))
  }

  /** The six fields `SendPacket` prints: total, OK, NG, product id, today and a year on. */
  function PacketFields(ok: Int32, ng: Int32, productId: string, today: DateValue, expiry: DateValue): seq<string> {
    [IntToString(Wrap(ok as int + ng as int)), IntToString(ok), IntToString(ng), productId,
     FormatDdMMyy(today), FormatDdMMyy(expiry)]
  }

  /** The record `SendPacket` writes, or `None` where computing the expiry date throws. */
  function Packet(ok: Int32, ng: Int32, productId: string, today: DateValue): Option<string> {
    match NextYear(today)
    case None => None
    case Some(expiry) => Some(Join(PacketFields(ok, ng, productId, today, expiry), ','))
  }

  /** A product id without commas keeps the record at six comma-separated fields, in the order
      total, OK, NG, product id, made, expires, with the total the wrapped sum of the counts. */
  lemma PacketSplits(ok: Int32, ng: Int32, productId: string, today: DateValue)
    requires ',' !in productId && today.year < 9999
    ensures var expiry := NextYear(today).value;
      Split(Packet(ok, ng, productId, today).value, ',') == PacketFields(ok, ng, productId, today, expiry)
    ensures Split(Packet(ok, ng, productId, today).value, ',')[0] == IntToString(Wrap(ok as int + ng as int))
  {
    var expiry := NextYear(today).value;
    var parts := PacketFields(ok, ng, productId, today, expiry);
    PacketParser.CountFieldShape(Wrap(ok as int + ng as int));
    PacketParser.CountFieldShape(ok);
    PacketParser.CountFieldShape(ng);
    PacketParser.DateFieldShape(today);
    PacketParser.DateFieldShape(expiry);
    SplitJoin(parts, ',');
  }

  /** A printed count is ASCII. */
  lemma CountAscii(n: Int32)
    ensures IsAscii(IntToString(n))
  {
    var digits := NatToString(if n < 0 then -(n as int) else n);
    assert forall i :: 0 <= i < |digits| ==> IsDigit(digits[i]);
    if n < 0 {
      assert forall i :: 1 <= i < |IntToString(n)| ==> IntToString(n)[i] == digits[i - 1];
    }
  }

  /** Joining ASCII pieces with an ASCII separator gives ASCII text. */
  lemma {:induction false} JoinAscii(parts: seq<string>, sep: char)
    requires IsAsciiChar(sep)
    requires forall i :: 0 <= i < |parts| ==> IsAscii(parts[i])
    ensures IsAscii(Join(parts, sep))
  {
    if |parts| > 1 {
      JoinAscii(parts[1..], sep);
      var rest := Join(parts[1..], sep);
      assert Join(parts, sep) == parts[0] + [sep] + rest;
      forall i | 0 <= i < |Join(parts, sep)| ensures IsAsciiChar(Join(parts, sep)[i]) {
        if i < |parts[0]| {
          assert Join(parts, sep)[i] == parts[0][i];
        } else if i > |parts[0]| {
          assert Join(parts, sep)[i] == rest[i - |parts[0]| - 1];
        }
      }
    }
  }

  /** A printed date is ASCII. */
  lemma DateAscii(d: DateValue)
    ensures IsAscii(FormatDdMMyy(d))
  {
    assert forall i :: 0 <= i < |FormatDdMMyy(d)| ==> IsDigit(FormatDdMMyy(d)[i]);
  }

  /** The fields of a record with an ASCII product id are ASCII, and so is the record. */
  lemma PacketAscii(ok: Int32, ng: Int32, productId: string, today: DateValue, expiry: DateValue)
    requires IsAscii(productId)
    ensures IsAscii(Join(PacketFields(ok, ng, productId, today, expiry), ','))
  {
    var parts := PacketFields(ok, ng, productId, today, expiry);
    CountAscii(Wrap(ok as int + ng as int));
    CountAscii(ok);
    CountAscii(ng);
    DateAscii(today);
    DateAscii(expiry);
    forall i | 0 <= i < |parts| ensures IsAscii(parts[i]) {
      if i == 0 { assert parts[0] == IntToString(Wrap(ok as int + ng as int)); }
      else if i == 1 { assert parts[1] == IntToString(ok); }
      else if i == 2 { assert parts[2] == IntToString(ng); }
      else if i == 3 { assert parts[3] == productId; }
      else if i == 4 { assert parts[4] == FormatDdMMyy(today); }
      else { assert parts[5] == FormatDdMMyy(expiry); }
    }
    JoinAscii(parts, ',');
  }

  /** The count fields of a record hold digits and a sign only, never '\0'. */
  lemma PacketCountsNulFree(ok: Int32, ng: Int32, productId: string, today: DateValue, expiry: DateValue)
    requires ',' !in productId
    ensures ProductionDataModule.CountsNulFree(Join(PacketFields(ok, ng, productId, today, expiry), ','))
  {
    var parts := PacketFields(ok, ng, productId, today, expiry);
    PacketParser.CountFieldShape(Wrap(ok as int + ng as int));
    PacketParser.CountFieldShape(ok);
    PacketParser.CountFieldShape(ng);
    PacketParser.DateFieldShape(today);
    PacketParser.DateFieldShape(expiry);
    PacketParser.FieldsOfJoin(parts);
  }

  /** For an ASCII product id without commas, the app's live decoder reads the record back with
      counts (OK + NG, OK, NG), the product id trimmed and the two printed dates. */
  lemma PacketDecodes(ok: Int32, ng: Int32, productId: string, today: DateValue)
    requires IsAscii(productId) && ',' !in productId && today.year < 9999
    ensures var expiry := NextYear(today).value;
      ProductionDataModule.TryParse(Packet(ok, ng, productId, today).value)
      == Some(ProductionDataModule.ProductionData(Wrap(ok as int + ng as int), ok, ng, Trim(productId),
                                                  FormatDdMMyy(today), FormatDdMMyy(expiry)))
  {
    var expiry := NextYear(today).value;
    var record := Join(PacketFields(ok, ng, productId, today, expiry), ',');
    assert record == Packet(ok, ng, productId, today).value;
    PacketParser.DateFieldShape(today);
    PacketParser.DateFieldShape(expiry);
    PacketParser.PrintedRecordAccepted(Wrap(ok as int + ng as int), ok, ng, productId,
      FormatDdMMyy(today), FormatDdMMyy(expiry));
    PacketAscii(ok, ng, productId, today, expiry);
    PacketCountsNulFree(ok, ng, productId, today, expiry);
    ProductionDataModule.AgreesWithPacketParser(record);
  }

  /** Reading the record back with `PacketParser` also returns both dates, when they lie in the
      two-digit-year window. */
  lemma PacketParsesWithDates(ok: Int32, ng: Int32, productId: string, today: DateValue)
    requires ',' !in productId && 1950 <= today.year <= 2048
    ensures var expiry := NextYear(today).value;
      var p := PacketParser.TryParse(Packet(ok, ng, productId, today).value);
      p.Some? && p.value.totalCount == Wrap(ok as int + ng as int) && p.value.okCount == ok
      && p.value.ngCount == ng && p.value.mfgDate == Some(today) && p.value.expDate == Some(expiry)
  {
    var expiry := NextYear(today).value;
    PacketParser.PrintedRecordParses(Wrap(ok as int + ng as int), ok, ng, productId, today, expiry);
  }

  /** What one send depends on from outside: the product-id box, the clock, the client socket's
      `Connected` flag and whether the stream write succeeds. */
  datatype Environment = Environment(productId: string, now: DateValue, socketConnected: bool, writeSucceeds: bool)

  /** The window's fields as one value. `hasStream` and `hasClient` say that `_stream` and
      `_client` are set; `clientOpen` that the client has not been closed since. */
  datatype Window = Window(
    hasListener: bool,
    listening: bool,
    hasClient: bool,
    clientOpen: bool,
    hasStream: bool,
    isRunning: bool,
    buttonsEnabled: bool,
    okCount: Int32,
    ngCount: Int32,
    okShown: Int32,
    ngShown: Int32,
    totalShown: Int32,
    written: seq<string>,
    logged: seq<string>)

  /** `UpdateCounters`: the three counter texts show the two counts and their sum. */
  function Shown(w: Window): (r: Window)
    ensures r.okCount == w.okCount && r.ngCount == w.ngCount && r.written == w.written
  {
    w.(okShown := w.okCount, ngShown := w.ngCount, totalShown := Wrap(w.okCount as int + w.ngCount as int))
  }

  /** `StopServer`: stream, client and listener closed, both counts zeroed, buttons disabled and the
      counters redrawn. `_stream` and `_client` stay set. */
  function Stopped(w: Window): Window {
    Shown(w.(listening := false, clientOpen := false, isRunning := false,
             buttonsEnabled := false, okCount := 0, ngCount := 0))
  }

  /** The guard of `SendPacket`: a stream, and a client that is connected. */
  predicate CanSend(w: Window, env: Environment) {
    w.hasStream && w.hasClient && w.clientOpen && env.socketConnected
  }

  /** `SendPacket`: nothing without a connected stream; otherwise the record is written and logged,
      and a failure (the expiry year out of range, or the write) stops the server. */
  function AfterSend(w: Window, env: Environment): Window {
    if !CanSend(w, env) then w
    else match Packet(w.okCount, w.ngCount, env.productId, env.now)
      case None => Stopped(w)
      case Some(p) =>
        if env.writeSucceeds then w.(written := w.written + [p], logged := w.logged + [p])
        else Stopped(w)
  }

  /** `OkButton_Click`: one more OK, a send, the counters redrawn. */
  function AfterOk(w: Window, env: Environment): Window {
    Shown(AfterSend(w.(okCount := Wrap(w.okCount as int + 1)), env))
  }

  /** `NgButton_Click`: one more NG, a send, the counters redrawn. */
  function AfterNg(w: Window, env: Environment): Window {
    Shown(AfterSend(w.(ngCount := Wrap(w.ngCount as int + 1)), env))
  }

  /** A send either leaves the counts alone and appends at most the record of those counts, or
      stops the server with both counts zero. */
  lemma SendOutcome(w: Window, env: Environment)
    ensures var r := AfterSend(w, env);
      || (r.okCount == w.okCount && r.ngCount == w.ngCount && r.isRunning == w.isRunning
          && (r.written == w.written
              || (CanSend(w, env) && r.written == w.written + [Packet(w.okCount, w.ngCount, env.productId, env.now).value])))
      || (r.okCount == 0 && r.ngCount == 0 && !r.isRunning && !r.buttonsEnabled && r.written == w.written)
  {
  }

  /** A send appends at most one record: the six fields of the counts it was made with, led by
      their sum. */
  lemma SentRecordOfCounts(w: Window, env: Environment)
    requires ',' !in env.productId
    ensures var r := AfterSend(w, env);
      r.written != w.written ==>
        (env.now.year < 9999 && r.written == w.written + [Packet(w.okCount, w.ngCount, env.productId, env.now).value]
        && Split(Packet(w.okCount, w.ngCount, env.productId, env.now).value, ',')
           == PacketFields(w.okCount, w.ngCount, env.productId, env.now, NextYear(env.now).value))
  {
    if AfterSend(w, env).written != w.written {
      PacketSplits(w.okCount, w.ngCount, env.productId, env.now);
    }
  }

  /** The OK click adds one to the OK count alone, the NG click to the NG count alone, unless the
      send stopped the server and zeroed both. */
  lemma ClickCountsOnlyItsOwn(w: Window, env: Environment)
    ensures var r := AfterOk(w, env);
      (r.okCount == Wrap(w.okCount as int + 1) && r.ngCount == w.ngCount) || (r.okCount == 0 && r.ngCount == 0 && !r.isRunning)
    ensures var r := AfterNg(w, env);
      (r.ngCount == Wrap(w.ngCount as int + 1) && r.okCount == w.okCount) || (r.okCount == 0 && r.ngCount == 0 && !r.isRunning)
  {
    SendOutcome(w.(okCount := Wrap(w.okCount as int + 1)), env);
    SendOutcome(w.(ngCount := Wrap(w.ngCount as int + 1)), env);
  }

  /** Without a stream (before any client was accepted) a click sends nothing and never stops. */
  lemma NoStreamSendsNothing(w: Window, env: Environment)
    requires !w.hasStream
    ensures AfterOk(w, env).written == w.written && AfterNg(w, env).written == w.written
    ensures AfterOk(w, env).isRunning == w.isRunning && AfterNg(w, env).isRunning == w.isRunning
  {
  }

  /** After a stop nothing more is sent until a new client is accepted, whatever the socket says. */
  lemma StoppedSendsNothing(w: Window, env: Environment)
    ensures var s := Stopped(w); AfterOk(s, env).written == s.written && AfterNg(s, env).written == s.written
  {
  }

  /** After a click, the counters show the counts, and the total the same as the next record's. */
  lemma ClickShowsCounts(w: Window, env: Environment)
    ensures var r := AfterOk(w, env);
      r.okShown == r.okCount && r.ngShown == r.ngCount
      && r.totalShown == Wrap(r.okCount as int + r.ngCount as int)
  {
  }

  class MainWindow {
    var hasListener: bool
    var listening: bool
    var hasClient: bool
    var clientOpen: bool
    var hasStream: bool
    var isRunning: bool
    var buttonsEnabled: bool
    var okCount: Int32
    var ngCount: Int32
    /** The numbers the `OkCountText`, `NgCountText` and `TotalCountText` blocks print. */
    var okShown: Int32
    var ngShown: Int32
    var totalShown: Int32
    /** The records written to the stream so far. */
    var written: seq<string>
    /** The records the log box lists ("Sent: ..."), without their time stamps. */
    var logged: seq<string>

    function State(): Window
      reads this
    {
      Window(hasListener, listening, hasClient, clientOpen, hasStream, isRunning, buttonsEnabled,
        okCount, ngCount, okShown, ngShown, totalShown, written, logged)
    }

    /** A new window: no server, both counts zero. The counter texts' initial values come from
        the window's markup, which is not part of this model; they are taken as the zero counts. */
    constructor()
      ensures !hasListener && !hasClient && !hasStream && !isRunning && !buttonsEnabled
      ensures okCount == 0 && ngCount == 0 && written == [] && logged == []
    {
      hasListener, listening, hasClient, clientOpen, hasStream := false, false, false, false, false;
      isRunning, buttonsEnabled := false, false;
      okCount, ngCount := 0, 0;
      okShown, ngShown, totalShown := 0, 0, 0;
      written, logged := [], [];
    }

    method UpdateCounters()
      modifies this
      ensures State() == Shown(old(State()))
    {
      okShown := okCount;
      ngShown := ngCount;
      totalShown := Wrap(okCount as int + ngCount as int);
    }

    method StopServer()
      modifies this
      ensures State() == Stopped(old(State()))
    {
      clientOpen := false;
      listening := false;
      isRunning := false;
      okCount := 0;
      ngCount := 0;
      buttonsEnabled := false;
      assert State() == old(State()).(listening := false, clientOpen := false, isRunning := false,
        buttonsEnabled := false, okCount := 0, ngCount := 0);
      UpdateCounters();
    }

    /** `StartServer_Click`. A running server is stopped. Otherwise the port text is parsed and a
        listener started on it; `listenerStarts` says whether that succeeds and `accepted` whether a
        client then connects. Any failure stops the server. */
    method StartServer(portText: string, listenerStarts: bool, accepted: bool)
      modifies this
      ensures old(isRunning) ==> State() == Stopped(old(State()))
      ensures !old(isRunning) && accepted && listenerStarts && ParsePort(portText).Some? ==>
        State() == old(State()).(hasListener := true, listening := true, isRunning := true,
          hasClient := true, clientOpen := true, hasStream := true, buttonsEnabled := true)
      ensures !old(isRunning) && ParsePort(portText).None? ==> State() == Stopped(old(State()))
      ensures !old(isRunning) && ParsePort(portText).Some? && !(listenerStarts && accepted) ==>
        State() == Stopped(old(State()).(hasListener := true))
    {
      if isRunning {
        StopServer();
        return;
      }
      var port := ParsePort(portText);
      if port.None? {
        StopServer();
        return;
      }
      hasListener := true;
      if !listenerStarts {
        StopServer();
        return;
      }
      listening := true;
      isRunning := true;
      if !accepted {
        StopServer();
        return;
      }
      hasClient, clientOpen, hasStream := true, true, true;
      buttonsEnabled := true;
    }

    method SendPacket(env: Environment)
      modifies this
      ensures State() == AfterSend(old(State()), env)
    {
      if !hasStream || !(hasClient && clientOpen && env.socketConnected) {
        return;
      }
      var packet := Packet(okCount, ngCount, env.productId, env.now);
      if packet.None? || !env.writeSucceeds {
        StopServer();
        return;
      }
      written := written + [packet.value];
      logged := logged + [packet.value];
    }

    method OkButtonClick(env: Environment)
      modifies this
      ensures State() == AfterOk(old(State()), env)
    {
      okCount := Wrap(okCount as int + 1);
      SendPacket(env);
      UpdateCounters();
    }

    method NgButtonClick(env: Environment)
      modifies this
      ensures State() == AfterNg(old(State()), env)
    {
      ngCount := Wrap(ngCount as int + 1);
      SendPacket(env);
      UpdateCounters();
    }

    /** `ResetButton_Click`: both counts zero, counters redrawn, log box cleared; the connection and
        what was sent stay. */
    method ResetButtonClick()
      modifies this
      ensures State() == Shown(old(State()).(okCount := 0, ngCount := 0, logged := []))
    {
      okCount := 0;
      ngCount := 0;
      UpdateCounters();
      logged := [];
    }
  }

  /** `int.Parse(PortTextBox.Text)` followed by `new TcpListener(IPAddress.Any, port)`: a number
      from 0 to 65535, otherwise the call throws. */
  function ParsePort(text: string): (r: Option<int>)
    ensures r.Some? ==> 0 <= r.value <= 65535 && ParseInt32(text) == Some(r.value as Int32)
    ensures r.None? <==> ParseInt32(text).None? || !(0 <= ParseInt32(text).value <= 65535)
  {
    match ParseInt32(text)
    case None => None
    case Some(p) => if 0 <= p <= 65535 then Some(p as int) else None
  }

  /** A stop zeroes both counts and a reset does too, and both show zero. */
  lemma StopAndResetZero(w: Window)
    ensures Stopped(w).okCount == 0 && Stopped(w).ngCount == 0 && Stopped(w).totalShown == 0
    ensures var r := Shown(w.(okCount := 0, ngCount := 0, logged := []));
      r.okCount == 0 && r.ngCount == 0 && r.totalShown == 0
  {
  }
}
