# CVX-Monitor camera-count pipeline in Dafny

CVX-Monitor is a production-line monitor. A camera counts the products it inspects and sends a
comma-separated record `Total,OK,NG,ProductID,MfgDate,ExpDate` over TCP. The desktop app runs these
steps:

- It decodes the record.
- It turns the camera's session counters into master counts. The camera's counters restart at zero
  when it is power-cycled; the master counts restart only on a new shift.
- It drives a queue of production plans. Every plan is Waiting, Running, Completed or Cancelled.
  The plan being produced takes the master count as its quantity. When the count reaches the plan's
  target, the plan is completed and the first Waiting plan of the list is started.

A separate camera simulator plays the camera: each OK or NG click sends the running counts.

Each core source file is one module:

- `Counter` is the counter reconciler (`CounterService`).
- `PacketParser` and `ProductionDataModule` are the two record decoders.
- `Plans` is the plan entity (`ProductionPlan`, `PlanStatus`).
- `Dashboard` is the plan-queue controller (`DashboardViewModel`).
- `Tcp` is the connection and reconnect logic (`TcpService`).
- `Report` is the plan report (`ReportViewModel`).
- `Settings` is the settings page (`SettingsViewModel`, with `AppSettings`).
- `CameraSimulator` is the simulator window.

Four helper modules give the .NET primitives the core relies on an explicit meaning:

- `Int32s` is C#'s unchecked 32-bit `int`, with `Wrap` for its wrap-around.
- `Text` holds `char.IsWhiteSpace`, `Trim`, `Split` and ASCII decoding.
- `Numbers` holds `int.TryParse` under `NumberStyles.Integer` and `int.ToString`.
- `Dates` holds `DateTime.TryParseExact(s, "ddMMyy")` with its 1950-2049 two-digit-year window,
  and the `ddMMyy` and `dd/MM/yyyy` renderings.

Classes stand for the objects whose fields the source updates in place:

- `CounterService`, `ProductionPlan`, `DashboardViewModel`, `TcpService`, `ReportViewModel`,
  `SettingsStore`, `SettingsViewModel` and `MainWindow`.
- Each has a function that reads its fields as one value (`State()`, `Value()`, `LinkState()`).
- Each method's `ensures` gives that value after the call in terms of the value before it.

The decoders, the delta rule, the report query and the simulator's record are functions.
Lemmas about those functions state what the source promises:

- round trips between printing and parsing;
- the if-and-only-if conditions under which a record is accepted;
- the growth of the master counts;
- the queue invariant;
- the backoff schedule;
- sortedness together with permutation.

Environment inputs are modelled as follows:

- Clock readings are caller-supplied `Timestamp`s.
- Socket results are parameters: whether a connect attempt succeeds, whether the socket is still
  up, what a read returns, and whether a write succeeds.
- Database saves are an append-only `store` of written values.
- The events a class raises are recorded as a list of notifications.
- Every UI handler runs to completion before the next one starts.
- The counter's `CountsUpdated` notification is handled by the dashboard at the moment it is raised.

## Model

| member | source | states |
|---|---|---|
| Int32s.Wrap | CVX-QLSX.App/Services/CounterService.cs:74-76 | the result of unchecked `+=` is congruent to the exact sum modulo 2^32, and is that sum when it fits in an int |
| Text.BlankIffTrimEmpty | CVX-QLSX.App/Services/PacketParser.cs:38-41 | `IsNullOrWhiteSpace(s)` holds exactly when `s.Trim()` is empty |
| Text.TrimStartSpec | CVX-QLSX.App/Services/PacketParser.cs:41 | trimming the start removes exactly the longest blank prefix: only blanks are cut and the rest does not start with one |
| Text.TrimEndSpec | CVX-QLSX.App/Services/PacketParser.cs:41 | trimming the end removes exactly the longest blank suffix |
| Text.TrimByIsSlice | CVX-QLSX.App/Services/PacketParser.cs:41 | `Trim` yields a slice of its input with only blanks outside it and no blank at either of its ends |
| Text.TrimByNoOp | CVX-QLSX.App/Services/PacketParser.cs:65 | a string with no blank at either end is its own trim |
| Text.TrimByIdempotent | CVX-QLSX.App/Services/PacketParser.cs:54-55 | trimming an already trimmed field changes nothing |
| Text.TrimByAgree | CVX-QLSX.App/Models/ProductionData.cs:27-33 | two blank classes that agree on every character of a string trim it alike |
| Text.TrimAscii | CVX-QLSX.App/Services/TcpService.cs:109 | the trim of ASCII text is ASCII |
| Text.TrimLacks | CVX-QLSX.App/Services/PacketParser.cs:41 | a character missing from a text is missing from its trim |
| Text.Split | CVX-QLSX.App/Services/PacketParser.cs:41 | `Split(',')` gives one more piece than there are commas, and no piece holds a comma |
| Text.JoinSplit | CVX-QLSX.App/Services/PacketParser.cs:41 | joining the pieces of a split with the separator gives the text back |
| Text.SplitAfterPiece | CVX-QLSX.App/Services/PacketParser.cs:41 | splitting a separator-free piece, a separator and more gives the piece followed by the split of the rest |
| Text.SplitPiece | CVX-QLSX.App/Services/PacketParser.cs:41 | a text without separator splits into itself alone |
| Text.SplitJoin | CameraSimulator/MainWindow.xaml.cs:103 | separator-free pieces joined with commas split back into exactly those pieces |
| Text.SplitAscii | CVX-QLSX.App/Models/ProductionData.cs:27 | every piece of an ASCII text is ASCII |
| Text.SplitLacks | CVX-QLSX.App/Models/ProductionData.cs:27 | a character missing from a text is missing from every piece of its split |
| Text.AsciiDecode | CVX-QLSX.App/Services/TcpService.cs:109 | `Encoding.ASCII.GetString` yields one ASCII character per byte |
| Text.AsciiEncode | CameraSimulator/MainWindow.xaml.cs:104 | the bytes of an ASCII string are one per character |
| Text.AsciiRoundTrip | CameraSimulator/MainWindow.xaml.cs:104-105 | ASCII text the simulator encodes is decoded unchanged by the receiver |
| Numbers.DigitChar | CameraSimulator/MainWindow.xaml.cs:103 | a digit value is printed as a decimal digit with that value |
| Numbers.ScanDigitsSpec | CVX-QLSX.App/Services/PacketParser.cs:46-51 | the digit scanner accepts exactly the all-digit strings and reads their decimal value |
| Numbers.NatToString | CameraSimulator/MainWindow.xaml.cs:103 | a count prints as non-empty decimal digits with that value and no leading zero |
| Numbers.ParseIntToString | CameraSimulator/MainWindow.xaml.cs:103 | `int.TryParse` of what `int.ToString` printed gives the same int back, negatives included |
| Numbers.AsciiWhiteSpaceIsNumberWhite | CVX-QLSX.App/Models/ProductionData.cs:31-33 | on ASCII characters `char.IsWhiteSpace` and the blanks `int.TryParse` skips coincide |
| Numbers.ParseIgnoresTrim | CVX-QLSX.App/Models/ProductionData.cs:31-33 | for ASCII text without '\0', trimming a count field before `int.TryParse` does not change the result |
| Numbers.DropTrailingNulsSpec | CVX-QLSX.App/Models/ProductionData.cs:31-33 | what `int.TryParse` lets end a number is exactly the longest all-'\0' suffix of the text |
| Numbers.ParseIgnoresTrailingNuls | CVX-QLSX.App/Models/ProductionData.cs:31-33 | `int.TryParse` reads a text followed by any run of '\0' as it reads the text alone |
| Numbers.TrimMattersAfterNul | CVX-QLSX.App/Models/ProductionData.cs:31-33 | `int.TryParse` refuses "1\0 " but reads its trim "1\0" as 1, so trimming a field can change the result |
| Dates.DaysInMonth | CVX-QLSX.App/Services/PacketParser.cs:84-85 | every month has between 28 and 31 days under the Gregorian rule |
| Dates.ExpandYear | CVX-QLSX.App/Services/PacketParser.cs:84-85 | a two-digit year reads as the year of 1950-2049 with those last two digits |
| Dates.TwoDigitValue | CVX-QLSX.App/Services/PacketParser.cs:84-85 | two digits read as a number below 100 |
| Dates.ParseDdMMyy | CVX-QLSX.App/Services/PacketParser.cs:84-85 | an accepted ddMMyy text has six characters and reads as a valid date of the two-digit-year window |
| Dates.Pad2 | CVX-QLSX.App/Services/PacketParser.cs:98 | a two-digit field is two digits reading back as its value |
| Dates.Pad4 | CVX-QLSX.App/Services/PacketParser.cs:106 | a four-digit year field is four digits reading back as its value |
| Dates.FormatDdMMyy | CVX-QLSX.App/Services/PacketParser.cs:98 | `ToString("ddMMyy")` under a Gregorian culture prints six digits |
| Dates.FormatDisplay | CVX-QLSX.App/Services/PacketParser.cs:106 | `ToString("dd/MM/yyyy")` under a Gregorian culture with '/' as date separator prints ten characters with '/' at positions 2 and 5 |
| Dates.ParseFormatDdMMyy | CVX-QLSX.App/Services/PacketParser.cs:84-87 | a date of the two-digit-year window printed as ddMMyy reads back as the same date |
| Dates.FormatParseDdMMyy | CVX-QLSX.App/Services/PacketParser.cs:84-87 | a text `TryParseExact` accepts is printed back as the same six characters |
| Dates.FormatDisplayInjective | CVX-QLSX.App/Services/PacketParser.cs:104-107 | two dates with the same dd/MM/yyyy text are the same date |
| Dates.ParseExamples | CVX-QLSX.App/Services/PacketParser.cs:77-78 | "111225" is 11 December 2025; day 31 of November, 29 February 2023, four-character and blank-holding texts are rejected; 29 February 2024 is accepted |
| PacketParser.ParseDate | CVX-QLSX.App/Services/PacketParser.cs:79-91 | a date is found only in a six-character text, and it lies in the two-digit-year window |
| PacketParser.ParseDateIsParseExact | CVX-QLSX.App/Services/PacketParser.cs:81-88 | the blank and length checks before `TryParseExact` reject nothing it would accept |
| PacketParser.TryParse | CVX-QLSX.App/Services/PacketParser.cs:34-73 | blank input fails; a success has exactly six comma-separated fields and is their field-wise reading; the product id holds no comma |
| PacketParser.ParseFields | CVX-QLSX.App/Services/PacketParser.cs:46-70 | the product id is the trimmed 4th field and is trimmed; each date is the strict reading of its raw text |
| PacketParser.TrimNoComma | CVX-QLSX.App/Services/PacketParser.cs:65 | trimming keeps a comma-free field comma-free |
| PacketParser.TryParseSucceedsIff | CVX-QLSX.App/Services/PacketParser.cs:38-51 | the parse succeeds exactly when the input is not blank, its trim holds exactly five commas, and `int.TryParse` reads each of the first three trimmed fields, a trailing run of '\0' included |
| PacketParser.TryParseFields | CVX-QLSX.App/Services/PacketParser.cs:54-70 | on success the counts are the parsed trimmed fields 1-3; the product id and raw dates are the trimmed fields 4-6 |
| PacketParser.FormatDate | CVX-QLSX.App/Services/PacketParser.cs:96-99 | the result is "-" exactly when there is no date, and six digits otherwise |
| PacketParser.FormatDateRoundTrip | CVX-QLSX.App/Services/PacketParser.cs:96-99 | `ParseDate(FormatDate(d)) == d` for a date of the two-digit-year window |
| PacketParser.FormatDateDisplay | CVX-QLSX.App/Services/PacketParser.cs:104-107 | the result is "-" exactly when there is no date, and ten characters otherwise |
| PacketParser.RawDateRoundTrip | CVX-QLSX.App/Services/PacketParser.cs:54-68 | a raw date that reads as a date prints back as the raw text |
| PacketParser.FieldsOfJoin | CameraSimulator/MainWindow.xaml.cs:103 | comma-free fields with no blank at the record's outer ends are exactly the fields the parser splits the record into |
| PacketParser.TrimmedField | CVX-QLSX.App/Services/PacketParser.cs:46 | a field with no blank at either end is its own trim |
| PacketParser.TryParseOfFields | CVX-QLSX.App/Services/PacketParser.cs:38-43 | a six-field record starting with a non-blank passes the early checks and is read field by field |
| PacketParser.ParseFieldsOf | CVX-QLSX.App/Services/PacketParser.cs:46-70 | fields whose first three trims are ints give exactly the packet built from them |
| PacketParser.DatesNeverFailParse | CVX-QLSX.App/Services/PacketParser.cs:57-58 | replacing the two date fields by anything never changes whether the parse succeeds |
| PacketParser.CountFieldShape | CameraSimulator/MainWindow.xaml.cs:103 | a printed count is non-empty, comma-free and has no blank at either end |
| PacketParser.CountField | CVX-QLSX.App/Services/PacketParser.cs:46-51 | a printed count is its own trim and parses back to the same count |
| PacketParser.DateFieldShape | CameraSimulator/MainWindow.xaml.cs:99-100 | a printed date is non-empty, comma-free and has no blank at either end |
| PacketParser.DateField | CVX-QLSX.App/Services/PacketParser.cs:54-58 | a printed date of the window is its own trim and parses back to the same date |
| PacketParser.PrintedRecordAccepted | CVX-QLSX.App/Services/PacketParser.cs:34-73 | a record of printed counts, a comma-free product id and two trimmed comma-free date texts parses to exactly those values |
| PacketParser.PrintedRecordParses | CameraSimulator/MainWindow.xaml.cs:97-103 | a record printed as the simulator prints it parses back to its counts, trimmed product id and both dates |
| PacketParser.SampleParses | CVX-QLSX.App/Services/PacketParser.cs:8 | "10,12,2,Hehe,111225,110626" parses to counts 10/12/2, product "Hehe", 11 December 2025 and 11 June 2026 |
| PacketParser.SampleFields | CVX-QLSX.App/Services/PacketParser.cs:32 | the sample's counts and dates are what `ToString` prints for them |
| PacketParser.TooFewFieldsFails | CVX-QLSX.App/Services/PacketParser.cs:41-43 | "1,2,3,4" is rejected |
| PacketParser.NonNumericCountFails | CVX-QLSX.App/Services/PacketParser.cs:46-47 | "a,b,c,D,111225,110626" is rejected |
| PacketParser.ShortDateAndNegativeCount | CVX-QLSX.App/Services/PacketParser.cs:57-58 | "-5,2,3,D,1112,110626" parses, with total -5, no manufacturing date and raw text "1112" |
| ProductionDataModule.TryParse | CVX-QLSX.App/Models/ProductionData.cs:20-49 | blank input fails; a success has exactly six fields and is their field-wise reading |
| ProductionDataModule.ParseFields | CVX-QLSX.App/Models/ProductionData.cs:31-46 | the product id and both date texts of a success are trimmed |
| ProductionDataModule.TryParseSucceedsIff | CVX-QLSX.App/Models/ProductionData.cs:24-36 | the parse succeeds exactly when the input is not blank, its trim holds five commas, and `int.TryParse` reads each of the untrimmed fields 1-3, with its blanks and a trailing run of '\0' |
| ProductionDataModule.DatesNotValidated | CVX-QLSX.App/Models/ProductionData.cs:44-45 | replacing the date fields by any text never changes whether the parse succeeds |
| ProductionDataModule.AgreesWithPacketParser | CVX-QLSX.App/Models/ProductionData.cs:24-46 | on ASCII input whose count fields hold no '\0' it succeeds exactly when `PacketParser.TryParse` does, with the same counts, product id and raw date texts |
| ProductionDataModule.ParsersDisagreeAfterNul | CVX-QLSX.App/Models/ProductionData.cs:27-33 | the live decoder refuses "1\0 ,1,0,D,111225,110626" while `PacketParser.TryParse` accepts it with a total of 1 |
| ProductionDataModule.BlanksAroundCountAccepted | CVX-QLSX.App/Models/ProductionData.cs:31-33 | a count with a space before it and a tab after it is accepted as that count |
| Plans.NewPlanValue | CVX-QLSX.App/Models/ProductionPlan.cs:14-46 | a new plan is Waiting, created now, and has not been started, completed or cancelled |
| Plans.ProductionPlan.constructor | CVX-QLSX.App/Models/ProductionPlan.cs:43 | a constructed plan holds the new-plan value and has raised no notification |
| Plans.ProductionPlan.SetTargetQuantity | CVX-QLSX.App/Models/ProductionPlan.cs:23-27 | only the target changes, and one "TargetQuantity" notification is raised |
| Plans.ProductionPlan.SetCurrentQuantity | CVX-QLSX.App/Models/ProductionPlan.cs:29-33 | only the current quantity changes, and one "CurrentQuantity" notification is raised |
| Plans.ProductionPlan.SetStatus | CVX-QLSX.App/Models/ProductionPlan.cs:37-41 | only the status changes, and one "Status" notification is raised |
| Counter.DeltaOfCameraCounts | CVX-QLSX.App/Services/CounterService.cs:92-105 | for non-negative camera values the delta is `cur - last` when `cur >= last` and `cur` after a camera reset, never negative |
| Counter.DeltaNonNegative | CVX-QLSX.App/Services/CounterService.cs:94-99 | a non-negative camera value gives a delta between 0 and the int maximum whatever the baseline |
| Counter.ChannelsIndependent | CVX-QLSX.App/Services/CounterService.cs:69-76 | each master count after a packet depends only on that channel's count, baseline and packet value |
| Counter.FirstPacketSetsBaseline | CVX-QLSX.App/Services/CounterService.cs:50-58 | a first packet leaves the master counts, makes the packet the baseline and clears the flag |
| Counter.LaterPacketAddsIncrease | CVX-QLSX.App/Services/CounterService.cs:69-76 | a later packet adds `cur - last` to a channel when the camera count grew and `cur` after a reset |
| Counter.BaselineIsLastPacket | CVX-QLSX.App/Services/CounterService.cs:79-81 | after any packet the baseline is that packet's counts and the first-packet flag is clear |
| Counter.ProcessNeverDecreases | CVX-QLSX.App/Services/CounterService.cs:69-76 | with non-negative camera counts a packet never lowers a master count |
| Counter.ResetThenPacketCountsNothing | CVX-QLSX.App/Services/CounterService.cs:110-118 | after a reset the next packet leaves the master counts at zero |
| Counter.RestoreThenPacketAddsNothing | CVX-QLSX.App/Services/CounterService.cs:127-132 | after a restore the next packet keeps the restored counts and becomes the baseline |
| Counter.SteadyCameraTelescopes | CVX-QLSX.App/Services/CounterService.cs:69-81 | over a run of non-decreasing camera counts the master count grows by last camera value minus the starting baseline |
| Counter.CounterService.constructor | CVX-QLSX.App/Services/CounterService.cs:10-21 | all six counters are zero, the first-packet flag is set, and nothing has been raised |
| Counter.CounterService.Notify | CVX-QLSX.App/Services/CounterService.cs:139-147 | raises exactly one update carrying the master counts and changes no counter |
| Counter.CounterService.ProcessPacket | CVX-QLSX.App/Services/CounterService.cs:48-86 | the new state is the delta rule applied to the packet's counts, and one update with the new master counts is raised |
| Counter.CounterService.ResetForNewShift | CVX-QLSX.App/Services/CounterService.cs:110-122 | all six counters are zero and the flag is set again, and one all-zero update is raised |
| Counter.CounterService.RestoreState | CVX-QLSX.App/Services/CounterService.cs:127-137 | the master counts become the saved values, the baseline is kept, the flag is set, and one update with the saved values is raised |
| Dashboard.FormatDate | CVX-QLSX.App/ViewModels/DashboardViewModel.cs:312-321 | the text comes back unchanged exactly when it is not a six-character valid ddMMyy date, and as dd/MM/yyyy otherwise |
| Dashboard.FormatDateAgreesWithPacketParser | CVX-QLSX.App/ViewModels/DashboardViewModel.cs:317-319 | for a readable date the dashboard shows what `PacketParser.FormatDateDisplay` prints |
| Dashboard.Remaining | CVX-QLSX.App/ViewModels/DashboardViewModel.cs:237-239 | what remains is never negative: target minus current below the target, zero at or above it |
| Dashboard.FirstFrom | CVX-QLSX.App/ViewModels/DashboardViewModel.cs:397 | the search finds the first position from `k` on with the status, or reports that none has it |
| Dashboard.FirstOrDefault | CVX-QLSX.App/ViewModels/DashboardViewModel.cs:186 | `FirstOrDefault` is null exactly when no listed plan has the status; otherwise it is the first listed plan with it |
| Dashboard.MaxQueueOrder | CVX-QLSX.App/ViewModels/DashboardViewModel.cs:453 | the result is at least every queue order and is one of them, or 0 for an empty list |
| Dashboard.DashboardViewModel.constructor | CVX-QLSX.App/ViewModels/DashboardViewModel.cs:134-159 | no plans, no current plan, zero counts, "-" dates, a 1000-piece empty form, and the queue invariant holds |
| Dashboard.DashboardViewModel.UpdateCurrentPlanStatus | CVX-QLSX.App/ViewModels/DashboardViewModel.cs:214-228 | `HasCurrentPlan` tells whether there is a current plan; the caption and target are the current plan's, or empty and 0 |
| Dashboard.DashboardViewModel.OnCountsUpdated | CVX-QLSX.App/ViewModels/DashboardViewModel.cs:323-348 | the counts are shown; the current plan takes the total and is saved; below its target nothing else changes; at or above it the plan is Completed and saved, a record of the total and the notified OK/NG is saved, `CurrentPlan` moves to the first Waiting plan, started at quantity 0, or to null, and zero counts are shown; without a current plan nothing is saved; the form and the queue invariant are kept |
| Dashboard.DashboardViewModel.ShowCounts | CVX-QLSX.App/ViewModels/DashboardViewModel.cs:327-329 | the notified total, OK and NG are shown |
| Dashboard.DashboardViewModel.TrackCurrentPlan | CVX-QLSX.App/ViewModels/DashboardViewModel.cs:334-344 | the current plan takes the total and is saved; below the target nothing else changes; at or above it the plan is Completed and saved after a record of the total and the shown OK/NG, `CurrentPlan` moves to the first Waiting plan, started at quantity 0, or to null, and zero counts are shown |
| Dashboard.DashboardViewModel.SaveProgress | CVX-QLSX.App/ViewModels/DashboardViewModel.cs:338-340 | the current plan takes the total as its quantity and is saved; no other plan and no status changes, so the first Waiting plan and the queue invariant are kept |
| Dashboard.DashboardViewModel.CompletePlanAndMoveNext | CVX-QLSX.App/ViewModels/DashboardViewModel.cs:368-410 | the current plan is Completed with a record of its final quantity and the shown OK/NG; `CurrentPlan` moves to the first Waiting plan, which is started with quantity 0, or to null; the counter is reset last and zero counts are shown |
| Dashboard.DashboardViewModel.RecordCompletion | CVX-QLSX.App/ViewModels/DashboardViewModel.cs:375-393 | the plan becomes Completed at `now`, and a record of its quantity and the shown counts is saved, then the plan |
| Dashboard.DashboardViewModel.MoveToNextPlan | CVX-QLSX.App/ViewModels/DashboardViewModel.cs:395-409 | `CurrentPlan` moves to the first Waiting plan, started and at quantity 0, or to null; the counter ends reset and zero counts are shown; no non-Waiting plan changes |
| Dashboard.DashboardViewModel.ResetCounter | CVX-QLSX.App/ViewModels/DashboardViewModel.cs:405-406 | the counter is reset before its notification is handled, so only the new current plan is set to 0 and saved; zero counts are shown with the product and dates kept; with no current plan nothing is saved |
| Dashboard.DashboardViewModel.StartFirstWaiting | CVX-QLSX.App/ViewModels/DashboardViewModel.cs:397-403 | `CurrentPlan` becomes the first Waiting plan, which is set Running at `now` and saved; no other plan changes |
| Dashboard.DashboardViewModel.OnDataReceived | CVX-QLSX.App/ViewModels/DashboardViewModel.cs:284-310 | without a current plan nothing changes; otherwise the counter processes the record's counts and the product and dates are shown; below the target the plan takes the new total, is saved, and no other plan changes; at or above it the plan is Completed with a record of the new total and OK/NG and the previous dates, `CurrentPlan` moves to the first Waiting plan, started at quantity 0, or to null, and zero counts are shown; the form is kept |
| Dashboard.DashboardViewModel.CountReceived | CVX-QLSX.App/ViewModels/DashboardViewModel.cs:304 | the counter processes the record's counts, then its notification is handled as by `OnCountsUpdated`, with the same outcome below and at the target |
| Dashboard.DashboardViewModel.ShowReceived | CVX-QLSX.App/ViewModels/DashboardViewModel.cs:306-308 | the record's product id and formatted dates are shown; the invariants are unaffected |
| Dashboard.DashboardViewModel.AddPlan | CVX-QLSX.App/ViewModels/DashboardViewModel.cs:447-479 | a blank name or non-positive quantity changes nothing; otherwise a new Waiting plan with queue order max + 1 is saved and listed first, started at once if there was no current plan, and the form is reset; the counts, product and dates shown are kept |
| Dashboard.DashboardViewModel.Enqueue | CVX-QLSX.App/ViewModels/DashboardViewModel.cs:453-474 | one new plan heads the list with the queued value; it becomes the Running current plan exactly when there was none; what is shown is kept |
| Dashboard.DashboardViewModel.Insert | CVX-QLSX.App/ViewModels/DashboardViewModel.cs:463-474 | the plan is saved and listed first; it is started and saved again exactly when there was no current plan; what is shown is kept |
| Dashboard.DashboardViewModel.InsertAtTop | CVX-QLSX.App/ViewModels/DashboardViewModel.cs:465 | the plan is put in front of the list; without a current plan no older plan is Waiting or Running |
| Dashboard.DashboardViewModel.CreatePlan | CVX-QLSX.App/ViewModels/DashboardViewModel.cs:455-461 | a new plan with the form's name and quantity, queue order max + 1 and status Waiting |
| Dashboard.DashboardViewModel.StartNewPlan | CVX-QLSX.App/ViewModels/DashboardViewModel.cs:467-475 | the new plan becomes current, Running from `now`, and is saved; what is shown is kept |
| Dashboard.DashboardViewModel.StopPlan | CVX-QLSX.App/ViewModels/DashboardViewModel.cs:481-536 | null and finished plans are left alone; Waiting becomes Cancelled with no record; Running becomes Completed with a record; `CurrentPlan` moves on, the counter resets and zero counts are shown only when the stopped plan was current |
| Dashboard.DashboardViewModel.LoadPlans | CVX-QLSX.App/ViewModels/DashboardViewModel.cs:172-212 | the list becomes the loaded plans; the first Running plan, or else the first Waiting one promoted, becomes current; the counter is restored to its quantity q and (q, q, 0) is shown; the store gains the promotion's save, if any, and the restore's save of that plan; the other loaded plans are unchanged |
| Dashboard.DashboardViewModel.ChooseCurrentPlan | CVX-QLSX.App/ViewModels/DashboardViewModel.cs:186-199 | the first Running plan is current; otherwise the first Waiting plan is started and saved; otherwise there is none |
| Dashboard.DashboardViewModel.Promote | CVX-QLSX.App/ViewModels/DashboardViewModel.cs:194-197 | a Waiting plan is set Running from `now` and saved |
| Dashboard.DashboardViewModel.RestoreCounter | CVX-QLSX.App/ViewModels/DashboardViewModel.cs:202-208 | the counter is restored to (quantity, quantity, 0) of the current plan and those counts are shown; the plan is saved once more and no plan changes |
| Dashboard.DashboardViewModel.NotifyRestored | CVX-QLSX.App/ViewModels/DashboardViewModel.cs:202 | the counter restores (quantity, quantity, 0) of the current plan and the notification is handled: below the target no plan changes, the plan is saved once more and those counts are shown |
| Dashboard.DashboardViewModel.RestoreChosenPlan | CVX-QLSX.App/ViewModels/DashboardViewModel.cs:201-210 | with no current plan nothing is restored or saved; otherwise the current plan's quantity q is restored as (q, q, 0) and shown, the plan is saved once more, no plan changes, and the invariant is kept |
| Tcp.Pow2 | CVX-QLSX.App/Services/TcpService.cs:151 | a power of two is at least 1 |
| Tcp.Backoff | CVX-QLSX.App/Services/TcpService.cs:138-151 | the reconnect delay is always between 5000 and 60000 ms |
| Tcp.BackoffClosedForm | CVX-QLSX.App/Services/TcpService.cs:150-152 | the wait after the k-th consecutive failure is min(5000·2^k, 60000) |
| Tcp.BackoffCapped | CVX-QLSX.App/Services/TcpService.cs:151 | from the fourth failure on every wait is 60000 ms |
| Tcp.BackoffSchedule | CVX-QLSX.App/Services/TcpService.cs:150-152 | the waits are 10000, 20000, 40000 and 60000 ms, and never get shorter |
| Tcp.WaitsAreBackoffs | CVX-QLSX.App/Services/TcpService.cs:150-152 | the i-th wait of a call is the backoff after i + 1 failures, and there is one per failure |
| Tcp.AttemptsFrom | CVX-QLSX.App/Services/TcpService.cs:140-153 | counting from attempt k, the call stops at the first success or after ten attempts |
| Tcp.AttemptsMade | CVX-QLSX.App/Services/TcpService.cs:136-154 | a call makes 1 to 10 attempts, all failing but possibly the last, and stops early only on a success |
| Tcp.ReconnectedIff | CVX-QLSX.App/Services/TcpService.cs:140-146 | a call ends connected exactly when one of the first ten attempts succeeds, and then all earlier ones failed |
| Tcp.AttemptsMadeAt | CVX-QLSX.App/Services/TcpService.cs:145-146 | when attempt r is the first success, the call makes r + 1 attempts and ends connected |
| Tcp.OutcomesSpec | CVX-QLSX.App/Services/TcpService.cs:145 | the recorded outcomes are one per attempt, in order |
| Tcp.DialEventsSpec | CVX-QLSX.App/Services/TcpService.cs:44-62 | each attempt raises "disconnected" and then its outcome |
| Tcp.DialEventsCarryNoData | CVX-QLSX.App/Services/TcpService.cs:40-65 | connecting raises status notifications only, never data |
| Tcp.MessageYieldsParsedData | CVX-QLSX.App/Services/TcpService.cs:157-169 | a message raises one data notification exactly when `ProductionData.TryParse` accepts it, and it carries that record |
| Tcp.Decide | CVX-QLSX.App/Services/TcpService.cs:91-119 | without a usable connection the pass idles; a zero-byte read is a close; only non-blank trimmed text is a message; only cancellation stops |
| Tcp.MessageIsTrimmedText | CVX-QLSX.App/Services/TcpService.cs:109-115 | received bytes are ignored exactly when their ASCII text is blank, and otherwise yield that text trimmed |
| Tcp.StepData | CVX-QLSX.App/Services/TcpService.cs:98-115 | a pass yields data only from its message, and exactly the parsed record |
| Tcp.Checked | CVX-QLSX.App/Services/TcpService.cs:86-89 | after the check, a link that needed redialling is ready exactly when the reconnect call connects; otherwise only the socket's report applies |
| Tcp.TraceShape | CVX-QLSX.App/Services/TcpService.cs:79-131 | the loop makes at most one pass per tick, each on a live tick; only its last pass can be a stop, a stop comes from a cancelled read, and it ends early only at a cancelled token or after a stop |
| Tcp.TraceFrom | CVX-QLSX.App/Services/TcpService.cs:79-131 | the passes from a tick on are that tick's pass followed, unless it stopped, by the passes over the rest from the connection it left |
| Tcp.TraceTexts | CVX-QLSX.App/Services/TcpService.cs:109-115 | every text the loop hands on is trimmed and not blank |
| Tcp.TextsSnoc | CVX-QLSX.App/Services/TcpService.cs:112-116 | one more pass hands on its text exactly when it is a `Message` pass |
| Tcp.CheckCarriesNoData | CVX-QLSX.App/Services/TcpService.cs:86-89 | checking the connection raises no data notification |
| Tcp.PassData | CVX-QLSX.App/Services/TcpService.cs:83-130 | the data a pass raises is the parsed record of the text it hands on, if the parser accepts it |
| Tcp.PassOnLiveLink | CVX-QLSX.App/Services/TcpService.cs:104-116 | on a link that is up and stays up, a pass over read bytes hands on exactly their trimmed ASCII text, or ignores them when that text is blank |
| Tcp.TcpService.constructor | CVX-QLSX.App/Services/TcpService.cs:15-21 | no client or stream, reconnection enabled, nothing raised or awaited |
| Tcp.TcpService.Disconnect | CVX-QLSX.App/Services/TcpService.cs:201-212 | client and stream are gone and one "disconnected" is raised, however often it is called |
| Tcp.TcpService.InternalConnect | CVX-QLSX.App/Services/TcpService.cs:40-65 | disconnects first, then is connected exactly when the attempt succeeds, raising "disconnected" then the outcome |
| Tcp.TcpService.Connect | CVX-QLSX.App/Services/TcpService.cs:31-38 | records the endpoint, re-enables reconnection and connects |
| Tcp.TcpService.Reconnect | CVX-QLSX.App/Services/TcpService.cs:134-155 | makes the attempts `AttemptsMade` says, ends connected exactly when one succeeds, and awaits the backoff after each failure |
| Tcp.TcpService.Attempt | CVX-QLSX.App/Services/TcpService.cs:142-153 | one attempt: on success the delay stays, on failure it doubles up to the cap and is awaited |
| Tcp.TcpService.ObserveSocket | CVX-QLSX.App/Services/TcpService.cs:26 | `Connected` reports the socket, and a dropped socket stays dropped |
| Tcp.TcpService.ProcessMessage | CVX-QLSX.App/Services/TcpService.cs:157-169 | raises data exactly for a text the parser accepts |
| Tcp.TcpService.ReadOnce | CVX-QLSX.App/Services/TcpService.cs:91-130 | one pass does what `Decide` says: idles 1 s, reports a close, ignores blanks, hands a message on, waits 5 s after an error when reconnecting |
| Tcp.TcpService.CheckConnection | CVX-QLSX.App/Services/TcpService.cs:86-89 | the socket's report is applied, and a lost link is redialled only while reconnection is on: it ends up exactly when one of the ten attempts connects, with the attempts' notifications and backoff waits recorded |
| Tcp.TcpService.ReadPass | CVX-QLSX.App/Services/TcpService.cs:83-130 | a pass takes the decision `Decide` makes on the checked connection and the tick's read: it stops exactly on a cancelled read, hands on exactly the text of a `Message` decision, and raises the check's notifications followed by the read's |
| Tcp.TcpService.ReadLoop | CVX-QLSX.App/Services/TcpService.cs:77-132 | the passes are `Trace` of the ticks from the starting connection, one decision per tick taken on that tick's read; the texts it hands on are exactly those of its `Message` passes, in order, and the data it raises is exactly their parsed records |
| Tcp.TcpService.StartReading | CVX-QLSX.App/Services/TcpService.cs:70-75 | a fresh, uncancelled cancellation source for the loop |
| Tcp.TcpService.StopReading | CVX-QLSX.App/Services/TcpService.cs:174-190 | reconnection is off and the loop is cancelled |
| Tcp.TcpService.DisconnectAll | CVX-QLSX.App/Services/TcpService.cs:195-199 | stops reading, then disconnects |
| Tcp.TcpService.Dispose | CVX-QLSX.App/Services/TcpService.cs:219-229 | the first call cancels the loop and disconnects; later calls change nothing |
| Report.InWindowIffDays | CVX-QLSX.App/ViewModels/ReportViewModel.cs:57-61 | a plan is in the window exactly when its day lies from `FromDate`'s day to `ToDate`'s day |
| Report.WindowMembers | CVX-QLSX.App/ViewModels/ReportViewModel.cs:60-61 | the filter keeps exactly the stored plans created in the window |
| Report.WindowLength | CVX-QLSX.App/ViewModels/ReportViewModel.cs:61 | the filter never adds plans |
| Report.InsertSpec | CVX-QLSX.App/ViewModels/ReportViewModel.cs:62 | inserting into a newest-first list keeps it newest first and adds exactly that plan |
| Report.SortSpec | CVX-QLSX.App/ViewModels/ReportViewModel.cs:62 | `OrderByDescending(CreatedAt)` yields the same plans, newest first |
| Report.QuerySpec | CVX-QLSX.App/ViewModels/ReportViewModel.cs:57-63 | the report lists exactly the plans of the window, newest first, each as often as stored |
| Report.QueryLength | CVX-QLSX.App/ViewModels/ReportViewModel.cs:60-63 | the report is never longer than the store |
| Report.CompletedAndCancelledWithinTotal | CVX-QLSX.App/ViewModels/ReportViewModel.cs:68-70 | Completed + Cancelled is at most the number of listed plans |
| Report.CheckedSumExact | CVX-QLSX.App/ViewModels/ReportViewModel.cs:71 | a `Sum` that does not throw is the exact sum of the quantities |
| Report.CheckedSumSucceeds | CVX-QLSX.App/ViewModels/ReportViewModel.cs:71 | non-negative quantities whose total fits an int never overflow |
| Report.StatusTextDistinct | CVX-QLSX.App/ViewModels/ReportViewModel.cs:165-172 | each status has its own label |
| Report.EmptyReportIffNoPlanInWindow | CVX-QLSX.App/ViewModels/ReportViewModel.cs:82 | the report is empty exactly when no stored plan lies in the window |
| Report.ReportViewModel.constructor | CVX-QLSX.App/ViewModels/ReportViewModel.cs:17-44 | the range is the last 30 days to today, and the first load sets the plans, their total, completed and cancelled counts, and the quantity sum when `Sum` does not throw (0 when it does); export status empty, not busy |
| Report.ReportViewModel.LoadReport | CVX-QLSX.App/ViewModels/ReportViewModel.cs:50-77 | the list is the query result; the totals are its length and status counts; the quantity total is its exact sum, or an overflow is reported; busy is off |
| Report.ReportViewModel.ReplacePlans | CVX-QLSX.App/ViewModels/ReportViewModel.cs:55-66 | the list holds exactly the given plans in order, and nothing else changes |
| Report.ReportViewModel.SetFromDate | CVX-QLSX.App/ViewModels/ReportViewModel.cs:46 | the same date changes nothing; a new start date reloads: the window's plans, their counts, the checked sum or `overflowed` with the old sum kept, the export status kept, not busy |
| Report.ReportViewModel.SetToDate | CVX-QLSX.App/ViewModels/ReportViewModel.cs:47 | the same date changes nothing; a new end date reloads: the window's plans, their counts, the checked sum or `overflowed` with the old sum kept, the export status kept, not busy |
| Report.ReportViewModel.ExportToExcel | CVX-QLSX.App/ViewModels/ReportViewModel.cs:80-163 | with no plans only the "no data" message is set; a cancelled dialog changes nothing; otherwise the status names the file or the error |
| Settings.LoadedForm | CVX-QLSX.App/ViewModels/SettingsViewModel.cs:49-56 | the page shows the stored product list |
| Settings.SavedSettings | CVX-QLSX.App/ViewModels/SettingsViewModel.cs:62-66 | only the four edited values are copied in; the reconnect interval stays as stored |
| Settings.SaveAfterLoadWritesBack | CVX-QLSX.App/ViewModels/SettingsViewModel.cs:49-66 | saving right after loading writes back exactly the loaded settings |
| Settings.SaveOverwrites | CVX-QLSX.App/ViewModels/SettingsViewModel.cs:62-68 | saving twice writes what the second save alone would |
| Settings.IndexOf | CVX-QLSX.App/ViewModels/SettingsViewModel.cs:114 | the first position holding the name |
| Settings.RemoveFirstAbsent | CVX-QLSX.App/ViewModels/SettingsViewModel.cs:114 | removing an absent name leaves the list as it is |
| Settings.RemoveFirstAt | CVX-QLSX.App/ViewModels/SettingsViewModel.cs:114 | removing a present name cuts out exactly its first occurrence |
| Settings.RemoveFirstMultiset | CVX-QLSX.App/ViewModels/SettingsViewModel.cs:114 | as a bag the list loses one copy of the name and nothing else |
| Settings.RemoveFirstKeepsNoDuplicates | CVX-QLSX.App/ViewModels/SettingsViewModel.cs:114 | a duplicate-free list stays duplicate-free and no longer holds the name |
| Settings.AppendAbsentKeepsNoDuplicates | CVX-QLSX.App/ViewModels/SettingsViewModel.cs:101-103 | appending an absent name keeps a list duplicate-free |
| Settings.SettingsStore.constructor | CVX-QLSX.App/Services/ISettingsService.cs:8-12 | the store holds the initial settings and nothing has been saved |
| Settings.SettingsStore.Save | CVX-QLSX.App/Services/ISettingsService.cs:11 | the saved settings are what a later load returns, and the save is recorded |
| Settings.SettingsViewModel.constructor | CVX-QLSX.App/ViewModels/SettingsViewModel.cs:37-45 | the page shows the stored settings and the store is untouched |
| Settings.SettingsViewModel.LoadSettings | CVX-QLSX.App/ViewModels/SettingsViewModel.cs:47-57 | the page's endpoint, flag and product list become the stored ones |
| Settings.SettingsViewModel.SaveSettings | CVX-QLSX.App/ViewModels/SettingsViewModel.cs:60-70 | the stored settings get the page's four values, one save is recorded, and the saved message is shown |
| Settings.SettingsViewModel.AddProduct | CVX-QLSX.App/ViewModels/SettingsViewModel.cs:96-107 | a blank name changes nothing; a present name only clears the box; an absent name is appended, the page's endpoint and flag with the new list are saved once, the saved message shown and the box cleared; nothing else on the page changes, and a duplicate-free list stays so |
| Settings.SettingsViewModel.RemoveProduct | CVX-QLSX.App/ViewModels/SettingsViewModel.cs:110-117 | without a selection nothing changes; otherwise the first occurrence is removed, the page's endpoint and flag with the new list are saved once, the saved message shown and the selection cleared; nothing else on the page changes |
| CameraSimulator.NextYear | CameraSimulator/MainWindow.xaml.cs:100 | `AddYears(1)` keeps month and day, clamping 29 February, and fails only in year 9999 |
| CameraSimulator.PacketSplits | CameraSimulator/MainWindow.xaml.cs:97-103 | the record splits into total, OK, NG, product id, today and a year on, and its total is OK + NG |
| CameraSimulator.CountAscii | CameraSimulator/MainWindow.xaml.cs:103 | a printed count is ASCII |
| CameraSimulator.JoinAscii | CameraSimulator/MainWindow.xaml.cs:103 | ASCII fields joined by commas are ASCII |
| CameraSimulator.DateAscii | CameraSimulator/MainWindow.xaml.cs:99-100 | a printed date is ASCII |
| CameraSimulator.PacketAscii | CameraSimulator/MainWindow.xaml.cs:103-104 | with an ASCII product id the whole record is ASCII |
| CameraSimulator.PacketDecodes | CameraSimulator/MainWindow.xaml.cs:97-105 | with an ASCII comma-free product id `ProductionData.TryParse` of the record gives (OK + NG, OK, NG), the trimmed product id and both date texts |
| CameraSimulator.PacketCountsNulFree | CameraSimulator/MainWindow.xaml.cs:97-103 | the three count fields of a record hold no '\0' |
| CameraSimulator.PacketParsesWithDates | CameraSimulator/MainWindow.xaml.cs:97-103 | `PacketParser.TryParse` of the record gives the counts and both dates when they lie in the two-digit-year window |
| CameraSimulator.Shown | CameraSimulator/MainWindow.xaml.cs:117-122 | redrawing the counters changes no count and sends nothing |
| CameraSimulator.SendOutcome | CameraSimulator/MainWindow.xaml.cs:91-115 | a send either writes exactly the record of the counts or nothing, or, on an error, stops the server with zero counts |
| CameraSimulator.SentRecordOfCounts | CameraSimulator/MainWindow.xaml.cs:97-105 | whatever is written is the record of the current counts and splits into its six fields |
| CameraSimulator.ClickCountsOnlyItsOwn | CameraSimulator/MainWindow.xaml.cs:77-89 | an OK click adds one to OK only and an NG click one to NG only, unless a failed send stops the server |
| CameraSimulator.NoStreamSendsNothing | CameraSimulator/MainWindow.xaml.cs:93 | without a stream a click sends nothing and does not stop the server |
| CameraSimulator.StoppedSendsNothing | CameraSimulator/MainWindow.xaml.cs:59-75 | after a stop no click sends anything |
| CameraSimulator.ClickShowsCounts | CameraSimulator/MainWindow.xaml.cs:117-122 | after a click the counters show the counts and a total of OK + NG |
| CameraSimulator.StopAndResetZero | CameraSimulator/MainWindow.xaml.cs:124-130 | a stop and a reset both zero the two counts and show a total of zero |
| CameraSimulator.ParsePort | CameraSimulator/MainWindow.xaml.cs:33-34 | a port is an int of 0-65535 as `int.Parse` reads it; anything else fails |
| CameraSimulator.MainWindow.constructor | CameraSimulator/MainWindow.xaml.cs:11-21 | no listener, client or stream, not running, buttons off, zero counts, nothing sent |
| CameraSimulator.MainWindow.UpdateCounters | CameraSimulator/MainWindow.xaml.cs:117-122 | the three counter texts show OK, NG and their sum |
| CameraSimulator.MainWindow.StopServer | CameraSimulator/MainWindow.xaml.cs:59-75 | everything is closed, buttons off, both counts zero and shown |
| CameraSimulator.MainWindow.StartServer | CameraSimulator/MainWindow.xaml.cs:23-57 | a running server is stopped; otherwise a valid port that listens and accepts gives a running server with a stream and enabled buttons, and any failure stops the server |
| CameraSimulator.MainWindow.SendPacket | CameraSimulator/MainWindow.xaml.cs:91-115 | the window ends as `AfterSend` says |
| CameraSimulator.MainWindow.OkButtonClick | CameraSimulator/MainWindow.xaml.cs:77-82 | one more OK, a send, the counters redrawn |
| CameraSimulator.MainWindow.NgButtonClick | CameraSimulator/MainWindow.xaml.cs:84-89 | one more NG, a send, the counters redrawn |
| CameraSimulator.MainWindow.ResetButtonClick | CameraSimulator/MainWindow.xaml.cs:124-130 | both counts zero, the counters redrawn, the log cleared |

## Left out

- WPF presentation is not modelled: `MainViewModel`, the login dialog, `ViewModelBase`, the converters, the LiveCharts series, `Dispatcher.Invoke` and the status texts and colours of the windows.
- The product search filter (`OnNewPlanProductChanged`) is not modelled; it depends on culture-sensitive `ToLower`.
- `YieldRate` and `ProgressPercentage` are floating point and are left out; only the integer `remaining` of the chart is modelled.
- EF Core persistence is an append-only log of the plan values and records each save writes. `Take(50)`, `ToListAsync` and `ProductionContext` are not part of this model, and `LoadPlans` receives the loaded plans as a parameter.
- The JSON file behind `ISettingsService` is not modelled; `SettingsStore` keeps the settings as a value.
- Sockets, `Task.Delay`, the 10 s connect timeout and cancellation tokens are inputs or recorded values: whether an attempt connects, what a read returns, whether a write succeeds, and the list of delays awaited.
- Text is ASCII on both ends. The simulator encodes UTF-8 and the receiver decodes ASCII, which differ only for non-ASCII product ids, and those are not covered by the round-trip lemmas.
- Fire-and-forget `_ = ...Async()` calls can interleave at their awaits in the app. The model runs each handler to completion, so it says nothing about such interleavings, e.g. a second count update completing a plan twice.
- `TestConnectionAsync` of the settings page is not modelled; it is a connect and disconnect of `TcpService`, whose own methods are.
- The Excel workbook contents (ClosedXML) are not modelled; only the empty guard and the status message are.
- Dashboard.DashboardViewModel.constructor: the state after the field initialisers; the plan load it starts (line 156) is `LoadPlans`, called on its own, and `AutoConnectAsync` (a `Connect` followed by `StartReading` when the settings ask for it) is not modelled.
- The dashboard's `IncrementQuantity` and `DecrementQuantity` buttons are not modelled; the form's quantity is a field the caller sets.
- `ShiftSetting` and the `ITcpService` interface hold nothing to prove and are not part of this model.
- Counter.LaterPacketAddsIncrease: stated only when the new master count fits in an int; beyond that `Process` wraps around as C# does, and the lemma says nothing.
- Counter.ProcessNeverDecreases: stated only for non-negative camera counts and when the sum fits in an int; a wrapped sum does decrease.
- Counter.SteadyCameraTelescopes: stated only for a non-decreasing run whose final sum fits in an int.
- Tcp.TcpService.Reconnect: cancellation is a flag read when the call starts; a cancellation that arrives during an attempt or a delay is not modelled.
- Tcp.TcpService.ReadLoop: the loop runs over a finite script of ticks, one per pass, and stops when the script ends or a pass is cancelled; an endless loop is not modelled.
- Dates.FormatDdMMyy, Dates.FormatDisplay, PacketParser.FormatDate, PacketParser.FormatDateDisplay, Dashboard.FormatDate and CameraSimulator.PacketFields: `DateTime.ToString` prints in the current culture, while only the parsers pass `InvariantCulture` (PacketParser.cs line 85, DashboardViewModel.cs line 317). The model assumes a Gregorian current culture whose date separator is '/'. Under another culture the separator or the year differs (a '.' under de-DE, a Buddhist year under th-TH), and FormatDateRoundTrip, PrintedRecordParses, PacketParsesWithDates and PacketDecodes hold only for such a culture.
- Plans.PlanValue: the `[Key] Id` of ProductionPlan.cs lines 16-17 is not modelled; object identity of the `ProductionPlan` instances stands for the key.
- Dashboard.Remaining: `UpdateDoughnutChart` (DashboardViewModel.cs lines 235-247) draws its series in WPF; only the remaining quantity it computes is modelled, and no method of the model calls it.
- Dashboard.DashboardViewModel.CompletePlanAndMoveNext, Dashboard.DashboardViewModel.ResetCounter, Dashboard.DashboardViewModel.MoveToNextPlan, Dashboard.DashboardViewModel.StopPlan, Dashboard.DashboardViewModel.TrackCurrentPlan, Dashboard.DashboardViewModel.OnCountsUpdated, Dashboard.DashboardViewModel.CountReceived, Dashboard.DashboardViewModel.OnDataReceived: when the promoted plan's target is 0 or less, resetting the counter completes it at once and moves on. The contracts then state only that `CurrentPlan` moved on and the counter is reset, not which plan is current or what is shown.
- Dashboard.DashboardViewModel.LoadPlans, Dashboard.DashboardViewModel.RestoreChosenPlan, Dashboard.DashboardViewModel.RestoreCounter, Dashboard.DashboardViewModel.NotifyRestored: when the restored quantity already reaches the plan's target, the restore notification completes the plan. The contract then states only the invariant and that a `faulted` run ends with no current plan; `faulted` marks the null `CurrentPlan` that DashboardViewModel.cs line 205 would then dereference.
- Report.ReportViewModel.LoadReport: when `Sum` overflows (an `OverflowException` in C#), the contract states the list and counts and reports `overflowed`; the exception's path out of the fire-and-forget call is not modelled.
- Numbers.ParseIgnoresTrim, ProductionDataModule.AgreesWithPacketParser: stated only for count fields without '\0'. `string.Trim` keeps a '\0' while `int.TryParse` accepts a trailing run of them, so the two parsers disagree on a record such as "1\0 ,1,0,D,111225,110626": `ProductionData.TryParse` refuses it and `PacketParser.TryParse` reads a total of 1 (ParsersDisagreeAfterNul).
- Numbers.ParseInt32: the sign characters are fixed to '-' and '+'; `int.TryParse` takes them from the current culture's `NegativeSign` and `PositiveSign`, which the model does not read.
- CameraSimulator.PacketSplits, CameraSimulator.PacketDecodes, CameraSimulator.PacketParsesWithDates, Dashboard.DashboardViewModel.CompletePlanAndMoveNext, Dashboard.DashboardViewModel.RecordCompletion, Dashboard.DashboardViewModel.StopPlan: one `now` per handler stands for each separate `DateTime.Now` read. The simulator reads the clock twice, for the two dates (MainWindow.xaml.cs lines 99-100). The dashboard reads it for `CompletedAt`, the record's `Timestamp` and the next plan's `StartedAt` (DashboardViewModel.cs lines 376, 381 and 401, and lines 497, 508 and 526 in `StopPlan`). A tick between the reads, or a midnight between the simulator's two reads, is not modelled.
- Dates.ParseDdMMyy: only the invariant culture's fixed 1950-2049 window for two-digit years is modelled, not a culture whose `TwoDigitYearMax` differs.
