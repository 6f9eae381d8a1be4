# iotgwd: a verified model

`iotgwd` is a C daemon that bridges field devices to an MQTT broker. It reads a YAML configuration of
connectors and bridges, runs one polling thread per started SPI bridge, and reloads everything on SIGHUP. A
Python script validates configurations beforehand. This project models the parts of both that carry the most
state and branching, and proves what they promise.

| module | what it models |
|---|---|
| `Lifecycle`, `LifecycleSafety`, `LifecycleTrace`, `LifecyclePoll`, `LifecycleStop`, `LifecycleStart` | the main thread and any number of poll workers as an interleaved step system: starting, stopping and reloading bridges without bound; memory safety, what is published, that polling goes on, why joins end, how stops and reloads are carried through, and which bridges start |
| `SpiTransaction`, `SpiItems`, `Hex` | one SPI transaction from its configured text to the callback; the two hexadecimal readers and the trace printer |
| `UartLine`, `UartPacket`, `UartStream`, `UartConfigured` | transfers on a serial line that cuts, interrupts and times out at will; packet framing; read-back of framed streams, from the texts of the configuration on |
| `HttpAccum`, `HttpRequest` | the growable body buffer and the per-request handler |
| `Yaml`, `NodeToJson`, `JsonText`, `JsonRoundTrip` | the YAML tree, the printer that turns a tree into JSON, a reader for JSON after sections 2 to 7 of RFC 8259, and the proof that the one undoes the other |
| `ConfigLoader`, `ConfigValidator`, `ConfigAgreement`, `BridgeAgreement`, `ConfigInputs` | the daemon's table with first-match lookup, the validator's merge of dictionaries, where the two agree, and inputs on which they do not |
| `Basics` | shared vocabulary |

Code that changes things step by step is modelled by methods, loops, arrays and classes, each proved against
a specification function; what is promised is then proved about those functions. The threads of the daemon
are a step system over one value, with one constructor for each point the code can be interrupted at. What the
operating system, the broker, the HTTP library or the allocator decides is a parameter: a script of read and
write results, the outcome of an allocation or of an `ioctl`, the files that exist.

Where the code does not keep what it or its documentation says, the model keeps the code, and the exact
condition is proved:

- return code 0 of the packet reader means a packet or a timeout; the length tells which if and only if no
  empty frame stands at the front of the stream (`UartStream.LengthTellsUnlessEmpty`, with the input in
  `UartStream.ZeroIsAmbiguous`);
- the header promises exactly `length` bytes; a packet has them if and only if there is no end delimiter, with
  one the length bounds payload and delimiter together (`UartStream.LengthIsExactWithoutEnd`, with the input in
  `UartStream.LengthThreeGivesTwo`);
- the body accumulator of a request that is no POST, or that ran out of memory, is never freed
  (`HttpRequest.FreedExactlyWhen`), and the growth loop does not end for a need above 2^63
  (`HttpAccum.GrowthEnds`);
- the printer emits whatever `strtod` accepts as a number, the empty text included, and leaves control
  characters other than newline raw: its output is JSON for the tree exactly when neither occurs
  (`JsonRoundTrip.PrintReadsBack`);
- a connector key repeated within one file is accepted by the validator, which keeps the last value, while
  the daemon uses the first; a merge key `<<` is expanded by the validator's YAML loader and taken literally by
  the daemon. `ConfigAgreement.LookupsAgree` has the exact conditions under which names and connectors agree,
  `ConfigInputs.RepeatedKeyDiffers` and `ConfigInputs.MergedConnectorLost` the inputs; with a repeated
  `connectors` section even the names differ (`ConfigAgreement.NamesExactly`, with the input in
  `ConfigInputs.RepeatedSectionDiffers`), with a repeated `type` the kind (`ConfigAgreement.ReadsAgree`, with the
  input in `ConfigInputs.RepeatedTypeDiffers`);
- so a bridge that was checked need not resolve: `BridgeAgreement.BridgesResolve` has the condition,
  `ConfigInputs.RepeatedBridgeUnchecked` and `ConfigInputs.MergedEndLost` the inputs;
- bridges in included files are merged and checked by the validator but not loaded by the daemon
  (`BridgeAgreement.IncludedBridgeNotLoaded`), which loads exactly the accepted bridges if and only if no
  included file defines any and no merge key brings any (`BridgeAgreement.LoadedBridges`, with the input in
  `ConfigInputs.IncludedBridgeLost`).

Run `dafny verify dfyconfig.toml` in this directory; the solver flags `--resource-limit 2000000
--verification-time-limit 0` are enough.

## Model

| member | source | states |
|---|---|---|
| LifecycleSafety.CallbacksAreSafe | meta-iotgw/recipes-iotgw/iotgwd/iotgwd/src/bridge.c:130-236 | in every reachable state of every interleaving, each poll worker (and the initial pass) can run a transaction and deliver a callback: runtime, descriptor, configuration, slot and MQTT runtime are allocated and the handle is open |
| LifecycleSafety.MainNeverFaults | meta-iotgw/recipes-iotgw/iotgwd/iotgwd/src/app.c:57-108 | a main-thread step is impossible if and only if the thread returned, waits for an unfinished worker, or the kernel would reuse an open descriptor; every step that follows a pointer is impossible without the object, connecting and opening included, so the main thread never touches a freed one |
| LifecycleSafety.WorkersNeverFault | meta-iotgw/recipes-iotgw/iotgwd/iotgwd/src/conn_spi.c:468-485 | a worker can always take its next step until it has exited, and only until then |
| LifecycleSafety.StepKeeps | meta-iotgw/recipes-iotgw/iotgwd/iotgwd/src/bridge.c:48-236 | every step of every thread keeps the global invariant that ties slots, runtimes, descriptors and workers together |
| LifecycleSafety.ReachableInv | meta-iotgw/recipes-iotgw/iotgwd/iotgwd/src/app.c:57-108 | that invariant holds after any number of starts, stops and reloads |
| LifecycleSafety.ServiceRunsWhatStarted | meta-iotgw/recipes-iotgw/iotgwd/iotgwd/src/app.c:19-49 | in the service loop the slots below the count are exactly the bridges whose start returned 0, in configuration order, each with one live worker on its own slot, and there is no other worker |
| LifecycleSafety.FailedSlotsHaveNoWorker | meta-iotgw/recipes-iotgw/iotgwd/iotgwd/src/app.c:31-46 | no worker belongs to a slot at or above the count, also while a failed slot is prepared again |
| LifecycleSafety.QuietWhenReleasing | meta-iotgw/recipes-iotgw/iotgwd/iotgwd/src/app.c:73-108 | no worker exists when the array or the configuration is released, at a load, or at any return |
| LifecycleSafety.OneExecutorPerRuntime | meta-iotgw/recipes-iotgw/iotgwd/iotgwd/src/conn_spi.c:487-506 | a runtime's polling flag is set exactly while an un-joined worker exists; the initial pass never overlaps one |
| LifecycleStart.BridgeIsDealtWith | meta-iotgw/recipes-iotgw/iotgwd/iotgwd/src/bridge.c:130-201 | for every way the calls for a bridge can turn out, with any fresh descriptor: it is counted behind the started ones, live, with one new worker about to test its flag, and with its whole initial pass executed and handed over, if and only if the pair is named, resolved and supported and every call succeeds; otherwise count, started bridges and workers are as they were |
| LifecycleStart.AllBridges | meta-iotgw/recipes-iotgw/iotgwd/iotgwd/src/app.c:26-48 | the start of all bridges reaches the service loop with exactly those that start, in configuration order |
| LifecycleStart.LoadAndRun | meta-iotgw/recipes-iotgw/iotgwd/iotgwd/src/app.c:73-103 | from every reachable load that succeeds, first or later, the service loop is reached with the new configuration and exactly the bridges that start |
| LifecycleStart.ReloadRunsTheNew | meta-iotgw/recipes-iotgw/iotgwd/iotgwd/src/app.c:94-100 | from every reachable service state with a reload pending and no stop, whatever the environment answers on the way down, the service loop is reached again with the new configuration and its bridges running |
| LifecycleStart.ShippedRuns | meta-iotgw/recipes-iotgw/iotgwd/iotgwd/src/app.c:57-103 | from the start of the process the shipped configuration comes to run: one live bridge with its worker |
| LifecyclePoll.WorkerPolls | meta-iotgw/recipes-iotgw/iotgwd/iotgwd/src/conn_spi.c:476-481 | a worker at its test that is not told to stop executes the whole list once, in order, carries every delivered buffer to the end the broker and the memory decide, and is at its test again; nothing else changes |
| LifecyclePoll.PollingGoesOn | meta-iotgw/recipes-iotgw/iotgwd/iotgwd/src/conn_spi.c:476-481 | from every place in every reachable state, a worker that is not told to stop finishes the pass it is in and makes one whole pass more, whatever is answered |
| LifecyclePoll.PassPublishes | meta-iotgw/recipes-iotgw/iotgwd/iotgwd/src/conn_mqtt.c:175-198 | when copies and publishes succeed, the messages accepted in a pass are exactly the buffers the pass delivers, in order |
| LifecycleStop.ExitsOnlyWhenTold | meta-iotgw/recipes-iotgw/iotgwd/iotgwd/src/conn_spi.c:476-484 | in every reachable state a worker that has exited was told to stop, and the main thread is waiting for it |
| LifecycleStop.WorkersAreBornOnce | meta-iotgw/recipes-iotgw/iotgwd/iotgwd/src/conn_spi.c:487-499 | the only step that creates a worker is a start of a runtime that is not polling and has none; a worker's place changes by its own steps alone |
| LifecycleSafety.StopReleasesItsOwn | meta-iotgw/recipes-iotgw/iotgwd/iotgwd/src/bridge.c:207-236 | after the join, a stop closes and frees exactly the slot's own descriptor and two runtimes, nulls both pointers and leaves the later slots alive |
| LifecycleStop.SecondStopDoesNothing | meta-iotgw/recipes-iotgw/iotgwd/iotgwd/src/bridge.c:203-236 | stopping a slot whose two pointers are null changes nothing |
| LifecycleStop.StopTwice | meta-iotgw/recipes-iotgw/iotgwd/iotgwd/src/bridge.c:203-236 | a first stop releases the slot's descriptor and runtimes, and a second stop of the same slot, begun in the state the first one leaves, ends in that same state: each resource is released once |
| LifecycleStop.StopIsFinal | meta-iotgw/recipes-iotgw/iotgwd/iotgwd/src/app.c:92-107 | once the service loop runs with the stop flag up, no run ever loads again, and the main thread takes at most 6 * count + 8 more steps |
| LifecycleStop.OnlyWorkersDelay | meta-iotgw/recipes-iotgw/iotgwd/iotgwd/src/app.c:105-107 | on the way only a worker that has not exited can hold the main thread up; the steps run out exactly at the return with code 0 |
| LifecycleStop.StopReachesReturn | meta-iotgw/recipes-iotgw/iotgwd/iotgwd/src/app.c:92-107 | from every reachable state in which a stop is being carried out, a run to the return with code 0 exists, whatever sequence of answers the environment gives step by step |
| LifecycleStop.ReloadReachesLoad | meta-iotgw/recipes-iotgw/iotgwd/iotgwd/src/app.c:94-100 | from every reachable state in which a reload is seen or carried out, a run to the next load exists whatever the environment answers, with configuration, workers, array and count gone |
| LifecycleStop.LoadGoesOn | meta-iotgw/recipes-iotgw/iotgwd/iotgwd/src/app.c:73-83 | a load and an allocation that succeed go on to the first bridge of the new configuration |
| LifecycleStop.FailedLoadReturns | meta-iotgw/recipes-iotgw/iotgwd/iotgwd/src/app.c:74-83 | a step returns 1 if and only if it is a load or an allocation that fails |
| LifecycleStop.ReturnsOnlyWhenStopped | meta-iotgw/recipes-iotgw/iotgwd/iotgwd/src/app.c:92-107 | in every reachable state, a return of 0, and stopping the bridges for good, is because of the stop flag; a reload never ends the process |
| LifecycleStop.SignalsAreSeen | meta-iotgw/recipes-iotgw/iotgwd/iotgwd/src/app.c:92-103 | the service loop acts on a stop by stopping for good, on a reload by stopping to load again with the flag lowered, and otherwise stays |
| LifecycleStop.SignalsAreKept | meta-iotgw/recipes-iotgw/iotgwd/iotgwd/src/app.c:15-17 | no signal is lost: a raised stop flag stays up for good, a raised reload flag until the service loop acts on it |
| LifecycleTrace.CallbacksFollowExecutions | meta-iotgw/recipes-iotgw/iotgwd/iotgwd/src/conn_spi.c:132-179 | in every reachable state, executions go through the list in order, round and round, and the callbacks carried byte for byte, in order, what the successful reading transactions delivered, at most one still under way; none was refused or sent under another topic |
| LifecycleTrace.PublishesWhatWasRead | meta-iotgw/recipes-iotgw/iotgwd/iotgwd/src/conn_mqtt.c:175-198 | while copies and publishes succeed, the published payloads are exactly those buffers |
| LifecycleTrace.HistoryIsPasses | meta-iotgw/recipes-iotgw/iotgwd/iotgwd/src/conn_spi.c:410-432 | a history that stands at the end of a pass is an earlier one followed by one whole pass, and delivers what that pass delivers |
| LifecycleTrace.LastPass | meta-iotgw/recipes-iotgw/iotgwd/iotgwd/src/conn_spi.c:418-426 | any history in order splits into completed passes and a last pass with indices 0, 1, 2 and so on |
| LifecycleTrace.JoinIsBounded | meta-iotgw/recipes-iotgw/iotgwd/iotgwd/src/conn_spi.c:476-506 | once told to stop, in every interleaving a worker takes at most 2m + 4 more steps and runs at most m more transactions |
| LifecycleTrace.JoinMakesProgress | meta-iotgw/recipes-iotgw/iotgwd/iotgwd/src/conn_spi.c:501-506 | while the main thread waits, the flag is up, the worker can step until it exits, and the wait ends exactly then; for every start and stop cycle |
| Lifecycle.StoredPrefix | meta-iotgw/recipes-iotgw/iotgwd/iotgwd/src/bridge.c:72-74 | the stored topic prefix has 1 to 127 characters, so a topic is never empty |
| SpiTransaction.SpiRuntime.FillTx | meta-iotgw/recipes-iotgw/iotgwd/iotgwd/src/conn_spi.c:318-344 | the outgoing buffer is zeros, the decoded text, or its raw bytes, cut or padded to the length |
| SpiTransaction.SpiRuntime.SendOnce | meta-iotgw/recipes-iotgw/iotgwd/iotgwd/src/conn_spi.c:241-305 | which segments go out, when the call succeeds, and what the receive buffer then holds |
| SpiTransaction.SegmentsCarry | meta-iotgw/recipes-iotgw/iotgwd/iotgwd/src/conn_spi.c:236-305 | the frame comes first on the wire, exactly the asked number of bytes is read, and which segments set cs_change |
| SpiTransaction.SpiRuntime.ExecTransaction | meta-iotgw/recipes-iotgw/iotgwd/iotgwd/src/conn_spi.c:308-406 | the frame is sent exactly when descriptor, bounds and allocations allow; the callback gets the received bytes exactly when the transfer succeeded and something is read |
| SpiTransaction.SpiRuntime.RunTransactions | meta-iotgw/recipes-iotgw/iotgwd/iotgwd/src/conn_spi.c:410-432 | a pass sends and delivers the concatenation over the list, whatever fails on the way, and always returns 0; without a descriptor it sends and delivers nothing |
| SpiTransaction.PassDeliversConcat | meta-iotgw/recipes-iotgw/iotgwd/iotgwd/src/conn_spi.c:418-426 | a pass over two lists delivers what the two passes deliver, one after the other |
| SpiTransaction.FailureStaysLocal | meta-iotgw/recipes-iotgw/iotgwd/iotgwd/src/conn_spi.c:418-426 | the outcome at one position changes that position's buffer only |
| SpiTransaction.ParseTransactions | meta-iotgw/recipes-iotgw/iotgwd/iotgwd/src/params_parsers.c:323-365 | the loaded array holds one transaction for every mapping item, in order |
| SpiTransaction.LoadedTransaction | meta-iotgw/recipes-iotgw/iotgwd/iotgwd/src/params_parsers.c:333-363 | a loaded tx text decodes, the frame is the decoded bytes cut or zero-padded, and a transaction is out of bounds only for want of a usable len |
| SpiTransaction.LoadedList | meta-iotgw/recipes-iotgw/iotgwd/iotgwd/src/params_parsers.c:328-364 | every loaded transaction comes from an item of the list |
| SpiTransaction.RawCopyUnreachable | meta-iotgw/recipes-iotgw/iotgwd/iotgwd/src/conn_spi.c:318-344 | no loaded transaction reaches the raw-copy fallback |
| SpiItems.ReadItem | meta-iotgw/recipes-iotgw/iotgwd/iotgwd/src/params_parsers.c:335-363 | an item whose op text is read, or absent, sends zeros and hands over rx_len bytes, or len when that is absent, exactly when memory and transfer allow |
| SpiItems.WriteItem | meta-iotgw/recipes-iotgw/iotgwd/iotgwd/src/params_parsers.c:335-363 | an item whose op text is write sends its decoded tx and hands over nothing, whatever happens |
| SpiItems.TransferItem | meta-iotgw/recipes-iotgw/iotgwd/iotgwd/src/params_parsers.c:335-363 | an item with any other op text sends its decoded tx and hands over rx_len bytes, or len, exactly when memory and transfer allow |
| SpiItems.NoTextSendsZeros | meta-iotgw/recipes-iotgw/iotgwd/iotgwd/src/params_parsers.c:347-356 | an item without tx, or with a refused one, sends zeros first |
| SpiItems.SentWhenSized | meta-iotgw/recipes-iotgw/iotgwd/iotgwd/src/params_parsers.c:342-345 | with memory for it, an item is sent if and only if its len text is a number in 1..4096 |
| SpiItems.DecimalIsRead | meta-iotgw/recipes-iotgw/iotgwd/iotgwd/src/params_parsers.c:40-40 | a decimal text is read as its number, also behind blanks and a sign |
| SpiItems.RestIsRefused | meta-iotgw/recipes-iotgw/iotgwd/iotgwd/src/params_parsers.c:40-40 | a text that goes on behind its digits is no number |
| SpiItems.SizeIsKept | meta-iotgw/recipes-iotgw/iotgwd/iotgwd/src/params_parsers.c:342-363 | a decimal len or rx_len is kept as its number if and only if it lies in 1..4096 |
| SpiItems.ShippedItem | meta-iotgw/recipes-iotgw/iotgwd/iotgwd/src/params_parsers.c:328-364 | the shipped item sends the bytes 1 and 255 and hands over the two bytes clocked in |
| Hex.ReadPairs | meta-iotgw/recipes-iotgw/iotgwd/iotgwd/src/conn_spi.c:68-105 | the scanning loop keeps the buffer in step with the digits read so far, and with nothing else |
| Hex.ParseHexBytes | meta-iotgw/recipes-iotgw/iotgwd/iotgwd/src/conn_spi.c:68-105 | prefix stripped, digits kept and paired, an odd last digit d is 0x0d, cut to the room; failure exactly without room or digits, buffer then untouched |
| Hex.UartParseHex | meta-iotgw/recipes-iotgw/iotgwd/iotgwd/src/conn_uart.c:224-250 | succeeds exactly on an even, non-zero number of digits that fit, with the same bytes as the lenient reading |
| Hex.StrictIsLenientOnCleanInput | meta-iotgw/recipes-iotgw/iotgwd/iotgwd/src/conn_uart.c:231-250 | the strict reader accepts exactly the texts the lenient one decodes without dropping, padding or cutting anything |
| Hex.DumpHex | meta-iotgw/recipes-iotgw/iotgwd/iotgwd/src/conn_spi.c:33-36 | the trace line is one blank and two digits for each byte |
| Hex.DecodeUndoesDump | meta-iotgw/recipes-iotgw/iotgwd/iotgwd/src/conn_spi.c:33-36 | reading a trace line back gives the dumped bytes |
| Hex.TxPatternDecodes | meta-iotgw/recipes-iotgw/iotgwd/iotgwd/src/params_parsers.c:347-352 | every tx text that passes the pattern decodes, with all its digits used |
| Hex.SpelledDecodes | meta-iotgw/recipes-iotgw/iotgwd/iotgwd/src/conn_spi.c:54-105 | a text of two digits for each byte, in either case and with or without prefix, decodes to these bytes, and a digit left over to one byte of its own |
| Hex.SpelledIsStrict | meta-iotgw/recipes-iotgw/iotgwd/iotgwd/src/conn_uart.c:224-250 | the strict reader accepts such a text, with or without prefix, if and only if its bytes fit |
| Yaml.Find | meta-iotgw/recipes-iotgw/iotgwd/iotgwd/src/config_loader.c:71-80 | the lookup loop returns the value of the first pair with that scalar key |
| UartLine.Port.UartRead | meta-iotgw/recipes-iotgw/iotgwd/iotgwd/src/conn_uart.c:213-221 | one read with interrupts repeated; bytes outside the window stay |
| UartLine.Port.UartWrite | meta-iotgw/recipes-iotgw/iotgwd/iotgwd/src/conn_uart.c:195-211 | success sends exactly the buffer, failure a proper prefix of it, under any partial writes and signals |
| UartLine.ReadSplits | meta-iotgw/recipes-iotgw/iotgwd/iotgwd/src/conn_uart.c:213-221 | what is read and what is still on its way make up the input |
| UartLine.AvailIsInput | meta-iotgw/recipes-iotgw/iotgwd/iotgwd/src/conn_uart.c:213-221 | bytes read one by one are the input's, in order, none lost |
| UartLine.NextByte | meta-iotgw/recipes-iotgw/iotgwd/iotgwd/src/conn_uart.c:213-221 | a one-byte read gives the next available byte, or the end of the line |
| UartPacket.LoadDelim | meta-iotgw/recipes-iotgw/iotgwd/iotgwd/src/conn_uart.c:259-265 | an absent delimiter is empty, a malformed or over-long one is refused |
| UartPacket.Slide | meta-iotgw/recipes-iotgw/iotgwd/iotgwd/src/conn_uart.c:297-303 | the window keeps the most recent bytes in order |
| UartPacket.SeekStart | meta-iotgw/recipes-iotgw/iotgwd/iotgwd/src/conn_uart.c:291-309 | consumes exactly up to the first start sequence in the stream, or ends with the line |
| UartPacket.ReadExactly | meta-iotgw/recipes-iotgw/iotgwd/iotgwd/src/conn_uart.c:313-325 | the fixed-length loop gathers exactly the length, or ends with the line and reports nothing |
| UartPacket.ReadUntil | meta-iotgw/recipes-iotgw/iotgwd/iotgwd/src/conn_uart.c:327-342 | ends at the first end sequence within the cap, without the delimiter; else overflow or end of line |
| UartPacket.UartReadPacket | meta-iotgw/recipes-iotgw/iotgwd/iotgwd/src/conn_uart.c:267-343 | the whole reader against its configuration: all error codes, what becomes of the line, the buffer and *out_len; a refused call changes nothing |
| UartPacket.FirstFinds | meta-iotgw/recipes-iotgw/iotgwd/iotgwd/src/conn_uart.c:253-257 | the search used as reference finds an occurrence if and only if it is the first |
| UartPacket.GatherSplits | meta-iotgw/recipes-iotgw/iotgwd/iotgwd/src/conn_uart.c:313-325 | bytes gathered and bytes left make up the input |
| UartStream.ReturnsFrame | meta-iotgw/recipes-iotgw/iotgwd/iotgwd/src/conn_uart.c:267-343 | a body between the first start and the first end sequence is returned without delimiters, nothing beyond it consumed |
| UartStream.ReportsOverflow | meta-iotgw/recipes-iotgw/iotgwd/iotgwd/src/conn_uart.c:327-335 | without end sequence in the cap, overflow after exactly cap + 1 bytes of body |
| UartStream.OtherwiseHalts | meta-iotgw/recipes-iotgw/iotgwd/iotgwd/src/conn_uart.c:293-334 | in every other case the call ends with the line's own timeout or error |
| UartStream.EmptyPacket | meta-iotgw/recipes-iotgw/iotgwd/iotgwd/src/conn_uart.c:288-341 | a completed packet is empty exactly when a frame without payload stands at the front of the stream; one of fixed length never is |
| UartStream.LengthTellsUnlessEmpty | meta-iotgw/recipes-iotgw/iotgwd/iotgwd/src/conn_uart.h:73-74 | the test for a length above 0 tells a packet from a timeout if and only if no empty frame stands at the front; so always for fixed lengths |
| UartStream.LengthIsExactWithoutEnd | meta-iotgw/recipes-iotgw/iotgwd/iotgwd/src/conn_uart.h:68-72 | with a length configured, a packet has exactly that length if and only if there is no end delimiter; with one, payload and delimiter together fit the length |
| UartStream.LengthWithEnd | meta-iotgw/recipes-iotgw/iotgwd/iotgwd/src/conn_uart.c:327-340 | a body that fills the length together with its end delimiter gives a packet shorter by the delimiter |
| UartStream.LengthThreeGivesTwo | meta-iotgw/recipes-iotgw/iotgwd/iotgwd/src/conn_uart.c:327-340 | at a length of 3 with a one-byte delimiter the packet has two bytes |
| UartStream.ZeroIsAmbiguous | meta-iotgw/recipes-iotgw/iotgwd/iotgwd/src/conn_uart.c:288-341 | an input on which code 0 with length 0 is an empty frame, and one on which it is a timeout |
| UartStream.ReadBack | meta-iotgw/recipes-iotgw/iotgwd/iotgwd/src/conn_uart.c:267-343 | a frame behind noise is read back, with nothing beyond it touched, if and only if its delimiters first occur where they stand and it fits the cap |
| UartStream.StreamReadsBack | meta-iotgw/recipes-iotgw/iotgwd/iotgwd/src/conn_uart.c:267-343 | repeated calls return the payloads of a stream of frames in order exactly when every frame is clean, and leave the rest |
| UartStream.StreamSurvives | meta-iotgw/recipes-iotgw/iotgwd/iotgwd/src/conn_uart.c:213-343 | the same with interrupts anywhere and reads cut anyhow |
| UartStream.FixedReadBack | meta-iotgw/recipes-iotgw/iotgwd/iotgwd/src/conn_uart.c:291-325 | a fixed-length packet behind the first start sequence is read back from any line that keeps delivering |
| UartStream.SentIsReceived | meta-iotgw/recipes-iotgw/iotgwd/iotgwd/src/conn_uart.c:195-325 | the receiver gets a fixed-length payload if and only if the sender could write every byte, for every write script and every fragmentation of the reads |
| UartStream.CutShort | meta-iotgw/recipes-iotgw/iotgwd/iotgwd/src/conn_uart.c:313-325 | a fixed-length packet that was cut short completes no packet |
| UartStream.NoRoomRefused | meta-iotgw/recipes-iotgw/iotgwd/iotgwd/src/conn_uart.c:314-330 | a length the buffer cannot hold, or a buffer without room, is refused behind the start sequence before any byte of the body is read |
| UartConfigured.AcceptsWhatIsSpelled | meta-iotgw/recipes-iotgw/iotgwd/iotgwd/src/conn_uart.c:271-286 | a configuration whose texts spell a start and an end sequence is accepted, with each as its own delimiter, if and only if both have at most 32 bytes and there is an end sequence or a length |
| UartConfigured.OnlyStartRefused | meta-iotgw/recipes-iotgw/iotgwd/iotgwd/src/conn_uart.c:283-286 | a call with only a start sequence configured is refused and reads nothing |
| UartConfigured.ConfiguredStream | meta-iotgw/recipes-iotgw/iotgwd/iotgwd/src/conn_uart.c:267-343 | for delimiters given as texts, as many calls as there are frames return the payloads of a stream of clean frames in order, with code, length and buffer, whatever pieces the line delivers, and leave the rest |
| UartConfigured.ConfiguredFixed | meta-iotgw/recipes-iotgw/iotgwd/iotgwd/src/conn_uart.c:267-325 | the same for a packet of fixed length behind its start sequence |
| UartConfigured.StxEtx | meta-iotgw/recipes-iotgw/iotgwd/iotgwd/src/conn_uart.c:267-343 | with start 02 and end 03 the line 02 41 42 03 gives the payload 41 42 |
| HttpAccum.GrowthEnds | meta-iotgw/recipes-iotgw/iotgwd/iotgwd/src/conn_http_server.c:12-14 | for every capacity a buffer can have, 2^63 included, and every need above it, the doubling loop in a size_t ends if and only if the need is at most 2^63 |
| HttpAccum.PostAccum.NextCap | meta-iotgw/recipes-iotgw/iotgwd/iotgwd/src/conn_http_server.c:13-14 | that loop computes the first doubled capacity that suffices |
| HttpAccum.PostAccum.AccumAppend | meta-iotgw/recipes-iotgw/iotgwd/iotgwd/src/conn_http_server.c:11-23 | appends and terminates, or leaves everything as it was when no memory is found |
| HttpAccum.AppendSucceeds | meta-iotgw/recipes-iotgw/iotgwd/iotgwd/src/conn_http_server.c:11-23 | an append fails if and only if the buffer must grow and there is no memory; otherwise the bytes follow what is there |
| HttpAccum.AppendKeeps | meta-iotgw/recipes-iotgw/iotgwd/iotgwd/src/conn_http_server.c:11-23 | one append keeps capacity, load and cost in bounds |
| HttpAccum.AmortisedBound | meta-iotgw/recipes-iotgw/iotgwd/iotgwd/src/conn_http_server.c:11-23 | after any appends the capacity is 0 or 1024 doubled, at most max(1024, 2(len + 1)), and all reallocations together moved fewer bytes than that |
| HttpRequest.AllowRoute | meta-iotgw/recipes-iotgw/iotgwd/iotgwd/src/conn_http_server.c:42-50 | true exactly for an empty list or a listed path |
| HttpRequest.Handler.Finish | meta-iotgw/recipes-iotgw/iotgwd/iotgwd/src/conn_http_server.c:79-91 | the closing call hands over at most once, frees, and answers |
| HttpRequest.Handler.OnAccess | meta-iotgw/recipes-iotgw/iotgwd/iotgwd/src/conn_http_server.c:53-95 | one handler call: new state, answer and bytes consumed |
| HttpRequest.NeverFreedTwice | meta-iotgw/recipes-iotgw/iotgwd/iotgwd/src/conn_http_server.c:64-91 | for any calls whatever, accumulators made are those freed plus the one in use |
| HttpRequest.PiecesDelivered | meta-iotgw/recipes-iotgw/iotgwd/iotgwd/src/conn_http_server.c:71-91 | how a POST with an accumulator ends, for any pieces and any failures |
| HttpRequest.MemoryStores | meta-iotgw/recipes-iotgw/iotgwd/iotgwd/src/conn_http_server.c:73-77 | with memory for everything, every piece is stored |
| HttpRequest.PostDeliversOnce | meta-iotgw/recipes-iotgw/iotgwd/iotgwd/src/conn_http_server.c:53-95 | the callback gets the concatenated body exactly once when set and the route is allowed, never otherwise; one accumulator made and freed |
| HttpRequest.FreedExactlyWhen | meta-iotgw/recipes-iotgw/iotgwd/iotgwd/src/conn_http_server.c:71-95 | the accumulator is freed if and only if the request is a POST and no append failed; otherwise it is leaked; other verbs get 405 and never reach the callback |
| NodeToJson.JsonEscape | meta-iotgw/recipes-iotgw/iotgwd/iotgwd/src/config_loader.c:138-144 | writes the escaped text behind what is there |
| NodeToJson.PutScalar | meta-iotgw/recipes-iotgw/iotgwd/iotgwd/src/config_loader.c:147-159 | classifies and writes a scalar |
| NodeToJson.Write | meta-iotgw/recipes-iotgw/iotgwd/iotgwd/src/config_loader.c:145-185 | writes the text of a tree |
| NodeToJson.WriteItems | meta-iotgw/recipes-iotgw/iotgwd/iotgwd/src/config_loader.c:160-168 | writes a sequence with commas between items |
| NodeToJson.WritePairs | meta-iotgw/recipes-iotgw/iotgwd/iotgwd/src/config_loader.c:169-182 | writes a mapping, skipping non-scalar keys without stray commas |
| NodeToJson.Serialize | meta-iotgw/recipes-iotgw/iotgwd/iotgwd/src/config_loader.c:186-201 | the text of the whole tree, or nothing without a temporary file |
| JsonRoundTrip.StringBack | meta-iotgw/recipes-iotgw/iotgwd/iotgwd/src/config_loader.c:138-144 | the reader undoes the escaping, and refuses exactly the texts with a control character other than newline |
| JsonRoundTrip.NumberBack | meta-iotgw/recipes-iotgw/iotgwd/iotgwd/src/config_loader.c:154-156 | a scalar printed bare as a number is read back unless strtod skipped space that JSON does not know |
| JsonRoundTrip.TreeBack | meta-iotgw/recipes-iotgw/iotgwd/iotgwd/src/config_loader.c:145-185 | trees with proper numbers are read back with any continuation, or refused when a text is improper |
| JsonRoundTrip.PrintReadsBack | meta-iotgw/recipes-iotgw/iotgwd/iotgwd/src/config_loader.c:145-185 | reading what was printed gives the tree's value and the continuation, if and only if numbers and texts are proper |
| JsonRoundTrip.DocumentReadsBack | meta-iotgw/recipes-iotgw/iotgwd/iotgwd/src/config_loader.c:186-201 | the same for the whole text |
| JsonRoundTrip.BadTokenBadValue | meta-iotgw/recipes-iotgw/iotgwd/iotgwd/src/config_loader.c:154-156 | a tree with a number strtod takes and JSON does not has no JSON value |
| JsonRoundTrip.NumbersPrintBare | meta-iotgw/recipes-iotgw/iotgwd/iotgwd/src/config_loader.c:154-156 | every JSON number is accepted by strtod whole, so printed bare |
| JsonRoundTrip.StrtodTakesMore | meta-iotgw/recipes-iotgw/iotgwd/iotgwd/src/config_loader.c:154-156 | the converse fails: the empty scalar and numbers with a plus sign |
| JsonRoundTrip.HexIsBare | meta-iotgw/recipes-iotgw/iotgwd/iotgwd/src/config_loader.c:154-156 | hexadecimal scalars, with or without minus sign, are printed bare and are no JSON numbers |
| JsonRoundTrip.SpecialIsBare | meta-iotgw/recipes-iotgw/iotgwd/iotgwd/src/config_loader.c:154-156 | so are infinities and nan in any case |
| ConfigLoader.Config.ParseConnectorsMap | meta-iotgw/recipes-iotgw/iotgwd/iotgwd/src/config_loader.c:362-372 | appends a row for every pair with a scalar key and a mapping value, in order |
| ConfigLoader.Config.ParseBridges | meta-iotgw/recipes-iotgw/iotgwd/iotgwd/src/config_loader.c:293-305 | a row for every usable pair of the main file's bridges |
| ConfigLoader.Config.ParseIncludes | meta-iotgw/recipes-iotgw/iotgwd/iotgwd/src/config_loader.c:227-235 | the texts of the includes, in order |
| ConfigLoader.Config.LoadIncludes | meta-iotgw/recipes-iotgw/iotgwd/iotgwd/src/config_loader.c:393-411 | every readable include adds its connectors, an unreadable one nothing |
| ConfigLoader.Config.ConfigLoadFile | meta-iotgw/recipes-iotgw/iotgwd/iotgwd/src/config_loader.c:375-415 | the tables after a load, and when it fails |
| ConfigLoader.Config.FindConnector | meta-iotgw/recipes-iotgw/iotgwd/iotgwd/src/config_loader.c:418-423 | first match by name |
| ConfigAgreement.RowsAreMappings | meta-iotgw/recipes-iotgw/iotgwd/iotgwd/src/config_loader.c:362-372 | every row comes from a pair with a scalar key and a mapping value |
| BridgeAgreement.BridgeRowsConcat | meta-iotgw/recipes-iotgw/iotgwd/iotgwd/src/config_loader.c:293-305 | the bridges keep the order of their pairs |
| ConfigValidator.Validator.MergeKey | scripts/validate_cfg.py:96-112 | one key of an overlay: joined, kept or overwritten; refused exactly on a clash |
| ConfigValidator.Validator.MergeConfig | scripts/validate_cfg.py:90-112 | the merged value of every key, whatever the order of the overlay's keys; refused exactly on a clash |
| ConfigValidator.LoadWithIncludes | scripts/validate_cfg.py:115-137 | succeeds exactly when every fragment exists, loads and merges, with the merged sections, the other keys overwritten by the fragments, and `includes` only when it names nothing; an empty main file counts as an empty dictionary |
| ConfigValidator.LastOneOverwrites | scripts/validate_cfg.py:108-112 | a key that is no section comes to its value in the last fragment that has it, or else in the main file |
| ConfigAgreement.TextsExactly | scripts/validate_cfg.py:124-130 | a list of includes is refused exactly when some item is no text |
| ConfigAgreement.FragmentsExactly | scripts/validate_cfg.py:129-133 | the fragments can be read exactly when each is there, loads and is a dictionary |
| ConfigInputs.EmptyMainMerges | scripts/validate_cfg.py:121-121 | a main file with nothing in it passes the merge |
| ConfigValidator.CrossChecks | scripts/validate_cfg.py:156-184 | the list holds exactly the findings there are; an empty list in place of a section counts as an empty section |
| ConfigValidator.NoFindings | scripts/validate_cfg.py:156-184 | it is empty if and only if both sections are objects or empty and every bridge's two ends are known connectors |
| ConfigInputs.DanglingEndsReported | scripts/validate_cfg.py:173-182 | for one connector and one bridge, reported are exactly the ends that are not that connector, each under its own name |
| ConfigAgreement.KeptValue | scripts/validate_cfg.py:66-73 | what the YAML loader keeps under a key is its last value in the mapping itself, or else what merge keys bring; the merge key itself is never kept |
| ConfigAgreement.FirstItemWins | scripts/validate_cfg.py:66-73 | of the mappings a merge key lists, the first that has a key gives it |
| ConfigAgreement.MappingNames | meta-iotgw/recipes-iotgw/iotgwd/iotgwd/src/config_loader.c:362-372 | within one mapping of connectors daemon and validator know the same names if and only if merge keys bring none |
| ConfigAgreement.MappingAgrees | meta-iotgw/recipes-iotgw/iotgwd/iotgwd/src/config_loader.c:362-372 | within one mapping they agree on every name's value if and only if merge keys bring no names and first and last value of every key are the same |
| ConfigAgreement.LookupsAgree | meta-iotgw/recipes-iotgw/iotgwd/iotgwd/src/config_loader.c:375-423 | for accepted configurations whose `includes` and `connectors` keys have the same first and last value in each file, the daemon knows exactly the validator's names if and only if no section brings names by merge keys, and finds the validator's connector for all of them if and only if in addition no file repeats a connector key with a different first and last value |
| ConfigAgreement.DistinctKeysAgree | meta-iotgw/recipes-iotgw/iotgwd/iotgwd/src/config_loader.c:418-423 | under the same hypothesis, without repeated connector keys and merge keys, lookup and validator agree on every name |
| ConfigAgreement.DistinctIsSettled | meta-iotgw/recipes-iotgw/iotgwd/iotgwd/src/config_loader.c:71-80 | in a mapping without repeated keys and merge keys the first and the last value of every key are the same, so that hypothesis holds |
| ConfigAgreement.NamesExactly | meta-iotgw/recipes-iotgw/iotgwd/iotgwd/src/config_loader.c:375-423 | for any files the validator accepts, with no such hypothesis, the two know the same names if and only if the usable keys of the first `connectors` sections are the merged keys of the last ones |
| ConfigAgreement.ReadsAgree | meta-iotgw/recipes-iotgw/iotgwd/iotgwd/src/config_loader.c:330-349 | where lookups agree, the two read the same type and parameters of a connector if and only if first and last value of these two keys are the same in it |
| ConfigInputs.RepeatedKeyDiffers | scripts/validate_cfg.py:66-73 | an input that passes merge, schema and cross checks with a connector key repeated, on which the two have different connectors |
| ConfigInputs.RepeatedTypeDiffers | scripts/validate_cfg.py:66-73 | one with the `type` repeated in a connector: the validator has checked another type than the daemon uses |
| ConfigInputs.RepeatedSectionDiffers | scripts/validate_cfg.py:66-73 | one with the `connectors` section repeated, on which the two do not even know the same names |
| ConfigInputs.MergedConnectorLost | scripts/validate_cfg.py:66-73 | one with a connector under a merge key: the daemon has a connector named `<<` in its place, and the checked bridge does not resolve |
| BridgeAgreement.BridgesResolve | meta-iotgw/recipes-iotgw/iotgwd/iotgwd/src/bridge.c:58-67 | both ends of a bridge loaded from a validated configuration are given, and they resolve if and only if they are written in a section and not only merged into it, when each loaded bridge and its ends are the values the validator kept; so always without such merge keys |
| BridgeAgreement.ResolvesExactly | meta-iotgw/recipes-iotgw/iotgwd/iotgwd/src/bridge.c:58-67 | for any files whatever, a bridge resolves if and only if each of its ends is the key of a usable pair in a `connectors` section the daemon reads |
| BridgeAgreement.ResolvesWhenKnown | meta-iotgw/recipes-iotgw/iotgwd/iotgwd/src/bridge.c:58-67 | under the hypothesis of LookupsAgree, resolving means for all bridges that both ends are merged connectors, if and only if no section brings names by merge keys |
| ConfigInputs.RepeatedBridgeUnchecked | meta-iotgw/recipes-iotgw/iotgwd/iotgwd/src/config_loader.c:293-305 | an input that passes merge, schema and cross checks with two bridges of one key: the validator checks the last only, the daemon loads both, and the first does not resolve |
| ConfigInputs.MergedEndLost | meta-iotgw/recipes-iotgw/iotgwd/iotgwd/src/config_loader.c:237-242 | one with a bridge whose `from` comes by a merge key: the daemon reads none, and the bridge does not resolve |
| BridgeAgreement.IncludedBridgeNotLoaded | meta-iotgw/recipes-iotgw/iotgwd/iotgwd/src/config_loader.c:375-411 | a bridge defined in an included file is in the merge the validator checks and is the name of no row the daemon loads |
| BridgeAgreement.LoadedBridges | meta-iotgw/recipes-iotgw/iotgwd/iotgwd/src/config_loader.c:375-411 | the daemon loads exactly the accepted bridges, by name, if and only if no included file defines any and the main file's section brings no names by merge keys |
| ConfigInputs.IncludedBridgeLost | scripts/validate_cfg.py:115-137 | an input that passes merge, schema and cross checks with one bridge, of which the daemon loads none |
| ConfigAgreement.IncludeOrder | scripts/validate_cfg.py:115-137 | the order of the includes changes neither connectors nor bridges nor their being refused |
| ConfigAgreement.JoinSwap | scripts/validate_cfg.py:97-107 | two fragments merge alike in either order, or in neither |
| ConfigAgreement.DisjointUnion | scripts/validate_cfg.py:97-107 | the merged names are the disjoint union of the names merged |

## Left out

- LifecycleStart.BridgeIsDealtWith: the main thread steps alone from `Prepare` on, and the kernel gives a descriptor that is not open; what the other threads do meanwhile does not touch the slot under construction (`LifecycleSafety.FailedSlotsHaveNoWorker`).
- LifecycleTrace.PublishesWhatWasRead: assumes that copies and publishes succeed; without that, `LifecycleTrace.CallbacksFollowExecutions` says what each callback carried and how it ended.
- HttpAccum.PostAccum.AccumAppend: requires the need to be at most 2^63, which is exactly when the growth loop ends.
- HttpRequest.Handler.OnAccess: the same bound on the body with the new piece.
- UartPacket.UartReadPacket: requires, as the code does of its callers, a buffer that holds a start sequence and whose size is an `int`; null pointers other than a missing packet section are not modelled.
- UartLine.Port.UartWrite: a write script that is over counts as a failure, so that every call ends.
- NodeToJson.Write: requires scalar keys to have text, which libyaml guarantees; trees are finite, so an alias cycle, on which the printer would not end, has no counterpart.
- ConfigAgreement.LookupsAgree: assumes that the first and last value of `includes` and of `connectors` are the same in each file; `ConfigAgreement.NamesExactly` is the exact condition for the names without that, and `ConfigInputs.RepeatedSectionDiffers` the counterexample. Of the schema it assumes only that every merged connector is an object.
- BridgeAgreement.BridgesResolve: assumes that the daemon's bridges are the ones the validator kept; `BridgeAgreement.ResolvesExactly` is the exact condition for any files and `ConfigInputs.RepeatedBridgeUnchecked` the counterexample.
- BridgeAgreement.LoadedBridges: compares the names; that the ends are the same is the hypothesis of `BridgeAgreement.BridgesResolve`.
- ConfigValidator.LoadWithIncludes: refuses a main file that is a falsy scalar such as 0 or false, which Python takes for an empty dictionary, because scalars are not resolved to other types than null.
- Leak-freedom of a failed start: when the source cannot be opened or the thread cannot be created, the connected destination is not released by the code; only that no worker is left is claimed.
- The MQTT network thread, its static callback glue and the `connected` flag; libmosquitto calls are an accepted or refused publish.
- The HTTP source to MQTT path, whose sender takes its arguments in the order of the `gw_msg.h` typedef and not in that of the MQTT adapter; no bridge start wires it.
- libmicrohttpd, termios, `open`, `ioctl`, `select`, syslog and service notification beyond their results; log output.
- libyaml, JSON Schema evaluation and regular expressions: trees are the input, schema validity a hypothesis, the one pattern on `tx` a predicate. The inputs of `ConfigInputs` meet `ConfigInputs.Passes`, which states what the schema asks of a configuration with an empty gateway, `spi` connectors and plain bridges.
- Resolution of plain YAML scalars to other types than null (a key `1` or `yes` is text here on both sides), quoted nulls and quoted `<<`, keys that are no text, and file paths: an include is named by its text on both sides.
- Bytes of text are characters: UTF-8 decoding, and surrogate pairs in `\u` escapes (which the printer never writes), are not modelled.
- The registered parameter parsers other than the transaction list: they copy fields and always return 0, so no connector is dropped by them.
- UART settings, MQTT address defaults, versions, rate limits, buffers and transforms by name: table lookups or values nothing uses.
- Floating-point values; a number is kept as its text.
- Lifecycle.MainStep: the threads' updates in place are steps over one value, pointers being names in a heap, because methods cannot be interleaved; local variables between two interruption points are not modelled.
- Data races on single words such as the stop flag: every step is atomic.
- The demos, the printing of configurations, recipes, unit files and shell scripts.
