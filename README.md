# micro-ROS benchmarking: a Dafny model of the trace-decoding stages

This project models the stages that the micro-ROS benchmarking tool builds its
trace decoders from, and proves what each stage promises. The stages are:

- **Message buffers** (`Message`). A pool of 32 static slots of 1024 bytes.
  A message object claims a slot and then writes, reads, copies and measures
  it. `message_fini` zeroes the slot, which frees it.
- **Processing objects** (`Processing`). Every stage embeds one: a `data_in`
  slot, a `data_out` slot and the `req_end` flag. The callback slots are
  modelled by naming the function installed in them.
- **The linear pipeline** (`Pipeline`). Up to 16 processing objects in a row
  share one message. `stream_data` calls `data_out` of stage i, then `data_in`
  of stage i + 1, along the chain. The callbacks return `size_t`, so the
  `< 0` tests on their results never stop the walk.
- **SWO packet conversion** (`PktConverter`, `PktProperties`). Decoded ARM
  trace packets become a list of named, typed fields: the `handle_*` getters,
  the exception names of section B1.5 of the ARMv7-M Architecture Reference
  Manual, and the per-type table `ptis`. The cJSON tree is modelled as the
  list of nodes added under the root.
- **ITM line reassembly** (`Itm2MemInfo`, `Itm2MemProperties`). A 1024-byte
  circular character buffer is indexed modulo 1023. Lines are cut at each
  `'\n'`, and the buffer is re-linearised once it has wrapped. "alloc" lines
  and their backtrace lines are grouped into records in a two-buffer scheme
  toggled by `^= 3`.
- **Resource guards.**
  - `File`: a pool of 16 file slots, and the `file_write` loop.
  - `Uart`: a pool of one UART slot.
  - `SwdCtrl`: the SWD controller singleton, with its `*`-pattern configuration
    table and the openocd argv.
  - `PerfEx`: the perf_ex singleton.
  - `ConfigIni`: the INI configuration singleton.
- **Shared pieces** (`Common`, `Text`). C integer widths. The `size_t`
  conversion modulo 2^64. The `%u`/`0x%08x` renderings and the
  `%d`/`%ld`/`%u`/`%x` conversions of `sscanf`, each paired with a proof that
  the scanner reads the rendering back. `strncpy` into a zeroed buffer.

Stateful C objects are Dafny classes whose methods update fields in place:
- Each static pool is an `array` of slot values.
- Each singleton's private data is a class with its flags.
- `pdata` is an `Option` of a slot index, or of the singleton.

Each method states its whole new state in its `ensures`, usually by
reference to a pure specification function. The properties of that function
are proved as lemmas.

Calls into code outside the model are replaced by parameters that carry their
outcome:
- `open`, `close`, `write` and termios;
- `fork`, `kill`, `waitpid` and `openocd_main`;
- `ini_load`;
- `mem_info_append_to_list`, `tree_create` and the JSON writers;
- each cJSON allocation;
- `config_init` and `config_fini`.

Some behaviour that looks unintended is modelled exactly as written, with a
lemma stating the consequence:
- `uart_close` does not clear `is_open`, so a closed UART cannot be opened
  again (`Uart.ClosedDeviceStaysOpen`).
- `swd_ctrl_fini` refuses exactly when the singleton is initialised, so
  after a successful init every later init and fini fails
  (`SwdCtrl.InitialisedIsStuck`).
- `swd_ctrl_stop` before any start signals pid 0, because `fork_pid` starts
  at 0 (`SwdCtrl.SwdCtrlData.Stop`).
- `config_ini_init` has no guard against a second init
  (`ConfigIni.ConfigIniData.Init`).
- `pipeline_init` zeroes the singleton before testing `is_used`, so its
  "already in use" branch never fires (`Pipeline.PipelineData.Init`).
- `pipeline_attach_sink` has no return statement on success
  (`Pipeline.PipelineData.AttachSink` returns `None` there).
- In `itm2mem_fill_info` the test `res < 0` is on a `size_t` and never holds.
  The loop therefore adds the parse result (-1 when a line is dropped) to the
  total.
- `inc/config_ini.h:7-11` declares no `open_cfg` member, although
  `src/config_ini.c:95` assigns one. The model follows the C file: the object
  carries `open_cfg` among its installed callbacks.

## Model

| member | source | states |
|---|---|---|
| Text.StrnCopy | src/uart.c:125 | the C string held after `strncpy` into a zeroed buffer is a prefix of the source of at most n characters, and all of the source when it fits |
| Text.SkipSpace | src/config_ini.c:31-36 | the white space `sscanf` skips: every skipped character is a space and the next is not |
| Text.RunEnd | src/config_ini.c:31-36 | the digit run a conversion consumes is maximal: all digits, followed by a non-digit or the end |
| Text.ScanInt | src/itm2mem_info.c:101-102 | a successful integer conversion consumes at least one character and stays within the text |
| Text.DecimalIsNumeral | src/pkt_converter.c:303-304 | the decimal rendering is a non-empty digit string whose value is the number |
| Text.HexDigitsShape | src/pkt_converter.c:564-565 | the zero-padded hex rendering has exactly k lower-case hex digits |
| Text.HexDigitsValue | src/pkt_converter.c:564-565 | the k hex digits read back as the value modulo 16^k |
| Text.Hex8Shape | src/pkt_converter.c:564-565 | `0x%08x` always gives ten characters: "0x" and eight lower-case hex digits |
| Text.DecimalRoundTrip | src/pkt_converter.c:303-304 | scanning `%u`/`%d` over the decimal rendering recovers the number and consumes all of it |
| Text.Hex8RoundTrip | src/pkt_converter.c:564-565 | scanning `%x` over `0x%08x` recovers the 32-bit value and consumes all ten characters |
| Message.ZeroSlot | src/message.c:27 | a zeroed slot has a 1024-byte buffer and is not in use |
| Message.FirstFreeFrom | src/message.c:144-151 | the slot chosen is unused and every earlier slot is in use; there is none exactly when all slots are in use |
| Message.WriteSlot | src/message.c:87-98 | a write sets the length to the larger of the old length and len, makes the contents the first that-many bytes of src, and leaves the rest of the buffer |
| Message.Pool.constructor | src/message.c:27 | the static pool starts with every slot zero |
| Message.Pool.GetFreeInstance | src/message.c:135-155 | claims the lowest unused slot by setting is_used and changes nothing else; None when all 32 are used |
| Message.Pool.InternalInit | src/message.c:157-163 | the slot gets length 0 and total_len 1024; always 0 |
| Message.Pool.Init | src/message.c:165-191 | returns 0 exactly when a slot is free; the lowest free slot becomes used, empty, of total length 1024 and bound with the buffer callbacks; -1 with nothing changed otherwise |
| Message.Pool.Fini | src/message.c:193-217 | -1 exactly for a NULL pdata or a slot not in use, changing nothing; otherwise the defaults are installed, pdata is NULL and the slot is zeroed |
| Message.Pool.Length | src/message.c:106-110 | the slot's length (at most 1024) with the buffer callbacks, (size_t)-1 with the defaults of lines 52-56 |
| Message.Pool.TotalLen | src/message.c:112-116 | 1024 with the buffer callbacks, (size_t)-1 with the defaults of lines 61-65 |
| Message.Pool.Ptr | src/message.c:118-122 | the slot's buffer with the buffer callbacks, NULL with the default of lines 43-47 |
| Message.Pool.Read | src/message.c:100-104 | hands out the buffer and the current length, so the contents are the buffer up to that length; the default returns -1; nothing changes |
| Message.Pool.Write | src/message.c:87-98 | the slot becomes WriteSlot of it; the result is the new length, max(old length, len), and the contents are src up to it; the default returns -1 and changes nothing |
| Message.Pool.Cpy | src/message.c:129-133 | with the defaults, (size_t)-1 and nothing changed, whatever src is; with the buffer callbacks, copying equals writing src's buffer and length into obj, the result is the larger length, src is unchanged, and when src is no shorter the contents become src's |
| Message.FreedSlotIsNextClaimed | src/message.c:135-155 | with all 32 slots in use, the slot a fini zeroes is the one the next init claims |
| Processing.ProcessingObj.Init | src/processing.c:26-34 | installs both default callbacks, returns 0 and leaves req_end |
| Processing.ProcessingObj.Fini | src/processing.c:37-45 | installs the same defaults, returns 0 (so a second fini is accepted) and leaves req_end |
| Pipeline.ChainAt | src/pipeline.c:91-103 | call 2i of the chain is data_out of stage i and call 2i+1 is data_in of stage i+1 |
| Pipeline.ChainLength | src/pipeline.c:91-103 | the chain over k links makes 2k calls |
| Pipeline.Chain | src/pipeline.c:91-103 | the chain over k links calls data_out only on stages 0 to k - 1 and data_in only on stages 1 to k |
| Pipeline.PipelineData.constructor | src/pipeline.c:11-22 | the static instance starts empty, with both flags clear and not in use |
| Pipeline.PipelineData.AttachSrc | src/pipeline.c:24-39 | -1 exactly when a source is connected, keeping the source flag, the count and the stages; otherwise the source is appended and the source flag set |
| Pipeline.PipelineData.AttachProc | src/pipeline.c:41-61 | -1 exactly when no source or already a sink is connected; otherwise the first object is appended and dst ignored |
| Pipeline.PipelineData.AttachSink | src/pipeline.c:63-76 | -1 exactly when 16 objects are attached; otherwise the sink is appended, the sink flag set, and no value returned |
| Pipeline.PipelineData.StreamData | src/pipeline.c:78-106 | with fewer than two stages, -1 and no call; otherwise 0, having called data_out of each stage and then data_in of the next along the whole chain, whatever size_t each callback, default or installed, returns |
| Pipeline.PipelineData.GetInstance | src/pipeline.c:111-115 | the singleton is zeroed: no objects, no flags, no message |
| Pipeline.PipelineData.Init | src/pipeline.c:118-143 | the singleton is zeroed first (every procObjs entry NULL); 0 exactly when a message slot is free, and then the lowest free slot becomes used, empty, of total length 1024 and the message's pdata, every other slot unchanged, the object carries the four callbacks and points at the singleton, and is_used is set; -1 with the pool unchanged, the message's pdata NULL and its callbacks unset (still zeroed), and the object unchanged otherwise |
| PktConverter.SizeMinusOne | src/pkt_converter.c:62-67 | the size getters report the payload size less one, and (size_t)-1 for size 0 |
| PktConverter.SyncScaled | src/pkt_converter.c:127-135 | the sync size is the raw size unless it is a non-zero multiple of 8, when it is that number of bytes |
| PktConverter.ExceptionName | src/pkt_converter.c:291-307 | the exception name is never empty; below 16 it is a table name shorter than the external prefix, from 16 on it starts with "External interrupt " and is longer than it |
| PktConverter.Ptis | src/pkt_converter.c:384-504 | a packet has a table name exactly when its type is listed; each entry has at most five values, none named "packet", with distinct names |
| PktConverter.Render | src/pkt_converter.c:536-568 | a CHAR value is a string of at most one character, a STR value is the getter's string, SIZE and UNSIGNED values are numbers, and a HEX value is a ten-character string starting "0x" |
| PktConverter.FullFields | src/pkt_converter.c:527-583 | a complete node has the ("packet", type name) field first and then one field per table entry, named as the entry |
| PktConverter.FirstFailure | src/pkt_converter.c:575-579 | the index found fails and every earlier one succeeds; none exactly when all succeed |
| PktConverter.ConvertSpec | src/pkt_converter.c:607-612 | any format other than CJSON adds nothing and returns 0; a CJSON result of 0 means no packet failed |
| PktConverter.PacketCount | src/pkt_converter.c:590-598 | the number of packets fits the 32-bit counter and its packets fit within length; it is length / size whenever that fits 32 bits |
| PktConverter.NodeFields | src/pkt_converter.c:527-583 | a node holds ("packet", name) first and one field per table entry |
| PktConverter.NodeSpec | src/pkt_converter.c:522-585 | writing a node returns 0 or (size_t)-1 |
| PktConverter.WriteSpec | src/pkt_converter.c:506-586 | writing a packet returns 0 or (size_t)-1 |
| PktConverter.AddField | src/pkt_converter.c:532-583 | one pass of the field loop adds the next table entry's field to the node |
| PktConverter.WriteNode | src/pkt_converter.c:522-585 | the node is added, then its fields in table order; writing stops with -1 at the first failed allocation, keeping what was added |
| PktConverter.WritePacket | src/pkt_converter.c:506-586 | 0 and nothing added for a table slot without a name; otherwise the result and the nodes added are those of writing the node |
| PktConverter.ConvertPacket | src/pkt_converter.c:607-612 | converting one packet adds exactly what writing it alone adds, with result 0 or -1 |
| PktConverter.PktConvert | src/pkt_converter.c:588-620 | -1 and nothing added with no whole packet or a format outside [CJSON, MYSQL]; otherwise the packets are converted in order up to the first failure, as ConvertSpec states |
| PktConverter.ConvertStops | src/pkt_converter.c:609-611 | after a failed packet, later packets change neither the result nor the nodes |
| PktConverter.Get | src/pkt_converter.c:41-377 | each getter always stores the same kind of value (string, size or unsigned), whatever the packet, and never an empty string |
| PktConverter.TableFits | src/pkt_converter.c:384-504 | no table entry has more than the five places of values, and every getter reads its own packet type's members |
| PktProperties.ExtSourceFallback | src/pkt_converter.c:99-117 | only an unlisted extension source reads "No specific ext" |
| PktProperties.LtsRelationFallback | src/pkt_converter.c:138-163 | only an unlisted timestamp relation reads "unknown timestamp" |
| PktProperties.ExcFunctionFallback | src/pkt_converter.c:271-289 | only an unlisted exception function reads "reserved" |
| PktProperties.EnumNamesDistinct | src/pkt_converter.c:99-289 | listed values of each enumeration have distinct names |
| PktProperties.ReservedExceptions | src/pkt_converter.c:251-268 | below 16, an exception is "Reserved" exactly for 7 to 10 and 13 |
| PktProperties.ExternalInterrupt | src/pkt_converter.c:291-307 | from 16 on, the name is "External interrupt " followed by n - 16 in decimal, which reads back |
| PktProperties.ExternalIffAtLeast16 | src/pkt_converter.c:291-307 | a name starts with the external-interrupt prefix exactly when the number is at least 16 |
| PktProperties.HexFieldRoundTrip | src/pkt_converter.c:557-568 | a HEX field is "0x" and eight lower-case digits reading back as the low 32 bits of the value |
| PktProperties.CharField | src/pkt_converter.c:536-541 | a CHAR field is empty exactly when the low byte is NUL, and otherwise that one character |
| PktProperties.SizeFields | src/pkt_converter.c:62-67 | the size field of hw, instrumentation (lines 91-96) and data value (lines 372-377) packets is the payload size less one |
| PktProperties.SyncField | src/pkt_converter.c:127-135 | the sync getter stores size / 8 exactly for a non-zero multiple of 8, and the raw size otherwise |
| PktProperties.PcSampleKeepsStale | src/pkt_converter.c:310-316 | while the core sleeps the pc sample getter leaves the destination as it was; otherwise it stores the pc |
| PktProperties.HwNode | src/pkt_converter.c:389-397 | a hw packet's node is its name, the address and value in hex, the low byte as a char and the size less one |
| PktProperties.PcSampleNode | src/pkt_converter.c:471-476 | a pc sample's node is its name and a hex value: the pc, or the stale value while sleeping |
| PktProperties.NameOnlyNodes | src/pkt_converter.c:385-412 | unknown and overflow packets yield their name alone |
| PktProperties.UnlistedWritesNothing | src/pkt_converter.c:518-520 | a table slot without a name writes nothing and returns 0 |
| PktProperties.NodeSucceedsIff | src/pkt_converter.c:522-585 | writing a node succeeds exactly when every allocation does, and then adds the node with all its fields |
| PktProperties.NodeFailureKeepsPrefix | src/pkt_converter.c:522-585 | a failed node write leaves at most one node, holding a strict prefix of its fields |
| PktProperties.ConvertSucceedsIff | src/pkt_converter.c:600-619 | CJSON conversion succeeds exactly when no packet fails; MYSQL always succeeds |
| PktProperties.ConvertAddsInOrder | src/pkt_converter.c:600-619 | a successful CJSON conversion adds each packet's nodes in packet order |
| PktProperties.WrittenNodes | src/pkt_converter.c:518-530 | a successful packet write adds one node when its type is named and none otherwise |
| PktProperties.ConvertNodeCount | src/pkt_converter.c:600-619 | a successful CJSON conversion adds exactly one node per named packet |
| Itm2MemInfo.FindNewline | src/itm2mem_info.c:70 | the position found holds a '\n' |
| Itm2MemInfo.Rotated | src/itm2mem_info.c:71-79 | the re-linearised buffer keeps its size and its last byte |
| Itm2MemInfo.RotatedByMoves | src/itm2mem_info.c:73-74 | with both copies read from the buffer as it was (the corrected reading, not the memmoves as written), the two copies rotate the ring |
| Itm2MemInfo.RotatedAsWritten | src/itm2mem_info.c:73-74 | the two memmoves as written keep the buffer's size |
| Itm2MemInfo.NextLine | src/itm2mem_info.c:57-91 | a line cut keeps the buffer well formed and head and tail within the ring, and a line starts inside the ring |
| Itm2MemInfo.AddSpec | src/itm2mem_info.c:128-145 | adding to the list keeps the two-record state well formed |
| Itm2MemInfo.ParseSpec | src/itm2mem_info.c:154-184 | parsing a line keeps the two-record state well formed |
| Itm2MemInfo.FillStep | src/itm2mem_info.c:200-206 | one pass of the drain loop keeps the state well formed |
| Itm2MemInfo.FillRun | src/itm2mem_info.c:200-208 | any number of passes keeps the state well formed |
| Itm2MemInfo.Fed | src/itm2mem_info.c:225-230 | storing packet bytes keeps the buffer 1024 bytes long with its last byte NUL |
| Itm2MemInfo.FedState | src/itm2mem_info.c:225-230 | storing n bytes keeps head and the records, and advances tail by n modulo 1023 |
| Itm2MemInfo.Toggle | src/itm2mem_info.c:138 | `^= 3` flips the two low bits of mi_count and keeps the rest |
| Itm2MemInfo.ScanAlloc | src/itm2mem_info.c:98-103 | an "alloc " line sets the block size from its decimal field when that scans, modulo 2^64, and then the pointer from the `%x` field that follows, modulo 2^32, keeping the old pointer when that field does not scan; when the size does not scan the record is kept whole; size and backtraces are untouched |
| Itm2MemInfo.AddBacktrace | src/itm2mem_info.c:110-118 | a backtrace line is stored as the text at depth; when its leading `%x` field scans, the address at depth is that value modulo 2^32, and otherwise the addresses are kept; every other depth, size, block size and pointer are kept |
| Itm2MemInfo.DataOut | src/itm2mem_info.c:257-270 | 0 exactly when no end was requested; then 1 exactly when the tree and the JSON file are made, and -1 otherwise |
| Itm2MemInfo.Itm2Mem.constructor | src/itm2mem_info.c:47 | the static state starts all zero |
| Itm2MemInfo.Itm2Mem.Init | src/itm2mem_info.c:275-320 | installs the two callbacks, clears the buffer, mi_count, head and tail (not the records nor depth), and fails exactly when a configuration value is missing |
| Itm2MemInfo.Itm2Mem.Fini | src/itm2mem_info.c:325-328 | returns 0 |
| Itm2MemInfo.Itm2Mem.Relinearise | src/itm2mem_info.c:71-79 | the buffer becomes its rotation, head 0 and tail grown by 1023 - head |
| Itm2MemInfo.Itm2Mem.GetNextLine | src/itm2mem_info.c:57-91 | the line returned and the new buffer, head and tail are those of NextLine; the records are untouched |
| Itm2MemInfo.Itm2Mem.AddToList | src/itm2mem_info.c:128-145 | the result and the records are those of AddSpec |
| Itm2MemInfo.Itm2Mem.Parse | src/itm2mem_info.c:154-184 | the result and the records are those of ParseSpec |
| Itm2MemInfo.Itm2Mem.FillPass | src/itm2mem_info.c:200-206 | one pass moves the state and the total as FillStep does |
| Itm2MemInfo.Itm2Mem.FillInfo | src/itm2mem_info.c:193-209 | the state and the total are those of FillRun after the passes made |
| Itm2MemInfo.Itm2Mem.DataIn | src/itm2mem_info.c:214-233 | the low byte of each whole packet is stored from tail on, then the lines are drained, as FedState and FillRun state |
| Itm2MemInfo.Itm2Mem.Feed | src/itm2mem_info.c:225-230 | the state after the store loop is FedState |
| Itm2MemInfo.Itm2Mem.Put | src/itm2mem_info.c:227-229 | one byte is stored at tail and tail advances modulo 1023 |
| Itm2MemInfo.FillStepLine | src/itm2mem_info.c:200-205 | a pass that finds a line moves to the cut buffer and the parsed records and adds the parse result |
| Itm2MemInfo.FillStepNone | src/itm2mem_info.c:200 | a pass that finds no line ends the loop, keeping the records and the total |
| Itm2MemInfo.FillDone | src/itm2mem_info.c:200-208 | once a search finds no line, later passes change nothing |
| Itm2MemProperties.FindNewlineSpec | src/itm2mem_info.c:70 | the search passes no NUL and no '\n' before what it finds, and finds nothing only when the string has no '\n' |
| Itm2MemProperties.LineIsUpToNewline | src/itm2mem_info.c:84-90 | the newline becomes NUL, the line is exactly the text from head to it with no '\n', head moves past it and tail stays |
| Itm2MemProperties.NoLineKeepsState | src/itm2mem_info.c:80-82 | with no '\n' and no wrap, nothing is cut and nothing moves |
| Itm2MemProperties.WrapSearchesOnce | src/itm2mem_info.c:71-79 | with no '\n' in a wrapped ring, the search is made once more on the rotation, from 0 and without wrapping |
| Itm2MemProperties.RotationKeepsPending | src/itm2mem_info.c:71-79 | the re-linearised ring starts with the pending text, in order |
| Itm2MemProperties.AsWrittenAgreesWithoutOverlap | src/itm2mem_info.c:72-74 | when the wrapped part does not reach head, the memmoves as written do rotate the ring |
| Itm2MemProperties.RelinearisationClobbers | src/itm2mem_info.c:72-74 | with head 600 and tail 500 the memmoves as written lose the pending text, while the rotation keeps it |
| Itm2MemProperties.ToggleSwitches | src/itm2mem_info.c:138 | `^= 3` switches mi_count between 1 and 2 |
| Itm2MemProperties.AllocClosesRecord | src/itm2mem_info.c:160-168 | an "alloc " line appends the current record with its depth as size, zeroes it, switches buffers and resets depth |
| Itm2MemProperties.FirstAllocStartsRecord | src/itm2mem_info.c:140-142 | the first "alloc " line only starts buffer 1 and fills it from the line |
| Itm2MemProperties.FailedAppendKeepsRecord | src/itm2mem_info.c:131-135 | a failed append returns -1 and keeps the record, its size set, without switching |
| Itm2MemProperties.BacktraceLineDeepens | src/itm2mem_info.c:169-178 | any other line is stored as a backtrace entry at depth, and depth grows by one |
| Itm2MemProperties.LineBeforeAllocDropped | src/itm2mem_info.c:170-173 | with the guard as intended, a line before the first "alloc " is dropped and -1 returned |
| Itm2MemProperties.NoAllocGuardIsDead | src/itm2mem_info.c:171 | the guard as written never holds, so before any "alloc " the index is SIZE_MAX |
| Itm2MemProperties.FedAt | src/itm2mem_info.c:225-230 | up to a full turn, each stored value's low byte sits where it was put |
| Itm2MemProperties.FedElsewhere | src/itm2mem_info.c:225-230 | positions the stored values do not reach keep their characters |
| File.FirstUnused | src/file.c:46-55 | the slot chosen is unused and all before it are used; none exactly when all are used |
| File.Send | src/file.c:173-178 | the intended loop never counts back or past length, and its output grows by exactly the message bytes from the old count to the new |
| File.SendAsWritten | src/file.c:173-178 | the loop as written only ends once the count reaches length, and never takes back output |
| File.FileWrite | src/file.c:165-181 | the loop runs as the intended Send does; the count stays within length and the bytes handed out are the message up to it |
| File.Pool.constructor | src/file.c:39 | the static pool starts with every slot zero |
| File.Pool.GetInstance | src/file.c:42-58 | claims the first unused slot and points pdata at it; -1 with nothing changed when all 16 are used |
| File.Pool.FreeInstance | src/file.c:60-73 | -1 for an unclaimed slot, changing nothing; otherwise the slot is zeroed and pdata is NULL |
| File.Pool.SetPath | src/file.c:75-89 | -1 for an unclaimed slot; otherwise the path cut to 254 characters and the mode are recorded |
| File.Pool.Open | src/file.c:92-129 | -1 for an unclaimed slot, an open file, an unknown mode or a failed open(); otherwise open on the new descriptor |
| File.Pool.Close | src/file.c:131-149 | -1 for an unclaimed or closed slot; otherwise is_open is cleared |
| File.Pool.Init | src/file.c:183-208 | claims the first unused slot, installs the file callbacks and the defaults, and sets data_in to file_write |
| File.Pool.Clean | src/file.c:210-230 | -1 exactly for an unclaimed or still-open slot, changing nothing; otherwise the defaults are reinstalled, the slot zeroed and pdata NULL |
| File.SendWritesPrefix | src/file.c:173-178 | the intended loop hands write() the message in order, each byte once, and never counts past length |
| File.SendEndsShortOnlyOnFailure | src/file.c:173-178 | the intended loop stops short of length only after a failed write() |
| File.AsWrittenAgreesWithoutFailure | src/file.c:173-178 | without a failed write() the loop as written and the intended loop agree |
| File.FailedWriteRewrites | src/file.c:173-178 | for any 10-byte message with write() taking 3 bytes, failing, then taking 8: as written the loop reports 10 after handing out bytes 0-2 and then 2-9, 11 bytes with byte 2 twice; the intended loop stops with the 3 bytes written |
| File.OpenCloseRoundTrip | src/file.c:92-149 | after an open a second open is refused, and close undoes the open except for the descriptor |
| File.FreedSlotIsNextClaimed | src/file.c:42-73 | with all 16 slots used, the slot freed is the next one claimed |
| Uart.FirstUnused | src/uart.c:83-90 | the slot chosen is unused and all before it are used; none exactly when all are used |
| Uart.Receive | src/uart.c:171-205 | the receiving loop is compiled out, so the result is always -1 |
| Uart.SetBaudrate | src/uart.c:103-120 | 0 exactly when tcgetattr and tcsetattr both succeed, else -1 |
| Uart.Pool.constructor | src/uart.c:75 | the single slot starts zero |
| Uart.Pool.GetInstance | src/uart.c:77-94 | claims the unused slot and points pdata at it; -1 with nothing changed when it is used |
| Uart.Pool.FreeInstance | src/uart.c:96-100 | the slot is zeroed |
| Uart.Pool.SetDev | src/uart.c:122-128 | the device path becomes the path cut to 254 characters; always 0 |
| Uart.Pool.Open | src/uart.c:130-150 | -1 when already open; the descriptor is stored, and the slot is open only when open() succeeded |
| Uart.Pool.Close | src/uart.c:153-166 | -1 exactly when not open, otherwise 0; is_open stays set |
| Uart.Pool.Init | src/uart.c:207-230 | claims the slot, installs the device callbacks and the defaults, and sets data_out to uart_receive |
| Uart.Pool.Fini | src/uart.c:232-247 | nothing for an unused slot; otherwise the defaults are reinstalled and the slot zeroed |
| Uart.ClosedDeviceStaysOpen | src/uart.c:130-166 | after an open, close succeeds and keeps succeeding, and no further open succeeds |
| Uart.FailedOpenRetries | src/uart.c:141-146 | a failed open leaves the device closed with the failed descriptor |
| Uart.SingleInstance | src/uart.c:77-100 | with the one slot used no slot is found; once zeroed it is found again |
| SwdCtrl.Index | src/swd_ctrl.c:15-18 | the interface is cfgs[0] and the CPU cfgs[1] |
| SwdCtrl.Table | src/swd_ctrl.c:31-42 | the table holds one interface and one CPU entry, in that order |
| SwdCtrl.StarScan | src/swd_ctrl.c:64-66 | the scan stops at the first character of the kind sought |
| SwdCtrl.FirstToken | src/swd_ctrl.c:64-66 | strtok on '*' yields a non-empty token without '*', or nothing |
| SwdCtrl.PatternShape | src/swd_ctrl.c:64-66 | a name made only of '*' is kept whole; otherwise the pattern is non-empty and has no '*' |
| SwdCtrl.GetCfgFrom | src/swd_ctrl.c:54-77 | the entry found is of the type and matches, and no earlier entry does; none exactly when no entry does |
| SwdCtrl.GetCfg | src/swd_ctrl.c:54-77 | the entry found is in the table, of the type, and matches |
| SwdCtrl.FindParam | src/swd_ctrl.c:79-94 | a command exactly when the configuration has a name the table knows, and then that entry's command |
| SwdCtrl.Argv | src/swd_ctrl.c:131-141 | argv is the program, the interface and CPU commands, then init and reset-run: five entries |
| SwdCtrl.Step | src/swd_ctrl.c:209-248 | each init or fini returns 0 or -1 |
| SwdCtrl.Run | src/swd_ctrl.c:209-248 | a run of calls gives one return code per call |
| SwdCtrl.SwdCtrlData.constructor | src/swd_ctrl.c:44-52 | the singleton starts with no commands, fork_pid 0 and not initialised |
| SwdCtrl.SwdCtrlData.Init | src/swd_ctrl.c:209-226 | -1 when initialised, changing nothing; otherwise the callbacks are installed, pdata set and is_init set |
| SwdCtrl.SwdCtrlData.Fini | src/swd_ctrl.c:228-248 | with the guard as written, -1 when initialised; otherwise the defaults are installed, pdata NULL and is_init cleared |
| SwdCtrl.SwdCtrlData.SetFromGblCfg | src/swd_ctrl.c:96-115 | the matched command is stored in cfgs[type] with 0; -1 and cfgs unchanged without a match |
| SwdCtrl.SwdCtrlData.Start | src/swd_ctrl.c:127-163 | the child runs openocd with Argv and returns its code; the parent records the pid and returns 0 exactly when the fork succeeded |
| SwdCtrl.SwdCtrlData.Stop | src/swd_ctrl.c:165-178 | 0 exactly when fork_pid is not negative, and then fork_pid is the process signalled |
| SwdCtrl.SetCfg | src/swd_ctrl.c:203-207 | setting a configuration by name always fails |
| SwdCtrl.TableLookups | src/swd_ctrl.c:31-42 | "stlink-v2" selects the stlink interface and "stm32f407" the stm32f4 CPU, and neither matches the other type |
| SwdCtrl.Matches | src/swd_ctrl.c:68-72 | a match means the pattern, cut to 254 characters as `strncmp` compares it, is a prefix of the name; for a pattern within that bound, a name matches exactly when the pattern is a prefix of it |
| SwdCtrl.PatternIsTextBeforeStar | src/swd_ctrl.c:64-66 | the pattern is the text before the first '*' |
| SwdCtrl.ConfiguredArgv | src/swd_ctrl.c:131-141 | both commands found in the table end up in argv, interface first |
| SwdCtrl.InitialisedIsStuck | src/swd_ctrl.c:228-235 | once initialised, every later init and fini returns -1 and the singleton stays initialised |
| SwdCtrl.SecondInitRefused | src/swd_ctrl.c:209-226 | from the zeroed singleton a first init succeeds and a second is refused, and so is the fini after it |
| PerfEx.Step | src/perf_ex.c:134-172 | each init or fini returns 0 or -1 |
| PerfEx.Run | src/perf_ex.c:134-172 | a run of calls gives one return code per call |
| PerfEx.PerfExObj.SetTc | src/perf_ex.c:110-123 | always 0, installed or default |
| PerfEx.PerfExObj.SetTcGblConfig | src/perf_ex.c:101-108 | always 0, installed or default |
| PerfEx.PerfExObj.DataOut | src/perf_ex.c:91-99 | always 0 |
| PerfEx.PerfExData.constructor | src/perf_ex.c:51 | the singleton starts not initialised |
| PerfEx.PerfExData.Init | src/perf_ex.c:134-151 | -1 when initialised, changing nothing; otherwise pdata, the two callbacks and is_init are set |
| PerfEx.PerfExData.Fini | src/perf_ex.c:156-172 | -1 when not initialised, with the callbacks unchanged; otherwise the defaults are installed and is_init cleared; pdata is left set either way |
| PerfEx.StepSucceedsWhenExpected | src/perf_ex.c:139-164 | a call succeeds exactly when it is the one is_init calls for, and is_init then records which call came last |
| PerfEx.RunEndsAtLastCall | src/perf_ex.c:139-169 | after any run, the singleton is initialised exactly when the last call was an init |
| PerfEx.AlternationSucceeds | src/perf_ex.c:139-169 | strictly alternating init and fini calls all succeed |
| PerfEx.LifecycleTests | src/tests/perf_ex_01.c:15-51 | init then fini gives 0, 0; a second init gives -1; a second fini gives -1 |
| ConfigIni.IniGet | src/config_ini.c:39 | ini_get returns text exactly when the key is in the section |
| ConfigIni.ToS32 | src/config_ini.c:31-32 | the stored int is within the int range and equals the value when it fits |
| ConfigIni.ScanS32 | src/config_ini.c:31-32 | a `%d` conversion stores an int within range |
| ConfigIni.ScanU32 | src/config_ini.c:35-36 | `%u` succeeds exactly when `%d` does, and the two values agree modulo 2^32 |
| ConfigIni.Fetched | src/config_ini.c:29-45 | a string parameter always gets a string; an int or unsigned parameter gets a value of its type, or keeps its old value |
| ConfigIni.CfgParam.constructor | inc/config.h:42-61 | a parameter starts with its section, name and type, and no value |
| ConfigIni.ConfigIniData.constructor | src/config_ini.c:15 | the singleton starts unloaded and not initialised |
| ConfigIni.ConfigIniData.Init | src/config_ini.c:85-102 | 0 exactly when config_init succeeds; then the callbacks are installed, pdata set and is_init set; -1 with nothing changed otherwise |
| ConfigIni.ConfigIniData.OpenConfig | src/config_ini.c:58-83 | 0 exactly when initialised, not yet loaded and the load succeeds; the path and load are recorded once past the guards, and is_cfg_init set only on success |
| ConfigIni.ConfigIniData.GetValue | src/config_ini.c:17-48 | found exactly when loaded and the type is handled; the union then holds what the file gives for the type, and is untouched otherwise |
| ConfigIni.ConfigIniData.SetValue | src/config_ini.c:51-56 | always 0, nothing changed |
| ConfigIni.ConfigIniData.Fini | src/config_ini.c:104-123 | 0 exactly when config_fini succeeds and the object is initialised; then both flags are cleared |
| ConfigIni.StrReadBack | src/config_ini.c:38-40 | a string parameter reads the key's text, or NULL when the key is missing |
| ConfigIni.MissingKeyKeepsValue | src/config_ini.c:30-37 | a missing key leaves an integer parameter's union as it was |
| ConfigIni.ScanU32Decimal | src/config_ini.c:35-36 | `%u` reads a decimal numeral back as its value |
| ConfigIni.ScanS32Decimal | src/config_ini.c:31-32 | `%d` reads a decimal numeral within the int range back as its value |
| ConfigIni.UnsignedReadBack | src/config_ini.c:34-37 | an unsigned value written in decimal reads back as itself |
| ConfigIni.SignedReadBack | src/config_ini.c:30-33 | a non-negative int written in decimal reads back as itself |
| ConfigIni.ScanNegative | src/config_ini.c:31-32 | `%d` reads '-' and digits as the negated value when it fits an int |
| ConfigIni.NegativeReadBack | src/config_ini.c:30-33 | a negative int written as '-' and its magnitude reads back as itself, down to INT32_MIN |
| ConfigIni.NegativeUnsignedWraps | src/config_ini.c:35-36 | an unsigned parameter holding "-1" gets 0xFFFFFFFF |

## Left out

- The bodies of the foreign calls are not modelled: POSIX `open`, `close`, `write` and termios; `fork`, `kill`, `waitpid` and `openocd_main`; `ini_load`, `ini_get` and `ini_sget`; cJSON; `mem_info_append_to_list`, `tree_create`, `json_set_output_path`, `tree_set_elf_path` and `json_translate_and_write_to_file`. Their outcomes are parameters. The INI file is a map from (section, name) to text, and `ini_sget` is a lookup followed by one `sscanf` conversion.
- `config_init`, `config_fini` and src/config.c are not part of this model; their return codes are parameters.
- `perf_ex_data_int` is not modelled: `perf_ex_init` never installs it, and it runs an external command through `popen`. The tool-chain fields of the perf_ex private data are left out with it.
- The `DEBUG_OPENOCD` build of `swd_ctrl_start` (an extra "-d" in argv, standard streams left open) is not modelled. The openocd script directories are parameters. The init and reset-run commands are symbols, because their text lives in a header that is not part of this model.
- The default SWD callbacks that `swd_ctrl_fini` installs (src/swd_ctrl.c:180-201) are named by `SwdCtrl.SwdOps.Defaults` only. Each returns -1 and touches nothing.
- SwdCtrl.Pattern: the `strncpy(cfg, name, sizeof(cfg - 1))` of src/swd_ctrl.c:64 copies only pointer-size bytes. The model takes the pattern as the text before the first `*`, which is what the table's short names give.
- The UART termios structure and the baud rate value are not modelled. `Uart.SetBaudrate` takes the outcomes of `tcgetattr` and `tcsetattr` as parameters.
- The `(float)` casts of `cJSON_CreateNumber` (src/pkt_converter.c:550, 555) are not modelled. Numeric fields carry the integer value.
- The libswo packet layout and type numbering are not part of this model. A packet is a datatype with one constructor per type, and a type value without a table slot is `Unlisted`. `sizeof(union libswo_packet)` is the parameter `pktSize`.
- Itm2MemInfo.Itm2Mem.FillInfo and Itm2MemInfo.Itm2Mem.DataIn: the drain loop makes at most `fuel` passes. The model does not claim that the loop ends on every input, because a stream of lines without end is not excluded.
- Itm2MemInfo.AddBacktrace: `sscanf(line, "%x %s", ..., NULL)` writes its `%s` through a NULL pointer. The model keeps only the address scan and the copy of the line. The length bound of `strbacktrace` belongs to memory_info.h, which is not part of this model, so the whole line is kept.
- Itm2MemInfo.ScanAlloc: the `%ld` value lands in a `size_t` and the `%x` value in an `unsigned int`. Values out of range wrap modulo 2^64 and 2^32, and overflow inside `strtol` is not modelled.
- File.Pool.Init and Uart.Pool.Init require a free slot. On the failure path the C code zeroes a slot through a NULL `pdata`, which is undefined behaviour.
- Itm2MemInfo.NextLine, Itm2MemInfo.Itm2Mem.Relinearise and Itm2MemInfo.Itm2Mem.GetNextLine use the intended rotation `Rotated`, not the two memmoves of src/itm2mem_info.c:73-74 as written. They agree with the C when the wrapped part does not reach head (`tail + 1024 - head <= head`, Itm2MemProperties.AsWrittenAgreesWithoutOverlap). Otherwise the C loses pending text (Itm2MemProperties.RelinearisationClobbers, under "## Findings"). Itm2MemInfo.FillStep, Itm2MemInfo.FillRun, Itm2MemInfo.Itm2Mem.FillInfo, Itm2MemInfo.Itm2Mem.DataIn and Itm2MemProperties.WrapSearchesOnce inherit this.
- Itm2MemInfo.ParseSpec and Itm2MemInfo.Itm2Mem.Parse drop a backtrace line that comes before the first "alloc " line and return -1, as the guard of src/itm2mem_info.c:171 intends. As written, the C indexes `mi[SIZE_MAX]` there, which is undefined behaviour (Itm2MemProperties.NoAllocGuardIsDead).
- File.FileWrite follows the intended loop `Send`: it stops at the first failed `write()`. It agrees with the loop as written when no `write()` fails (File.AsWrittenAgreesWithoutFailure). After a failure the C steps `written` back by one and writes a byte twice (File.FailedWriteRewrites); a failure on the first call makes the count SIZE_MAX.
- File.FileWrite: the outcomes of `write()` are a finite list. When the list runs out before the message is written, the result says the loop has not ended.
- Uart.Receive and the default processing callbacks return the `int` -1 through a function pointer typed to return `size_t`, which is undefined behaviour. The model keeps the -1 of the C source; Pipeline.PipelineData.StreamData takes every callback's reply as an arbitrary `size_t`, so it claims only that a reply is never below 0.
- PktConverter.NodeSpec, PktConverter.WriteNode and PktProperties.NodeSucceedsIff treat each field's allocations as one outcome. The C checks only the value that `cJSON_Create*` returns (src/pkt_converter.c:575) and ignores the result of `cJSON_AddItemToObject` (src/pkt_converter.c:581). When that add fails, the field is dropped and the node is still written with 0; the model does not have this outcome.
- ConfigIni.ToS32 and ConfigIni.ScanS32: `%d` goes through `strtol`, which clamps an out-of-range numeral to LONG_MIN or LONG_MAX before it is narrowed to `int`. The model narrows the unbounded value modulo 2^32 instead, so the two differ only for numerals outside the `long` range.
- Pipeline.PipelineData.AttachSrc and Pipeline.PipelineData.AttachProc require room for one more stage. src/pipeline.c:34 and 57 store into `proc_objs[count]` without a bound check, so a seventeenth stage writes past the 16-entry array; that out-of-bounds write is not modelled.
- PktConverter.Get: the sync getter (src/pkt_converter.c:127-135) stores a `size_t` into the 4-byte `json_nbr`, which writes past it. The model stores the whole value, and the `0x%08x` rendering takes its low 32 bits, which is what a little-endian target reads back; the bytes written past the field are not modelled.
- Pipeline.PipelineData.StreamData records the calls made on the stages. What each callback does to the shared message is that stage's own model.
- The logging macros and the debug table printer `print_table_file` (src/file.c:152-163) are not modelled.
- apps/, src/decoder_swo.c and src/form_cjson.c are not part of this model.

## Findings

| source | as written | input that shows it | evidently intended | confidence | as-written member | corrected member |
|---|---|---|---|---|---|---|
| src/itm2mem_info.c:71-79 | the first memmove copies the wrapped part (tail + 1 characters) to index 1023 - head. The second memmove then reads the pending text from index head, which the first one may have overwritten | head 600, tail 500, a pending 'x' at 600: the first copy covers 423..923, so the front of the result is NUL and the pending text is lost | move the text from head to the end of the ring to the front, with the wrapped part behind it, both read from the buffer as it was | not executed | Itm2MemProperties.RelinearisationClobbers | Itm2MemProperties.RotationKeepsPending |
| src/file.c:173-178 | `n` is a `size_t`, so `n >= 0` always holds, and a failed `write()` adds (size_t)-1 to `written` | a 10-byte message; write() takes 3 bytes, fails, then takes 8: `written` steps back to 2, so byte 2 goes out twice and 11 bytes are sent for a reported 10 | stop at the first failed write() and return the bytes written so far | not executed | File.FailedWriteRewrites | File.SendWritesPrefix |
| src/itm2mem_info.c:171 | the guard `mi_count - 1 < 0` is on a `size_t` and never holds | a backtrace line before any "alloc " line, with mi_count 0: the record index is SIZE_MAX, far outside the two buffers | drop lines that come before the first "alloc " line | not executed | Itm2MemProperties.NoAllocGuardIsDead | Itm2MemProperties.LineBeforeAllocDropped |
