# TradingApp shared-memory core, modelled in Dafny

This project models the core of TradingApp, a C++ market-data writer with a Python reader. The two processes talk through one named POSIX shared-memory segment. A C++ supervisor launches the Python process and watches it. Four pieces are modelled:

- **The record** `TradingData` (`record.dfy`). It has four fields in this order: price, timestamp, volume and valid. By default they are 0.0, 0, 0 and false. The timestamp is a `uint64_t` (type `U64`) and the volume an `int32_t` (type `I32`). The price is a binary64 value, carried as its 64-bit pattern; no arithmetic is done on it.
- **The record codec** (`codec.dfy`). This is Python's `struct` format `'dQi?3x'`, a 24-byte layout. The price sits at bytes 0–7, the timestamp at 8–15 and the volume at 16–19, in two's complement. The valid flag is byte 20, written as 0/1; any nonzero byte reads as True. Bytes 21–23 are zero padding. The format uses native byte order, and **the model assumes little-endian** (x86-64 and AArch64 Linux). `Encode`/`Decode` round-trip. A byte string is an encoding exactly when it is `Canonical`. Zero-filled memory decodes to the default record. `Pack` rejects out-of-range timestamps and volumes, as `struct.pack` does.
- **The Region Manager** `type_shared_memory<T>` (`shared_memory.dfy`). `T` is fixed to the 24-byte record. The low-level block functions are declarations only in the source, so they act on an abstract `Namespace`. The namespace holds a map from names to byte arrays, the multiset of mappings the process holds, and a log of block calls. A creating handle makes and value-initialises a block. An attaching handle maps an existing block and leaves its bytes alone. The destructor detaches, then destroys the name only if the handle is the owner; with no mapping it does nothing. Handles on one name alias one array, so a store through one handle is read through another.
- **The Python bridge** (`data_bridge.py`, in `data_bridge.dfy` and `symbols.dfy`). `TradingDataBridge` is a class whose mapping is the namespace's own block. `connect` succeeds exactly when the segment exists and has at least 24 bytes. `read_data` unpacks the first 24 bytes. `write_data` overwrites bytes 0–23, or nothing when not connected or when `pack` fails. `close` clears `connected`. `DataManager`'s `get_available_symbols` and the stocks→forex→crypto search of `load_symbol_data` work over a given directory listing.
- **The process supervisor** `PythonLauncher` and `PythonProcessManager` (`supervisor.dfy`, `launcher.dfy`). `supervisor.dfy` holds the state machine as transition functions and proves the promised properties of them. `launcher.dfy` holds the two classes; each method is proved to perform its transition. The launcher's implementation file is not part of this model, so the operating system's answers are inputs to each transition: spawn succeeded or failed, the child's exit status from a poll, and whether it exited within the shutdown timeout.

The code has no sequence counter: the record is the 24-byte `'dQi?3x'` layout, and C++ marks each field `std::atomic`. The model makes no claim about torn reads.

Choices made where the source only declares an operation (the `PythonLauncher` and `PythonProcessManager` members not defined inline in the header, and the four block functions, which are only declared):
- `start` on a running launcher returns true and changes nothing.
- `stop` with nothing running returns true.
- A stopped child fires `on_terminated`. A SIGKILL escalation reports `Signaled(9)`.
- `restart` counts every restart it does not refuse.
- With `auto_restart`, a crash seen by `update` performs `restart()` within that `update`.
- `start_all`, `stop_all` and `update_all` visit every launcher; there is no short-circuit.
- The Python side's `shm_name` and the C++ block name meet only for names that start with "/": the Python path `"/dev/shm" + name` has no separator of its own.
- `create_memory_block` returns null when the name already exists. `attach_memory_block` returns null when the name is missing or the size differs. Both new and attached blocks are counted as mappings.
- A callback invocation is recorded as an event in a log, and only when that callback is registered.

## Model

| member | source | states |
|---|---|---|
| Codec.DecodeLE | Python/data_bridge.py:44 | an n-byte little-endian field decodes to a number below 256^n |
| Codec.EncodeLE | Python/data_bridge.py:67 | a number below 256^n encodes to exactly n bytes that decode back to it |
| Codec.EncodeDecodeLE | Python/data_bridge.py:44 | every byte string is the encoding of the number it decodes to |
| Codec.ToU32 | Python/data_bridge.py:67 | 'i' stores an int32 as 32 bits, below 2^31 exactly for non-negative values |
| Codec.FromU32 | Python/data_bridge.py:44 | 'i' reads 32 bits back as the int32 with those two's-complement bits |
| Codec.BoolByte | Python/data_bridge.py:67 | '?' packs valid as byte 1 or 0 |
| Codec.Encode | Python/data_bridge.py:67 | packing an in-range record (layout and round trip in the lemmas below) |
| Codec.Decode | Python/data_bridge.py:44 | unpack succeeds exactly on 24-byte input |
| Codec.Pack | Python/data_bridge.py:67 | pack succeeds iff timestamp is in [0, 2^64) and volume in [-2^31, 2^31); an out-of-range timestamp is reported first; success gives 24 bytes that unpack to the four fields |
| Codec.EncodeLayout | Python/data_bridge.py:67 | 24 bytes: price at 0–7, timestamp at 8–15, volume at 16–19, valid 0/1 at 20, zero at 21–23 |
| Codec.DecodeEncode | Python/data_bridge.py:44 | unpacking a packed record returns the same price bits, timestamp, volume and valid |
| Codec.EncodeCanonical | Python/data_bridge.py:67 | every packed record has valid byte 0/1 and zero padding |
| Codec.EncodeDecode | Python/data_bridge.py:44 | a canonical 24-byte string is exactly the packing of what it unpacks to |
| Codec.DecodeValidByte | Python/data_bridge.py:50 | on read, valid is True exactly when byte 20 is nonzero |
| Codec.DecodeZeroFilled | C++/src/include/trading_system.h:9-12 | a zero-filled segment unpacks to the default record (0.0, 0, 0, false) |
| Codec.EncodeDefaultIsZeroFilled | C++/src/include/trading_system.h:9-12 | the default record packs to 24 zero bytes |
| SharedMemory.Namespace.CreateMemoryBlock | C++/src/include/shared_code.h:16 | a new zero-filled, mapped block of the given size under a free name; null if the name exists |
| SharedMemory.Namespace.AttachMemoryBlock | C++/src/include/shared_code.h:17 | maps the existing block when name and size match, null otherwise; no block changes |
| SharedMemory.Namespace.DetachFromMemoryBlock | C++/src/include/shared_code.h:18 | drops one mapping; true iff one was held; names untouched |
| SharedMemory.Namespace.DestroyMemoryBlock | C++/src/include/shared_code.h:19 | removes the name; true iff it existed; mappings untouched |
| SharedMemory.StoreRecord | C++/src/include/shared_code.h:48 | constructing a record in a block leaves the block equal to its 24-byte image |
| SharedMemory.TradingDataSegment.constructor | C++/src/include/shared_code.h:43-52 | owner iff create_new; creating: a fresh 24-byte block under the name holding the default record, or no mapping and no name changed when the name is taken; attaching: the existing 24-byte block, bytes unchanged |
| SharedMemory.TradingDataSegment.Get | C++/src/include/shared_code.h:34-39 | get/operator*/operator-> denote the record the whole block decodes to |
| SharedMemory.TradingDataSegment.Store | C++/src/include/shared_code.h:36 | a store through the handle makes the block the record's image and Get return it |
| SharedMemory.TradingDataSegment.Dispose | C++/src/include/shared_code.h:54-62 | with a mapping: detach, then destroy the name only if owner (in that order in the call log); without one: nothing |
| SharedMemory.StoreSeenThroughOtherHandle | C++/src/include/shared_code.h:34-39 | a store through the creating handle is read through an attaching handle on the same name |
| DataBridge.TradingDataBridge.constructor | Python/data_bridge.py:18-22 | a new bridge has no descriptor, no map and is not connected |
| DataBridge.TradingDataBridge.Connect | Python/data_bridge.py:24-34 | true iff the segment exists with at least 24 bytes, then connected to that block; else connected unchanged (a descriptor opened before a failing mmap stays open) |
| DataBridge.TradingDataBridge.ReadData | Python/data_bridge.py:36-56 | Some iff connected and the timestamp is 0 or has a local date in years 1–9999 (otherwise `datetime.fromtimestamp` raises and the handler returns None); Some holds the fields unpacked from the first 24 mapped bytes |
| DataBridge.TradingDataBridge.WriteData | Python/data_bridge.py:58-74 | true iff connected and pack accepts; then bytes 0–23 hold the packed record and read back as the written fields, the rest unchanged; false leaves every byte unchanged |
| DataBridge.TradingDataBridge.Close | Python/data_bridge.py:76-82 | closes map and descriptor and clears connected; testing a closed map or closing a closed descriptor raises instead |
| DataBridge.WriterToReader | Python/data_bridge.py:36-56 | for a "/" name, a record stored by the C++ creator is what read_data returns on the Python side, or None exactly when its timestamp has no local date |
| DataBridge.ReaderToWriter | Python/data_bridge.py:67-71 | for a "/" name, a record written by write_data is what the creating C++ handle reads |
| Symbols.Stem | Python/data_bridge.py:99 | removing the last four characters of a ".csv" name leaves the name without ".csv" |
| Symbols.CsvStems | Python/data_bridge.py:97-99 | the stems of one directory number at most its files |
| Symbols.CsvStemsAppend | Python/data_bridge.py:97-99 | stems keep listing order: the stems of a + b are those of a followed by those of b |
| Symbols.CsvStemsMembers | Python/data_bridge.py:98-99 | a name is listed exactly when name + ".csv" is among the files |
| Symbols.CollectCsvStems | Python/data_bridge.py:97-99 | the loop over one directory collects exactly its CSV stems in order |
| Symbols.GetAvailableSymbols | Python/data_bridge.py:90-101 | exactly the keys stocks, forex, crypto; each holds its directory's CSV stems, or nothing if the directory is missing |
| Symbols.LoadSymbolData | Python/data_bridge.py:103-116 | a non-empty asset type is looked up alone; otherwise the first of stocks, forex, crypto holding "<symbol>.csv" wins, None iff none does |
| Supervisor.DefaultConfig | C++/src/include/python_launcher.h:38-47 | defaults: "python3", ".", 5 s, 10 s, no auto restart, 3 restart attempts |
| Supervisor.InitialInv | C++/src/include/python_launcher.h:28 | a new launcher is NOT_STARTED and satisfies the invariant (pid -1 while not running, restart count within its limit) |
| Supervisor.StartSpec | C++/src/include/python_launcher.h:101-105 | start returns true iff the state becomes RUNNING; already running changes nothing; a failed launch gives FAILED_TO_START with pid -1 and fires no callback; a new child gets its pid and fires on_started once; the restart count is kept |
| Supervisor.StopSpec | C++/src/include/python_launcher.h:107-112 | a true result means nothing runs; with force_kill the result is always true; false changes nothing; nothing running changes nothing; a stopped child is TERMINATED and exactly one on_terminated(pid, status) is appended to the log, the status being its exit or SIGKILL; the restart count is kept |
| Supervisor.RestartSpec | C++/src/include/python_launcher.h:114-118 | at max_restart_attempts restart refuses and changes nothing; otherwise the count grows by one and success means RUNNING; the invariant holds |
| Supervisor.UpdateExitSpec | C++/src/include/python_launcher.h:144-148 | exit 0: TERMINATED, exactly one on_terminated appended, count kept; another exit without auto_restart or at the limit: CRASHED, exactly one on_crashed appended, count kept; with auto_restart and restarts left: exactly one on_crashed then on_started for a new child, count + 1, RUNNING iff the respawn succeeds, otherwise FAILED_TO_START |
| Supervisor.UpdatePreservesInv | C++/src/include/python_launcher.h:144-148 | update keeps pid -1 when not running and the restart count within its limit, and changes nothing unless a running child is reaped |
| Supervisor.NoCallbackAfterExit | C++/src/include/python_launcher.h:165-179 | after an exit, any number of update calls change nothing and fire no callback again |
| Supervisor.CountRunningBounds | C++/src/include/python_launcher.h:243-247 | running count is at most the total, and equals it iff every process runs |
| Launcher.PythonLauncher.constructor | C++/src/include/python_launcher.h:76-80 | a new launcher is NOT_STARTED, pid -1, restart count 0, no callbacks |
| Launcher.PythonLauncher.FromScriptPath | C++/src/include/python_launcher.h:82-86 | as above, with the default configuration for the script |
| Launcher.PythonLauncher.Start | C++/src/include/python_launcher.h:101-105 | performs the start transition and keeps the invariant |
| Launcher.PythonLauncher.Stop | C++/src/include/python_launcher.h:107-112 | performs the stop transition and keeps the invariant |
| Launcher.PythonLauncher.Restart | C++/src/include/python_launcher.h:114-118 | performs the restart transition and keeps the invariant |
| Launcher.PythonLauncher.Update | C++/src/include/python_launcher.h:144-148 | performs the update transition and keeps the invariant |
| Launcher.PythonLauncher.IsRunning | C++/src/include/python_launcher.h:120-124 | is_running holds exactly in state RUNNING |
| Launcher.PythonLauncher.GetPid | C++/src/include/python_launcher.h:132-136 | the pid is positive exactly while running and -1 otherwise |
| Launcher.PythonLauncher.GetRestartCount | C++/src/include/python_launcher.h:187-191 | the restart count is non-negative and never exceeds max_restart_attempts once nonzero |
| Launcher.PythonLauncher.SetStartedCallback | C++/src/include/python_launcher.h:161-163 | registers on_started; process state unchanged |
| Launcher.PythonLauncher.SetTerminatedCallback | C++/src/include/python_launcher.h:169-171 | registers on_terminated; process state unchanged |
| Launcher.PythonLauncher.SetCrashedCallback | C++/src/include/python_launcher.h:177-179 | registers on_crashed; process state unchanged |
| Launcher.PythonLauncher.Dispose | C++/src/include/python_launcher.h:88-91 | the destructor leaves no process running |
| Launcher.PythonProcessManager.AddLauncher | C++/src/include/python_launcher.h:214-218 | appends the launcher; launchers stay distinct |
| Launcher.PythonProcessManager.TotalCount | C++/src/include/python_launcher.h:249-253 | total_count is the number of launchers added |
| Launcher.PythonProcessManager.StartAll | C++/src/include/python_launcher.h:220-224 | starts every launcher (each by the start transition, callbacks kept); true iff all are then running |
| Launcher.PythonProcessManager.StopAll | C++/src/include/python_launcher.h:226-230 | stops every launcher (each by the stop transition, callbacks kept); with force_kill none is left running |
| Launcher.PythonProcessManager.UpdateAll | C++/src/include/python_launcher.h:238-241 | performs the update transition on every launcher, callbacks kept |
| Launcher.PythonProcessManager.AllRunning | C++/src/include/python_launcher.h:232-236 | true iff every launcher is running |
| Launcher.PythonProcessManager.RunningCount | C++/src/include/python_launcher.h:243-247 | counts the running launchers; at most total_count |
| Launcher.AllRunningIffCountsAgree | C++/src/include/python_launcher.h:232-247 | all_running holds iff running_count equals total_count |

## Left out

- Seqlock and torn reads: the code has no sequence counter. Its per-field `std::atomic` is a concurrency matter that the model does not reason about.
- Byte order: native order is fixed to little-endian. A big-endian host is not modelled.
- Floating point: the price is only a 64-bit pattern. Python floats that `pack` rejects for type reasons (an int too large for a double) are not modelled.
- `read_data`'s `datetime` and `formatted_time` entries are not part of the returned record. Whether computing them raises is modelled, with the local UTC offset as an input.
- `write_data`'s default timestamp `int(time.time())`: the timestamp is always passed by the caller. `mmap.flush` is left out; it does not change the mapped bytes.
- `connect` called while already connected leaks the previous descriptor and map. The model keeps no list of leaked resources. Permission failures of `os.open` and OS failures of the block functions are not modelled.
- An fd numbered 0 is falsy in `close`'s `if self.shm_fd`. The model treats every open descriptor as truthy.
- `type_shared_memory` constructor: when creation fails, the source constructs a T at a null address (undefined behaviour). The model leaves the handle without a mapping instead.
- The `static_assert` on trivially copyable T: T is fixed to the record, carried as its 24-byte value. (`TradingData`'s `std::atomic` members are not trivially copyable in C++ terms.)
- `PythonLauncher`'s move operations, and the implicit copy operations of `type_shared_memory` (a copied handle would detach, and for an owner destroy, a second time): the model has no handle copying or ownership transfer.
- `PythonLauncher::get_uptime`, `start_time_` and the real startup and shutdown timeouts: clocks are out of scope. Timeout expiry is an input outcome.
- `PythonLauncher::send_signal`, `get_state_string`, `validate_config`, `build_exec_args` and `create_trading_python_launcher`: their implementation is not part of this model. Launch failures of any cause are the `SpawnFailed` outcome.
- The real fork/exec/waitpid/kill behaviour is modelled as outcomes. The callback arguments are the pid and the exit status.
- `PythonProcessManager::all_running_` is declared but never read in the header, so it is left out. The destructor is `stop_all()`, which is modelled.
- `DataManager.get_latest_price`, `get_price_history`, `update_shared_memory`, `get_shared_memory_data` and `save_new_data`, and the CSV reading in `load_symbol_data`: these are pandas I/O. `load_symbol_data` is modelled as the directory it would read from.
- `PythonAPIClient` (network), `TradingSystem` (threads, sleeps, network), Python/data_viewer.py (UI) and the trading loop of C++/src/python_launcher.cpp. The loop's `SimpleMarketData` is a different layout from the 24-byte record.
- Python/main.py, C++/src/main.cpp, C++/src/shared_code.h, C++/src/logger.cpp and C++/src/SharedMem.h are broken or stub variants and are not part of this model.
