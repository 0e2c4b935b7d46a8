# Real-time data processor: sliding-window ingestion in Dafny

This project models `RealTimeDataProcessor` from `real_time_data_processor.py`.
The processor receives JSON messages over a websocket. It stamps each message's
`value` with the time of receipt and appends it to `data_buffer`. Once the
buffer is longer than `buffer_size`, it evicts the oldest entry. A run flag,
`is_running`, drives the receive loop. `start` raises the flag and `stop`
lowers it.

The project has two modules:

- `ProcessorSpec` (processor_spec.dfy) holds the values and the pure description.
  - `Sample` is one buffer entry.
  - `Parsed` is what decoding a message and looking up `value` yields.
  - `Outcome` and `Exit` say how one message, and how the whole loop, end.
  - `Push` appends one sample and evicts the oldest when needed.
  - `Process` is one call of `process_data`.
  - `Run` and `Await` are the receive loop over a finite inbox of events.
  - The lemmas state what the loop leaves in the buffer and when it stops.
- `Processor` (processor.dfy) holds the class `RealTimeDataProcessor`.
  - Its fields are `bufferSize`, `dataBuffer` (a `seq`) and `isRunning`.
  - Its methods update those fields in place. Each method's postcondition
    ties the new state to the functions of `ProcessorSpec`.

Timestamps and values are type parameters. The processor only stores them.

Decoding one message and looking up `value` (lines 25-27) ends in one of five
ways. The model gives each its own `Parsed` case:

- `Decoded(v)`: a JSON object with a `value` key. The sample is stored.
- `Malformed`: the decoder raises `JSONDecodeError`. This is caught, reported,
  and the buffer is left alone.
- `LoadFailure`: the decoder raises some other exception. Examples are
  `UnicodeDecodeError` for a binary frame that is not valid text,
  `RecursionError` for deeply nested input, and `ValueError` for an integer
  that is too long. Line 32 catches only `JSONDecodeError`, so this escapes as
  the fault `LoadError`.
- `MissingField`: a JSON object without `value`. The lookup raises `KeyError`.
- `NotAnObject`: valid JSON that is not an object, such as a list, a number, a
  string or `null`. The lookup raises `TypeError`.

Nothing catches `LoadError`, `KeyError` or `TypeError`. Each one leaves
`process_data` before the append and ends the receive loop. The loop's exit
value says which of the three escaped.

The loop reads an inbox of events. `Receive(message, at)` is a message
delivered by `recv`, together with the clock reading. `StopRequested` is a
call of `stop` made while `recv` was pending. The flag is checked only at the
top of the loop. So the message that the pending `recv` then delivers is still
processed, and the loop ends at the next check. A call of `stop` made while
the connection was still opening (line 18) is an argument of `Start`. The loop
then ends at its first check, with nothing received. An inbox that runs out
stands for a socket that has closed.

The model follows the code as written:

- A message without `value` ends the loop with `KeyError`. It is not skipped.
- `buffer_size` is never validated. A size of zero or less keeps the buffer
  empty, since every append is followed by an eviction. `Cap(size)` is the
  effective bound.
- `start` raises the flag whatever its previous state.
- `stop` does not interrupt a pending receive.

## Model

| member | source | states |
|---|---|---|
| `Processor.RealTimeDataProcessor.constructor` | real_time_data_processor.py:12-15 | A new processor has an empty buffer and a lowered flag. Its buffer size is the argument, or 100 when none is given. |
| `Processor.RealTimeDataProcessor.ProcessData` | real_time_data_processor.py:23-33 | The new buffer and outcome are those of `Process`. A processor within its bound stays within it. |
| `Processor.RealTimeDataProcessor.ConsumeData` | real_time_data_processor.py:17-21 | The loop runs while the flag is up. It waits for a message, during which `stop` may lower the flag, and processes it. The final buffer, flag, exit reason and events consumed are exactly those of `Run`. The bound is kept. |
| `Processor.RealTimeDataProcessor.Start` | real_time_data_processor.py:47-54 | The flag is raised and the connection is opened (line 18), then the receive loop runs to its end. If a `stop` ran during the handshake, the loop's first check sees the flag down, and it ends `Stopped` with nothing received. The result is `Run` started with the flag up, or down in that case. |
| `Processor.RealTimeDataProcessor.Stop` | real_time_data_processor.py:56-58 | The flag is lowered. Nothing else changes. |
| `ProcessorSpec.Push` | real_time_data_processor.py:28-30 | At most one entry is evicted, and only when the appended buffer is longer than `buffer_size`. Without eviction the result is the old buffer plus the new sample. With eviction it is the old buffer minus its first entry, plus the new sample. With a size of at least one, the new sample is the last entry. Within the bound, the length becomes min(old length + 1, capacity). |
| `ProcessorSpec.Process` | real_time_data_processor.py:23-33 | A decoded message is stored through `Push`. A malformed message is reported and leaves the buffer unchanged. Any other decoder exception escapes as `LoadError`. A missing key raises `KeyError` and a non-object raises `TypeError`. In each raising case the buffer is unchanged, because decoding and the lookup come before the append. |
| `ProcessorSpec.Parsed.RaisedFault` | real_time_data_processor.py:25-32 | For a message that raises, this is the exception that escapes. A missing key gives `KeyError`, a non-object gives `TypeError`, and any other decoder exception gives `LoadError`. |
| `ProcessorSpec.Run` | real_time_data_processor.py:19-21 | It never consumes more events than the inbox holds. If the flag is down at the check, nothing is received and the buffer is unchanged. |
| `ProcessorSpec.Await` | real_time_data_processor.py:20-21 | The wait-and-process half of the loop body never consumes more events than the inbox holds. |
| `ProcessorSpec.RunExit` | real_time_data_processor.py:19-21 | The loop ends in one of three ways. It ends `Stopped` only with the flag down. It ends `ConnectionClosed` only after consuming the whole inbox. It ends `Escaped` only right after a message that raises, and the exit carries that message's exception. |
| `ProcessorSpec.WindowIsLastN` | real_time_data_processor.py:28-30 | Pushing samples one at a time, starting within the bound, leaves exactly the newest `Cap(size)` of the old entries plus the new samples, in arrival order. |
| `ProcessorSpec.RunBuffer` | real_time_data_processor.py:19-30 | For any inbox, the final buffer is what pushing the samples of the consumed decoded messages, in order, gives. |
| `ProcessorSpec.RunWithoutStop` | real_time_data_processor.py:19-21 | Without `stop`, the loop keeps its flag up. It ends right after the first message that raises, escaping with that message's exception (`LoadError`, `KeyError` or `TypeError`). If there is none, it ends `ConnectionClosed` with the whole inbox consumed. |
| `ProcessorSpec.LatestWindow` | real_time_data_processor.py:19-30 | Without `stop`, the final buffer is the newest `Cap(buffer_size)` of the old entries plus the samples of every decoded message before the first raising one. Malformed messages are skipped. |
| `ProcessorSpec.RunKeepsBound` | real_time_data_processor.py:28-30 | A buffer within `Cap(size)` stays within it across the whole loop. |
| `ProcessorSpec.AwaitStopped` | real_time_data_processor.py:19-21 | Once `stop` has run during a pending receive, the flag stays down. At most one more message is received before the loop ends. |
| `ProcessorSpec.StopHonouredRun` | real_time_data_processor.py:19-21 | At most one message is consumed after any `stop` event the loop consumes. |
| `ProcessorSpec.KeepsNewestThree` | real_time_data_processor.py:28-30 | A buffer of size 3 fed 1, 2, 3, 4 holds 2, 3, 4 with their timestamps. |
| `ProcessorSpec.SkipsMalformed` | real_time_data_processor.py:24-33 | A buffer of size 2 fed non-JSON and then 5 holds only 5. The loop then ends with the socket closed. |
| `ProcessorSpec.MissingFieldEndsLoop` | real_time_data_processor.py:21-32 | A message without `value` leaves the buffer empty. Its `KeyError` ends the loop before the next message is read. |

## Left out

- The websocket transport (`websockets.connect`, `recv`) and the asyncio event
  loop are replaced by a finite inbox of events. A socket that stays open but
  never sends is not modelled. A closed socket, where `recv` raises
  `ConnectionClosed`, is the `ConnectionClosed` exit.
- `json.loads` itself is a foreign library. Only its outcome is modelled, as the
  five-way `Parsed` value. The different exceptions other than
  `JSONDecodeError` are merged into the single fault `LoadError`.
- `datetime.now()` is a clock read. It is passed in as the `at` of each event.
- Values are floats in practice. They are never computed on, so they are
  opaque here.
- `plot_data` and every matplotlib call are rendering. Plotting only reads the
  buffer, after the update. Any exception raised while plotting is not
  modelled.
- `print` diagnostics are I/O. A caught decode error appears only as the
  `DecodeErrorReported` outcome.
- The simulated server and both `__main__` blocks are test and startup glue.
- `KeyboardInterrupt` as a way of leaving the loop is not modelled. On Ctrl-C
  the interrupt itself propagates out of `run_until_complete` (line 54). It
  can even arrive between the append at line 28 and `pop(0)` at line 30. No
  `Exit` value stands for it. The handler's call of `stop` (lines 62-65) runs
  only after the loop has gone. That call is `Stop` on a processor whose loop
  has returned, as in `Scenario`.
- `stop` called from another task on the same event loop is modelled at the
  two points where such a task can run. The first is the pending handshake of
  `websockets.connect` (line 18), before the first check of the flag. That is
  the `stoppedDuringConnect` argument of `Start`. The second is the pending
  `recv` (line 20), which is a `StopRequested` event. Other threads are not
  modelled.
- A handshake that fails, so that `websockets.connect` raises, is not
  modelled. `Start` always reaches the loop.
- Calling `Start` while a loop already runs would make `run_until_complete`
  fail in asyncio. That case is not modelled.
