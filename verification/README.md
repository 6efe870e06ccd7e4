# qlog dispatch engine in Dafny

This project models the asynchronous dispatch engine of the qlog logging
package (`qlog.go`). Application code calls one of six leveled methods. The
call passes a bitmask level filter, gets a level tag and an optional
`[file:line] ` caller prefix, and goes into a bounded channel as an envelope.
A single consumer loop takes envelopes in order and writes each one to every
active writer. Writers are built at construction from a process-wide
registry of named factories. `Flush` flushes every writer. `Close` stops the
loop and destroys every writer.

The goroutine and its channels become a sequential state machine on an
immutable `Logger` value. Each step is a pure function:

- `Emit` is a leveled call.
- `Dispatch` is one turn of the consumer loop.
- `FlushAll` is `Flush`.
- `Close` is `Close`.

A writer is an abstract identity whose trace records every `Init`, write,
`Flush` and `Destroy` call it receives.

Modules:

- `Levels`: the six level flags, `DEFAULTLEVEL` and the enabled test.
- `Registry`: `Register` and its two fatal errors.
- `Text`: `strings.Split` on commas with its inverse, the file-name part of
  `path.Split`, and `%d` rendering with its inverse.
- `Envelopes`: the envelope, the level tags and the caller prefix.
- `Logger`: the state, construction (`NewQLoger`) and the transitions.
- `Runs`: sequences of steps, with the delivery, lifecycle and capacity
  theorems.

How the model reads the code:

- The leveled methods test `L & mask == L`. `Levels.EnabledIffBitSet` proves
  this equals `mask & L != 0`, because every level is a single bit.
- At `Close`, the loop's `select` may deliver any number of pending
  envelopes before it takes the stop signal. So `Close` takes that number as
  a parameter. The rest stay in the channel and are never read.
- The channel is never closed. A leveled call after `Close` still fills the
  buffer until it is full, and nobody ever reads it
  (`Runs.ClosedRunWritesNothing`).
- A send is a step only when it completes at once (`SendCompletes`). While
  the loop runs, a send into a full buffer can complete again after the
  next turn of the loop (`Logger.BufferedSendWaits`). After `Close`, such a
  producer blocks forever (`Runs.ClosedSendNeverCompletes`). That covers a
  send into a full buffer and any send on an unbuffered channel.
- A second `Close` would block forever on the stop signal, which nobody
  receives any more. `Close` requires that the loop is still running.
- A buffer length of 0 makes the channel unbuffered. Each send hands the
  envelope straight to the loop, which writes it to every writer in the
  same step.
- A negative buffer length makes `make` panic. Construction returns
  `Failure` for it.
- `Flush` after `Close` still calls `Flush` on the destroyed writers. The
  lifecycle allows flushes after `Destroy` but no writes.
- A writer name listed twice builds and `Init`s two writers. The second one
  replaces the first, and the first is never destroyed. `Activate` records
  the lost writers as `orphans`.

## Model

| member | source | states |
|---|---|---|
| Levels.LevelsAreDistinctBits | qlog.go:27-34 | each level is the single bit `1 << iota` and distinct levels share no bit |
| Levels.Enabled | qlog.go:123-152 | the test `L & mask == L` each leveled method makes holds exactly when the mask has the level's bit position set |
| Levels.EnabledIffBitSet | qlog.go:123-152 | the source's test `L & mask == L` holds exactly when `mask & L != 0` |
| Levels.MaskOfEnables | qlog.go:27-36 | a mask OR-ed together from a list of levels enables exactly the listed levels |
| Levels.DefaultEnablesAll | qlog.go:35-37 | DEFAULTLEVEL is the union of all six flags (63) and enables every level |
| Levels.CoveringMaskEnablesAll | qlog.go:35-37 | a mask enables every level exactly when it covers DEFAULTLEVEL, and the all-ones pattern of a configured -1 covers it |
| Registry.Register | qlog.go:51-59 | a nil factory fails with the nil error, and a taken name fails with the duplicate error; otherwise exactly that name is added with that factory and every other entry is unchanged |
| Registry.RegisterCommutes | qlog.go:47-59 | registrations under different names give the same registry in either order |
| Registry.RegisterTwiceFails | qlog.go:55-57 | registering a name a second time always fails |
| Text.Split | qlog.go:83 | splitting the writer list gives at least one piece, and no piece contains a comma |
| Text.JoinSplit | qlog.go:83 | joining the split pieces with commas gives back the configured text |
| Text.SplitJoin | qlog.go:83 | splitting comma-joined comma-free names gives back exactly those names |
| Text.Basename | qlog.go:113 | the file name is the longest slash-free suffix of the path |
| Text.DecimalRoundTrip | qlog.go:114 | the `%d` rendering of the line number reads back as the same integer |
| Text.DecimalUnique | qlog.go:114 | the only text that reads back as a number is that number's `%d` rendering: no leading zero, no "-0" |
| Envelopes.TagIdentifiesLevel | qlog.go:125-150 | a message built from a level's tag names that level in its first four characters |
| Envelopes.Tag | qlog.go:125-150 | each tag is four characters, `[`, one character, `] `, with no `%`, so prepending it to the format prepends it to the formatted text |
| Envelopes.CallerPrefix | qlog.go:113-114 | the `[file:line] ` prefix contains no slash and reads back as the path's base name and the line |
| Envelopes.ParseCallerPrefixExact | qlog.go:114 | the only text that reads back as a file name and a line is `[file:line] ` with the line written by `%d`, so the prefix is fixed exactly |
| Envelopes.Annotate | qlog.go:110-120 | with annotation off or an unresolved frame the message is unchanged; otherwise the message is kept as a suffix behind a prefix that reads back as the frame's base name and line, which with `ParseCallerPrefixExact` fixes the prefix exactly |
| Envelopes.Compose | qlog.go:107-152 | the envelope carries the call's level and ends with the level tag followed by the text; without a caller prefix it starts with the tag |
| Logger.Activate | qlog.go:83-90 | the writer keys are exactly the listed names that are registered; each stored writer comes from its registered factory and has seen only `Init`; replaced writers plus stored writers number the registered entries of the list |
| Logger.ActivateDistinct | qlog.go:84-89 | with no name listed twice, no writer is lost and there is one writer per registered entry |
| Logger.NewLogger | qlog.go:74-93 | construction fails exactly for a negative buffer length; otherwise the writers are the registered configured names, each with trace `[Init]`, the channel is empty, the loop runs and the settings are the configured ones |
| Logger.SendCompletes | qlog.go:121 | Go's channel rule: a send completes exactly when the buffer has a free slot or the loop is waiting to receive, which it does only while it runs and the buffer is empty |
| Logger.BufferedSendWaits | qlog.go:97-121 | a producer that finds the buffer full while the loop runs cannot send now, and can once one loop turn has taken an envelope |
| Logger.Dispatch | qlog.go:94-106 | one loop turn removes the oldest envelope and appends exactly one write of it to every writer's trace |
| Logger.Emit | qlog.go:107-152 | a disabled level leaves the state unchanged; an enabled one sends exactly one envelope, to the back of the buffer or, when unbuffered, straight to every writer |
| Logger.FlushAll | qlog.go:153-157 | every writer gets one flush call and the channel is untouched |
| Logger.DeliverPending | qlog.go:94-106 | k loop turns write the k oldest envelopes, in order, to every writer and leave the rest queued |
| Logger.Close | qlog.go:158-163 | the loop delivers some number of pending envelopes, then stops, and every writer is destroyed exactly once after those writes |
| Logger.LifecycleOrder | qlog.go:84-90 | under the lifecycle, `Init` comes first and only once, `Destroy` appears exactly when closed and at most once, and no write follows it |
| Runs.StepKeepsValid | qlog.go:80-121 | every allowed step keeps the channel within its buffer length and every writer within its lifecycle |
| Runs.RunKeepsSetup | qlog.go:65-72 | no run changes the writer set, a writer's factory, the buffer length, the level mask or the annotation flag |
| Runs.StepDelivery | qlog.go:97-121 | for every writer, its received envelopes followed by the queued ones grow by exactly the envelope the step sent |
| Runs.RunDelivery | qlog.go:94-121 | over a run, each writer's received envelopes followed by the queued ones are its earlier ones, the earlier queue and all envelopes sent, in send order |
| Runs.FreshDelivery | qlog.go:74-163 | from construction, each writer has received a prefix of the sent envelopes in send order and the channel holds the rest: no loss, duplication or reordering |
| Runs.SameDeliveryEverywhere | qlog.go:97-100 | all writers of one logger have received the same envelopes in the same order |
| Runs.ClosedRunWritesNothing | qlog.go:94-106 | after the loop stops, no writer receives another envelope, whatever is logged or flushed |
| Runs.ClosedSendNeverCompletes | qlog.go:121-159 | after `Close`, a send that cannot complete never completes and the channel never changes, whatever else happens |
| Runs.FreshLifecycle | qlog.go:74-163 | from construction, the channel stays within its buffer length and each writer sees `Init` first and once, exactly one `Destroy` once closed, and no write after it |
| Runs.DefaultLogger | qlog.go:77-83 | with default settings and a registered console writer, the logger has only the console writer, a 16-slot buffer, annotation on and every level enabled |
| Runs.CaptureScenario | qlog.go:133-137 | two `Info` calls, two loop turns and a flush leave the writer with exactly "[I] x=1" then "[I] x=2" |
| Runs.MaskScenario | qlog.go:128-142 | under the mask ERROR and CRITICAL, a `Debug` call reaches no writer and an `Error` call arrives as "[E] seen" |

## Left out

- The goroutine, the channels and `select` (qlog.go:91-106, 121, 159) become explicit steps. Only whole steps are modelled. A `Flush` from another goroutine that interleaves with a fan-out, and its data race on the writers, are not.
- A producer waiting for a free slot is not a state: its send is taken as one step once it can complete. A send that can never complete after `Close`, and a second `Close`, block forever in the source; they are preconditions.
- With a buffer length of 0, the send and the loop's fan-out are one step. In the source the send returns once the loop has received the envelope, and the writes may run alongside the producer's next call, so a writer could see a later `Flush` before that write.
- Every factory call is assumed to return a fresh writer. A factory that returns one shared writer would make that writer receive `Init` and every write once per name it is stored under, which separate per-name traces cannot show.
- Configuration loading through `qini` is an external library. The model takes the already-read settings as a `Config`. The `level` setting is taken as its 64-bit pattern, assuming Go's `int` is 64 bits wide.
- `fmt.Sprintf` of the caller's format and arguments is an input: the formatted `text`. So the source's skipping of formatting for a disabled level is not observable in the model.
- `runtime.Caller` is an input: the `Option<Frame>` resolved at the configured depth. `funcCallDepth` is only carried in `Config` for that reason.
- Go's random map iteration order: the model keeps one trace per writer and claims no order between writers for one envelope.
- What writers do with a call (qconsolewriter.go prints to standard output with a date and time) is left out. Writers are traces of the calls they receive.
- The panic texts of `Register` (qlog.go:53, 56) are not modelled; the two `RegisterError` constructors stand for the two panics.
- `make` panicking for a buffer length too large to allocate is not modelled; only the negative length is.
