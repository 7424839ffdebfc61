# Model of the songcast receiver and sender core

This project models the stateful core of the songcast programs and proves what it is for.

- **Work queue** (`CondVar`, `WorkQueueSpec` and the other `WorkQueue*` modules). The monitor is a
  transition system whose steps are cut at lock acquisition and at `pthread_cond_wait`: any number of
  clients and workers, condition variables with a set of sleeping and a set of woken threads, signals
  that wake any sleeper, spurious wakeups, threads that barge in. The class `WorkQueue.WorkQueue` is
  the code between two such points, and each of its methods is proved to do exactly one step. On top:
  counters, no lost wakeup for workers and producers, idle barrier, order and conservation of items,
  shutdown, an exact condition for a configuration to be able to hang, and what every call answers.
- **Configuration** (`Conf*`). The reader with its continuation lines as a machine over the input
  stream, the writer with its folded values, the map of maps and the presentation lines with the
  stale entries that erasing leaves, and the classes that change them in place. On top: agreement of
  the two representations over every run, the meaning of a text however it is spelt, the round trip
  between printer and parser, stability of the text, inherited lookup, and the update law of stacked
  files.
- **Paced sender** (`Pacing`, `PcmSender`): 32-bit packet arithmetic and the timer feedback loop,
  with an exact condition for its offset to stay bounded.
- **base64** (`Base64`, `Base64Text`, `Base64RoundTrip`): both loops, over 8-bit vectors, the round trip with its
  exact limit, and the meaning of a text, bit by bit as in section 4 of RFC 4648.
- **HTTP stream** (`HttpStream`, `HttpStreamRuns`, `HttpDelivery`, `HttpGate`): the callback that eats the bounded
  message queue, for any number of connections, and where every byte goes.
- **Sample rate control** (`AlsaDirect`): the incremental moving average and the limited command,
  over the reals, and the queue that feeds the sound device.

`History` holds what the two queue models share: histories of items with what became of each;
`Words` the 32-bit conversions, `Wrappers` the option type and `Sequences` facts about sequences.

A method of a class models what its C++ counterpart does while it holds the lock, so a call that waits
is several methods: the call itself, then a `Resume` method that runs when the thread gets the
mutex back. `pick` names the sleeper that a signal wakes.

## What the code does not do

Some properties that one would expect are false of the code. The model keeps the code as it is; for
each, a lemma gives the exact condition or a run that shows it.

- `setTerminateAndWait` zeroes the count of waiting clients (workqueue.h:212) without looking at
  who waits. With another client still inside `put` the count wraps to its maximum, then back to 0
  under a sleeping producer, which `take` then no longer signals (`ResetCountsIff`, `CrowdStalls`).
  What is proved of the workers and of the items holds all the same. What is proved of sleeping
  clients holds throughout a run exactly as long as no reset happens under another client
  (`GoodRunIff`), which is so if `setTerminateAndWait` is only called when no client is inside
  (`PoliteRun`). The reset also leaves the queued items where they are (`LastStep`).
- A producer can be left asleep for ever, with all workers asleep too and no wakeup pending, if and
  only if there is a high mark, workers wait for two or more items (the low mark, or the size given to
  `waitminsz`) and either that is above the high mark, or another client flushes, or `waitIdle` takes
  the producer's signal, or such a reset happens (`StrandIff`). `StallIff` says the same for clients of
  any kind: a caller of `waitIdle` or a second terminator can be left behind even without a high mark.
- Workers miss a wakeup in some run if and only if there are several and any of them uses `waitminsz`
  (`ServedIff`, `MixedForgets`); `ProducersIff` and `BarrierIff` say when clients do.
- `take` reads the front of an empty queue in some run if and only if the low mark is 0 (`FaultIff`).
- Rewriting a configuration file loses variables when a section is reopened in it for a new variable
  (conftree.cpp:431-436). That is the exact condition (`RewriteIff`), unless a comment is read back as
  a line that continues; `ReopenLoses` is a family of texts.
- A comment that ends in a backslash and a carriage return, kept by a blank after it, is read back
  that way: the next line then becomes part of it, and its variable is lost (`CrLoses`).
- After a line of nothing but a backslash, a comment takes in all that follows it, variables included
  (`LoneBackslash`), and a comment on a last line without its line end is lost (`LastRemark`).
- The text is not stable when a comment stands between a section line and its first variable: the
  comment moves above the section line (`CommentMoves`). For a configuration whose two representations
  agree that is the only way, but for a comment that ends in a carriage return, which is dropped
  (`TextStable`). `ParsedStableIff` says when a second rewriting changes nothing.
- conftree.h:302-304 says that a `/` section is never searched; `get` with the section `/` does search
  it (`RootAncestor`). The model follows the code. A section whose key ends in a slash is searched for
  its own path, but not for those below it (`AncestorPath`).
- `ConfStack::set` reports success when a deeper file has the value, even if the top file cannot be
  written and says otherwise (`ReadOnlySetIff`, `ReadOnlySetIgnored`).
- The packet time is computed from a tenth of the sample rate, rounded down. It is then longer than
  the packet unless a quotient happens not to change (`ExactTimeIff`); it is exact when ten divides
  the rate (`TimeOfFrames`), and not at 11025 (`NotExactAt11025`).
- The moving average starts with one unit too many in its sum and never loses it, so it settles at its
  input only if that is 1 (`SettlesIff`).
- `base64_encode` keeps the length in an `int`, so it inverts only below 2^31 bytes
  (`Base64RoundTrip.RoundTripIff`).

## Model

| member | source | states |
|---|---|---|
| WorkQueue.WorkQueue.constructor | sc2src/workqueue.h:59-66 | A new queue is in the initial state: open, no workers, nothing queued, nobody waiting. |
| WorkQueue.WorkQueue.Start | sc2src/workqueue.h:82-94 | Exactly the created threads join the workers. |
| WorkQueue.WorkQueue.Put | sc2src/workqueue.h:100-130 | One step of the transition system: refuse when not ok, sleep on a full queue, else flush, queue the item and wake one worker if the count says one waits. |
| WorkQueue.WorkQueue.ResumePut | sc2src/workqueue.h:111-130 | The step of a producer that gets the mutex back, woken for whatever reason. |
| WorkQueue.WorkQueue.WaitIdle | sc2src/workqueue.h:148-169 | The step of a client that waits for the queue to be idle, and what it answers. |
| WorkQueue.WorkQueue.ResumeIdle | sc2src/workqueue.h:157-169 | The same after a wakeup: the guard is tested again. |
| WorkQueue.WorkQueue.SetTerminateAndWait | sc2src/workqueue.h:177-196 | The queue is shut; with workers left the terminator wakes them all and sleeps. |
| WorkQueue.WorkQueue.ResumeTerminate | sc2src/workqueue.h:188-217 | The same after a wakeup, up to the joins, the overall status and the reset. |
| WorkQueue.WorkQueue.Join | sc2src/workqueue.h:200-209 | Every worker is joined once and the status is good exactly when no worker failed. |
| WorkQueue.WorkQueue.Take | sc2src/workqueue.h:224-255 | The step of a taker: refuse, sleep (waking all clients if the queue is empty), or take the front item and signal one client; the read of an empty front is recorded. |
| WorkQueue.WorkQueue.ResumeTake | sc2src/workqueue.h:236-255 | The same after a wakeup, with the second test of ok(). |
| WorkQueue.WorkQueue.WaitMinSz | sc2src/workqueue.h:257-275 | The step of a worker that waits for a queue size. |
| WorkQueue.WorkQueue.ResumeMinSz | sc2src/workqueue.h:263-275 | The same after a wakeup. |
| WorkQueue.WorkQueue.WorkerExit | sc2src/workqueue.h:285-291 | One more worker has left, the queue is shut, and all clients are woken. |
| WorkQueueInvariants.StepWorkers | sc2src/workqueue.h:82-305 | Every step of every thread keeps the worker counter exact, the waiting, leaving and departed workers apart and the exits counted, whatever happens to the clients' counter. |
| WorkQueueInvariants.StepKeeps | sc2src/workqueue.h:82-305 | Every step keeps the client counter exact and the roles apart too, if and only if it does not reset the queue while another client is inside. |
| WorkQueueWorkers.StepServes | sc2src/workqueue.h:100-130 | No lost wakeup for workers that all take, or for one that also uses waitminsz: while one sleeps un-woken, the queue is shorter than it needs plus the workers woken. |
| WorkQueueWorkers.StepShort | sc2src/workqueue.h:122-275 | Whatever the mix of take and waitminsz, all workers are asleep only while the queue is shorter than the most any of them may wait for. |
| WorkQueueWorkers.SleepServes | sc2src/workqueue.h:231-241 | Going to sleep keeps that bound, whoever else is about to run. |
| WorkQueueClients.StepServes | sc2src/workqueue.h:107-129 | No lost wakeup for producers, without waitIdle and without a put that makes the queue shorter: while one sleeps un-woken, the queue and the woken clients reach the high mark. |
| WorkQueueClients.StepJams | sc2src/workqueue.h:107-129 | On a queue too short for any take, a producer waits only while it is full. |
| WorkQueueClients.StepQuiet | sc2src/workqueue.h:231-241 | No client sleeps un-woken while all workers sleep on an empty queue, whatever the counter of the clients says. |
| WorkQueueClients.StepBarrier | sc2src/workqueue.h:148-169 | No caller of waitIdle sleeps un-woken while the queue is idle, in every reachable live state. |
| WorkQueueFifo.StepFifo | sc2src/workqueue.h:121-247 | What was accepted is what was taken, dropped and queued, in order; the queue stays within the high mark and counts the takes. |
| WorkQueueShutdown.StepTerm | sc2src/workqueue.h:177-196 | While the terminator is inside no worker sleeps un-woken, and while it sleeps some worker has yet to leave. |
| WorkQueueShutdown.CannotStall | sc2src/workqueue.h:186-196 | A waiting terminator can run, or some worker that has not left can. |
| WorkQueueShutdown.DeadStep | sc2src/workqueue.h:224-291 | Once the queue is dead no worker starts to wait, and every worker step brings the end nearer. |
| WorkQueueShutdown.DeadRun | sc2src/workqueue.h:177-305 | However a dead queue is run, its workers make at most as many steps as the measure says. |
| WorkQueueShutdown.LastStep | sc2src/workqueue.h:198-216 | When no worker step is left the terminator has been woken, joins only exited workers and reports their status; the queue is then in its initial state, but for the items still queued, if and only if no other client is inside. |
| WorkQueueShutdown.ResetCountsIff | sc2src/workqueue.h:211-214 | The reset leaves an exact client count if and only if no other client was inside. |
| WorkQueueShutdown.PoliteRun | sc2src/workqueue.h:177-217 | If setTerminateAndWait is only called when no client is inside, no reset of any run happens under another client. |
| WorkQueueRuns.StepSound | sc2src/workqueue.h:82-305 | The invariants of the workers and of the items are inductive over every step. |
| WorkQueueRuns.StepGood | sc2src/workqueue.h:82-305 | With those of the clients they are kept by a step if and only if it does not reset the queue under another client. |
| WorkQueueRuns.EveryRun | sc2src/workqueue.h:82-305 | The former hold in every state that any number of clients and workers reach. |
| WorkQueueRuns.GoodRunIff | sc2src/workqueue.h:82-305 | All of them hold throughout a run if and only if no reset of the run happens under another client. |
| WorkQueueRuns.WorkerNotForgotten | sc2src/workqueue.h:122-124 | In every run without waitminsz among several workers, while a worker sleeps un-woken the queue is shorter than what it waits for plus the woken workers that have yet to run. |
| WorkQueueRuns.TakerNotForgotten | sc2src/workqueue.h:122-124 | In every run of takers, while one sleeps un-woken the queue holds at most the low mark less one plus the woken workers that have yet to run. |
| WorkQueueRuns.ProducerNotForgotten | sc2src/workqueue.h:248-250 | In every run without flush, waitIdle and a reset under another client, while a producer sleeps un-woken the queued items and the woken producers reach the high mark. |
| WorkQueueRuns.ProducersIff | sc2src/workqueue.h:107-250 | In some run a producer sleeps un-woken with more room than the woken clients can fill, if and only if there is a high mark, the low mark is at most that, and some client calls waitIdle, or flushes a queue of two or more, or a reset may happen under another client. |
| WorkQueueRuns.IdleNotForgotten | sc2src/workqueue.h:234-235 | In every run without a reset under another client, no client sleeps un-woken while the queue is empty and all workers wait. |
| WorkQueueRuns.BarrierIff | sc2src/workqueue.h:186-241 | In some run one does, if and only if a reset may happen under another client and workers can wait at all. |
| WorkQueueRuns.FirstInFirstOut | sc2src/workqueue.h:107-129 | In every run without flush, accepted items are the taken ones followed by the queue, and the queue stays within the high mark. |
| WorkQueueRuns.NothingLost | sc2src/workqueue.h:117-121 | In every run the accepted items are the taken, the dropped and the queued ones, and the taken ones are in order. |
| WorkQueueReplies.StepTook | sc2src/workqueue.h:243-252 | A step hands an item to a worker exactly if take answers with it: it is the front of the queue, which loses it, and comes with the number of items that were queued. |
| WorkQueueReplies.StepGave | sc2src/workqueue.h:107-129 | A step accepts an item exactly if put answers true: it is the item of that call. |
| WorkQueueReplies.HandedOver | sc2src/workqueue.h:100-255 | In every run, the items that takes returned are, in order, those that puts gave less what flushes dropped and what is queued; without flush, those given are those taken followed by the queue. |
| WorkQueueReplies.PutAnswers | sc2src/workqueue.h:100-130 | put is refused exactly by a queue that is not ok, sleeps exactly on a full one, and otherwise leaves its item last, or alone if it flushes. |
| WorkQueueReplies.TakeAnswers | sc2src/workqueue.h:224-255 | take is refused exactly by a queue that is not ok and sleeps exactly below the low mark. |
| WorkQueueReplies.MinAnswers | sc2src/workqueue.h:257-275 | waitminsz answers true exactly with that many items queued, and false exactly if the queue is not ok. |
| WorkQueueReplies.IdleAnswers | sc2src/workqueue.h:148-169 | In every run, waitIdle answers true exactly if the queue is empty and all workers wait, and false exactly if it is not ok. |
| WorkQueueReplies.TerminateAnswers | sc2src/workqueue.h:177-217 | In every run, setTerminateAndWait answers false without workers, sleeps while one has yet to leave, and in the end answers true exactly if every worker that left since the last reset did so with a good status. |
| WorkQueueRuns.NeverBothAsleep | sc2src/workqueue.h:107-127 | Producers, and workers that take or one that also uses waitminsz, none of them waiting for more than the high mark: never a sleeping worker and a sleeping producer without a wakeup on its way. |
| WorkQueueRuns.FaultIff | sc2src/workqueue.h:231-244 | Some run reads the front of an empty queue if and only if the low mark is 0. |
| WorkQueueRuns.NoStall | sc2src/workqueue.h:107-127 | A state in which everybody sleeps and no wakeup is pending needs a configuration that CanStall names. |
| WorkQueueRuns.StallIff | sc2src/workqueue.h:100-275 | A configuration can reach a state where all workers and some client sleep and no wakeup is pending, if and only if workers wait for two or more items and one of these holds: a reset may happen under another client; some client calls waitIdle; there is a high mark, and it is lower than that or some client flushes. |
| WorkQueueRuns.StrandIff | sc2src/workqueue.h:100-275 | Among the sleepers of such a state can be a producer if and only if workers wait for two or more items, there is a high mark, and it is lower than that, or some client flushes or calls waitIdle, or a reset may happen under another client. |
| WorkQueueRuns.StallRobbed | sc2src/workqueue.h:157-165 | The run in which waitIdle takes every signal meant for a producer. |
| WorkQueueRuns.CrowdStalls | sc2src/workqueue.h:212-213 | The run in which a reset under a producer makes the next one sleep uncounted, so that no take wakes it and everybody sleeps. |
| WorkQueueRuns.ServedIff | sc2src/workqueue.h:122-124 | No worker is forgotten in any run if and only if there is no waitminsz among several workers. |
| WorkQueueRuns.MixedForgets | sc2src/workqueue.h:257-275 | For every low and high mark, a run with two workers of which one is left asleep on an item that is enough for it. |
| CondVar.SleepExact | sc2src/workqueue.h:108-115 | Entering a wait keeps the counter equal to the number of threads inside. |
| CondVar.LeaveExact | sc2src/workqueue.h:108-115 | Leaving one does too. |
| ConfText.TrimString | sc2src/conftree.cpp:103-116 | The loop cuts exactly the given characters off both ends. |
| ConfText.TrimMiddle | sc2src/conftree.cpp:103-116 | What is left is a middle piece with clean ends, and everything else was of those characters. |
| ConfReader.LoopShrinks | sc2src/conftree.cpp:126-211 | Every round of the parse loop that is not the last eats input, or after the end of file shortens the pending line: the loop ends on every input. |
| ConfWriter.VarPrinter | sc2src/conftree.cpp:338-362 | The loop writes a value folded at 60 characters with backslash continuations, and a section line for an empty name. |
| ConfWriter.PrintedAt | sc2src/conftree.cpp:338-362 | A printed variable is its name, an equal sign between blanks and its value, with a backslash and a line end after every 60 characters that are not the last. |
| ConfWriter.EventRead | sc2src/conftree.cpp:126-211 | Whatever was written is read back as the same section line or variable, folded or not, or as the remark without the carriage returns at its end, at the front of any text. |
| ConfWriter.ReadBackIff | sc2src/conftree.cpp:118-212 | The reader gives back a sequence of such lines, none of which would be read as continuing, if and only if no remark ends in a carriage return. |
| ConfWriter.EventsReadable | sc2src/conftree.cpp:118-212 | Whatever text is read, names are not empty, trimmed and without the characters that the syntax uses, keys and values are trimmed, and remarks are lines that say nothing else. |
| ConfSpelling.AssignSpelt | sc2src/conftree.cpp:155-203 | Whatever blanks surround the name and the value, the line gives that variable that value, in front of any text. |
| ConfSpelling.HeaderSpelt | sc2src/conftree.cpp:176-181 | A section line may have blanks around its brackets. |
| ConfSpelling.RemarkSpelt | sc2src/conftree.cpp:159-166 | A line that starts with `#` is a comment, whatever it ends in, a backslash included. |
| ConfSpelling.BlankSpelt | sc2src/conftree.cpp:159-166 | A blank line is kept as an empty comment. |
| ConfSpelling.JunkSpelt | sc2src/conftree.cpp:190-209 | So is a line without an equal sign, or without a name before it. |
| ConfSpelling.Continued | sc2src/conftree.cpp:151-172 | A line that ends in a backslash and perhaps blanks is read as one with the next. |
| ConfSpelling.CarriageReturn | sc2src/conftree.cpp:143-149 | A carriage return before the line end makes no difference. |
| ConfSpelling.ZeroByte | sc2src/conftree.cpp:144 | What follows a zero byte on a line is not read. |
| ConfSpelling.LongLine | sc2src/conftree.cpp:128-129 | A line of more than 2046 characters is cut there and nothing after it is read. |
| ConfSpelling.LastAssign | sc2src/conftree.cpp:131-206 | A last line without its line end counts if it gives a variable a value. |
| ConfSpelling.LastRemark | sc2src/conftree.cpp:159-163 | It is lost if it is a comment. |
| ConfSpelling.LoneBackslash | sc2src/conftree.cpp:151-166 | After a line of nothing but a backslash, a comment takes in the whole rest of the text. |
| ConfMeaning.ParsedValue | sc2src/conftree.cpp:118-212 | A variable has a value exactly if some line of its section gives it one that can be set, and then that of the last such line. |
| ConfMeaning.AssignParsed | sc2src/conftree.cpp:155-203 | After such a line, however spelt, the rest of the text is loaded onto a configuration with just that value. |
| ConfMeaning.SectionParsed | sc2src/conftree.cpp:176-203 | A section line and a variable line, however spelt, give just that value in just that section. |
| ConfWriter.EventsNoCr | sc2src/conftree.cpp:143-150 | No remark ends in a carriage return if the text has them at line ends only. |
| ConfAgreement.SetKeepsKeyed | sc2src/conftree.cpp:447-455 | Every section with values has its line, so that the abort cannot be reached. |
| ConfAgreement.SetAgrees | sc2src/conftree.cpp:382-478 | set keeps the two representations in agreement, stale lines included. |
| ConfAgreement.InsertPairs | sc2src/conftree.cpp:438-476 | A new line goes to the zone of its section and to no other. |
| ConfAgreement.InsertLast | sc2src/conftree.cpp:462-476 | Old lines keep their order, and a new one is the last of its section; there is none if a stale one remains. |
| ConfAgreement.EraseKeyLaw | sc2src/conftree.cpp:498-505 | The section is gone, and every other one and all lines are as before. |
| ConfAgreement.EraseAgrees | sc2src/conftree.cpp:480-496 | erase keeps them in agreement and leaves no empty section. |
| ConfAgreement.EveryRunAgrees | sc2src/conftree.cpp:382-505 | After any run of set, erase and eraseKey from the empty configuration, every value has exactly one line in its section and every section exactly one line. |
| ConfRoundTrip.WriteParseIff | sc2src/conftree.cpp:566-616 | Parsing what was written gives the same values if and only if each has a line in its own section. |
| ConfRoundTrip.RunRoundTrips | sc2src/conftree.cpp:118-212 | So it does after every run of changes. |
| ConfRoundTrip.GoodPrintable | sc2src/conftree.cpp:338-362 | Trimmed names, values and keys without the characters that the syntax uses, on lines within the buffer, can be printed. |
| ConfRoundTrip.ParsedGood | sc2src/conftree.cpp:118-212 | Sections, names and values that come from a text are always of that kind. |
| ConfRoundTrip.RoundTripIff | sc2src/conftree.cpp:566-616 | Writing and parsing gives the values back if and only if they are of that kind and each has a line in its own section; lines fit the buffer and no comment is read as continuing. |
| ConfRoundTrip.LoadCoveredIff | sc2src/conftree.cpp:429-436 | Parsing gives each value a line in its section if and only if no section is reopened for a new variable. |
| ConfRoundTrip.ReopensIff | sc2src/conftree.cpp:429-436 | Whether a section is reopened can be told from the lines alone. |
| ConfRoundTrip.RewriteIff | sc2src/conftree.cpp:431-436 | Parsing, writing and parsing a text again gives the same values if and only if no section is reopened in it for a new variable; no comment of the text, written on a line of its own, is read as continuing, and its lines fit the buffer. |
| ConfRoundTrip.ReopenLoses | sc2src/conftree.cpp:431-436 | A family of texts that lose a variable by being rewritten. |
| ConfCarriage.CrLoses | sc2src/conftree.cpp:143-172 | A family of texts with a comment that ends in a backslash and a carriage return, which lose a variable by being rewritten, without any section being reopened. |
| ConfStable.SettledFixed | sc2src/conftree.cpp:566-616 | The lines of an agreeing configuration with no remark between a section line and its first variable come out the same after being loaded. |
| ConfCanonical.FixedIff | sc2src/conftree.cpp:118-212 | Lines come out the same after being loaded and written if and only if they are canonical: no section twice, no variable twice in a section, no remark between a section line and its first variable. |
| ConfCanonical.RewriteStableIff | sc2src/conftree.cpp:566-616 | A configuration is written as the same text after being parsed back if and only if what it writes is canonical and no comment ends in a carriage return. |
| ConfCanonical.TextStable | sc2src/conftree.cpp:566-616 | For an agreeing configuration, if and only if no remark stands between a section line and its first variable and none ends in a carriage return. |
| ConfCanonical.CommentMoves | sc2src/conftree.cpp:402-410 | A family of configurations with a remark between a section line and its first variable, and the lines they become. |
| ConfCanonical.WrittenOnce | sc2src/conftree.cpp:566-616 | What an agreeing configuration writes has every live variable exactly once, in its section, and no other. |
| ConfCanonical.CommentFreeStable | sc2src/conftree.cpp:566-616 | The text is stable for every configuration without comments. |
| ConfRemarks.SameSize | sc2src/conftree.cpp:566-616 | Two sequences of lines that are written as the same text have as many characters in their remarks, carriage returns included. |
| ConfCanonical.ParsedStableIff | sc2src/conftree.cpp:118-212 | Rewriting a parsed text a second time changes nothing if and only if the first rewriting gave canonical lines and no comment that ends in a carriage return; no comment is read as continuing, and lines fit the buffer. |
| ConfCanonical.ParsedStable | sc2src/conftree.cpp:118-212 | For such a text that reopens no section, if and only if no comment of the text ends in a carriage return. |
| ConfSimple.ConfSimple.constructor | sc2src/conftree.cpp:228-235 | The object holds what parsing the text means. |
| ConfSimple.ConfSimple.Get | sc2src/conftree.cpp:315-334 | The value of a name in a section, or nothing. |
| ConfSimple.ConfSimple.ISet | sc2src/conftree.cpp:382-478 | The new state is that of the specified update; values with line ends are refused; abort is not reached. |
| ConfSimple.ConfSimple.AddLine | sc2src/conftree.cpp:438-476 | The search of the zone finds the place that the specification gives. |
| ConfSimple.ConfSimple.Set | sc2src/conftree.cpp:365-377 | Only a writable configuration changes, and success is reported exactly then for an accepted value. |
| ConfSimple.ConfSimple.Erase | sc2src/conftree.cpp:480-496 | The value is gone, and with the last value of a section the section. |
| ConfSimple.ConfSimple.EraseKey | sc2src/conftree.cpp:498-505 | Erasing name by name removes exactly the section. |
| ConfSimple.ConfSimple.WriteTo | sc2src/conftree.cpp:566-616 | The loop writes the text of the live lines in order. |
| ConfSimple.ConfSimple.ParseInput | sc2src/conftree.cpp:118-212 | The loop terminates and leaves the state that the events of the text lead to. |
| ConfTree.Get | sc2src/conftree.cpp:678-708 | Nothing in error state; for a path, the value at its deepest ancestor that has one, else that of the global section; visited from the longest key to the shortest. |
| ConfTree.InheritsUnique | sc2src/conftree.cpp:693-706 | That rule determines the result. |
| ConfTree.AncestorPath | sc2src/conftree.cpp:678-708 | For a path of names, with or without a final slash, the sections searched are the path with a final slash, and the path and its upper parts without, up to the global section. |
| ConfTree.InheritsPath | sc2src/conftree.cpp:689-706 | get finds the value of the path with a final slash if there is one, and otherwise that of the deepest of the path and its upper parts that has one. |
| ConfTree.RootAncestor | sc2src/conftree.cpp:681-705 | When the section `/` itself is searched. |
| ConfStack.ConfStack.Get | sc2src/conftree.h:395-403 | The first configuration that has a value decides. |
| ConfStack.FoundIff | sc2src/conftree.h:395-403 | A value is found exactly if some configuration has it and none before that has any; nothing is found exactly if none has one. |
| ConfStack.ConfStack.Provided | sc2src/conftree.h:425-440 | The search of the deeper files stops at the first that has the name, and finds out whether it has that value. |
| ConfStack.ConfStack.Set | sc2src/conftree.h:415-444 | Only the top changes, as specified, and so does the reported success. |
| ConfStack.ConfStack.Erase | sc2src/conftree.h:446-448 | Only the top changes. |
| ConfStack.EraseLaw | sc2src/conftree.h:446-448 | Erasing uncovers what the deeper files say, for that name and section only. |
| ConfStack.SetLaw | sc2src/conftree.h:415-444 | After a successful set with a writable top, get finds the value and every other lookup is unchanged, even if the value is realised by erasing. |
| ConfStack.ReadOnlySetIff | sc2src/conftree.h:433-435 | With a top that cannot be written nothing changes, and success is reported exactly if a deeper file gives the value; it is then true of the lookup if and only if the top has no other value. |
| ConfStack.ReadOnlySetIgnored | sc2src/conftree.h:433-435 | A stack where it is not. |
| Pacing.OffsetIsBalance | mpd2src/mpd2sc.cpp:223-267 | Over any unpaused run with an increasing clock, the offset is the packets' time less the time gone by modulo 2^32, and equal to it if and only if 32 bits can hold it. |
| Pacing.TimeoutIff | mpd2src/mpd2sc.cpp:232-252 | The timeout is 10 ms within a millisecond of ideal, 11 further ahead, and further behind shorter by the whole milliseconds late, but at least 1; no other timeout fits. |
| Pacing.BandKept | mpd2src/mpd2sc.cpp:227-252 | One callback keeps the offset in its band. |
| Pacing.MachineIsIdeal | mpd2src/mpd2sc.cpp:223-267 | The 32-bit loop follows the unbounded one as long as that fits. |
| Pacing.DriftIsBounded | mpd2src/mpd2sc.cpp:193-272 | In every run with callbacks late by at most J and 1000 + J <= P <= 11000, the offset stays between P - 11000 - J and max(0, P - 9000), and the timer between 1 and 11 ms. |
| Pacing.DriftWithPauses | mpd2src/mpd2sc.cpp:134-272 | The same band in every run of timely callbacks and pauses. |
| Pacing.RunsAhead | mpd2src/mpd2sc.cpp:246-248 | A longer packet makes the offset grow without bound. |
| Pacing.FallsBehind | mpd2src/mpd2sc.cpp:238-242 | A shorter one lets it fall without bound. |
| Pacing.BoundedIff | mpd2src/mpd2sc.cpp:193-272 | The offset is bounded over all runs with lateness up to J if and only if 1000 + J <= P <= 11000. |
| PcmSender.MostFrames | mpd2src/mpd2sc.cpp:163-169 | Without overflow, a packet holds the most whole frames that fit 10 ms and 4096 bytes. |
| PcmSender.ProductWraps | mpd2src/mpd2sc.cpp:163-173 | Products are taken modulo 2^32. |
| PcmSender.ExactTimeIff | mpd2src/mpd2sc.cpp:169-170 | The packet time is at least the duration of the frames rounded half up, and equal to it if and only if the rounded-down tenth of the rate is not too small for that. |
| PcmSender.NearestTime | mpd2src/mpd2sc.cpp:169-170 | The packet time is the number of microseconds nearest to what the rounded-down tenth of the rate makes of the frames, and no other. |
| PcmSender.TimeOfFrames | mpd2src/mpd2sc.cpp:169-170 | It does not overflow, is at most 10000, and is that duration whenever ten divides the rate. |
| PcmSender.NotExactAt11025 | mpd2src/mpd2sc.cpp:170 | At 11025 frames per second it is too long. |
| PcmSender.KeepsPace | mpd2src/mpd2sc.cpp:157-272 | A sender whose packets last a millisecond more than the timers are late is never more than 1 ms ahead. |
| PcmSender.PcmSender.constructor | mpd2src/mpd2sc.cpp:78-102 | The state before the first callback, with packets computed at normal speed. |
| PcmSender.PcmSender.CalculatePacketBytes | mpd2src/mpd2sc.cpp:157-179 | A packet is whole frames and at most 4096 bytes, whatever wraps. |
| PcmSender.PcmSender.Pause | mpd2src/mpd2sc.cpp:134-149 | Pausing keeps all but the pause itself; going on starts the loop afresh, with offset 0 and a timeout of 10 ms. |
| PcmSender.PcmSender.TimerExpired | mpd2src/mpd2sc.cpp:193-272 | One callback is one step of the loop, in 32-bit arithmetic: the offset grows by the packet time less the interval, the timeout is the one that fits it, and an interval that cannot be measured leaves the offset and asks for 10 ms; a packet is sent unless paused or out of data. |
| Base64.SymbolOfLetter | mpd2src/base64.cxx:50-87 | The decoding table inverts the alphabet. |
| Base64.LetterAt | mpd2src/base64.cxx:86-87 | The alphabet is A to Z, a to z, 0 to 9, plus and slash. |
| Base64.SymbolKinds | mpd2src/base64.cxx:50-84 | The table knows those letters, six kinds of white space and the equal sign, and nothing else. |
| Base64.LetterOfSymbol | mpd2src/base64.cxx:50-87 | And the alphabet the table. |
| Base64.Encode | mpd2src/base64.cxx:215-268 | The loop writes the codes of its input, as far as its int sees it, as letters and pads; below 2^31 bytes, four characters for every three, all letters but for a final "==" or "=" after one or two bytes. |
| Base64.CodesSpelled | mpd2src/base64.cxx:224-267 | Codes are spelled that way. |
| Base64.FullGroup | mpd2src/base64.cxx:224-242 | Three bytes become four letters. |
| Base64.LastGroup | mpd2src/base64.cxx:245-267 | The last one or two bytes and their pads; a negative length gives one group of zeros. |
| Base64.Absorb | mpd2src/base64.cxx:112-137 | One code takes the four-state machine from the bytes of the codes so far to those of one more. |
| Base64.Decode | mpd2src/base64.cxx:90-210 | The loop accepts exactly the decodable texts and returns their bytes; otherwise it leaves the bytes so far. |
| Base64Text.DecodedIff | mpd2src/base64.cxx:90-205 | A text is decoded if and only if, up to the first character that is neither a letter nor white space, it has whole groups of four letters, or that is an equal sign after two or three more; three bytes come of four letters. |
| Base64Text.GroupsAccepted | mpd2src/base64.cxx:145-205 | In particular whole groups of letters, or those and one of two with "==" or of three with "=", for one or two bytes more. |
| Base64RoundTrip.CodesKeepBits | mpd2src/base64.cxx:224-267 | The codes are the bits of the bytes cut in groups of six and filled with zeros, as section 4 of RFC 4648 has it. |
| Base64RoundTrip.JoinCodes | mpd2src/base64.cxx:112-137 | The bytes of the codes of x are x. |
| Base64RoundTrip.RoundTripIff | mpd2src/base64.cxx:90-268 | Decoding an encoding succeeds with the input if and only if the input is shorter than 2^31. |
| Base64RoundTrip.NegativeLength | mpd2src/base64.cxx:217-267 | A length that the int takes for negative is spelled "AAA=". |
| Base64RoundTrip.EncodingFits | mpd2src/base64.cxx:92-98 | The encoding of such an input is within the decoder's counters. |
| Base64RoundTrip.SameEssence | mpd2src/base64.cxx:98-138 | The result depends only on the characters that are not white space before the first pad, and on there being one. |
| Base64RoundTrip.SpacesAnywhere | mpd2src/base64.cxx:102-103 | White space put anywhere changes nothing. |
| Base64RoundTrip.CanonicalIff | mpd2src/base64.cxx:145-205 | Encoding what was decoded gives the text back if and only if the text is canonical. |
| HttpGate.HttpGate.Eat | sc2src/httpgate.cpp:337-345 | The oldest messages go until two are left, then the new one is queued last. |
| HttpGate.HttpGate.DataGenerator | sc2src/httpgate.cpp:98-164 | End of stream exactly from position 2000000044 on; before that a call returns the first of the bytes due to it if there are as many as it asks for, and else waits with them. |
| HttpGate.HttpGate.Wakeup | sc2src/httpgate.cpp:114-122 | After the wait a message without buffer is thrown away, and the call goes on with what it had and what is due to it now. |
| HttpGate.HttpGate.FillBuffer | sc2src/httpgate.cpp:113-161 | The loop ends with a full buffer, or waits on an empty queue. |
| HttpGate.HttpGate.EmitFront | sc2src/httpgate.cpp:124-160 | One round: skip, header, copy, pop. |
| HttpStreamRuns.FillAccounts | sc2src/httpgate.cpp:113-161 | Of the queued bytes, a call's stretch takes a front part: what the client got in order after the header, what was skipped, and what remains. |
| HttpDelivery.FillDelivers | sc2src/httpgate.cpp:113-161 | What is due to a call is the header if the stream starts with it, and then all that is queued, but for the rest of a partly emitted message if it starts right after the header; the call gets the first of that, as much as it has room for, and the others stay queued. |
| HttpDelivery.BeginDelivers | sc2src/httpgate.cpp:98-164 | In every run, a call before position 2000000044 makes the stream longer by what it asks for if so much is due, and else waits with all that is. |
| HttpDelivery.WakeDelivers | sc2src/httpgate.cpp:113-161 | A call that waited goes on in the same way. |
| HttpDelivery.NothingAfterEnd | sc2src/httpgate.cpp:103-106 | From that position on no step gives the client anything. |
| HttpStreamRuns.StepKeeps | sc2src/httpgate.cpp:98-164 | Every step of the receiver and of every connection keeps the account of every client. |
| HttpStreamRuns.StreamConserved | sc2src/httpgate.cpp:98-164 | In every run each client got one header first, if it reads from the start, and then queued bytes in order, given to nobody else; the queue holds what remains and at most three messages. |
| HttpStreamRuns.NeverStuck | sc2src/httpgate.cpp:113-161 | The emitted count of a message never passes its size: every allowed step of a run is defined. |
| HttpStreamRuns.FullOrEmpty | sc2src/httpgate.cpp:113-163 | A call returns exactly as many bytes as were asked for, and waits only on an empty queue. |
| HttpStreamRuns.FillLossless | sc2src/httpgate.cpp:138-144 | A call that does not start right after the header skips nothing. |
| HttpStreamRuns.RestartsAtMessage | sc2src/httpgate.cpp:126-144 | One that does, on a partly emitted message, gets whole messages from the next one on. |
| HttpStreamRuns.LostIff | sc2src/httpgate.cpp:98-345 | A queued byte has gone to nobody if and only if some step so far pushed out a message with bytes left, or restarted right after the header on a partly emitted one. |
| HttpStreamRuns.CompleteIff | sc2src/httpgate.cpp:98-345 | A sole client has got every byte that left the queue if and only if no step did. |
| AlsaDirect.Filter.constructor | sc2src/alsadirect.cpp:223-228 | The buffer of ones is the window of an empty history. |
| AlsaDirect.Filter.Next | sc2src/alsadirect.cpp:229-236 | The incremental sum is 1 plus the last 127 inputs, missing ones counted as 1, though the index wraps. |
| AlsaDirect.SmoothedBetween | sc2src/alsadirect.cpp:229-236 | The output stays in any range around 1 that the inputs stay in. |
| AlsaDirect.SmoothedSlow | sc2src/alsadirect.cpp:402-403 | One input moves it by at most a 128th of that range. |
| AlsaDirect.SettlesIff | sc2src/alsadirect.cpp:223-236 | A constant input is its limit if and only if it is 1. |
| AlsaDirect.CommandCorrects | sc2src/alsadirect.cpp:362-393 | The command raises or lowers the rate exactly below or above the target, and is limited exactly at an empty queue and at twice the target. |
| AlsaDirect.CommandIs | sc2src/alsadirect.cpp:362-393 | In between the command is linear, a tenth of the relative distance from the target, and before qinit it is exactly 1. |
| AlsaDirect.StaysOne | sc2src/alsadirect.cpp:223-236 | Fed with 1 from the start, the filter stays at 1. |
| AlsaDirect.CommandFalls | sc2src/alsadirect.cpp:362-393 | A longer queue never gives a higher ratio. |
| AlsaDirect.RateControl.Ratio | sc2src/alsadirect.cpp:357-403 | Every ratio given to the resampler is the smoothed history of commands for a target of 50 buffers and is within 0.9 and 1.1; until qinit it is exactly 1. |
| AlsaDirect.OutputNeverHangs | sc2src/alsadirect.cpp:80-115 | With one writer that waits for 50 of 100 messages and then takes, receiver and writer are never both left asleep. |

## Left out

- Errors of the pthread functions, of locks and of thread creation: primitives succeed. `Tid` allows fewer than 2^32 - 1 threads, so that no counter of live threads wraps.
- The work queue's statistics of sleeps and missed wakeups, its name, and its destructor.
- WorkQueue.WorkQueue.Take: nothing is said of what a read of the front of an empty queue returns or does to the queue; it is only recorded as a fault.
- WorkQueueRuns.ProducerNotForgotten, like `IdleNotForgotten` and `NeverBothAsleep`: for runs in which no reset happens under another client; `ProducersIff`, `BarrierIff` and `StallIff` say that with such resets they fail.
- Tilde expansion, file access, modification times, the writing of the file and held writes: a configuration is its text. The constructor from a file, copying and `reparse` are not part of the model.
- ConfSimple.ConfSimple.Set: the result of writing the backing file is taken to be success.
- The sorted listing of names and sections and `sortwalk`: they only read.
- ConfRoundTrip.RewriteIff: for texts none of whose comments is read as continuing once it is written on a line of its own, that is, ends in a backslash but for carriage returns and blanks and does not start with `#`. Such a comment (`CrLoses`) becomes the start of whatever line follows it, and whether values survive depends on what that line then says, which only parsing it again tells.
- ConfCanonical.ParsedStableIff and `ParsedStable`: the same.
- ConfStack with `ConfTree` members: erasing the top can there expose an inherited value, so the update law is stated for `ConfSimple` only.
- `Restart` and the audio data of the sender; the clock and the end of data are parameters. The speed is the normal one, which nothing changes.
- The characters after the first pad of a base64 text: the source scans them without any effect on the result.
- Base64.Decode: texts below 2^32 characters whose bytes number below 2^31, the widths of the source's counters.
- HttpGate.HttpGate.DataGenerator: a call at position 0 must give room for the 44 bytes of the header, which `makewavheader` requires of its buffer (wav.cpp:66-73); the source does not check its refusal.
- The fields of the WAV header: its 44 bytes are marked by the format they were written for. Ranges, request handling and the reader of WAV files are not part of the model.
- HttpGate: messages are values owned by the queue; the source frees each message once, when it leaves the queue.
- Rounding of floating point numbers in the filter and the ratio; sample conversion and the resampler itself.
