# Verification of zts-airdrop

A Dafny model of `zts-airdrop`, the tool that sends a fixed amount of a ZTS token to every address
that acted in a range of momentums, with proofs of what the tool promises: resuming without paying
twice, never skipping anybody silently, never forking the account chain, exact decimal amounts,
and scans and logs that can be reproduced and replayed. Where the code does not keep a promise on
every input, the exact condition under which it does is proved. Verify everything with
`dafny verify dfyconfig.toml`.

## How it is organised

| file | what it models |
|---|---|
| `decimal.dfy`, `amount.dfy` | digit strings, `ParseAmount`, `FormatAmount` |
| `digest.dfy` | the string order, newline framing, the address digest |
| `ledger.dfy` | blocks, hashes, the account chain, balances |
| `journal.dfy` | run keys, the bytes of the journal, `Paid` |
| `protocol.dfy` | the payment protocol as a state machine over what leaves the process |
| `invariant.dfy` | its inductive invariant, event by event |
| `history.dfy` | what holds after every history of processes, crashes and losses of power |
| `world.dfy` | the node, the journal file, the clock and the interrupt, answering arbitrarily |
| `sender.dfy`, `record.dfy`, `airdrop.dfy`, `plan.dfy` | `Sender`, `Journal`, `Airdrop.Run`, `planAndSend` as classes |
| `process.dfy` | one process as a stretch of the log: what its stages and the whole add |
| `feasible.dfy` | what a process can still achieve, so that the safety results are not empty |
| `codec.dfy` | an encoding of journal entries that meets the laws assumed of the real one |
| `scan.dfy`, `scanlog.dfy`, `replay.dfy` | `Scan`, `ResolveRange`, the scan log, narrowing, `verifyScan`, replay |
| `tool.dfy` | the stages put together: from a range to payments, and from a saved log to payments |

The protocol has one step for everything that leaves a process: a block published (landed or not,
acknowledged or not), bytes written to the journal, a sync; and marks for the points between them
(journal read, balance checked, recipient attempted, process ended). It knows the limit on failures
in a row that the process was started with. A process can end between any two steps, and a loss of
power keeps any prefix of the unsynced bytes; between two processes other programs can put any block
on the account that the ledger takes. Histories are arbitrary sequences of processes, of any
airdrops, sharing one key and one journal. The classes are proved against this machine. Whatever
the node, the disk and the user did, the log of what left the process is a history of the machine
before and after each call; `Airdrop.Run` adds events of the running process only
(`Airdrops.Worked`), and `planAndSend` past the journal adds exactly one process, from its start to
its end (`Processes.Adds`). So every theorem about histories is a theorem about the code's runs, cut
off anywhere, and those about the rest of a process apply to what `Run` added. At the far end,
`Tool.Airdrop` says what a reported success means: the list holds exactly the eligible users of the
heights covered, which are the whole range exactly if the node gave no empty answer, and each of
them was sent the amount, on the chain.

The node is not trusted: it reports any frontier it likes, refuses or loses any call, and may
report an error for a block that landed. The user may interrupt at any moment, not only where the
code looks; no block is begun after that. Every error reported has its cause.

## What is assumed

- One process of the tool at a time uses the key and the journal, and all that share a journal pay
  from one account.
- A block lands only on the account's true tip, at the next height, and a send only within the
  balance. A publish that returns no error did land; the reported balance is the true one. While a
  process runs nobody else uses the account; between two processes anybody holding the key may.
- Block hashes, the digest and the run key are injective: each is modelled by what was hashed. For
  the run key this is an assumption about the 64 bits that are kept.
- `encoding/json` on journal entries (`Journals.Lawful`): an entry reads back; its text is an
  object on one line; a proper prefix of it, or the text with the start of another object after
  it, does not parse (sections 2 and 4 of RFC 8259). `Codecs.LawfulCodecExists` shows the laws
  are consistent.
- Addresses and token standards are their text; the text of a token standard holds no `|` and the
  text of an address no newline; the addresses on the chain parse.
- A sync that returns no error makes every byte of the file durable.
- A call to the node that fails once the user has interrupted fails as interrupted.
- The chain of momentums is append-only and shorter than 2^64 - 1.

## Where the code and its documentation differ

- `journal.go:26-31` says the worst case of an interruption is one duplicate payment. That holds of
  a process if and only if a block was acknowledged to it before the payments (a collected receive
  counts), it stops at the first failure (`-stop-after-errors 1`; the default is 10), or it has at
  most one recipient to pay: `History.ContainedFromTheStart`, and `History.ContainedExactly` in the
  middle of a run. Until the first acknowledgement every publish that lands and is reported as an
  error leaves one more send without a record. The worst case is then exactly everyone left to pay,
  or as many as failures in a row are left to the limit: `History.WorstLossExactly`, and
  `Airdrops.Airdrop.Run` for the code. Over whole histories `History.LandedExactly` accounts for
  every send that landed, and `History.PaidAtMost` bounds them.
- `README.md:57-58`, `main.go:86` and `plan.go:210` say that running again with the same flags
  resumes and skips whoever is recorded. It does if and only if `-to` is given or the tip has not
  moved: `Tool.SameFlagsSkip`. With `-last N`, or `-from H` without `-to`, the end of the range is
  the tip, and with it the run key changes; the next run finds no marks under its new key, and
  everybody is due again, as `Tool.Airdrop` states for its own run. `RangeIsReproducible` gives the
  way out: name the heights that were resolved.
- Nothing keeps a list from naming an address twice. A process can give an address a second recorded
  payment if and only if it can go on paying and an unmarked address ahead of it was settled before
  or comes earlier in what is ahead (`Feasible.PaidTwiceExactly`); from the start that is: the list
  names an unmarked address twice (`Feasible.AgainFromTheStart`). A repeated address that is marked
  is paid nothing. A scan never yields a list with repeats (`Tool.Airdrop`), but `replayList` accepts
  one from a log edited by hand with a matching digest (`replay.go:214-226`), although
  `README.md:131-133` says an edited log is refused. `History.SettledOnce` and the bounds on what is
  paid hold for the histories in which no list names an unmarked address twice.
- `README.md:18` says nothing is published without `-confirm`. A dry run with `-receive` and a key
  publishes receive blocks before it looks at `-confirm` (`plan.go:116-125`); nothing else.
  `Plans.RunPlan.PlanAndSend` states exactly that, and that a dry run which succeeds has put one
  block on the chain for every pending block the node listed.
- `replay.go:193-197` and `README.md:123-124` say the narrowed list is the one replayed. When the
  filters kept nobody, the whole scanned list is replayed: `Replays.NarrowedListIsReplayed`.
- A scan that a node cuts short with an empty answer succeeds and records the end of the range it
  was asked for, not the height it reached (`scan.go:94-99`, `scanlog.go:189-192`). The recorded end
  was reached if and only if no answer was empty: `Scans.Scanner.Scan`, and with it
  `Tool.ScanRange`, `Tool.Airdrop` and `ScanLogs.VerifyScan`.

## Model

| member | source | states |
|---|---|---|
| Amount.ParseIsExact | amount.go:16-56 | an input is accepted with v if and only if what is left of it without the space around it and without exactly its underscores spells an optional plus, digits and optionally a point and digits, and its value times 10^decimals is exactly the positive integer v |
| Amount.CleanIs | amount.go:17 | what the parser looks at is exactly that: the text between the outer space, every character but the underscores, in order |
| Amount.RefusedExactly | amount.go:18-54 | which error is given: nothing is left, a minus comes first, a non-zero digit (or no digit) lies beyond the token's places, or it spells zero; anything else refused is not a number |
| Decimal.SetStringExact | replay.go:104-108 | an integer is read exactly from an optional sign and at least one digit |
| Decimal.DigitValueIs | amount.go:49 | the ten digits have their values in order |
| Amount.OneMoreDecimal | amount.go:38-55 | one more decimal place multiplies the accepted amount by ten |
| Amount.TooPreciseIsRefused | amount.go:32-45 | a well-spelled amount is refused as too precise just when a non-zero digit lies beyond the token's places, and then it is no whole number of smallest units: nothing is ever rounded |
| Amount.FormatIsCanonical | amount.go:60-84 | what is printed has no sign, underscore, spare zero or bare point, and a fraction that fits the token |
| Amount.ParseOfFormat | amount.go:16-84 | reading back what was printed gives the amount, at every scale |
| Amount.FormatOfParse | amount.go:16-84 | a canonical text that parses to v is the text printed for v |
| Amount.CanonicalForm | amount.go:16-84 | printing an accepted input gives the one canonical text that denotes the same amount |
| Amount.FormatOfOthers | amount.go:60-84 | zero prints as zero and a negative amount as its opposite with a minus |
| Amount.FormatIsInjective | amount.go:60-84 | two positive amounts that print alike are equal |
| Digests.SortStrings | scanlog.go:158-161 | the result is ascending and holds the same strings equally often |
| Digests.LessEqIs | scanlog.go:159-161 | ascending means: a prefix comes first, otherwise the first character that differs decides |
| Digests.FramedIs | scanlog.go:163-166 | what is hashed is the strings one after the other, a newline after each |
| Digests.SortedIsUnique | scanlog.go:158-161 | only one ascending arrangement of a collection exists |
| Digests.FramedInjective | scanlog.go:163-166 | newline-terminated strings decode in one way |
| Digests.DigestStrings | scanlog.go:157-168 | the loop hashes the framed ascending arrangement of its input |
| Digests.DigestIdentifiesList | scanlog.go:149-168 | two lists have one digest if and only if they are permutations of each other |
| Digests.DigestIdentifiesSet | scanlog.go:149-168 | for lists without repeats the digests agree if and only if the sets do |
| Journals.RunKeyIsInjective | journal.go:50-62 | equal run keys mean equal token, amount and range |
| Journals.RunKeyReads | journal.go:58-62 | what is hashed is the token, the amount and the two heights, in plain decimals between bars |
| Journals.Paid | journal.go:75-106 | the scanner loop computes the marks of the text line by line, or refuses |
| Journals.FirstLineRead | journal.go:88-104 | what one line does, whatever follows: an empty one nothing, a broken one stops the reading as malformed, one of another run is passed over, one of this run marks its address with its hash or stops the reading if that is no address |
| Journals.LongLineRefused | journal.go:86-87 | a line of 1 MiB or more stops the reading |
| Journals.MarksLast | journal.go:104 | the mark of an address holds the hash of the last record of the run that names it |
| Journals.PaidIsExact | journal.go:86-106 | over every byte state that torn writes and appends can leave, reading either refuses or returns exactly the marks of the records whose whole text is there; it refuses exactly when some line is not one whole record |
| Journals.RunIsolation | journal.go:88-105 | in a readable journal shared by several airdrops, the marks of one are those of its own lines alone |
| Journals.TruncateShaped | journal.go:123-131 | cutting the file anywhere leaves such a byte state again, made of the same first records |
| Journals.TruncateKeeps | journal.go:129-131 | no record within the surviving bytes is lost |
| Invariant.StepInv | airdrop.go:63-109 | every step of every process, every end and every loss of power keeps the whole invariant |
| Invariant.HistoryInv | airdrop.go:63-109 | the invariant holds after every history |
| History.NoSilentSkip | airdrop.go:71-77 | in every reachable state every address the journal marks for an airdrop was sent that amount of that token, in the block on the chain whose hash the mark holds |
| History.JournalIsExact | journal.go:75-106 | in every reachable state the journal reads as exactly the marks of its records or is refused, exactly when some line is not one whole record; every record is about a landed send |
| History.UnreadableRefusesAll | plan.go:80-84 | an unreadable journal stops every later process before it does anything; only a loss of power or another program's block can follow |
| History.AckedIsContiguous | send.go:15-25 | the blocks acknowledged to a process lie on the chain one on top of the other |
| History.StuckNothingLands | send.go:195-202 | once a block lies beyond the last acknowledged one, nothing the process publishes lands |
| History.StuckForever | send.go:188-218 | from then on the true tip never is the block the process builds on, the chain stays, and nothing lands, whatever frontiers the node reports |
| History.Containment | send.go:99-103 | once a block was acknowledged to it, a process adds at most one send without a record, however many recipients it goes on to try |
| History.ManyLostIsLegal | airdrop.go:80-96 | until a block is acknowledged to it, a process can lose track of any number of sends in a row up to the recipients left and its limit on failures in a row |
| History.LimitBoundsRisk | airdrop.go:87-97 | with a limit k > 0 a process never has more than k sends without a synced record, over all it does |
| History.WorstLossExactly | airdrop.go:80-97 | between two recipients and before its first acknowledgement, what all the rest of a process can leave without a record is never more than, and can be exactly, everyone left to pay, or as many as failures in a row are left to its limit if those are fewer |
| History.LastChance | airdrop.go:87-97 | one failure short of its limit, a process adds at most one send without a record |
| History.ContainedExactly | journal.go:26-31 | between any two recipients, at most one more send without a record is what all the rest of the process guarantees if and only if a block has been acknowledged to it, one more failure in a row makes it stop, or at most one recipient is left to pay |
| History.ContainedFromTheStart | journal.go:26-31 | at the start of the payments that is: if and only if a block was received before them, the limit is 1, or at most one recipient is to be paid |
| History.RepeatedExactly | replay.go:202-227 | the airdrops of which some list named twice an address that the journal did not mark then are exactly those the state records |
| History.SettledOnce | airdrop.go:71-77 | over any history in which no list of an airdrop names an unmarked address twice, no address has two recorded payments of that airdrop |
| History.LandedExactly | plan.go:80-91 | over any history with such lists, the landed sends of an airdrop are exactly one for each address with a recorded payment, what its ended processes left without a synced record, and what a running one has yet to record; the last two are at most one for each such process and the sends it lost before its first acknowledgement |
| History.PaidAtMost | plan.go:80-91 | with such lists, at any point of any history, the landed sends of an airdrop number at most its recipients, plus its own processes that ended leaving a send without a synced record, plus the sends these lost before their first acknowledgement, plus what a process now running it has yet to record |
| History.OneDuplicatePerProcess | airdrop.go:99-106 | with such lists, and if for the processes of this airdrop a reported failure means nothing landed unless the process stops there, each of them leaves at most one send without a record, to the last address it attempted, and landed sends number at most the recipients, plus its processes that ended in that window, plus one while a process is inside it |
| History.EveryonePaidExactlyOnce | README.md:55-59 | when every recipient has a record, no list repeated an unmarked address and no process of the airdrop has left a send without a synced record, exactly one send of the airdrop to each recipient landed, with its amount and token, on the chain; if it had no other recipients, nothing else was sent |
| History.NoOverdraft | plan.go:127-142 | past the balance check, at every step, the balance has fallen by exactly amount times the landed sends and covers amount times the recipients still ahead |
| History.RerunPaysNobody | plan.go:80-91 | once every recipient has a record, the next process starts with all of them in its resume map |
| History.NobodyAttempted | airdrop.go:71-77 | a process whose resume map holds every recipient publishes no send |
| History.SyncedRecordsSurvive | journal.go:129-131 | a loss of power takes back no record once the file was synced to its end |
| History.EntriesKept | journal.go:65-70 | the journal is append-only: no step but a loss of power takes a record back |
| History.Prefixes | journal.go:20-24 | what a history passes through is a history: a process can be cut off between any two steps |
| History.Advance | airdrop.go:63-109 | a step the machine allows extends a history, and what is outside the process changes as the step says |
| History.SameRun | airdrop.go:63-109 | what was added to the log between two points of one process is a run of the machine from one state to the other |
| Feasible.PaymentGoesThrough | airdrop.go:80-109 | a process that is not stuck can pay and record any recipient still to be paid |
| Feasible.CanPayExactlyWhenNotStuck | airdrop.go:80-109 | a process between two recipients, short of its limit, can complete another payment if and only if no block lies beyond the last one acknowledged to it |
| Feasible.EveryoneCanBePaid | airdrop.go:63-109 | a process that is not stuck and is short of its limit can pay and record everyone still to be paid |
| Feasible.RepeatedAddressIsPaidTwice | replay.go:214-226 | a list that names an unmarked address twice can have it paid twice, with two synced records, by one process that does not end in between |
| Feasible.PaidTwiceExactly | replay.go:214-226 | a process between two recipients can still give an address a second recorded payment of its airdrop if and only if it is not stuck, is short of its limit, and an unmarked address ahead was settled before or comes earlier in what is ahead |
| Feasible.AgainFromTheStart | airdrop.go:71-77 | from the start of the payments that is: if and only if the list names an unmarked address twice |
| Feasible.ReceiveCanLand | plan.go:116-125 | before the balance check a receive block can land |
| Codecs.LawfulCodecExists | journal.go:40-48 | the laws assumed of the journal's encoding are consistent |
| Worlds.World.Publish | send.go:99-101 | a block lands only on the true tip and within the balance; an error promises nothing, no error means it landed |
| Senders.Sender.Frontier | send.go:188-218 | the last answer of the node decides: success exactly if it names the last acknowledged block, or there is none yet; every earlier answer lagged; failure only after the wait is over or on an interruption; at most floor(wait / 500) + 2 polls, in milliseconds |
| Senders.Sender.Send | send.go:61-104 | at most one block leaves the process, with exactly this payment, at the height and on the hash the node named, which is the last acknowledged block if there is one; nothing leaves only if the node lagged or refused; lastHash changes exactly on success; an interruption is reported only if there was one, and a failure only if a call failed without one or the wait was over |
| Senders.Sender.Receive | send.go:111-146 | the same for taking delivery of one send |
| Senders.Sender.ReceiveAll | send.go:154-181 | only receive blocks leave the process, the count is of acknowledged ones, and success means that every block the node listed was received, one new block on the chain for each, and that the node last listed nothing; none is begun after an interruption, and a failure has its cause |
| Recorder.Journal.Record | journal.go:109-132 | success exactly when the disk refuses nothing, and then the whole line is in the file and durable; failure leaves a prefix of the line |
| Recorder.Journal.Close | journal.go:134-140 | closing after any record writes nothing |
| Recorder.RecordLegal | journal.go:109-132 | recording the last acknowledged send, under the place of its recipient in the list, is a run of the protocol, however far it gets |
| Airdrops.StreakIsFailuresInARow | airdrop.go:87-97 | the counter reaches k exactly when the last k attempts, skips deleted, all failed |
| Airdrops.EveryOutcomeCounted | airdrop.go:43-50 | sent, skipped and failed add up to the recipients dealt with |
| Airdrops.LimitStep | airdrop.go:91-94 | the run stops at exactly the first point where the limit of failures in a row is reached |
| Airdrops.PublishLegal | airdrop.go:80-96 | a publish of the current payment is a step of the protocol, landed or not, reported or not |
| Airdrops.RecordPayment | airdrop.go:99-109 | recording an acknowledged payment is a run of the protocol; once synced there is one more payment that is on the chain and in the journal |
| Airdrops.RunIsContained | journal.go:26-31 | what one process adds from the start of its payments leaves at most its limit of sends without a record, at most one more if a block had been acknowledged, and otherwise at most the worst case of WorstLossExactly |
| Airdrops.Airdrop.Pay | airdrop.go:80-109 | one recipient: the outcome is true of the chain and the journal, what is added to the log is one attempt of the same process, and a failure or an interruption has its cause |
| Airdrops.Airdrop.Pause | airdrop.go:120-127 | the delay is waited out in full before another recipient, unless the user interrupts, and not after the last |
| Airdrops.Airdrop.Run | airdrop.go:58-130 | whatever happens, no block is begun once the user has interrupted, and a run begun after that attempts nobody; a run ends interrupted only on an interruption with somebody left, and fails sends only with a cause; by the end of n payments at least n - 1 delays have passed; what is added to the log is part of one process: skipped means marked, sent means on the chain and recorded, the report counts the outcomes, Total is Amount times Sent, Sent is the landed sends with a synced record, exactly the unmarked recipients before the stop are attempted in order, the stop rule holds at every point, and the sends left without a synced record are at most the limit, at most one more if a block had been acknowledged, and otherwise at most the worst case of WorstLossExactly |
| Processes.PaidIsMarked | plan.go:81-84 | the resume map holds exactly the addresses with a record for this run |
| Processes.UnmarkedAscends | airdrop.go:63-71 | the recipients without a record are walked in the order of the list |
| Processes.CleanRunPaysAll | airdrop.go:128-129 | a completed run without failures leaves nobody out |
| Processes.RerunIsQuiet | plan.go:80-91 | a process begun after everyone has a record attempts and sends nothing |
| Processes.ProcessAdds | plan.go:54-222 | from start to end one process attempts exactly the recipients before the stop without a record, in order; sends nothing if all have one; and leaves at most its limit of sends without a synced record |
| Processes.DistinctProcess | scan.go:107-115 | a process on a list that names nobody twice leaves its airdrop without a list that repeats an unmarked address, if it was so before |
| Processes.GateLegal | plan.go:127-142 | a balance that covers amount times the outstanding recipients lets the run begin |
| Plans.DisplayedAmountIsExact | plan.go:95-105 | the displayed and the raw amount of a log denote the same number of smallest units |
| Plans.RunPlan.Outstanding | plan.go:85-90 | the loop counts the recipients without a mark |
| Plans.RunPlan.Price | plan.go:85-105 | what is needed is amount times the recipients without a mark, and the log says what the job is |
| Plans.RunPlan.RunAirdrop | plan.go:187-199 | the run and the close of the journal are a stage of the same process; the counts are true: sent are the sends of this process with a synced record, skipped those passed that were marked, and with the failed that is everyone reached; completed without failures means everyone is marked; an interruption that came before means nobody was attempted |
| Plans.RunPlan.Execute | plan.go:179-221 | the send stage goes on with the same process and attempts exactly the unmarked recipients before the stop, in order; success means everyone is marked; each error has its cause; the log says it was published, with the true counts |
| Plans.RunPlan.Proceed | plan.go:116-221 | a dry run or a short balance lets nothing out but receive blocks; with -receive, success means the node listed nothing more to collect, and a dry run then has put one block on the chain for each block listed; the shortfall reported is exact; every error has its cause, and nothing is begun after an interruption |
| Plans.RunPlan.Resume | plan.go:80-222 | what is added to the log is one process of this job from reading the journal to its end, with what Processes.Adds says of it, and it ends as reported: with true counts, seen from the journal before it, and with everyone marked on success |
| Plans.RunPlan.PlanAndSend | plan.go:54-222 | a journal is refused only if the disk refuses to read it or some line of it is not one whole record, and then nothing changes; past it, exactly one process of this job is added, which attempts exactly the recipients without a record before the stop, in order, and sends nothing if everyone has one, so a clean run makes the next one send nothing; an interruption that came before means nobody is attempted; a dry run lets out receive blocks at most, none without -receive, and with it, on success, one on the chain for each pending block the node listed; a shortfall is the amount for everyone without a record less the balance; a clean run leaves a record for every recipient; every error has its cause; the scan log then describes exactly this job, how many had a record before it, and what became of the recipients |
| Scans.CandidatesActed | scan.go:126-167 | the candidates of a range are exactly the addresses that acted in it |
| Scans.Scanner.ScanBatch | scan.go:126-168 | after a batch the addresses seen and the counters are those of the range so far |
| Scans.SortedList | scan.go:107-115 | the set as a strictly ascending list |
| Scans.Scanner.Scan | scan.go:54-119 | the strictly ascending list of exactly the users that acted at the heights covered, with exact counters, however the node split its answers; the end of the range was reached if and only if no answer was empty; each error has its cause; nothing is asked for outside the range, in batches larger than 1024 momentums (100 with recipients), or after an interruption; it terminates without wrap-around |
| Scans.RescanAgrees | scanlog.go:33-42 | two scans covering one range give one list and one digest however much the chain grew in between |
| Scans.ResolveRange | scan.go:178-209 | from is at most to, and to at most the tip, without wrap-around |
| Scans.NamedRange | scan.go:178-209 | exactly which flags name a range and which one: the end is -to or the tip, the start is -from, or max(1, to - N + 1) under -last N |
| Scans.NotNamedExactly | scan.go:178-209 | which error is given when the flags name no range |
| Scans.RangeIsReproducible | scan.go:178-209 | from is at least 1, and naming a resolved range by its heights gives the same range at any later tip |
| ScanLogs.ScanLog.SetFilter | scanlog.go:222-231 | the recipients are recorded with their digest and count |
| ScanLogs.SelectedFacts | main.go:366-395 | narrowing keeps exactly the wanted addresses, their order and their distinctness |
| ScanLogs.Without | main.go:387-395 | the loop keeps everyone but one address |
| ScanLogs.FilterByHolding | main.go:366-385 | the loop keeps exactly those holding the floor, or gives up at an address the node does not answer for or when the user interrupts, after which nothing more is asked |
| ScanLogs.CountDifferences | main.go:504-517 | for a list without repeats the counters are the sizes of the two set differences |
| ScanLogs.NothingDiffers | main.go:504-517 | both counts are zero exactly when the lists name the same addresses |
| ScanLogs.VerifyScan | main.go:465-518 | a log whose digest is that of its list is reproduced exactly when the new scan finds the same addresses; otherwise one of the counts is not zero; what is found is exact up to the height covered, which is the logged end if and only if no answer was empty |
| Replays.ReplayList | replay.go:202-227 | it succeeds exactly with the list the texts parse to, if that is not empty and has the digest the log recorded beside it: of the narrowed list if that holds somebody, else of the scan; each error is given for its reason, the first text that is no address named |
| Replays.NarrowedListIsReplayed | replay.go:203-209 | the narrowed list is the one replayed if and only if it holds somebody or the scan found nobody; otherwise, and without filters, it is the scanned list |
| Replays.OnlyTheApprovedList | replay.go:193-227 | a list with the recorded digest is a permutation of the one recorded |
| Replays.RawAmountReadsBack | replay.go:100-109 | the recorded smallest-unit amount reads back as itself |
| Replays.ReplayIsTheSameJob | replay.go:71-190 | a replay without overrides has the same recipients in order, amount, range and run key as the run that wrote the log |
| Replays.FlagsWin | replay.go:71-112 | what is passed on the command line wins over the log, the range is always the log's, and the replay goes on if and only if that names a token the node knows and a positive amount of it, exactly the one denoted or recorded |
| Replays.NotChosenExactly | replay.go:81-112 | which error is given otherwise |
| Replays.OverrideStartsAnotherRun | replay.go:75-81 | an override that changes token or amount has another run key |
| Tool.MarkedIsPaid | journal.go:97-104 | a record for a run in any reachable state is a payment on the chain |
| Tool.Narrow | main.go:273-291 | leaving out the sender and those who hold too little keeps exactly the others, in order, each once; it fails only without a token to weigh, on an interruption or on an address that is not answered for |
| Tool.ScanRange | main.go:181-214 | what is found, and what the log says of it, is exact up to the height covered, which is the end of the resolved range if and only if no answer was empty |
| Tool.LogIsReproduced | scanlog.go:33-42 | the log of a range that was covered is reproduced, list and digest, by every later scan that covers it |
| Tool.Find | main.go:171-300 | the list is exactly the eligible users of the heights covered, in order, each once; without one, there is a reason: no range named, a scan or a weighing that failed, or nobody eligible |
| Tool.SameFlagsSameRun | main.go:171-180 | flags that named an airdrop name one at any later tip, and it is the same one if and only if -to was given or the tip has not moved |
| Tool.SameFlagsSkip | README.md:57-58 | running again with the same flags leaves out whoever is already recorded if and only if -to was given or the tip has not moved; otherwise, with nothing in the journal under the new key, everybody is due again |
| Tool.PayList | main.go:296-320 | a journal is refused only for its reason; past it, the log describes the job and exactly one process of it was added, ending as reported; success means everyone on the list was sent the amount, and with a list without repeats exactly once under the conditions of EveryonePaidExactlyOnce |
| Tool.Airdrop | main.go:171-320 | when no process is added there is a reason: no plan could be made, or the journal was refused because the disk or a line of it is broken; past the journal, exactly one process is added, of the job the log describes, whose list holds exactly the eligible users of the heights covered, each once; the heights covered are the whole range if and only if no answer was empty; when success is reported everyone on the list was sent exactly the amount on the chain, and exactly once if no earlier list of the airdrop repeated an unmarked address and no process of it ended leaving a send without a synced record; an interruption that came before means nobody is attempted; the same flags name the same airdrop at a later tip if and only if -to was given or the tip has not moved; without -confirm nothing leaves but receive blocks, and those only with -receive |
| Tool.Replay | replay.go:40-191 | an unusable log, or a journal refused for its reason, changes nothing; the list paid has the digest the log recorded, so it is the approved one up to its order; token, amount and range are those of the flags and the log; past the journal exactly one process of that job is added, and without overrides that is the job of the run that wrote the log, so exactly its recipients without a record are attempted, in order; success means everyone on the list was sent the amount |

## Left out

- HTTP, JSON-RPC, response decoding, flags, `.env`, wallets, progress lines, `eta`, `short` and `width`: transport and user interface; an error from the frontier call reads as "no block", as in `rpc.go:219-225`.
- SHA-256, signatures, proof of work, plasma prices and bech32: uninterpreted, under the assumptions above; plasma and momentum failures are one more way for a send to fail before publishing.
- Two processes using the key or the journal at once: the code has no locking and does not claim to support it.
- `ReceiveAll` termination: the node is taken to list pending blocks finitely often.
- A block height beyond 2^64 - 1 on the account chain, and an amount of nil, which no caller passes.
- The chunking of buffered writes: a failed flush leaves any prefix of the line, which covers every chunking.
- Text in a journal that the tool did not write: entries name addresses as the tool prints them.
- Elapsed times, the wording of errors, and the exit status: an interruption during the listing of pending blocks or the balance call reads as a failure of that call; the journal is always there, as `planAndSend` always opens one.
- The scan log's file format, time stamps and atomic rename, and the text of the reproduce command: a saved log is the value of its fields.
- The order in which a Go map yields the seen addresses: any order, sorted afterwards.
- Flag handling around the stages in `main.go` and `replay.go`, the key lookups and the chain check: that a sending run has its key, token and amount is a precondition of `Tool.Airdrop` and `Tool.Replay`.
- A failure to marshal a journal entry: its fields are strings, a number and the present time.
- Holdings are read from a fixed snapshot: each address is asked about once.
