# Grid Engine execution provider, modelled in Dafny

This project models `GridEngine`, the execution provider that acquires and
releases worker slots on a Sun/Univa Grid Engine cluster. It submits a fixed
`qsub` pilot script that starts an `ipengine`. It cancels jobs with `qdel` and
can start and stop an `ipcontroller` for the workers to connect to.

The provider keeps three pieces of state:

- the job ledger `resources`, a dict from job id to `{job_name, job_id, status}`;
- the capacity counter `current_blocksize`;
- the controller flag `has_ipcontroller`.

The model has five modules:

- `Text` (text.dfy): Python's `str.strip()` and the substring test `pat in s`,
  on `seq<char>`.
- `JobStates` (job_states.dfy): the canonical job states and the provider's
  `translate_table`.
- `ProviderModel` (provider_model.dfy): the provider as a pure state machine.
  A `Provider` value holds the ledger, the dict's key order, the counter, the
  flag and a log of the shell commands issued. Each operation is a function
  from the old value and the shell's answers to the new value and the result.
- `ProviderProperties` (provider_properties.dfy): what the operations
  guarantee over whole sequences of calls. This covers the ledger invariant,
  the counter arithmetic, the `bye` sweep, and concrete runs that show where
  the provider departs from the execution-provider contract.
- `GridEngineProvider` (grid_engine.dfy): `class GridEngine`. Its fields are
  updated in place by its methods. Each method is proved to change the object
  exactly as the matching `ProviderModel` function changes a `Provider`.
  `cancel` keeps the source's loop.

Every `os.popen(...).read()` becomes a parameter of type `Outcome`: either the
text the command printed, or the exception the call raised. `cancel` and `bye`
take one answer per `qdel` call, in call order. A bare `os.popen(...)` whose
output is never read (the controller launch and `killall`) becomes a parameter
of type `Popen`: either the call returned, or it raised. Every command handed
to `os.popen`, whether or not the call then raised, is recorded in the ghost
field `issued`, a sequence of `Command` values (`Qsub`, `Qdel`,
`StartController`, `KillController`).

From Python 3.7 on, a dict iterates in insertion order, and `bye` cancels
`list(self.resources)`. So the model keeps the ledger as a `map` plus `order`,
its keys in insertion order. Overwriting an existing key keeps that key's
position, as in Python. The order in which `ProviderModel.Bye` issues its
`qdel` commands rests on that guarantee. On an older interpreter only
`ByeCommandsCount` applies: one `qdel` per key, in some order.

### Where the code and the provider contract disagree

The model follows the code. Each of the first five differences below is proved as a lemma.

- The contract says the counter drops only on a successful cancellation and
  never goes negative. `cancel` drops it once per id passed, whatever `qdel`
  answers and whether or not the id is in the ledger. A fresh provider that
  cancels an unknown id, which `qdel` refuses, has capacity -1
  (`CounterLeavesLedger`). A job cancelled twice, the second time refused,
  leaves capacity -1 as well (`SubmitCancelScenario`).
- The contract says a cancelled job becomes CANCELLED or is removed.
  `cancel` never touches the ledger (`ProviderModel.Cancel`,
  `RunNeverRemovesJobs`). Nothing ever changes a record's status: every entry
  stays PENDING (`RunKeepsAllPending`).
- The contract says cleanup is idempotent. A second `bye` cancels every key
  again and lowers the counter again (`ByeTwice`).
- The contract says the counter matches the ledger. Two submissions that
  return the same job id leave one entry but a counter of 2
  (`CounterLeavesLedger`).
- The contract says a submission that fails raises an error. A `qsub` that
  fails without `os.popen` raising prints nothing on stdout, and stderr is
  not captured. `submit` then returns the empty job id, files a PENDING entry
  under it and still raises the counter, so a failed submission counts as
  capacity (`EmptyQsubOutputRecorded`).
- The contract says `status` maps each id to a state. Here `status` is an
  empty stub, so there is nothing to prove about it.

## Model

| member | source | states |
|---|---|---|
| `JobStates.Translate` | libsubmit/libsubmit/providers/sge/sge.py:25-31 | `translate_table.get(token, default)`: `qw` gives PENDING, `r` gives RUNNING, the four shutdown tokens give COMPLETED, any other token gives the default; CANCELLED, FAILED and TIMEOUT only ever come from the default |
| `JobStates.TranslateTableVocabulary` | libsubmit/libsubmit/providers/sge/sge.py:25-31 | the table lists exactly six tokens, maps each to PENDING, RUNNING or COMPLETED, and a token maps to COMPLETED iff it is `terminated`, `shutting-down`, `stopping` or `stopped` |
| `Text.TrimStartSpec` | libsubmit/libsubmit/providers/sge/sge.py:121 | leading-whitespace removal keeps a suffix that does not start with whitespace and drops only whitespace |
| `Text.TrimEndSpec` | libsubmit/libsubmit/providers/sge/sge.py:121 | trailing-whitespace removal keeps a prefix that does not end with whitespace and drops only whitespace |
| `Text.Strip` | libsubmit/libsubmit/providers/sge/sge.py:121 | `str.strip()`: drops leading, then trailing, whitespace; `Text.StripSpec` and `Text.StripIdempotent` state what the result is |
| `Text.StripSpec` | libsubmit/libsubmit/providers/sge/sge.py:121 | the job id `.strip()` yields is a slice of the `qsub` output with no whitespace at either end, and everything cut away is whitespace |
| `Text.StripIdempotent` | libsubmit/libsubmit/providers/sge/sge.py:121 | stripping a job id again leaves it unchanged |
| `Text.StripAllWhitespace` | libsubmit/libsubmit/providers/sge/sge.py:121 | a text made only of whitespace strips to the empty string |
| `Text.Contains` | libsubmit/libsubmit/providers/sge/sge.py:172 | `pat in s`: scans `s` from the left for `pat`; `Text.ContainsSpec` states it is true iff `pat` occurs at some index of `s` |
| `Text.ContainsSpec` | libsubmit/libsubmit/providers/sge/sge.py:172 | the left-to-right scan for the phrase succeeds iff the phrase occurs at some index of the text |
| `Text.NotContainsWithoutChar` | libsubmit/libsubmit/providers/sge/sge.py:172 | the `in` test fails on any text that lacks some character of the phrase |
| `ProviderModel.CreateCmdString` | libsubmit/libsubmit/providers/sge/sge.py:83-91 | `create_cmd_string` is, in order and with nothing else: the `qsub -terse` line, `PATH=`, `path`, the `export PATH` line and `LD_LIBRARY_PATH=`, `lib_path`, then the lines that export it and start `ipengine` |
| `ProviderModel.CreateCmdStringDetermined` | libsubmit/libsubmit/providers/sge/sge.py:83-91 | the script determines its arguments: equal scripts built from paths of equal length were built from the same `path` and the same `lib_path` |
| `ProviderModel.PilotIsCreateCmdString` | libsubmit/libsubmit/providers/sge/sge.py:113-120 | the script `submit` pipes to `qsub` is `create_cmd_string` with `/local/cluster/bin` and `/local/cluster/lib`, and differs from the script built from the defaults |
| `ProviderModel.Acknowledged` | libsubmit/libsubmit/providers/sge/sge.py:167-172 | one `qdel` counts as cancelled iff the call did not raise and its output contains "has registered the job" (a raising call yields "False", hence false) |
| `ProviderModel.Acknowledgements` | libsubmit/libsubmit/providers/sge/sge.py:165-175 | the list `cancel` returns has one entry per `qdel` answer, in order, and entry i is true iff answer i is output containing the phrase |
| `ProviderModel.CancelStep` | libsubmit/libsubmit/providers/sge/sge.py:165-175 | one more turn of the `cancel` loop appends exactly that call's verdict to the list and exactly one `qdel` of that id to the commands |
| `ProviderModel.QdelCommands` | libsubmit/libsubmit/providers/sge/sge.py:166-168 | `cancel` issues one `qdel <id>` per id, in the order given |
| `ProviderModel.Init` | libsubmit/libsubmit/providers/sge/sge.py:64-77 | a new provider has an empty ledger and key order, counter 0, no controller and no commands issued, and satisfies the ledger invariant |
| `ProviderModel.Submit` | libsubmit/libsubmit/providers/sge/sge.py:111-133 | sends the fixed pilot script whatever `cmd_string` and `blocksize` are; if the call raises, the exception is returned and ledger, key order and counter are unchanged; otherwise the stripped output is returned as job id, exactly that one ledger key is inserted or overwritten with `{job_name, job_id, PENDING}`, every other entry is kept, a new key goes at the end of the key order, and the counter rises by exactly 1 |
| `ProviderModel.SubmitKeepsLedgerValid` | libsubmit/libsubmit/providers/sge/sge.py:123-126 | after `submit`, each ledger key still appears once in the key order and every entry is still filed under its own `job_id` |
| `ProviderModel.Cancel` | libsubmit/libsubmit/providers/sge/sge.py:165-175 | returns one boolean per id, same order, true iff that `qdel` output holds the phrase; lowers the counter by exactly the number of ids whatever the answers; leaves ledger, key order and flag unchanged; issues `qdel` for each id in order |
| `ProviderModel.StartIpcontroller` | libsubmit/libsubmit/providers/sge/sge.py:203-212 | hands the `ipcontroller` launch with the given ip and options to `os.popen`; if the call returns the flag is set, if it raises the exception comes back and the flag is as it was; ledger and counter unchanged |
| `ProviderModel.StopIpcontroller` | libsubmit/libsubmit/providers/sge/sge.py:214-216 | hands `killall ipcontroller` to `os.popen`; if the call returns the flag is cleared, if it raises the exception comes back and the flag is as it was; ledger and counter unchanged |
| `ProviderModel.Bye` | libsubmit/libsubmit/providers/sge/sge.py:218-221 | cancels every ledger key in dict order, then issues the controller kill iff the flag was set; the ledger is unchanged and the counter is down by the number of keys; the flag stays set, and `bye` raises, exactly when it was set and the kill call raised |
| `ProviderProperties.RunCapacity` | libsubmit/libsubmit/providers/sge/sge.py:127-175 | over any sequence of `submit`, `cancel`, `start_ipcontroller` and `stop_ipcontroller` calls the counter equals its start value plus the submissions whose `qsub` did not raise, minus the number of ids passed to `cancel` |
| `ProviderProperties.ApplyKeepsLedgerValid` | libsubmit/libsubmit/providers/sge/sge.py:123-126 | each of `submit`, `cancel`, `start_ipcontroller` and `stop_ipcontroller` keeps the ledger invariant |
| `ProviderProperties.RunKeepsLedgerValid` | libsubmit/libsubmit/providers/sge/sge.py:123-126 | the ledger invariant holds after any sequence of `submit`, `cancel`, `start_ipcontroller` and `stop_ipcontroller` calls |
| `ProviderProperties.RunNeverRemovesJobs` | libsubmit/libsubmit/providers/sge/sge.py:165-175 | no sequence of `submit`, `cancel`, `start_ipcontroller` and `stop_ipcontroller` calls removes a job id from the ledger |
| `ProviderProperties.RunKeepsAllPending` | libsubmit/libsubmit/providers/sge/sge.py:123-126 | if every entry is PENDING, every entry stays PENDING after any sequence of `submit`, `cancel`, `start_ipcontroller` and `stop_ipcontroller` calls |
| `ProviderProperties.SubmitOpRecords` | libsubmit/libsubmit/providers/sge/sge.py:121-132 | a submission that goes through files one PENDING record under its stripped id and adds one to the counter |
| `ProviderProperties.FreshSubmissionsTail` | libsubmit/libsubmit/providers/sge/sge.py:121-126 | after the first of a run of submissions with new, distinct ids, the remaining ids are still new |
| `ProviderProperties.FreshSubmissionsRecorded` | libsubmit/libsubmit/providers/sge/sge.py:121-133 | N submissions with new, distinct ids raise the counter by N, add N ledger entries (one `{job_name, id, PENDING}` per id), and keep every earlier entry |
| `ProviderProperties.FreshProviderAfterSubmissions` | libsubmit/libsubmit/providers/sge/sge.py:67-133 | from a provider with an empty ledger and counter 0, as a fresh one has, N submissions with distinct ids give capacity N and exactly N ledger entries, all PENDING |
| `ProviderProperties.QdelMultiplicity` | libsubmit/libsubmit/providers/sge/sge.py:166-168 | for a repeat-free id list, `cancel` issues exactly one `qdel` per listed id and none for any other |
| `ProviderProperties.DistinctCardinality` | libsubmit/libsubmit/providers/sge/sge.py:219 | a repeat-free key list has as many elements as its set of keys |
| `ProviderProperties.LedgerSize` | libsubmit/libsubmit/providers/sge/sge.py:219 | `list(self.resources)` has as many elements as the ledger has entries |
| `ProviderProperties.ByeCommandsCount` | libsubmit/libsubmit/providers/sge/sge.py:218-221 | the commands `bye` issues hold one `qdel` per ledger key and no other, and one controller kill exactly when a controller was started |
| `ProviderProperties.ByeSweepsLedger` | libsubmit/libsubmit/providers/sge/sge.py:218-221 | `bye` appends exactly those commands, lowers the counter by the size of the ledger and, when the kill call does not raise, leaves the flag clear |
| `ProviderProperties.ByeTwice` | libsubmit/libsubmit/providers/sge/sge.py:218-221 | a second `bye` cancels every key again and lowers the counter again; it issues a second controller kill only if the first one raised |
| `ProviderProperties.StripJobIdLine` | libsubmit/libsubmit/providers/sge/sge.py:121 | the `qsub -terse` reply "42" plus newline strips to the job id "42" |
| `ProviderProperties.QdelRepliesRecognised` | libsubmit/libsubmit/providers/sge/sge.py:172 | a `qdel` reply "<user> has registered the job <id> for deletion" counts as success for every user and id; "denied: job "<id>" does not exist" does not, for every all-digit id |
| `ProviderProperties.QdelDeletedReplyNotRecognised` | libsubmit/libsubmit/providers/sge/sge.py:172 | a `qdel` reply "<user> has deleted job <id>" counts as failure, for every user and id without the letter g |
| `ProviderProperties.EmptyQsubOutputRecorded` | libsubmit/libsubmit/providers/sge/sge.py:121-132 | a `qsub` whose output is empty or only whitespace, with no exception, still yields `Ok("")`, a PENDING entry under the empty id and one more unit of capacity |
| `ProviderProperties.SubmitCancelScenario` | libsubmit/libsubmit/providers/sge/sge.py:111-175 | submit answered "42" gives id "42" and capacity 1; an acknowledged cancel gives [true] and capacity 0 but keeps the entry; a second cancel gives [false] and capacity -1 |
| `ProviderProperties.CounterLeavesLedger` | libsubmit/libsubmit/providers/sge/sge.py:121-174 | two submissions returning the same id give one ledger entry but capacity 2; cancelling an unknown id on a fresh provider, which `qdel` refuses, gives [false], capacity -1 and an empty ledger |
| `GridEngineProvider.GridEngine.constructor` | libsubmit/libsubmit/providers/sge/sge.py:64-77 | a new provider has an empty ledger, counter 0 and no controller |
| `GridEngineProvider.GridEngine.Submit` | libsubmit/libsubmit/providers/sge/sge.py:111-133 | updates the fields and returns exactly what `ProviderModel.Submit` gives, and keeps the ledger invariant |
| `GridEngineProvider.GridEngine.Cancel` | libsubmit/libsubmit/providers/sge/sge.py:165-175 | the loop over the ids builds the list and lowers the counter once per id, ending as `ProviderModel.Cancel` says |
| `GridEngineProvider.GridEngine.ScalingEnabled` | libsubmit/libsubmit/providers/sge/sge.py:177-184 | always true |
| `GridEngineProvider.GridEngine.CurrentCapacity` | libsubmit/libsubmit/providers/sge/sge.py:186-192 | the capacity counter, read without changing anything |
| `GridEngineProvider.GridEngine.ChannelsRequired` | libsubmit/libsubmit/providers/sge/sge.py:194-201 | always false |
| `GridEngineProvider.GridEngine.StartIpcontroller` | libsubmit/libsubmit/providers/sge/sge.py:203-212 | sets the flag if the launch call returns and returns its exception otherwise, exactly as `ProviderModel.StartIpcontroller` says |
| `GridEngineProvider.GridEngine.StopIpcontroller` | libsubmit/libsubmit/providers/sge/sge.py:214-216 | clears the flag if the kill call returns and returns its exception otherwise, exactly as `ProviderModel.StopIpcontroller` says |
| `GridEngineProvider.GridEngine.Bye` | libsubmit/libsubmit/providers/sge/sge.py:218-221 | cancels the ledger keys through `Cancel`, then stops the controller through `StopIpcontroller` iff the flag was set, exactly as `ProviderModel.Bye` says |

## Left out

- The processes themselves: running `qsub`, `qdel`, `ipcontroller` and `killall` through `os.popen`. Their printed output, or the exception the call raised, is a parameter. Only the commands handed to `os.popen` are recorded, not what the processes do.
- ProviderModel.Cancel, ProviderModel.Bye, GridEngine.Cancel and GridEngine.Bye take exactly one `qdel` answer per id. This is how the shell is modelled here, not a demand the source makes of its callers.
- `time.sleep(5)` in `start_ipcontroller`: timing only.
- The handle `start_ipcontroller` gets back from `os.popen`: it is never read.
- `atexit.register(self.bye)`: a process-wide exit hook. `bye` is modelled as a plain method.
- The configuration-derived fields `channel`, `config`, `sitename`, `launcher` and `scriptDir`. The `Launchers.get` lookup and the creation of `scriptDir` with `os.makedirs` are left out too. None of them is read by the modelled operations.
- `__repr__` and all logging calls.
- `status`: its body is `pass`, so it returns `None` and changes nothing. There is no behaviour to state.
- Exceptions other than those an `os.popen` call raises. For example, a `KeyError` from a malformed `config` in `__init__` is not modelled.
- The default `cmd_string=None` of `submit` becomes the empty string. `submit` never reads `cmd_string`, so the value does not matter. The other defaults (`path`, `lib_path`, `blocksize`, `job_name`, `ip`, `options`) are declared as default values of the corresponding formals. `qsub` and `popen`, the shell's answers, come first so that callers can pass them by position; placed after the optional formals, as in the source, they would have to be passed by name.
- Python's `in` and `str.strip()` are modelled on `seq<char>`. Whitespace is the set of characters Python's `str.isspace()` accepts.
- The test configurations (`parsl/tests/configs/`) and the FTP staging test are not part of this model. They only build objects of classes defined elsewhere.
