// The Grid Engine execution provider as a pure state machine. A `Provider`
// value holds what a `GridEngine` object holds (the job ledger, the capacity
// counter, the controller flag) together with the log of shell commands it
// has issued; each public operation is a function from the old value and the
// shell's answers to the new value and the operation's result. The class in
// grid_engine.dfy is proved to follow these functions, and the lemmas here
// state what they guarantee, alone and over whole traces of operations.
module ProviderModel {
  import opened Text
  import opened JobStates

  /** What one `os.popen(cmd).read()` gives back: the text the command
      printed, or the exception the call raised. */
  datatype Outcome = Output(text: string) | Raised(error: string)

  /** What a bare `os.popen(cmd)` whose output is never read gives back: a
      handle to the started process, or the exception the call raised. */
  datatype Popen = Opened | PopenRaised(error: string)

  /** A value, or the exception that stopped the operation. */
  datatype Result<T> = Ok(value: T) | Err(error: string)

  /** One ledger entry, the dict `{"job_name", "job_id", "status"}`. */
  datatype JobRecord = JobRecord(jobName: string, jobId: string, status: JobState)

  /** A shell command handed to `os.popen`. */
  datatype Command =
    | Qsub(script: string)                          // `qsub ... -terse << EOF ... EOF`
    | Qdel(jobId: string)                           // `qdel <job_id>`
    | StartController(ip: string, options: string)  // `ipcontroller --ip="<ip>" <options> &`
    | KillController                                // `killall ipcontroller`

  /** The state of one provider: `resources` (the ledger, keyed on job id),
      `order` (the ledger's keys in the order a Python dict yields them),
      `blocksize` (`current_blocksize`), `hasIpcontroller`
      (`has_ipcontroller`) and `issued` (every shell command so far). */
  datatype Provider = Provider(
    resources: map<string, JobRecord>,
    order: seq<string>,
    blocksize: int,
    hasIpcontroller: bool,
    issued: seq<Command>)

  /** The new state after an operation, and what the operation returned. */
  datatype Transition<T> = Transition(state: Provider, value: T)

  const QSUB_HEADER: string := "qsub -e /dev/null -o /dev/null -terse << EOF\n"
  const IPENGINE_TAIL: string := "\nexport LD_LIBRARY_PATH\nipengine\nEOF\n"
  /** The text before the `path` argument and the text between the two arguments. */
  const PATH_SET: string := "PATH="
  const LIB_PATH_SET: string := "\nexport PATH\nLD_LIBRARY_PATH="

  /** The fixed pilot script `submit` pipes to `qsub`. */
  const QSUB_PILOT: string :=
    QSUB_HEADER + PATH_SET + "/local/cluster/bin" + LIB_PATH_SET + "/local/cluster/lib" + IPENGINE_TAIL

  /** The default arguments of `create_cmd_string`. */
  const DEFAULT_PATH: string := "/local/cluster/bin/:$PATH"
  const DEFAULT_LIB_PATH: string := "/local/cluster/lib/"

  /** The default arguments of `submit` and `start_ipcontroller`. */
  const DEFAULT_BLOCKSIZE: int := 1
  const DEFAULT_JOB_NAME: string := "parsl.auto"
  const DEFAULT_IP: string := "*"
  const DEFAULT_OPTIONS: string := "--quiet"

  /** The phrase in the output of `qdel` that `cancel` takes as success. */
  const CANCEL_ACK: string := "has registered the job"

  /** `create_cmd_string(path, lib_path)`: a `qsub` here-document that sets
      PATH and LD_LIBRARY_PATH to the two arguments and starts an ipengine. */
  function CreateCmdString(path: string := DEFAULT_PATH, libPath: string := DEFAULT_LIB_PATH): (r: string)
    ensures |r| == |QSUB_HEADER| + |PATH_SET| + |path| + |LIB_PATH_SET| + |libPath| + |IPENGINE_TAIL|
    ensures r[..|QSUB_HEADER|] == QSUB_HEADER
    ensures r[|QSUB_HEADER|..|QSUB_HEADER| + |PATH_SET|] == PATH_SET
    ensures r[|QSUB_HEADER| + |PATH_SET|..|QSUB_HEADER| + |PATH_SET| + |path|] == path
    ensures r[|QSUB_HEADER| + |PATH_SET| + |path|..|QSUB_HEADER| + |PATH_SET| + |path| + |LIB_PATH_SET|] == LIB_PATH_SET
    ensures r[|QSUB_HEADER| + |PATH_SET| + |path| + |LIB_PATH_SET|..|r| - |IPENGINE_TAIL|] == libPath
    ensures r[|r| - |IPENGINE_TAIL|..] == IPENGINE_TAIL
  {
    QSUB_HEADER + PATH_SET + path + LIB_PATH_SET + libPath + IPENGINE_TAIL
  }

  /** The script determines its arguments: two calls that give the same
      script with paths of the same length were given the same `path` and
      the same `lib_path`. */
  lemma CreateCmdStringDetermined(path1: string, libPath1: string, path2: string, libPath2: string)
    requires |path1| == |path2|
    requires CreateCmdString(path1, libPath1) == CreateCmdString(path2, libPath2)
    ensures path1 == path2 && libPath1 == libPath2
  {
    var r := CreateCmdString(path1, libPath1);
    var start := |QSUB_HEADER| + |PATH_SET|;
    assert path1 == r[start..start + |path1|] == path2;
    assert libPath1 == r[start + |path1| + |LIB_PATH_SET|..|r| - |IPENGINE_TAIL|] == libPath2;
  }

  /** The script `submit` sends is `create_cmd_string` applied to the cluster
      paths without their trailing `/` and without `:$PATH`, so it is not the
      script `create_cmd_string()` builds from its defaults. */
  lemma PilotIsCreateCmdString()
    ensures QSUB_PILOT == CreateCmdString("/local/cluster/bin", "/local/cluster/lib")
    ensures QSUB_PILOT != CreateCmdString()
  {
  }

  /** Whether `cancel` counts one `qdel` call as a success: the call's output
      (or the text "False" when the call raised) contains `CANCEL_ACK`. */
  function Acknowledged(o: Outcome): (r: bool)
    ensures r <==> o.Output? && Contains(o.text, CANCEL_ACK)
  {
    var outp := if o.Output? then o.text else "False";
    Contains(outp, CANCEL_ACK)
  }

  /** The list `cancel` returns for the given `qdel` answers, one per answer,
      in order. */
  function Acknowledgements(outs: seq<Outcome>): (r: seq<bool>)
    ensures |r| == |outs|
    ensures forall i :: 0 <= i < |outs| ==> (r[i] <==> outs[i].Output? && Contains(outs[i].text, CANCEL_ACK))
  {
    if outs == [] then [] else Acknowledgements(outs[..|outs| - 1]) + [Acknowledged(outs[|outs| - 1])]
  }

  /** The `qdel` commands `cancel` issues for `ids`, one per id, in order. */
  function QdelCommands(ids: seq<string>): (r: seq<Command>)
    ensures |r| == |ids|
    ensures forall i :: 0 <= i < |ids| ==> r[i] == Qdel(ids[i])
  {
    if ids == [] then [] else QdelCommands(ids[..|ids| - 1]) + [Qdel(ids[|ids| - 1])]
  }

  /** Answering the `qdel` for id `i` extends both the verdicts and the
      command log by one entry, at the end. */
  lemma CancelStep(jobIds: seq<string>, qdel: seq<Outcome>, i: nat)
    requires i < |jobIds| == |qdel|
    ensures Acknowledgements(qdel[..i + 1]) == Acknowledgements(qdel[..i]) + [Acknowledged(qdel[i])]
    ensures QdelCommands(jobIds[..i + 1]) == QdelCommands(jobIds[..i]) + [Qdel(jobIds[i])]
  {
    assert qdel[..i + 1][..i] == qdel[..i];
    assert jobIds[..i + 1][..i] == jobIds[..i];
  }

  /** No two positions of `s` hold the same string. */
  ghost predicate Distinct(s: seq<string>) {
    forall i, j :: 0 <= i < j < |s| ==> s[i] != s[j]
  }

  /** The ledger invariant of a provider: its ledger and key order are
      well filed. It is stated on the two fields alone, through `WellFiled`,
      so that an operation that leaves both fields untouched (`cancel`, the
      controller calls) keeps it without the verifier re-examining the
      ledger. */
  ghost predicate LedgerValid(p: Provider) {
    WellFiled(p.resources, p.order)
  }

  /** `order` lists each key of `resources` exactly once, and every entry is
      filed under its own job id. */
  ghost predicate WellFiled(resources: map<string, JobRecord>, order: seq<string>) {
    && Distinct(order)
    && (forall k :: k in resources <==> k in order)
    && (forall k :: k in resources ==> resources[k].jobId == k)
  }

  /** A freshly constructed provider. */
  function Init(): (r: Provider)
    ensures LedgerValid(r)
    ensures r.resources == map[] && r.order == [] && r.blocksize == 0
    ensures !r.hasIpcontroller && r.issued == []
  {
    Provider(map[], [], 0, false, [])
  }

  /** `submit(cmd_string, blocksize, job_name)`, with the source's defaults
      except that `cmd_string=None` becomes the empty string (it is never
      read). The pilot script is sent
      whatever `cmd_string` and `blocksize` are. If the call raises, the
      exception comes back and neither ledger nor counter changes. Otherwise
      the stripped output is the job id: exactly one ledger entry, under that
      id, is inserted or overwritten with a PENDING record, every other entry
      is kept, and the counter goes up by exactly one. */
  function Submit(p: Provider, qsub: Outcome, cmdString: string := "", blocksize: int := DEFAULT_BLOCKSIZE,
                  jobName: string := DEFAULT_JOB_NAME): (r: Transition<Result<string>>)
    ensures r.state.issued == p.issued + [Qsub(QSUB_PILOT)]
    ensures r.state.hasIpcontroller == p.hasIpcontroller
    ensures qsub.Raised? ==>
      && r.value == Err(qsub.error)
      && r.state.resources == p.resources && r.state.order == p.order && r.state.blocksize == p.blocksize
    ensures qsub.Output? ==>
      && r.value == Ok(Strip(qsub.text))
      && r.state.blocksize == p.blocksize + 1
      && Strip(qsub.text) in r.state.resources
      && r.state.resources[Strip(qsub.text)] == JobRecord(jobName, Strip(qsub.text), Pending)
      && (forall k :: k != Strip(qsub.text) ==> (k in r.state.resources <==> k in p.resources))
      && (forall k :: k != Strip(qsub.text) && k in p.resources ==> r.state.resources[k] == p.resources[k])
      && r.state.order == if Strip(qsub.text) in p.resources then p.order else p.order + [Strip(qsub.text)]
  {
    var issued := p.issued + [Qsub(QSUB_PILOT)];
    match qsub
    case Raised(e) => Transition(p.(issued := issued), Err(e))
    case Output(text) =>
      var jobId := Strip(text);
      var slot := JobRecord(jobName, jobId, Translate("qw", Pending));
      var order := if jobId in p.resources then p.order else p.order + [jobId];
      Transition(p.(resources := p.resources[jobId := slot], order := order,
                    blocksize := p.blocksize + 1, issued := issued),
                 Ok(jobId))
  }

  /** A submission keeps the ledger invariant. */
  lemma SubmitKeepsLedgerValid(p: Provider, qsub: Outcome, cmdString: string, blocksize: int, jobName: string)
    requires LedgerValid(p)
    ensures LedgerValid(Submit(p, qsub, cmdString, blocksize, jobName).state)
  {
    var q := Submit(p, qsub, cmdString, blocksize, jobName).state;
    if qsub.Output? {
      var id := Strip(qsub.text);
      assert q.resources == p.resources[id := JobRecord(jobName, id, Translate("qw", Pending))];
      if id in p.resources {
        assert q.order == p.order;
      } else {
        assert q.order == p.order + [id];
        assert id !in p.order;
        assert Distinct(q.order);
        forall k ensures k in q.resources <==> k in q.order {
          assert k in q.order <==> k in p.order || k == id;
        }
      }
    }
  }

  /** `cancel(job_ids)`, given the answer of each `qdel` call in turn. One
      boolean per id, in order, true exactly when that call's output holds
      `CANCEL_ACK`. The counter goes down by the number of ids whatever the
      answers and whether or not the ids are in the ledger; the ledger itself
      is left alone. */
  function Cancel(p: Provider, jobIds: seq<string>, qdel: seq<Outcome>): (r: Transition<seq<bool>>)
    requires |qdel| == |jobIds|
    ensures |r.value| == |jobIds|
    ensures forall i :: 0 <= i < |jobIds| ==> (r.value[i] <==> qdel[i].Output? && Contains(qdel[i].text, CANCEL_ACK))
    ensures r.state.blocksize == p.blocksize - |jobIds|
    ensures r.state.resources == p.resources && r.state.order == p.order
    ensures r.state.hasIpcontroller == p.hasIpcontroller
    ensures r.state.issued == p.issued + QdelCommands(jobIds)
  {
    Transition(p.(blocksize := p.blocksize - |jobIds|, issued := p.issued + QdelCommands(jobIds)),
               Acknowledgements(qdel))
  }

  /** `start_ipcontroller(ip, options)`, where `popen` is what handing the
      launch command to `os.popen` gave back. The command is handed over in
      any case; the flag is raised only if the call returned, and an
      exception from it propagates with the flag left as it was. Ledger and
      counter never change. */
  function StartIpcontroller(p: Provider, popen: Popen, ip: string := DEFAULT_IP, options: string := DEFAULT_OPTIONS): (r: Transition<Result<()>>)
    ensures r.state.issued == p.issued + [StartController(ip, options)]
    ensures r.state.resources == p.resources && r.state.order == p.order && r.state.blocksize == p.blocksize
    ensures popen.Opened? ==> r.state.hasIpcontroller && r.value == Ok(())
    ensures popen.PopenRaised? ==> r.state.hasIpcontroller == p.hasIpcontroller && r.value == Err(popen.error)
  {
    var q := p.(issued := p.issued + [StartController(ip, options)]);
    match popen
    case Opened => Transition(q.(hasIpcontroller := true), Ok(()))
    case PopenRaised(e) => Transition(q, Err(e))
  }

  /** `stop_ipcontroller()`, where `popen` is what handing `killall
      ipcontroller` to `os.popen` gave back: the flag is lowered only if the
      call returned, and an exception from it propagates with the flag left
      as it was. Ledger and counter never change. */
  function StopIpcontroller(p: Provider, popen: Popen): (r: Transition<Result<()>>)
    ensures r.state.issued == p.issued + [KillController]
    ensures r.state.resources == p.resources && r.state.order == p.order && r.state.blocksize == p.blocksize
    ensures popen.Opened? ==> !r.state.hasIpcontroller && r.value == Ok(())
    ensures popen.PopenRaised? ==> r.state.hasIpcontroller == p.hasIpcontroller && r.value == Err(popen.error)
  {
    var q := p.(issued := p.issued + [KillController]);
    match popen
    case Opened => Transition(q.(hasIpcontroller := false), Ok(()))
    case PopenRaised(e) => Transition(q, Err(e))
  }

  /** `bye()`, given the answer of each `qdel` call and what handing
      `killall ipcontroller` to `os.popen` gave back: cancels every ledger key
      in dict order, then stops the controller if and only if one was
      started. The ledger is as it was and the counter is down by the number
      of keys. A controller stays recorded, and `bye` raises, exactly when
      one was started and the kill call raised. */
  function Bye(p: Provider, qdel: seq<Outcome>, kill: Popen): (r: Transition<Result<()>>)
    requires |qdel| == |p.order|
    ensures r.state.hasIpcontroller <==> p.hasIpcontroller && kill.PopenRaised?
    ensures r.value == if p.hasIpcontroller && kill.PopenRaised? then Err(kill.error) else Ok(())
    ensures r.state.resources == p.resources && r.state.order == p.order
    ensures r.state.blocksize == p.blocksize - |p.order|
    ensures r.state.issued == p.issued + QdelCommands(p.order) + (if p.hasIpcontroller then [KillController] else [])
  {
    var cancelled := Cancel(p, p.order, qdel).state;
    if cancelled.hasIpcontroller then StopIpcontroller(cancelled, kill) else Transition(cancelled, Ok(()))
  }
}
