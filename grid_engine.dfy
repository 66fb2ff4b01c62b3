// The Grid Engine execution provider, `class GridEngine`, as an object whose
// methods update its fields in place. The answers of the shell commands it
// runs (`qsub`, `qdel`, `ipcontroller`, `killall`) are parameters; every
// method is proved to move the object's state exactly as the matching
// function of ProviderModel moves a `Provider` value.
module GridEngineProvider {
  import opened Text
  import opened JobStates
  import opened ProviderModel

  class GridEngine {
    /** `self.resources`: the job ledger, keyed on job id. */
    var resources: map<string, JobRecord>
    /** The ledger's keys in insertion order, the order `list(self.resources)` yields. */
    var order: seq<string>
    /** `self.current_blocksize`. */
    var currentBlocksize: int
    /** `self.has_ipcontroller`. */
    var hasIpcontroller: bool
    /** The shell commands handed to `os.popen` so far. */
    ghost var issued: seq<Command>

    /** The object's state as a `Provider` value. */
    ghost function Model(): Provider
      reads this
    {
      Provider(resources, order, currentBlocksize, hasIpcontroller, issued)
    }

    ghost predicate Valid()
      reads this
    {
      LedgerValid(Model())
    }

    /** `__init__`: an empty ledger, a zero counter and no controller. */
    constructor ()
      ensures Valid()
      ensures resources == map[] && order == [] && currentBlocksize == 0 && !hasIpcontroller
      ensures issued == [] && Model() == Init()
    {
      resources := map[];
      order := [];
      currentBlocksize := 0;
      hasIpcontroller := false;
      issued := [];
    }

    /** `submit(cmd_string, blocksize, job_name)`, where `qsub` is what
        running the pilot script through `qsub` gave back. */
    method Submit(qsub: Outcome, cmdString: string := "", blocksize: int := DEFAULT_BLOCKSIZE,
                  jobName: string := DEFAULT_JOB_NAME) returns (r: Result<string>)
      requires Valid()
      modifies this
      ensures Valid()
      ensures Transition(Model(), r) == ProviderModel.Submit(old(Model()), qsub, cmdString, blocksize, jobName)
    {
      ghost var after := ProviderModel.Submit(Model(), qsub, cmdString, blocksize, jobName);
      assert LedgerValid(after.state) by {
        SubmitKeepsLedgerValid(Model(), qsub, cmdString, blocksize, jobName);
      }
      issued := issued + [Qsub(QSUB_PILOT)];
      match qsub {
      case Raised(e) =>
        r := Err(e);
      case Output(text) =>
        var jobId := Strip(text);
        if jobId !in resources {
          order := order + [jobId];
        }
        resources := resources[jobId := JobRecord(jobName, jobId, Translate("qw", Pending))];
        currentBlocksize := currentBlocksize + 1;
        r := Ok(jobId);
      }
      assert Transition(Model(), r) == after;
    }

    /** `cancel(job_ids)`, where `qdel[i]` is what `qdel job_ids[i]` gave back. */
    method Cancel(jobIds: seq<string>, qdel: seq<Outcome>) returns (stati: seq<bool>)
      requires Valid()
      requires |qdel| == |jobIds|
      modifies this
      ensures Valid()
      ensures Transition(Model(), stati) == ProviderModel.Cancel(old(Model()), jobIds, qdel)
    {
      ghost var p0 := Model();
      stati := [];
      var i := 0;
      while i < |jobIds|
        invariant 0 <= i <= |jobIds|
        invariant stati == Acknowledgements(qdel[..i])
        invariant resources == p0.resources && order == p0.order && hasIpcontroller == p0.hasIpcontroller
        invariant currentBlocksize == p0.blocksize - i
        invariant issued == p0.issued + QdelCommands(jobIds[..i])
      {
        issued := issued + [Qdel(jobIds[i])];
        var outp := if qdel[i].Output? then qdel[i].text else "False";
        var status := Contains(outp, CANCEL_ACK);
        stati := stati + [status];
        currentBlocksize := currentBlocksize - 1;
        CancelStep(jobIds, qdel, i);
        i := i + 1;
      }
      assert qdel[..i] == qdel;
      assert jobIds[..i] == jobIds;
      assert resources == p0.resources && order == p0.order;
    }

    /** `scaling_enabled`: this provider always scales. */
    function ScalingEnabled(): (r: bool)
      ensures r
    {
      true
    }

    /** `current_capacity`: the capacity counter, read without change. */
    function CurrentCapacity(): (r: int)
      reads this
      ensures r == Model().blocksize
    {
      currentBlocksize
    }

    /** `channels_required`: this provider never needs a channel. */
    function ChannelsRequired(): (r: bool)
      ensures !r
    {
      false
    }

    /** `start_ipcontroller(ip, options)`, where `popen` is what handing the
        launch command to `os.popen` gave back. */
    method StartIpcontroller(popen: Popen, ip: string := DEFAULT_IP, options: string := DEFAULT_OPTIONS) returns (r: Result<()>)
      requires Valid()
      modifies this
      ensures Valid()
      ensures Transition(Model(), r) == ProviderModel.StartIpcontroller(old(Model()), popen, ip, options)
    {
      issued := issued + [StartController(ip, options)];
      match popen {
      case PopenRaised(e) =>
        r := Err(e);
      case Opened =>
        hasIpcontroller := true;
        r := Ok(());
      }
    }

    /** `stop_ipcontroller()`, where `popen` is what handing `killall
        ipcontroller` to `os.popen` gave back. */
    method StopIpcontroller(popen: Popen) returns (r: Result<()>)
      requires Valid()
      modifies this
      ensures Valid()
      ensures Transition(Model(), r) == ProviderModel.StopIpcontroller(old(Model()), popen)
    {
      issued := issued + [KillController];
      match popen {
      case PopenRaised(e) =>
        r := Err(e);
      case Opened =>
        hasIpcontroller := false;
        r := Ok(());
      }
    }

    /** `bye()`, where `qdel[i]` is what the `qdel` of the i-th ledger key
        gave back and `kill` what handing `killall ipcontroller` to
        `os.popen` gave back. */
    method Bye(qdel: seq<Outcome>, kill: Popen) returns (r: Result<()>)
      requires Valid()
      requires |qdel| == |order|
      modifies this
      ensures Valid()
      ensures Transition(Model(), r) == ProviderModel.Bye(old(Model()), qdel, kill)
    {
      var _ := Cancel(order, qdel);
      if hasIpcontroller {
        r := StopIpcontroller(kill);
      } else {
        r := Ok(());
      }
    }
  }
}
