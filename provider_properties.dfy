// What the Grid Engine provider's operations guarantee beyond one call:
// the ledger invariant over any sequence of operations, the arithmetic of the
// capacity counter, what `bye` sweeps, and the places where the provider's
// behaviour differs from the execution-provider contract it implements.
module ProviderProperties {
  import opened Text
  import opened JobStates
  import opened ProviderModel

  /** One call a runtime can make on the provider, with the shell's answers. */
  datatype Op =
    | SubmitOp(cmdString: string, blocksize: int, jobName: string, qsub: Outcome)
    | CancelOp(jobIds: seq<string>, qdel: seq<Outcome>)
    | StartIpcontrollerOp(ip: string, options: string, popen: Popen)
    | StopIpcontrollerOp(popen: Popen)

  /** The shell gave one answer per `qdel` call. */
  predicate Replayable(op: Op) {
    op.CancelOp? ==> |op.qdel| == |op.jobIds|
  }

  ghost predicate AllReplayable(ops: seq<Op>) {
    forall i :: 0 <= i < |ops| ==> Replayable(ops[i])
  }

  function Apply(p: Provider, op: Op): Provider
    requires Replayable(op)
  {
    match op
    case SubmitOp(cmdString, blocksize, jobName, qsub) => Submit(p, qsub, cmdString, blocksize, jobName).state
    case CancelOp(jobIds, qdel) => Cancel(p, jobIds, qdel).state
    case StartIpcontrollerOp(ip, options, popen) => StartIpcontroller(p, popen, ip, options).state
    case StopIpcontrollerOp(popen) => StopIpcontroller(p, popen).state
  }

  /** The state after performing `ops` in order from `p`. */
  function Run(p: Provider, ops: seq<Op>): Provider
    requires AllReplayable(ops)
    decreases |ops|
  {
    if ops == [] then p else Run(Apply(p, ops[0]), ops[1..])
  }

  /** How many of `ops` are submissions whose `qsub` call did not raise. */
  function Successes(ops: seq<Op>): nat {
    if ops == [] then 0
    else (if ops[0].SubmitOp? && ops[0].qsub.Output? then 1 else 0) + Successes(ops[1..])
  }

  /** How many ids `ops` pass to `cancel`, counting repeats. */
  function CancelledIds(ops: seq<Op>): nat {
    if ops == [] then 0
    else (if ops[0].CancelOp? then |ops[0].jobIds| else 0) + CancelledIds(ops[1..])
  }

  /** The capacity counter is the number of submissions that went through
      minus the number of ids ever passed to `cancel`. */
  lemma {:induction false} RunCapacity(p: Provider, ops: seq<Op>)
    requires AllReplayable(ops)
    ensures Run(p, ops).blocksize == p.blocksize + Successes(ops) - CancelledIds(ops)
    decreases |ops|
  {
    if ops != [] {
      RunCapacity(Apply(p, ops[0]), ops[1..]);
    }
  }

  /** Every operation keeps the ledger invariant. */
  lemma ApplyKeepsLedgerValid(p: Provider, op: Op)
    requires LedgerValid(p) && Replayable(op)
    ensures LedgerValid(Apply(p, op))
  {
    if op.SubmitOp? {
      SubmitKeepsLedgerValid(p, op.qsub, op.cmdString, op.blocksize, op.jobName);
    }
  }

  /** The ledger invariant holds after any sequence of operations. */
  lemma {:induction false} RunKeepsLedgerValid(p: Provider, ops: seq<Op>)
    requires LedgerValid(p) && AllReplayable(ops)
    ensures LedgerValid(Run(p, ops))
    decreases |ops|
  {
    if ops != [] {
      ApplyKeepsLedgerValid(p, ops[0]);
      RunKeepsLedgerValid(Apply(p, ops[0]), ops[1..]);
    }
  }

  /** No operation ever removes a ledger entry: every job id recorded stays
      recorded, cancelled or not. */
  lemma {:induction false} RunNeverRemovesJobs(p: Provider, ops: seq<Op>)
    requires AllReplayable(ops)
    ensures p.resources.Keys <= Run(p, ops).resources.Keys
    decreases |ops|
  {
    if ops != [] {
      RunNeverRemovesJobs(Apply(p, ops[0]), ops[1..]);
    }
  }

  /** Every ledger entry is PENDING. */
  ghost predicate AllPending(p: Provider) {
    forall k :: k in p.resources ==> p.resources[k].status == Pending
  }

  /** Since only `submit` writes ledger entries, and always as PENDING, no
      entry ever reaches another state. */
  lemma {:induction false} RunKeepsAllPending(p: Provider, ops: seq<Op>)
    requires AllPending(p) && AllReplayable(ops)
    ensures AllPending(Run(p, ops))
    decreases |ops|
  {
    if ops != [] {
      RunKeepsAllPending(Apply(p, ops[0]), ops[1..]);
    }
  }

  /** The job id a submission that did not raise is filed under. */
  function SubmittedId(op: Op): string
    requires op.SubmitOp? && op.qsub.Output?
  {
    Strip(op.qsub.text)
  }

  /** `ops` are submissions that all go through and whose job ids are new
      and pairwise different. */
  ghost predicate FreshSubmissions(p: Provider, ops: seq<Op>) {
    && (forall i :: 0 <= i < |ops| ==> ops[i].SubmitOp? && ops[i].qsub.Output?)
    && (forall i, j :: 0 <= i < j < |ops| ==> SubmittedId(ops[i]) != SubmittedId(ops[j]))
    && (forall i :: 0 <= i < |ops| ==> SubmittedId(ops[i]) !in p.resources)
  }

  /** A submission that goes through files one PENDING record under its id
      and raises the counter by one. */
  lemma SubmitOpRecords(p: Provider, op: Op)
    requires op.SubmitOp? && op.qsub.Output?
    ensures Apply(p, op).resources == p.resources[SubmittedId(op) := JobRecord(op.jobName, SubmittedId(op), Pending)]
    ensures Apply(p, op).blocksize == p.blocksize + 1
  {
  }

  /** After the first of a run of fresh submissions, the rest are fresh. */
  lemma FreshSubmissionsTail(p: Provider, ops: seq<Op>)
    requires FreshSubmissions(p, ops) && ops != []
    ensures FreshSubmissions(Apply(p, ops[0]), ops[1..])
  {
    var q := Apply(p, ops[0]);
    var rest := ops[1..];
    SubmitOpRecords(p, ops[0]);
    forall i | 0 <= i < |rest| ensures SubmittedId(rest[i]) !in q.resources {
      assert rest[i] == ops[i + 1];
      assert SubmittedId(ops[i + 1]) != SubmittedId(ops[0]);
    }
    forall i, j | 0 <= i < j < |rest| ensures SubmittedId(rest[i]) != SubmittedId(rest[j]) {
      assert rest[i] == ops[i + 1] && rest[j] == ops[j + 1];
    }
  }

  /** N submissions with new, distinct job ids raise the counter by N, add N
      ledger entries, one PENDING record per id, and keep every old entry. */
  lemma {:induction false} FreshSubmissionsRecorded(p: Provider, ops: seq<Op>)
    requires FreshSubmissions(p, ops)
    ensures AllReplayable(ops)
    ensures Run(p, ops).blocksize == p.blocksize + |ops|
    ensures |Run(p, ops).resources| == |p.resources| + |ops|
    ensures forall i :: 0 <= i < |ops| ==>
      && SubmittedId(ops[i]) in Run(p, ops).resources
      && Run(p, ops).resources[SubmittedId(ops[i])] == JobRecord(ops[i].jobName, SubmittedId(ops[i]), Pending)
    ensures forall k :: k in p.resources ==> k in Run(p, ops).resources && Run(p, ops).resources[k] == p.resources[k]
    decreases |ops|
  {
    if ops != [] {
      var op := ops[0];
      var id := SubmittedId(op);
      var q := Apply(p, op);
      var rest := ops[1..];
      SubmitOpRecords(p, op);
      FreshSubmissionsTail(p, ops);
      FreshSubmissionsRecorded(q, rest);
      var r := Run(q, rest);
      assert Run(p, ops) == r;
      forall i | 0 <= i < |ops|
        ensures SubmittedId(ops[i]) in r.resources
        ensures r.resources[SubmittedId(ops[i])] == JobRecord(ops[i].jobName, SubmittedId(ops[i]), Pending)
      {
        if i > 0 {
          assert ops[i] == rest[i - 1];
        }
      }
    }
  }

  /** From a fresh provider (an empty ledger and a zero counter, as
      `Init()` has), N submissions with distinct job ids leave the counter
      at N and exactly N ledger entries, each PENDING. */
  lemma FreshProviderAfterSubmissions(p: Provider, ops: seq<Op>)
    requires p.resources == map[] && p.blocksize == 0
    requires FreshSubmissions(p, ops)
    ensures AllReplayable(ops)
    ensures Run(p, ops).blocksize == |ops|
    ensures |Run(p, ops).resources| == |ops|
    ensures AllPending(Run(p, ops))
  {
    FreshSubmissionsRecorded(p, ops);
    RunKeepsAllPending(p, ops);
  }

  /** Each job id of a repeat-free list gets exactly one `qdel` command. */
  lemma {:induction false} QdelMultiplicity(ids: seq<string>, k: string)
    requires Distinct(ids)
    ensures multiset(QdelCommands(ids))[Qdel(k)] == if k in ids then 1 else 0
  {
    if ids != [] {
      var init := ids[..|ids| - 1];
      var last := ids[|ids| - 1];
      assert Distinct(init);
      QdelMultiplicity(init, k);
      assert QdelCommands(ids) == QdelCommands(init) + [Qdel(last)];
      assert ids == init + [last];
      assert last !in init;
    }
  }

  /** A repeat-free list has as many elements as its set. */
  lemma {:induction false} DistinctCardinality(s: seq<string>)
    requires Distinct(s)
    ensures |set x | x in s| == |s|
  {
    if s != [] {
      var init := s[..|s| - 1];
      var last := s[|s| - 1];
      assert Distinct(init);
      DistinctCardinality(init);
      assert s == init + [last];
      assert (set x | x in s) == (set x | x in init) + {last};
      assert last !in init;
    }
  }

  /** Under the ledger invariant, the ledger has as many entries as `order`. */
  lemma LedgerSize(p: Provider)
    requires LedgerValid(p)
    ensures |p.resources| == |p.order|
  {
    assert p.resources.Keys == set x | x in p.order;
    DistinctCardinality(p.order);
  }

  /** The commands `bye` appends to the log: the `qdel` sweep, then the
      controller kill if a controller was started. */
  function ByeCommands(p: Provider): seq<Command> {
    QdelCommands(p.order) + (if p.hasIpcontroller then [KillController] else [])
  }

  /** `ByeCommands` holds one `qdel` per ledger key and no other, and one
      controller kill exactly when a controller was started. */
  lemma ByeCommandsCount(p: Provider)
    requires LedgerValid(p)
    ensures forall k :: multiset(ByeCommands(p))[Qdel(k)] == if k in p.resources then 1 else 0
    ensures multiset(ByeCommands(p))[KillController] == if p.hasIpcontroller then 1 else 0
  {
    var sweep := QdelCommands(p.order);
    forall k ensures multiset(ByeCommands(p))[Qdel(k)] == if k in p.resources then 1 else 0 {
      QdelMultiplicity(p.order, k);
    }
    assert KillController !in sweep;
  }

  /** `bye` appends exactly `ByeCommands(p)` to the log (so, by
      `ByeCommandsCount`, one `qdel` per ledger key and at most one
      controller kill), lowers the counter by the size of the ledger and,
      unless the kill call raised, leaves no controller recorded. */
  lemma ByeSweepsLedger(p: Provider, qdel: seq<Outcome>, kill: Popen)
    requires LedgerValid(p) && |qdel| == |p.order|
    ensures Bye(p, qdel, kill).state.issued == p.issued + ByeCommands(p)
    ensures Bye(p, qdel, kill).state.blocksize == p.blocksize - |p.resources|
    ensures kill.Opened? ==> !Bye(p, qdel, kill).state.hasIpcontroller
  {
    LedgerSize(p);
  }

  /** `bye` is not idempotent: a second call cancels every ledger key again
      and lowers the counter again. It tries to stop the controller a second
      time only if the first attempt raised. */
  lemma ByeTwice(p: Provider, qdel1: seq<Outcome>, kill1: Popen, qdel2: seq<Outcome>, kill2: Popen)
    requires |qdel1| == |qdel2| == |p.order|
    ensures var once := Bye(p, qdel1, kill1).state;
      && Bye(once, qdel2, kill2).state.blocksize == p.blocksize - 2 * |p.order|
      && Bye(once, qdel2, kill2).state.issued
         == once.issued + QdelCommands(p.order) + (if p.hasIpcontroller && kill1.PopenRaised? then [KillController] else [])
  {
  }

  /** The job id `qsub -terse` prints, "42" and a newline, strips to "42". */
  lemma StripJobIdLine()
    ensures Strip("42\n") == "42"
  {
    assert TrimEnd("42") == "42";
    assert "42\n"[..2] == "42";
  }

  /** A `qdel` reply of the form "<user> has registered the job <id> for
      deletion" counts as a success whoever the user and whatever the id; a
      reply "denied: job "<id>" does not exist" for a numeric id does not.
      The test is the substring test alone: nothing here fixes which replies
      a given Grid Engine version prints. */
  lemma QdelRepliesRecognised(user: string, id: string)
    ensures Acknowledged(Output(user + " " + CANCEL_ACK + " " + id + " for deletion\n"))
    ensures (forall c | c in id :: '0' <= c <= '9') ==>
              !Acknowledged(Output("denied: job \"" + id + "\" does not exist\n"))
  {
    var ack := user + " " + CANCEL_ACK + " " + id + " for deletion\n";
    assert ack[|user| + 1..|user| + 1 + |CANCEL_ACK|] == CANCEL_ACK;
    assert OccursAt(ack, CANCEL_ACK, |user| + 1);
    ContainsSpec(ack, CANCEL_ACK);
    if forall c | c in id :: '0' <= c <= '9' {
      var denied := "denied: job \"" + id + "\" does not exist\n";
      assert 'h' !in denied;
      NotContainsWithoutChar(denied, CANCEL_ACK, 0);
    }
  }

  /** A reply of the form "<user> has deleted job <id>" does not hold the
      phrase, so `cancel` reports such a deletion as a failure. */
  lemma QdelDeletedReplyNotRecognised(user: string, id: string)
    requires 'g' !in user && 'g' !in id
    ensures !Acknowledged(Output(user + " has deleted job " + id + "\n"))
  {
    var deleted := user + " has deleted job " + id + "\n";
    assert CANCEL_ACK[6] == 'g';
    assert 'g' !in deleted;
    NotContainsWithoutChar(deleted, CANCEL_ACK, 6);
  }

  /** A `qsub` that fails without `os.popen` raising prints nothing on
      stdout (its error goes to stderr, which is not captured). `submit`
      then returns the empty job id, files a PENDING entry under it and still
      raises the counter: a failed submission counts as capacity. */
  lemma EmptyQsubOutputRecorded(p: Provider, text: string, cmdString: string, blocksize: int, jobName: string)
    requires forall k :: 0 <= k < |text| ==> IsWhitespace(text[k])
    ensures var r := Submit(p, Output(text), cmdString, blocksize, jobName);
      && r.value == Ok("")
      && "" in r.state.resources
      && r.state.resources[""] == JobRecord(jobName, "", Pending)
      && r.state.blocksize == p.blocksize + 1
  {
    StripAllWhitespace(text);
  }

  /** The end-to-end run of the provider contract, as this provider behaves:
      a submission answered "42\n" yields id "42" and capacity 1; cancelling
      "42" with the reply "root has registered the job 42 for deletion"
      yields [true] and capacity 0, with the entry still in the ledger;
      cancelling it again yields [false] but still lowers the capacity, to
      -1. */
  lemma SubmitCancelScenario()
    ensures var s := Submit(Init(), Output("42\n"));
      && s.value == Ok("42")
      && s.state.blocksize == 1
      && s.state.resources == map["42" := JobRecord(DEFAULT_JOB_NAME, "42", Pending)]
      && var c1 := Cancel(s.state, ["42"], [Output("root" + " " + CANCEL_ACK + " " + "42" + " for deletion\n")]);
      && c1.value == [true]
      && c1.state.blocksize == 0
      && "42" in c1.state.resources
      && var c2 := Cancel(c1.state, ["42"], [Output("denied: job \"" + "42" + "\" does not exist\n")]);
      && c2.value == [false]
      && c2.state.blocksize == -1
  {
    StripJobIdLine();
    QdelRepliesRecognised("root", "42");
  }

  /** The counter is not kept equal to the ledger's size: two submissions
      answered with the same id leave one entry but a counter of 2, and a
      cancel of an id the ledger never held takes a fresh provider's counter
      below zero. */
  lemma CounterLeavesLedger()
    ensures var s1 := Submit(Init(), Output("7"), jobName := "a");
      var s2 := Submit(s1.state, Output("7"), jobName := "b");
      && |s2.state.resources| == 1
      && s2.state.blocksize == 2
    ensures var c := Cancel(Init(), ["9"], [Output("denied: job \"" + "9" + "\" does not exist\n")]);
      && c.value == [false]
      && c.state.blocksize == -1
      && c.state.resources == map[]
  {
    assert TrimEnd("7") == "7";
    assert Strip("7") == "7";
    QdelRepliesRecognised("", "9");
  }
}
