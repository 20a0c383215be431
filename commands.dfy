/**
 * The local end points that build remote commands or check their arguments: the
 * `runuser` wrapper of `ssm_command`, `submit_job`, `scontrol_job` and `ec2_action`.
 * The SSM and EC2 calls themselves are inputs.
 */
module Commands {
  import opened Wrappers
  import opened Strings
  import opened Dicts
  import opened Query
  import opened JsonData
  import opened Http
  import opened Config

  /** One `ssm.send_command` of `AWS-RunShellScript`, with the single shell line it runs. */
  datatype SsmCall = SsmCall(region: Option<string>, instanceId: Option<string>, commandLine: string)

  /** What `ssm_command` returns: the command's output, or an error body and status. */
  datatype SsmResult = Output(text: string) | Failed(body: Json, status: int)

  const DefaultUser := "ec2-user"

  /** `request.args.get("user", "ec2-user")`. */
  function UserArg(args: Dict<string>): string
  {
    match Get(args, "user")
    case None => DefaultUser
    case Some(u) => u
  }

  /**
   * `f"runuser -l {user} -c '{run_command}'"`: the command runs as a login shell of `user`,
   * inside single quotes that nothing escapes.
   */
  function SsmCommandLine(user: string, run: string): (r: string)
    ensures |r| == |user| + |run| + 17
    ensures r[..11] == "runuser -l " && r[11..11 + |user|] == user
    ensures r[11 + |user|..16 + |user|] == " -c '"
    ensures r[|r| - |run| - 1..|r| - 1] == run && r[|r| - 1] == '\''
  {
    "runuser -l " + user + " -c '" + run + "'"
  }

  /** The SSM call a handler makes for `run`, with the caller's region, instance and user. */
  function SsmCallFor(args: Dict<string>, run: string): SsmCall
  {
    SsmCall(Get(args, "region"), Get(args, "instance_id"), SsmCommandLine(UserArg(args), run))
  }

  // submit_job

  /** `" ".join(f"--{k} {v}" for k, v in body.items())`; `str` is Python's `str()` of a value. */
  function JobOptions(options: Dict<Json>, str: Json -> string): string
  {
    Join(" ", seq(|options|, i requires 0 <= i < |options| => "--" + options[i].0 + " " + str(options[i].1)))
  }

  /** The `wrap` flag, False when absent. */
  function WrapFlag(fields: Dict<Json>): Json
  {
    match Get(fields, "wrap")
    case None => JBool(false)
    case Some(w) => w
  }

  /** What follows the options: ` --wrap "{command}"` when `wrap` is truthy, else ` {command}`. */
  function CommandSuffix(wrap: Json, command: Json, str: Json -> string): string
  {
    if Truthy(wrap) then " --wrap \"" + str(command) + "\"" else " " + str(command)
  }

  /** The body once `wrap` and `command` are popped: every other field, unchanged and in order. */
  function OptionFields(fields: Dict<Json>): (r: Dict<Json>)
    requires KeysDistinct(fields)
    ensures KeysDistinct(r)
    ensures Keys(r) == Keys(fields) - {"wrap", "command"}
    ensures forall k :: k in Keys(r) ==> Get(r, k) == Get(fields, k)
  {
    var withoutWrap := Pop(fields, "wrap");
    Pop(withoutWrap, "command")
  }

  /**
   * `submit_job()`: pops `wrap` (default False) and `command` (required) from the body and
   * turns the rest into `--name value` options of `sbatch`.
   */
  method SubmitJob(args: Dict<string>, body: Json, str: Json -> string) returns (r: Result<SsmCall, string>)
    requires body.JObject? ==> KeysDistinct(body.fields)
    ensures r.Failure? <==> !body.JObject? || "command" !in Keys(body.fields)
    ensures r.Success? ==>
              r.value == SsmCallFor(args, "sbatch " + (JobOptions(OptionFields(body.fields), str)
                                          + CommandSuffix(WrapFlag(body.fields), Get(body.fields, "command").value, str)))
  {
    if !body.JObject? {
      return Failure("AttributeError: the body is not an object");
    }
    var fields := body.fields;
    var wrap := WrapFlag(fields);
    fields := Pop(fields, "wrap");
    var command := Get(fields, "command");
    if command.None? {
      return Failure("KeyError: 'command'");
    }
    assert command == Get(body.fields, "command");
    fields := Pop(fields, "command");
    assert fields == OptionFields(body.fields);
    var jobCmd := JobOptions(fields, str);
    jobCmd := jobCmd + CommandSuffix(wrap, command.value, str);
    r := Success(SsmCallFor(args, "sbatch " + jobCmd));
  }

  /** With nothing but `command` in the body, the line is `sbatch`, two spaces, and the command. */
  lemma SubmitJobBareCommand(args: Dict<string>, command: Json, str: Json -> string)
    ensures var fields := [("command", command)];
            "sbatch " + JobOptions(OptionFields(fields), str)
              + CommandSuffix(WrapFlag(fields), Get(fields, "command").value, str)
            == "sbatch  " + str(command)
  {
    var fields := [("command", command)];
    assert IndexOf(fields, "wrap").None?;
    assert IndexOf(fields, "command") == Some(0);
    assert Get(fields, "wrap").None?;
    assert OptionFields(fields) == [];
  }

  // scontrol_job

  /** `f"scontrol show job {job_id} -o"`. */
  function ScontrolCommand(jobId: string): string
  {
    "scontrol show job " + jobId + " -o"
  }

  /**
   * `output.strip().split(" ")`, each piece split at its first `=` into a key and a value,
   * collected in a dict; a piece without `=` makes the unpacking raise.
   */
  function ParseJobInfo(output: string): Result<Dict<string>, string>
  {
    match ParsePieces(Split(Strip(output), ' '))
    case None => Failure("ValueError: not enough values to unpack")
    case Some(pairs) => Success(FromPairs(pairs))
  }

  /** The one-line `key=value key=value ...` form `scontrol show job -o` prints. */
  function FormatJobInfo(info: Dict<string>): string
  {
    Join(" ", Pieces(info))
  }

  /** Keys without `=` and neither keys nor values with white space. */
  predicate Printable(info: Dict<string>)
  {
    forall i :: 0 <= i < |info| ==>
      '=' !in info[i].0
      && (forall j :: 0 <= j < |info[i].0| ==> !IsSpace(info[i].0[j]))
      && (forall j :: 0 <= j < |info[i].1| ==> !IsSpace(info[i].1[j]))
  }

  lemma {:induction false} JoinEnds(sep: string, xs: seq<string>)
    requires |xs| >= 1 && forall i :: 0 <= i < |xs| ==> xs[i] != []
    ensures Join(sep, xs) != []
    ensures Join(sep, xs)[0] == xs[0][0]
    ensures Join(sep, xs)[|Join(sep, xs)| - 1] == xs[|xs| - 1][|xs[|xs| - 1]| - 1]
  {
    if |xs| > 1 {
      JoinEnds(sep, xs[1..]);
    }
  }

  /** Parsing the printed form of a job's fields gives back the fields, in order. */
  lemma ParseFormatJobInfo(info: Dict<string>)
    requires info != [] && KeysDistinct(info) && Printable(info)
    ensures ParseJobInfo(FormatJobInfo(info)) == Success(info)
  {
    var ps := Pieces(info);
    var s := FormatJobInfo(info);
    forall i | 0 <= i < |ps| ensures ' ' !in ps[i] && ps[i] != [] {
      assert ps[i] == info[i].0 + "=" + info[i].1;
      assert ps[i][|info[i].0|] == '=';
    }
    JoinEnds(" ", ps);
    var first, last := ps[0], ps[|ps| - 1];
    assert first == info[0].0 + "=" + info[0].1;
    assert !IsSpace(first[0]) by {
      if info[0].0 == [] { assert first[0] == '='; } else { assert first[0] == info[0].0[0]; }
    }
    var lv := info[|info| - 1].1;
    assert last == info[|info| - 1].0 + "=" + lv;
    assert !IsSpace(last[|last| - 1]) by {
      if lv == [] { assert last[|last| - 1] == '='; } else { assert last[|last| - 1] == lv[|lv| - 1]; }
    }
    StripUnchanged(s);
    SplitJoin(ps, ' ');
    ParsePiecesOfPieces(info);
    FromPairsDistinct(info);
  }

  /** The job's fields as the JSON object the handler returns. */
  function JobInfoBody(info: Dict<string>): Json
  {
    JObject(seq(|info|, i requires 0 <= i < |info| => (info[i].0, JString(info[i].1))))
  }

  /**
   * `scontrol_job()` as written: an error tuple from `ssm_command` reaches `.strip()`
   * before the `isinstance(job_data, tuple)` test, so it raises.
   */
  function ScontrolJobAsWritten(args: Dict<string>, ssm: SsmCall -> SsmResult): Response
  {
    var jobId := Get(args, "job_id");
    if !Present(jobId) then Reply(Message("You must specify a job id."), 400)
    else match ssm(SsmCallFor(args, ScontrolCommand(jobId.value)))
      case Failed(_, _) => ServerError("AttributeError: 'tuple' object has no attribute 'strip'")
      case Output(text) =>
        match ParseJobInfo(text)
        case Failure(e) => ServerError(e)
        case Success(info) => Reply(JobInfoBody(info), 200)
  }

  /** `scontrol_job()` as evidently intended: an error from `ssm_command` is passed on. */
  function ScontrolJob(args: Dict<string>, ssm: SsmCall -> SsmResult): (r: Response)
    ensures !Present(Get(args, "job_id")) ==> r == Reply(Message("You must specify a job id."), 400)
    ensures Present(Get(args, "job_id")) ==>
              var result := ssm(SsmCallFor(args, ScontrolCommand(Get(args, "job_id").value)));
              (result.Failed? ==> r == Reply(result.body, result.status))
              && (result.Output? && ParseJobInfo(result.text).Success? ==>
                    r == Reply(JobInfoBody(ParseJobInfo(result.text).value), 200))
  {
    var jobId := Get(args, "job_id");
    if !Present(jobId) then Reply(Message("You must specify a job id."), 400)
    else match ssm(SsmCallFor(args, ScontrolCommand(jobId.value)))
      case Failed(body, status) => Reply(body, status)
      case Output(text) =>
        match ParseJobInfo(text)
        case Failure(e) => ServerError(e)
        case Success(info) => Reply(JobInfoBody(info), 200)
  }

  /** An SSM call that always times out. */
  function TimedOut(c: SsmCall): SsmResult
  {
    Failed(Message("Timed out waiting for command to complete."), 500)
  }

  /**
   * When the SSM command times out, the handler as written answers with an unhandled
   * exception instead of the timeout message the dead `isinstance` branch was meant to
   * return; the corrected handler returns that message with its status.
   */
  lemma ScontrolTimeoutLost()
    ensures ScontrolJobAsWritten([("job_id", "42")], TimedOut).ServerError?
    ensures ScontrolJob([("job_id", "42")], TimedOut) == Reply(Message("Timed out waiting for command to complete."), 500)
  {
    assert IndexOf([("job_id", "42")], "job_id") == Some(0);
  }

  // ec2_action

  /** `ec2.stop_instances` or `ec2.start_instances`, with the client's region when one is given. */
  datatype Ec2Call = StopInstances(region: Option<string>, ids: seq<string>)
                   | StartInstances(region: Option<string>, ids: seq<string>)

  /** The client's region: the `region` argument when it is non-empty, the default otherwise. */
  function Ec2Region(args: Dict<string>): Option<string>
  {
    if Present(Get(args, "region")) then Get(args, "region") else None
  }

  /**
   * `ec2_action()`'s checks, in order: the instance list first (absent: 400), then the
   * action (neither stop nor start: 400). The ids are the list split at commas.
   */
  function Ec2Action(args: Dict<string>): (r: Result<Ec2Call, Response>)
    ensures Get(args, "instance_ids").Some? && Get(args, "action") == Some("stop_instances") ==>
              r == Success(StopInstances(Ec2Region(args), Split(Get(args, "instance_ids").value, ',')))
    ensures Get(args, "instance_ids").Some? && Get(args, "action") == Some("start_instances") ==>
              r == Success(StartInstances(Ec2Region(args), Split(Get(args, "instance_ids").value, ',')))
    ensures Get(args, "instance_ids").None? ==> r == Failure(Reply(Message("You must specify instances."), 400))
    ensures Get(args, "instance_ids").Some? && Get(args, "action") !in {Some("stop_instances"), Some("start_instances")}
            ==> r == Failure(Reply(Message("You must specify an action."), 400))
    ensures r.Success? ==>
              && Get(args, "instance_ids").Some?
              && (r.value.StopInstances? <==> Get(args, "action") == Some("stop_instances"))
              && (r.value.StartInstances? <==> Get(args, "action") == Some("start_instances"))
              && |r.value.ids| >= 1
              && (forall i :: 0 <= i < |r.value.ids| ==> ',' !in r.value.ids[i])
              && Join(",", r.value.ids) == Get(args, "instance_ids").value
              && (r.value.region.Some? <==> Present(Get(args, "region")))
  {
    var region := Ec2Region(args);
    match Get(args, "instance_ids")
    case None => Failure(Reply(Message("You must specify instances."), 400))
    case Some(list) =>
      var ids := Split(list, ',');
      JoinSplit(list, ',');
      if Get(args, "action") == Some("stop_instances") then Success(StopInstances(region, ids))
      else if Get(args, "action") == Some("start_instances") then Success(StartInstances(region, ids))
      else Failure(Reply(Message("You must specify an action."), 400))
  }
}
