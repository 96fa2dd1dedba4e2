/**
  The calls the helper makes into the object-storage client and the local
  filesystem, recorded as a trace, and the oracle that answers them. The
  oracle `env` stands for the shared `s3_client` and for the directory
  creation done by `os.makedirs`; its answer depends only on the call.
*/
module Effects {
  import opened SeqFacts

  /** What a failed call raises: botocore's `ClientError`, or any other exception. */
  datatype Fault = ClientError | OtherError

  datatype Response = Succeeded | Failed(fault: Fault)

  datatype Call =
    | Put(localPath: string, bucket: string, key: string)    // s3_client.upload_file(Filename, Bucket, Key)
    | Get(bucket: string, key: string, localPath: string)    // s3_client.download_file(Bucket, Key, Filename)
    | MakeDirs(path: string)                                 // os.makedirs(path, exist_ok=True)

  type Env = Call -> Response

  /**
    The answer to one call. `os.makedirs("")` always fails (there is no
    directory to create), and a failing `makedirs` raises `OSError`, never a
    `ClientError`.
  */
  function Respond(env: Env, c: Call): (r: Response)
    ensures c.MakeDirs? && c.path == "" ==> r == Failed(OtherError)
    ensures c.MakeDirs? ==> r != Failed(ClientError)
    ensures !c.MakeDirs? ==> r == env(c)
  {
    match c
    case MakeDirs(p) => if p == "" || env(c) != Succeeded then Failed(OtherError) else Succeeded
    case _ => env(c)
  }

  predicate Succeeds(env: Env, c: Call) {
    Respond(env, c) == Succeeded
  }

  datatype Stop = Finished | Stopped(fault: Fault)

  /** The calls actually issued, and whether the sequence ran to the end. */
  datatype Run = Run(issued: seq<Call>, stop: Stop)

  /** Issue the planned calls in order, stopping at the first that fails. */
  function Issue(env: Env, plan: seq<Call>): Run
    decreases |plan|
  {
    if plan == [] then Run([], Finished)
    else match Respond(env, plan[0])
      case Failed(f) => Run([plan[0]], Stopped(f))
      case Succeeded =>
        var rest := Issue(env, plan[1..]);
        Run([plan[0]] + rest.issued, rest.stop)
  }

  predicate AllSucceed(env: Env, calls: seq<Call>) {
    forall k :: 0 <= k < |calls| ==> Succeeds(env, calls[k])
  }

  /**
    Fail-fast: the issued calls are a prefix of the plan; all of them but the
    last succeed; the run stops early exactly when the last issued call failed,
    with that call's fault; and it finishes exactly when it issued the whole plan.
  */
  lemma {:induction false} IssueFailFast(env: Env, plan: seq<Call>)
    ensures var run := Issue(env, plan);
      && IsPrefix(run.issued, plan)
      && (run.stop == Finished <==> run.issued == plan && AllSucceed(env, plan))
      && (run.stop.Stopped? ==>
            && run.issued != []
            && AllSucceed(env, run.issued[..|run.issued| - 1])
            && Respond(env, run.issued[|run.issued| - 1]) == Failed(run.stop.fault))
    decreases |plan|
  {
    if plan != [] && Respond(env, plan[0]) == Succeeded {
      IssueFailFast(env, plan[1..]);
      var rest := Issue(env, plan[1..]);
      var run := Issue(env, plan);
      assert run.issued == [plan[0]] + rest.issued;
      ConsTail(plan);
      PrefixAppend([plan[0]], rest.issued, plan[1..]);
      if rest.stop.Stopped? {
        ConsInit(plan[0], rest.issued);
      }
      if run.stop == Finished {
        assert AllSucceed(env, plan) by {
          forall k | 0 <= k < |plan| ensures Succeeds(env, plan[k]) {
            if k > 0 { assert plan[k] == plan[1..][k - 1]; }
          }
        }
      } else {
        assert !AllSucceed(env, plan[1..]);
        var k :| 0 <= k < |plan[1..]| && !Succeeds(env, plan[1..][k]);
        assert plan[k + 1] == plan[1..][k];
      }
    }
  }

  /** Calls that all succeed are issued and the run goes on with the rest of the plan. */
  lemma {:induction false} IssueAfterSuccesses(env: Env, done: seq<Call>, rest: seq<Call>)
    requires AllSucceed(env, done)
    ensures Issue(env, done + rest) == Run(done + Issue(env, rest).issued, Issue(env, rest).stop)
    decreases |done|
  {
    if done != [] {
      TailOfAppend(done, rest);
      assert Succeeds(env, done[0]);
      IssueAfterSuccesses(env, done[1..], rest);
      ConsTail(done);
      AppendAssoc([done[0]], done[1..], Issue(env, rest).issued);
    } else {
      AppendEmptyLeft(rest);
    }
  }

  /** A plan whose first `k` calls succeed and whose call `k` fails issues exactly `k + 1` calls. */
  lemma {:induction false} IssueStopsAt(env: Env, plan: seq<Call>, k: nat)
    requires k < |plan|
    requires AllSucceed(env, plan[..k])
    requires Respond(env, plan[k]).Failed?
    ensures Issue(env, plan) == Run(plan[..k + 1], Stopped(Respond(env, plan[k]).fault))
  {
    TakeDrop(plan, k);
    IssueAfterSuccesses(env, plan[..k], plan[k..]);
    assert plan[k..][0] == plan[k];
    TakeSnoc(plan, k);
  }

  lemma {:induction false} AllSucceedSnoc(env: Env, calls: seq<Call>, c: Call)
    requires AllSucceed(env, calls) && Succeeds(env, c)
    ensures AllSucceed(env, calls + [c])
  {
    forall k | 0 <= k < |calls + [c]| ensures Succeeds(env, (calls + [c])[k]) {
      if k < |calls| { assert (calls + [c])[k] == calls[k]; }
    }
  }

  /** A plan that starts with successful calls `done` and then a failing `c` issues exactly `done + [c]`. */
  lemma {:induction false} IssueStopsAfter(env: Env, plan: seq<Call>, done: seq<Call>, c: Call)
    requires IsPrefix(done + [c], plan)
    requires AllSucceed(env, done)
    requires Respond(env, c).Failed?
    ensures Issue(env, plan) == Run(done + [c], Stopped(Respond(env, c).fault))
  {
    var k := |done|;
    assert plan[..k] == (done + [c])[..k] == done;
    assert plan[k] == (done + [c])[k] == c;
    IssueStopsAt(env, plan, k);
  }

  /** A plan all of whose calls succeed is issued in full. */
  lemma {:induction false} IssueAll(env: Env, plan: seq<Call>)
    requires AllSucceed(env, plan)
    ensures Issue(env, plan) == Run(plan, Finished)
  {
    AppendEmpty(plan, []);
    IssueAfterSuccesses(env, plan, []);
  }
}
