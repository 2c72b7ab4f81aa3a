/**
 * One mirroring run (main.go, `main`): the input checks, the login, one
 * pull-tag-push transfer per non-empty requested reference, the result
 * ledger, and the scripts rendered from it. The Docker daemon is abstract:
 * whether the client can be created, whether the login is accepted, and how
 * each image's transfer ends are inputs. The transfers run one after another
 * in request order; any failed transfer ends the run with no artifacts.
 */
module Mirror {
  import opened Wrappers
  import opened Names
  import opened Scripts
  import opened Sequences

  /** The decoded input object: the requested references and the optional custom registry. */
  datatype Request = Request(content: seq<string>, customRegistry: string)

  /** The command-line settings the run reads. */
  datatype Settings = Settings(maxContent: int, username: string, password: string)

  datatype Stage = PullStage | TagStage | PushStage

  /** How one image's transfer ends. */
  datatype Outcome = Completed | FailedAt(stage: Stage)

  /**
   * The Docker client and daemon as the run sees them: whether building the
   * client from the environment succeeds (a local step that sends nothing to
   * the daemon), whether the daemon accepts the login, and how each image's
   * transfer ends.
   */
  datatype Daemon = Daemon(clientCreated: bool, acceptsLogin: bool, transfer: Record -> Outcome)

  /** The Docker client operations the run performs, in order: building the client, then requests to the daemon. */
  datatype Call =
    | NewClient
    | Login(username: string)
    | PullImage(ref: string)
    | TagImage(source: string, target: string)
    | PushImage(ref: string)

  datatype Failure =
    | ContentTooLong(count: nat, limit: int)
    | ClientUnavailable   // building the client from the environment failed
    | MissingCredentials
    | LoginRejected
    | TransferFailed(stage: Stage, source: string, target: string)
    | EmptyOutput

  /** A successful run: the final ledger and the scripts rendered from it. */
  datatype Report = Report(ledger: seq<Record>, artifacts: Artifacts)

  /** The records the run transfers: one per non-empty requested reference, in request order. */
  function Requested(content: seq<string>, username: string): (r: seq<Record>)
    ensures |r| <= |content|
  {
    if content == [] then []
    else
      var last := content[|content| - 1];
      Requested(content[..|content| - 1], username) + (if last == "" then [] else [Derive(last, username)])
  }

  /** The client operations one transfer makes: a failed stage is the last one attempted. */
  function TransferCalls(rec: Record, outcome: Outcome): (calls: seq<Call>)
    // every transfer starts by pulling the source
    ensures 1 <= |calls| <= 3 && calls[0] == PullImage(rec.source)
    ensures |calls| >= 2 ==> calls[1] == TagImage(rec.source, rec.target)
    ensures |calls| == 3 ==> calls[2] == PushImage(rec.target)
    // the pull is the only step attempted exactly when the pull fails
    ensures |calls| == 1 <==> outcome == FailedAt(PullStage)
    // the push is attempted exactly when the pull and the tag succeed
    ensures |calls| == 3 <==> outcome == Completed || outcome == FailedAt(PushStage)
  {
    match outcome
    case FailedAt(PullStage) => [PullImage(rec.source)]
    case FailedAt(TagStage) => [PullImage(rec.source), TagImage(rec.source, rec.target)]
    case _ => [PullImage(rec.source), TagImage(rec.source, rec.target), PushImage(rec.target)]
  }

  /** The client operations of a run of completed transfers. */
  function CompletedCalls(records: seq<Record>): seq<Call>
  {
    if records == [] then []
    else CompletedCalls(records[..|records| - 1]) + TransferCalls(records[|records| - 1], Completed)
  }

  predicate AllComplete(records: seq<Record>, transfer: Record -> Outcome)
  {
    forall k :: 0 <= k < |records| ==> transfer(records[k]) == Completed
  }

  /** Every check before the first transfer passes. */
  predicate Admitted(request: Request, settings: Settings, daemon: Daemon)
  {
    && |request.content| <= settings.maxContent
    && daemon.clientCreated
    && settings.username != "" && settings.password != ""
    && daemon.acceptsLogin
  }

  /** Runs the mirroring: checks, login, transfers, ledger, scripts. */
  method Run(request: Request, settings: Settings, daemon: Daemon) returns (r: Result<Report, Failure>, calls: seq<Call>)
    // too many requested references: refused before anything reaches the daemon
    ensures |request.content| > settings.maxContent ==>
      r == Failure(ContentTooLong(|request.content|, settings.maxContent)) && calls == []
    ensures |request.content| <= settings.maxContent && !daemon.clientCreated ==>
      r == Failure(ClientUnavailable) && calls == [NewClient]
    // missing credentials: refused before the login and before any transfer
    ensures (|request.content| <= settings.maxContent && daemon.clientCreated
             && (settings.username == "" || settings.password == "")) ==>
      r == Failure(MissingCredentials) && calls == [NewClient]
    ensures (|request.content| <= settings.maxContent && daemon.clientCreated
             && settings.username != "" && settings.password != "" && !daemon.acceptsLogin) ==>
      r == Failure(LoginRejected) && calls == [NewClient, Login(settings.username)]
    // past the checks: the login, then what the transfers and the rendering yield
    ensures Admitted(request, settings, daemon) ==>
      && |calls| >= 2 && calls[..2] == [NewClient, Login(settings.username)]
      && Mirrored(request.content, settings.username, request.customRegistry, daemon.transfer, r, calls[2..])
  {
    var content, username := request.content, settings.username;
    if |content| > settings.maxContent {
      return Failure(ContentTooLong(|content|, settings.maxContent)), [];
    }
    calls := [NewClient];
    if !daemon.clientCreated {
      return Failure(ClientUnavailable), calls;
    }
    if username == "" || settings.password == "" {
      return Failure(MissingCredentials), calls;
    }
    calls := calls + [Login(username)];
    if !daemon.acceptsLogin {
      return Failure(LoginRejected), calls;
    }
    var rest;
    r, rest := Convert(content, username, request.customRegistry, daemon.transfer);
    calls := calls + rest;
    assert calls[2..] == rest;
  }

  /**
   * What a run yields after the login: the transfers run in entry order up to
   * the first that fails; a failure ends the run with no artifacts, and so
   * does an empty ledger; otherwise the report holds the ledger and the
   * scripts rendered from it.
   */
  predicate Mirrored(content: seq<string>, username: string, customRegistry: string,
                     transfer: Record -> Outcome, r: Result<Report, Failure>, calls: seq<Call>)
  {
    var reqs := Requested(content, username);
    var k := FirstFailure(reqs, transfer);
    && calls == CompletedCalls(reqs[..k]) + (if k < |reqs| then TransferCalls(reqs[k], transfer(reqs[k])) else [])
    && r == if k < |reqs| then Failure(TransferFailed(transfer(reqs[k]).stage, reqs[k].source, reqs[k].target))
            else if reqs == [] then Failure(EmptyOutput)
            else Success(Report(reqs, RenderAll(reqs, customRegistry)))
  }

  /**
   * The part of the run after the login: the transfers, then the scripts
   * rendered from the ledger when every transfer completed and the ledger is
   * not empty.
   */
  method Convert(content: seq<string>, username: string, customRegistry: string, transfer: Record -> Outcome)
    returns (r: Result<Report, Failure>, calls: seq<Call>)
    ensures Mirrored(content, username, customRegistry, transfer, r, calls)
  {
    var output, failed;
    output, failed, calls := Transfer(content, username, transfer);
    if failed.Some? {
      var rec := failed.value;
      return Failure(TransferFailed(transfer(rec).stage, rec.source, rec.target)), calls;
    }
    assert output == Requested(content, username);
    if |output| == 0 {
      return Failure(EmptyOutput), calls;
    }
    return Success(Report(output, RenderAll(output, customRegistry))), calls;
  }

  /**
   * The transfer loop: one transfer per non-empty entry, in entry order,
   * stopping at the first that fails. Returns the records completed so far,
   * the record whose transfer failed, if any, and the client operations made.
   */
  method Transfer(content: seq<string>, username: string, transfer: Record -> Outcome)
    returns (output: seq<Record>, failed: Option<Record>, calls: seq<Call>)
    ensures var reqs := Requested(content, username);
      var k := FirstFailure(reqs, transfer);
      && output == reqs[..k]
      && failed == (if k < |reqs| then Some(reqs[k]) else None)
      && calls == CompletedCalls(output) + (if k < |reqs| then TransferCalls(reqs[k], transfer(reqs[k])) else [])
  {
    ghost var reqs := Requested(content, username);
    output, calls := [], [];
    for i := 0 to |content|
      invariant output == Requested(content[..i], username)
      invariant AllComplete(output, transfer)
      invariant calls == CompletedCalls(output)
    {
      RequestedStep(content, i, username);
      var source := content[i];
      if source != "" {
        var rec := Derive(source, username);
        var outcome := transfer(rec);
        if outcome.FailedAt? {
          FailureAt(content, i, username, transfer);
          return output, Some(rec), calls + TransferCalls(rec, outcome);
        }
        CompletedCallsStep(output, rec);
        calls := calls + TransferCalls(rec, outcome);
        output := output + [rec];
      }
    }
    assert content[..|content|] == content;
    NoFailure(reqs, transfer);
    return output, None, calls;
  }

  /** The entry at `i` is where the run stops when its transfer is the first to fail. */
  lemma FailureAt(content: seq<string>, i: nat, username: string, transfer: Record -> Outcome)
    requires i < |content| && content[i] != ""
    requires AllComplete(Requested(content[..i], username), transfer)
    requires transfer(Derive(content[i], username)).FailedAt?
    ensures var reqs, done := Requested(content, username), Requested(content[..i], username);
      && FirstFailure(reqs, transfer) == |done| < |reqs|
      && reqs[..|done|] == done && reqs[|done|] == Derive(content[i], username)
  {
    var reqs, done, rec := Requested(content, username), Requested(content[..i], username), Derive(content[i], username);
    RequestedStep(content, i, username);
    RequestedPrefix(content, i + 1, username);
    PrefixEndingIn(reqs, done, rec);
    FirstFailureIs(reqs, transfer, |done|);
  }

  lemma NoFailure(records: seq<Record>, transfer: Record -> Outcome)
    requires AllComplete(records, transfer)
    ensures FirstFailure(records, transfer) == |records| && records[..|records|] == records
  {
  }

  /** The index of the first record whose transfer fails, or the ledger's length when none does. */
  function FirstFailure(records: seq<Record>, transfer: Record -> Outcome): (k: nat)
    ensures k <= |records|
    ensures AllComplete(records[..k], transfer)
    ensures k < |records| ==> transfer(records[k]).FailedAt?
  {
    if records == [] || transfer(records[0]).FailedAt? then 0
    else
      var k := 1 + FirstFailure(records[1..], transfer);
      assert records[..k] == [records[0]] + records[1..][..k - 1];
      k
  }

  /** A failure after only completed transfers is the first failure, and it is unique. */
  lemma {:induction false} FirstFailureIs(records: seq<Record>, transfer: Record -> Outcome, k: nat)
    requires k <= |records| && AllComplete(records[..k], transfer)
    requires k < |records| ==> transfer(records[k]).FailedAt?
    ensures FirstFailure(records, transfer) == k
  {
  }

  /** Completed transfers make three client operations each: pull, tag, push. */
  lemma {:induction false} CompletedCallsCount(records: seq<Record>)
    ensures |CompletedCalls(records)| == 3 * |records|
    decreases |records|
  {
    if records != [] {
      CompletedCallsCount(records[..|records| - 1]);
    }
  }

  /**
   * A run that reports success transferred every non-empty entry: its ledger
   * holds one completed record per non-empty entry and is not empty, its
   * scripts are rendered from that ledger, and the daemon saw a pull, a tag
   * and a push per record and nothing else.
   */
  lemma SuccessfulRun(content: seq<string>, username: string, customRegistry: string,
                      transfer: Record -> Outcome, r: Result<Report, Failure>, calls: seq<Call>)
    requires Mirrored(content, username, customRegistry, transfer, r, calls) && r.Success?
    ensures r.value.ledger == Requested(content, username)
    ensures 0 < |r.value.ledger| == |content| - multiset(content)[""]
    ensures AllComplete(r.value.ledger, transfer)
    ensures r.value.artifacts == RenderAll(r.value.ledger, customRegistry)
    ensures |calls| == 3 * |r.value.ledger|
  {
    var reqs := Requested(content, username);
    assert FirstFailure(reqs, transfer) == |reqs|;
    assert reqs[..|reqs|] == reqs;
    RequestedCount(content, username);
    CompletedCallsCount(reqs);
  }

  /**
   * The rendering a successful run reports is the one the code as written
   * produces when a custom registry is set; without one, the code as written
   * fails at the nerdctl template over that same ledger instead.
   */
  lemma SuccessfulRunAsWritten(content: seq<string>, username: string, customRegistry: string,
                               transfer: Record -> Outcome, r: Result<Report, Failure>, calls: seq<Call>)
    requires Mirrored(content, username, customRegistry, transfer, r, calls) && r.Success?
    ensures customRegistry != "" ==> RenderAllAsWritten(r.value.ledger, customRegistry) == Success(r.value.artifacts)
    ensures customRegistry == "" ==> RenderAllAsWritten(r.value.ledger, customRegistry) == Failure(CannotEvaluateField("Output"))
  {
    SuccessfulRun(content, username, customRegistry, transfer, r, calls);
  }

  /**
   * A run fails for an empty ledger exactly when every requested reference is
   * empty; any other failure after the login is a failed transfer.
   */
  lemma EmptyRun(content: seq<string>, username: string, customRegistry: string,
                 transfer: Record -> Outcome, r: Result<Report, Failure>, calls: seq<Call>)
    requires Mirrored(content, username, customRegistry, transfer, r, calls)
    ensures r == Failure(EmptyOutput) <==> multiset(content)[""] == |content|
    ensures r.Failure? ==> r.error.EmptyOutput? || r.error.TransferFailed?
  {
    RequestedCount(content, username);
  }

  // ---------------------------------------------------------------------
  // The ledger of a run in which every transfer completes.

  lemma {:induction false} RequestedAppend(a: seq<string>, b: seq<string>, username: string)
    ensures Requested(a + b, username) == Requested(a, username) + Requested(b, username)
    decreases |b|
  {
    if b == [] {
      assert a + b == a;
    } else {
      var n := |b| - 1;
      assert (a + b)[..|a + b| - 1] == a + b[..n];
      RequestedAppend(a, b[..n], username);
    }
  }

  lemma RequestedStep(content: seq<string>, i: nat, username: string)
    requires i < |content|
    ensures Requested(content[..i + 1], username)
         == Requested(content[..i], username) + (if content[i] == "" then [] else [Derive(content[i], username)])
  {
    assert content[..i + 1][..i] == content[..i];
  }

  lemma CompletedCallsStep(records: seq<Record>, rec: Record)
    ensures CompletedCalls(records + [rec]) == CompletedCalls(records) + TransferCalls(rec, Completed)
  {
  }

  /** The ledger of the first entries is a prefix of the whole ledger. */
  lemma RequestedPrefix(content: seq<string>, i: nat, username: string)
    requires i <= |content|
    ensures var whole, part := Requested(content, username), Requested(content[..i], username);
      |part| <= |whole| && whole[..|part|] == part
  {
    var part, rest := Requested(content[..i], username), Requested(content[i..], username);
    assert content[..i] + content[i..] == content;
    RequestedAppend(content[..i], content[i..], username);
    assert (part + rest)[..|part|] == part;
  }

  /** One record per non-empty entry: empty entries are skipped and nothing else is. */
  lemma {:induction false} RequestedCount(content: seq<string>, username: string)
    ensures |Requested(content, username)| == |content| - multiset(content)[""]
    ensures |Requested(content, username)| <= |content|
    decreases |content|
  {
    if content != [] {
      var n := |content| - 1;
      RequestedCount(content[..n], username);
      assert content == content[..n] + [content[n]];
      assert multiset(content)[""] == multiset(content[..n])[""] + multiset([content[n]])[""];
    }
  }

  /** The ledger holds exactly the derivations of the non-empty entries. */
  lemma {:induction false} RequestedMembers(content: seq<string>, username: string, rec: Record)
    ensures rec in Requested(content, username) <==>
      exists entry :: entry in content && entry != "" && rec == Derive(entry, username)
    decreases |content|
  {
    if content != [] {
      var n := |content| - 1;
      var init, last := content[..n], content[n];
      RequestedMembers(init, username, rec);
      assert content == init + [last];
      if rec in Requested(content, username) {
        if rec in Requested(init, username) {
          var entry :| entry in init && entry != "" && rec == Derive(entry, username);
          assert entry in content;
        } else {
          assert last != "" && rec == Derive(last, username);
          assert last in content;
        }
      }
      if exists entry :: entry in content && entry != "" && rec == Derive(entry, username) {
        var entry :| entry in content && entry != "" && rec == Derive(entry, username);
        if entry in init {
          assert rec in Requested(init, username);
        } else {
          assert entry == last;
        }
      }
    }
  }

  /** Reordering the entries reorders the ledger and nothing more. */
  lemma {:induction false} RequestedPermutation(c1: seq<string>, c2: seq<string>, username: string)
    requires multiset(c1) == multiset(c2)
    ensures multiset(Requested(c1, username)) == multiset(Requested(c2, username))
    decreases |c1|
  {
    if c1 == [] {
      assert c2 == [];
    } else {
      var e := c1[0];
      assert e in multiset(c2);
      var j :| 0 <= j < |c2| && c2[j] == e;
      RemoveMatched(c1, c2, j);
      RequestedPermutation(c1[1..], c2[..j] + c2[j + 1..], username);
      var rest := c2[..j] + c2[j + 1..];
      var one, a, b := Requested([e], username), Requested(c2[..j], username), Requested(c2[j + 1..], username);
      assert c1 == [e] + c1[1..];
      RequestedAppend([e], c1[1..], username);
      RequestedAppend(c2[..j], c2[j + 1..], username);
      assert multiset(Requested(c1, username)) == multiset(one) + multiset(a + b);
      Around(c2, j);
      RequestedAppend(c2[..j] + [e], c2[j + 1..], username);
      RequestedAppend(c2[..j], [e], username);
      assert Requested(c2, username) == a + one + b;
      assert multiset(a + one + b) == multiset(a) + multiset(one) + multiset(b);
    }
  }

  /**
   * A record with an empty source can only come from an entry that is the
   * bare digest marker; every other record's source is non-empty.
   */
  lemma EmptySourceOnlyFromBareMarker(content: seq<string>, username: string, rec: Record)
    requires rec in Requested(content, username) && rec.source == ""
    ensures DigestMarker in content
  {
    RequestedMembers(content, username, rec);
    var entry :| entry in content && entry != "" && rec == Derive(entry, username);
    SourceEmptyIff(entry, username);
  }
}
