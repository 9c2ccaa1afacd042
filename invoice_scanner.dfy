/** The invoice-scanner HTTP handler: method gate, multipart upload,
    MIME allow-list, configuration check, submission to the analyzer and
    the poll loop, with every exception turned into a server error.

    The handler's collaborators are inputs: the multipart parser's result,
    the two environment settings, the analyzer's reply to the submission
    and its replies to the polls. */
module InvoiceScanner {
  import opened Wrappers
  import opened Http
  import opened MediaTypes
  import opened Upload
  import opened Polling

  /** What the multipart parser made of the body: the error it emitted, or
      the file events it fired before finishing. */
  datatype Multipart = ParseFailed(message: string) | Parsed(parts: seq<FilePart>)

  datatype Request = Request(httpMethod: string, multipart: Multipart)

  /** The endpoint and key settings; `None` when the variable is unset. */
  datatype Env = Env(endpoint: Option<string>, apiKey: Option<string>)

  /** The analyzer's answer to the submission: its status, its text body and
      its `operation-location` header, or an exception from the fetch. */
  datatype AnalyzeOutcome =
    | AnalyzeThrew(message: string)
    | AnalyzeReply(status: int, text: string, operationLocation: Option<string>)

  datatype Remote = Remote(analyze: AnalyzeOutcome, poll: PollService)

  /** The one request sent to the analyzer's analyze endpoint. */
  datatype Submission = Submission(contentType: string, subscriptionKey: string, payload: Bytes)

  /** What one call of the handler does: the response it leaves, whether it
      handed the body to the multipart parser, what it submitted, and how
      many poll requests it issued. */
  datatype Outcome = Outcome(response: Response, parsed: bool, submitted: Option<Submission>, polls: nat)

  const MethodNotAllowed := Response(405, PlainText("Method Not Allowed"))
  const NoFileUploaded := Response(400, PlainText("No file uploaded"))
  const UnsupportedFileType := Response(415, PlainText("Unsupported file type"))
  const MissingConfig := Response(500, PlainText("Missing Document Intelligence config"))
  const NoOperationLocation := Response(500, PlainText("No operation-location header in response"))

  /** JavaScript truthiness of an optional string: unset and "" are falsy. */
  predicate Configured(v: Option<string>)
  {
    v.Some? && v.value != ""
  }

  /** `Response.ok` of a fetch reply. */
  predicate IsOk(status: int)
  {
    200 <= status <= 299
  }

  /** The request gets past every local check and is submitted. */
  predicate PassesGates(req: Request, env: Env)
  {
    req.httpMethod == "POST" && req.multipart.Parsed? && req.multipart.parts != [] &&
    IsSupported(LastMimeType(req.multipart.parts)) &&
    Configured(env.endpoint) && Configured(env.apiKey)
  }

  /** The submission is accepted with a job handle, so polling starts. */
  predicate ReachesPolling(req: Request, env: Env, remote: Remote)
  {
    PassesGates(req, env) && remote.analyze.AnalyzeReply? &&
    IsOk(remote.analyze.status) && Configured(remote.analyze.operationLocation)
  }

  /** The handler's behaviour as one decision chain; the loops are replaced
      by their specifications (`Forwarded`, `PollCount`, `PollResult`). */
  function Scan(req: Request, env: Env, remote: Remote): Outcome
  {
    if req.httpMethod != "POST" then Outcome(MethodNotAllowed, false, None, 0)
    else match req.multipart
      case ParseFailed(message) => Outcome(ServerError(message), true, None, 0)
      case Parsed(parts) =>
        if parts == [] then Outcome(NoFileUploaded, true, None, 0)
        else if !IsSupported(LastMimeType(parts)) then Outcome(UnsupportedFileType, true, None, 0)
        else if !Configured(env.endpoint) || !Configured(env.apiKey) then Outcome(MissingConfig, true, None, 0)
        else
          var sent := Some(Submission(LastMimeType(parts), env.apiKey.value, Forwarded(parts)));
          match remote.analyze
          case AnalyzeThrew(message) => Outcome(ServerError(message), true, sent, 0)
          case AnalyzeReply(status, text, operationLocation) =>
            if !IsOk(status) then Outcome(Response(status, PlainText(text)), true, sent, 0)
            else if !Configured(operationLocation) then Outcome(NoOperationLocation, true, sent, 0)
            else Outcome(PollResult(remote.poll), true, sent, PollCount(remote.poll))
  }

  /** The `file` and `data` callbacks over the parser's events: every file
      event sets `fileFound`, overwrites `mimeType` and appends its chunks to
      `fileBuffer`. */
  method CollectFiles(parts: seq<FilePart>) returns (fileFound: bool, mimeType: string, fileBuffer: seq<Bytes>)
    ensures fileFound <==> parts != []
    ensures mimeType == LastMimeType(parts)
    ensures fileBuffer == AllChunks(parts)
  {
    fileBuffer := [];
    mimeType := "";
    fileFound := false;
    for i := 0 to |parts|
      invariant fileFound <==> i > 0
      invariant mimeType == LastMimeType(parts[..i])
      invariant fileBuffer == AllChunks(parts[..i])
    {
      fileFound := true;
      mimeType := parts[i].mimeType;
      var chunks := parts[i].chunks;
      for j := 0 to |chunks|
        invariant fileBuffer == AllChunks(parts[..i]) + chunks[..j]
      {
        fileBuffer := fileBuffer + [chunks[j]];
      }
      assert parts[..i + 1][..i] == parts[..i];
    }
    assert parts[..|parts|] == parts;
  }

  /** The do-while poll loop: poll, count the try, and go on while the
      status reads "running" and fewer than `MaxTries` polls were made.
      Returns the response it leads to and the number of polls issued. */
  method PollUntilSettled(service: PollService) returns (response: Response, polls: nat)
    ensures response == PollResult(service)
    ensures polls == PollCount(service)
  {
    var pollData: Option<PollOutcome> := None;
    var tries: nat := 0;
    var again := true;
    while again
      invariant tries <= MaxTries
      invariant again ==> tries < MaxTries && PollCountFrom(service, tries) == PollCount(service)
      invariant !again ==>
        1 <= tries && tries == PollCount(service) &&
        pollData == Some(service(tries - 1)) && !Classify(pollData.value).Threw?
      decreases MaxTries - tries
    {
      var reply := service(tries);
      if reply.PollThrew? {
        assert PollCountFrom(service, tries) == tries + 1;
        return ServerError(reply.message), tries + 1;
      }
      pollData := Some(reply);
      tries := tries + 1;
      match reply.status {
        case Absent =>
          again := false;
        case NonString(truthy) =>
          if truthy {
            assert PollCountFrom(service, tries - 1) == tries;
            return ServerError(NotAFunctionMessage), tries;
          }
          again := false;
        case Str(s) =>
          again := s != "" && ToLower(s) == "running" && tries < MaxTries;
          assert again ==> PollCountFrom(service, tries - 1) == PollCountFrom(service, tries);
          assert !again ==> PollCountFrom(service, tries - 1) == tries;
      }
    }
    return Response(200, JsonBody(pollData.value.document)), tries;
  }

  /** The handler: the gates in their order, the submission and the poll
      loop. */
  method Handle(req: Request, env: Env, remote: Remote) returns (o: Outcome)
    ensures o == Scan(req, env, remote)
  {
    if req.httpMethod != "POST" {
      return Outcome(MethodNotAllowed, false, None, 0);
    }

    var parts: seq<FilePart>;
    match req.multipart {
      case ParseFailed(message) =>
        return Outcome(ServerError(message), true, None, 0);
      case Parsed(ps) =>
        parts := ps;
    }
    var fileFound, mimeType, fileBuffer := CollectFiles(parts);

    if !fileFound {
      return Outcome(NoFileUploaded, true, None, 0);
    }
    if !IsSupported(mimeType) {
      return Outcome(UnsupportedFileType, true, None, 0);
    }
    var buffer := Concat(fileBuffer);
    if !Configured(env.endpoint) || !Configured(env.apiKey) {
      return Outcome(MissingConfig, true, None, 0);
    }

    var sent := Some(Submission(mimeType, env.apiKey.value, buffer));
    var analyzeRes := remote.analyze;
    if analyzeRes.AnalyzeThrew? {
      return Outcome(ServerError(analyzeRes.message), true, sent, 0);
    }
    if !IsOk(analyzeRes.status) {
      return Outcome(Response(analyzeRes.status, PlainText(analyzeRes.text)), true, sent, 0);
    }
    if !Configured(analyzeRes.operationLocation) {
      return Outcome(NoOperationLocation, true, sent, 0);
    }

    ScanWhenPolling(req, env, remote);
    var response, polls := PollUntilSettled(remote.poll);
    return Outcome(response, true, sent, polls);
  }

  /** Any method other than POST is refused with 405 before the body is
      parsed and before any remote call. */
  lemma NonPostRefused(req: Request, env: Env, remote: Remote)
    requires req.httpMethod != "POST"
    ensures Scan(req, env, remote) == Outcome(MethodNotAllowed, false, None, 0)
  {
  }

  /** A 405 that the handler produces itself (nothing submitted) comes from
      the method gate and from nothing else. */
  lemma LocalMethodNotAllowedIff(req: Request, env: Env, remote: Remote)
    ensures var o := Scan(req, env, remote);
      (o.response.status == 405 && o.submitted == None) <==> req.httpMethod != "POST"
  {
  }

  /** A parser error, like every other exception, becomes a 500 server
      error carrying its message, and nothing is submitted. */
  lemma ParseFailureIsServerError(req: Request, env: Env, remote: Remote)
    requires req.httpMethod == "POST" && req.multipart.ParseFailed?
    ensures Scan(req, env, remote) ==
      Outcome(ServerError(req.multipart.message), true, None, 0)
  {
  }

  /** A POST whose body fired no file event gets 400, whatever the
      configuration and the analyzer would do. */
  lemma NoFileRefused(req: Request, env: Env, remote: Remote)
    requires req.httpMethod == "POST" && req.multipart == Parsed([])
    ensures Scan(req, env, remote) == Outcome(NoFileUploaded, true, None, 0)
  {
  }

  /** The MIME type of the last file part decides: if it is not on the
      allow-list the answer is 415, before the configuration is looked at
      and whatever earlier parts declared. */
  lemma UnsupportedTypeRefused(req: Request, env: Env, remote: Remote)
    requires req.httpMethod == "POST" && req.multipart.Parsed?
    requires var parts := req.multipart.parts;
      parts != [] && !IsSupported(parts[|parts| - 1].mimeType)
    ensures Scan(req, env, remote) == Outcome(UnsupportedFileType, true, None, 0)
  {
  }

  /** With a supported upload, an unset or empty endpoint or key gives 500
      and no remote call. */
  lemma MissingConfigRefused(req: Request, env: Env, remote: Remote)
    requires req.httpMethod == "POST" && req.multipart.Parsed?
    requires req.multipart.parts != [] && IsSupported(LastMimeType(req.multipart.parts))
    requires !Configured(env.endpoint) || !Configured(env.apiKey)
    ensures Scan(req, env, remote) == Outcome(MissingConfig, true, None, 0)
  {
  }

  /** The analyzer is called exactly when every local check passes, and it
      receives the last part's MIME type as Content-Type, the configured key
      and every chunk of every part joined in arrival order. */
  lemma SubmissionIff(req: Request, env: Env, remote: Remote)
    ensures Scan(req, env, remote).submitted.Some? <==> PassesGates(req, env)
    ensures PassesGates(req, env) ==>
      var parts := req.multipart.parts;
      Scan(req, env, remote).submitted ==
        Some(Submission(parts[|parts| - 1].mimeType, env.apiKey.value, Concat(PartBytes(parts))))
  {
    if PassesGates(req, env) {
      ForwardedIsPartsInOrder(req.multipart.parts);
    }
  }

  /** A submission the analyzer rejects is answered with the analyzer's own
      status and text, and no poll is made. */
  lemma RejectedSubmissionMirrored(req: Request, env: Env, remote: Remote)
    requires PassesGates(req, env)
    requires remote.analyze.AnalyzeReply? && !IsOk(remote.analyze.status)
    ensures var o := Scan(req, env, remote);
      o.response == Response(remote.analyze.status, PlainText(remote.analyze.text)) &&
      o.polls == 0
  {
  }

  /** An accepted submission without a usable `operation-location` header
      gives 500 and no poll. */
  lemma MissingOperationLocationRefused(req: Request, env: Env, remote: Remote)
    requires PassesGates(req, env)
    requires remote.analyze.AnalyzeReply? && IsOk(remote.analyze.status)
    requires !Configured(remote.analyze.operationLocation)
    ensures var o := Scan(req, env, remote);
      o.response == NoOperationLocation && o.polls == 0
  {
  }

  /** A failed submission call is a 500 server error with its message and no
      poll. */
  lemma SubmissionExceptionIsServerError(req: Request, env: Env, remote: Remote)
    requires PassesGates(req, env) && remote.analyze.AnalyzeThrew?
    ensures var o := Scan(req, env, remote);
      o.response == ServerError(remote.analyze.message) && o.polls == 0
  {
  }

  /** Polling happens only after an accepted submission with a job handle;
      then at least one and at most `MaxTries` polls are made, and they go
      on only while the status read "running". */
  lemma PollsBounded(req: Request, env: Env, remote: Remote)
    ensures var o := Scan(req, env, remote);
      o.polls <= MaxTries &&
      (o.polls > 0 <==> ReachesPolling(req, env, remote)) &&
      (o.polls > 0 ==> StopsAt(remote.poll, o.polls))
  {
    PollCountCharacterised(remote.poll, PollCount(remote.poll));
  }

  /** Once polling is reached, the outcome is the poll loop's. */
  lemma ScanWhenPolling(req: Request, env: Env, remote: Remote)
    requires ReachesPolling(req, env, remote)
    ensures var parts := req.multipart.parts;
      Scan(req, env, remote) ==
        Outcome(PollResult(remote.poll), true,
          Some(Submission(LastMimeType(parts), env.apiKey.value, Forwarded(parts))),
          PollCount(remote.poll))
  {
  }

  /** Short of polling, no poll is made and the status is never 200. */
  lemma ScanWithoutPolling(req: Request, env: Env, remote: Remote)
    requires !ReachesPolling(req, env, remote)
    ensures Scan(req, env, remote).polls == 0
    ensures Scan(req, env, remote).response.status != 200
  {
  }

  /** The poll loop answers 200 exactly when its last poll did not throw,
      and then with that poll's body, after a poll that settled or the last
      allowed one. */
  lemma PollOkIsLastBody(service: PollService)
    ensures var n := PollCount(service);
      PollResult(service).status == 200 <==> !Classify(service(n - 1)).Threw?
    ensures var n := PollCount(service);
      PollResult(service).status == 200 ==>
        PollResult(service).body == JsonBody(service(n - 1).document) &&
        (n == MaxTries || Classify(service(n - 1)) == Settled)
  {
    PollCountCharacterised(service, PollCount(service));
    PollResultIsLastBody(service);
  }

  /** The handler answers 200 exactly when polling ended without an
      exception, and then the body is the last poll's body, even when that
      body still says "running" after the last allowed try. */
  lemma OkIsLastPollBody(req: Request, env: Env, remote: Remote)
    ensures var o := Scan(req, env, remote);
      o.response.status == 200 <==>
        ReachesPolling(req, env, remote) && o.polls > 0 &&
        !Classify(remote.poll(o.polls - 1)).Threw?
    ensures var o := Scan(req, env, remote);
      o.response.status == 200 ==>
        o.polls > 0 && remote.poll(o.polls - 1).PollReply? &&
        o.response.body == JsonBody(remote.poll(o.polls - 1).document) &&
        (o.polls == MaxTries || Classify(remote.poll(o.polls - 1)) == Settled)
  {
    if ReachesPolling(req, env, remote) {
      ScanWhenPolling(req, env, remote);
      PollOkIsLastBody(remote.poll);
    } else {
      ScanWithoutPolling(req, env, remote);
    }
  }

  /** An exception while polling ends the request with 500 and its message,
      after as many polls as were issued. */
  lemma PollExceptionIsServerError(req: Request, env: Env, remote: Remote)
    requires ReachesPolling(req, env, remote)
    requires Classify(remote.poll(PollCount(remote.poll) - 1)).Threw?
    ensures Scan(req, env, remote).response ==
      ServerError(Classify(remote.poll(PollCount(remote.poll) - 1)).message)
  {
    ScanWhenPolling(req, env, remote);
    PollResultIsLastBody(remote.poll);
  }

  /** End to end: a PDF upload, a 202 with a job handle and a first poll
      that has succeeded give 200 with that poll's body after one poll. */
  lemma EndToEndSingleUpload(key: string, bytes: Bytes, document: string, service: PollService)
    requires key != ""
    requires forall k :: service(k) == PollReply(Str("succeeded"), document)
    ensures Scan(
        Request("POST", Parsed([FilePart("application/pdf", [bytes])])),
        Env(Some("https://example.cognitiveservices.azure.com"), Some(key)),
        Remote(AnalyzeReply(202, "", Some("https://x/op/1")), service)) ==
      Outcome(Response(200, JsonBody(document)), true,
        Some(Submission("application/pdf", key, bytes)), 1)
  {
    var req := Request("POST", Parsed([FilePart("application/pdf", [bytes])]));
    var env := Env(Some("https://example.cognitiveservices.azure.com"), Some(key));
    var remote := Remote(AnalyzeReply(202, "", Some("https://x/op/1")), service);
    var parts := req.multipart.parts;
    assert AllChunks(parts) == [bytes] by {
      assert parts[..0] == [];
    }
    assert Forwarded(parts) == bytes by {
      assert Concat([bytes]) == bytes + Concat([]);
    }
    assert IsSupported(LastMimeType(parts));
    ScanWhenPolling(req, env, remote);
    KeepPollingIff(service(0));
    SettlesOnFirstReply(service);
    PollResultIsLastBody(service);
  }
}
