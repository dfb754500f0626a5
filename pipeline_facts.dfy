/**
 * What the caption pipeline promises, proved about its specification `Run`
 * and the helpers it is built from: the error message chosen for a failed
 * response, the order of the status events, where a run stops, which step an
 * error is attributed to, and how a successful result is assembled.
 */
module PipelineFacts {
  import opened Wrappers
  import opened Text
  import opened Seqs
  import opened Pipeline

  /**
   * The choice `readErrorMessage` makes: for a JSON response the `message`
   * field, then the `error` field, each returned untrimmed; for any other
   * response the trimmed text; the fallback when the chosen source is blank or
   * reading the body throws.
   */
  lemma ReadErrorMessageChoice(response: Response)
    ensures IsJsonResponse(response) && response.jsonBody.Got? ==>
      var json := response.jsonBody.value;
      ReadErrorMessage(response) ==
        if HasNonBlankString(json, "message") then StringField(json, "message").value
        else if HasNonBlankString(json, "error") then StringField(json, "error").value
        else Fallback(response)
    ensures !IsJsonResponse(response) && response.textBody.Got? ==>
      ReadErrorMessage(response) ==
        if IsBlank(response.textBody.value) then Fallback(response) else Trim(response.textBody.value)
    ensures (if IsJsonResponse(response) then response.jsonBody.HostThrew? else response.textBody.HostThrew?) ==>
      ReadErrorMessage(response) == Fallback(response)
  {
  }

  /**
   * The fallback is the status line: the code and the status text with one
   * space between them, or the code alone when the status text is empty.
   */
  lemma FallbackStatusLine(response: Response)
    requires IsTrimmed(response.statusText)
    ensures Fallback(response) ==
      if response.statusText == [] then NatToDecimal(response.status)
      else NatToDecimal(response.status) + " " + response.statusText
  {
    var digits := NatToDecimal(response.status);
    assert IsDigitChar(digits[0]) && IsDigitChar(digits[|digits| - 1]);
    TrimJoinedBySpace(digits, response.statusText);
  }

  /** The events of the completed steps, position by position: each step's start, then its success. */
  lemma {:induction false} CompletedAt(n: nat, i: nat)
    requires n <= 4 && i < 2 * n
    ensures Completed(n)[i] == if i % 2 == 0 then Started(i / 2 + 1) else Succeeded(i / 2 + 1)
  {
    if i < 2 * (n - 1) {
      CompletedAt(n - 1, i);
    }
  }

  /**
   * The three rules of the status events: every step emits `running` and then
   * exactly one of `success` or `error`; a step starts only after the previous
   * one succeeded; nothing follows an `error`.
   */
  predicate WellOrderedTrace(e: seq<StepUpdate>) {
    |e| <= 8 && |e| % 2 == 0 &&
    (forall i :: 0 <= i < |e| && i % 2 == 0 ==> e[i] == Started(i / 2 + 1)) &&
    (forall i :: 0 <= i < |e| && i % 2 == 1 ==>
       e[i] == Succeeded(i / 2 + 1) || (e[i].step == i / 2 + 1 && e[i].status == Error && e[i].message.Some?)) &&
    (forall i :: 0 <= i < |e| - 1 ==> e[i].status != Error)
  }

  lemma CompletedWellOrdered(n: nat)
    requires n <= 4
    ensures WellOrderedTrace(Completed(n))
  {
    forall i | 0 <= i < 2 * n {
      CompletedAt(n, i);
    }
  }

  lemma StoppedWellOrdered(k: Step, message: string)
    ensures WellOrderedTrace(Completed(k - 1) + [Started(k), Failed(k, message)])
  {
    var c := Completed(k - 1);
    var e := c + [Started(k), Failed(k, message)];
    assert |e| == 2 * k;
    forall i | 0 <= i < |e| && i % 2 == 0 ensures e[i] == Started(i / 2 + 1) {
      if i < |c| {
        CompletedAt(k - 1, i);
      }
    }
    forall i | 0 <= i < |e| && i % 2 == 1
      ensures e[i] == Succeeded(i / 2 + 1) || (e[i].step == i / 2 + 1 && e[i].status == Error && e[i].message.Some?)
    {
      if i < |c| {
        CompletedAt(k - 1, i);
      }
    }
    forall i | 0 <= i < |e| - 1 ensures e[i].status != Error {
      if i < |c| {
        CompletedAt(k - 1, i);
      }
    }
  }

  /** The error of an attempt that threw. */
  function ErrorOf<T>(a: Attempt<T>): (e: Option<Thrown>)
    ensures e.Some? <==> a.Throws?
    ensures a.Throws? ==> e.value == a.error
  {
    if a.Throws? then Some(a.error) else None
  }

  /** What the body of step k's `try` throws, given the answer to its request, if it throws. */
  function BodyError(k: Step, answer: FetchOutcome): Option<Thrown> {
    if k == 1 then ErrorOf(Presign(answer))
    else if k == 2 then ErrorOf(Upload(answer))
    else if k == 3 then ErrorOf(Register(answer))
    else ErrorOf(Captions(answer))
  }

  /**
   * The shape of a run from step `j` on, after the requests `sent`: it either
   * completes all four steps, or stops at one step k from `j` on, after which
   * nothing happens: steps before k succeeded, k started and reported the
   * error it caught, and one request per step was sent, step k's last. The
   * caught error is what step k's body threw on the answer to that request.
   * Steps 1, 3 and 4 re-throw it unchanged, step 2 wraps it; a
   * `PipelineError` always names the step that failed.
   */
  predicate TraceFrom(o: RunOutcome, transport: Request -> FetchOutcome, j: Step, sent: seq<Request>,
                      k: Step, caught: Thrown) {
    |sent| <= |o.requests| && o.requests[..|sent|] == sent &&
    (o.result.Value? ==> o.events == Completed(4) && |o.requests| == |sent| + 5 - j) &&
    (o.result.Throws? ==>
      j <= k &&
      o.events == Completed(k - 1) + [Started(k), Failed(k, MessageOf(caught))] &&
      |o.requests| == |sent| + k - j + 1 &&
      BodyError(k, transport(o.requests[|o.requests| - 1])) == Some(caught) &&
      o.result.error == (if k == 2 then UploadRethrown(caught) else caught) &&
      (o.result.error.PipelineError? ==> o.result.error.step == k))
  }

  lemma CaptionsTrace(token: string, transport: Request -> FetchOutcome, cdnUrl: string, imageId: string,
                      sent: seq<Request>)
    returns (k: Step, caught: Thrown)
    ensures TraceFrom(RunCaptions(token, transport, cdnUrl, imageId, sent), transport, 4, sent, k, caught)
  {
    var generated := Captions(transport(CaptionsRequest(imageId, token)));
    k, caught := 4, if generated.Throws? then generated.error else Host(NonErrorValue);
    assert (sent + [CaptionsRequest(imageId, token)])[..|sent|] == sent;
  }

  lemma RegisterTrace(token: string, transport: Request -> FetchOutcome, cdnUrl: string, sent: seq<Request>)
    returns (k: Step, caught: Thrown)
    ensures TraceFrom(RunRegister(token, transport, cdnUrl, sent), transport, 3, sent, k, caught)
  {
    var request := RegisterRequest(cdnUrl, token);
    var registered := Register(transport(request));
    assert (sent + [request])[..|sent|] == sent;
    if registered.Throws? {
      k, caught := 3, registered.error;
    } else {
      k, caught := CaptionsTrace(token, transport, cdnUrl, registered.value, sent + [request]);
      var o := RunRegister(token, transport, cdnUrl, sent);
      assert o.requests[..|sent|] == o.requests[..|sent| + 1][..|sent|];
    }
  }

  lemma UploadTrace(fileType: string, token: string, transport: Request -> FetchOutcome,
                    presignedUrl: string, cdnUrl: string, sent: seq<Request>)
    returns (k: Step, caught: Thrown)
    ensures TraceFrom(RunUpload(fileType, token, transport, presignedUrl, cdnUrl, sent), transport, 2, sent, k, caught)
  {
    var request := UploadRequest(presignedUrl, fileType);
    var uploaded := Upload(transport(request));
    assert (sent + [request])[..|sent|] == sent;
    if uploaded.Throws? {
      k, caught := 2, uploaded.error;
    } else {
      k, caught := RegisterTrace(token, transport, cdnUrl, sent + [request]);
      var o := RunUpload(fileType, token, transport, presignedUrl, cdnUrl, sent);
      assert o.requests[..|sent|] == o.requests[..|sent| + 1][..|sent|];
    }
  }

  lemma PresignTrace(fileType: string, token: string, transport: Request -> FetchOutcome)
    returns (k: Step, caught: Thrown)
    ensures TraceFrom(RunPresign(fileType, token, transport), transport, 1, [], k, caught)
    ensures RunPresign(fileType, token, transport).requests[0] == PresignRequest(fileType, token)
  {
    var request := PresignRequest(fileType, token);
    var urls := Presign(transport(request));
    if urls.Throws? {
      k, caught := 1, urls.error;
    } else {
      k, caught := UploadTrace(fileType, token, transport, urls.value.0, urls.value.1, [request]);
    }
  }

  /** Every run that gets past the token check completes, or stops at one step as `TraceFrom` says. */
  lemma RunTrace(fileType: string, token: string, transport: Request -> FetchOutcome)
    returns (k: Step, caught: Thrown)
    requires !IsBlank(token)
    ensures TraceFrom(Run(fileType, token, transport), transport, 1, [], k, caught)
    ensures Run(fileType, token, transport).requests[0] == PresignRequest(fileType, token)
  {
    k, caught := PresignTrace(fileType, token, transport);
  }

  /**
   * A blank token fails with the missing-token error before any event or
   * request; any other token starts step 1 with the presign request.
   */
  lemma RunMissingToken(fileType: string, token: string, transport: Request -> FetchOutcome)
    ensures var o := Run(fileType, token, transport);
      (IsBlank(token) <==> o.events == []) &&
      (IsBlank(token) ==> o.result == Throws(PipelineError(1, MissingTokenMessage)) && o.requests == []) &&
      (!IsBlank(token) ==> o.events != [] && o.events[0] == Started(1) &&
                           o.requests != [] && o.requests[0] == PresignRequest(fileType, token))
  {
    if !IsBlank(token) {
      var k, caught := RunTrace(fileType, token, transport);
      RunEventRules(fileType, token, transport);
      assert |Run(fileType, token, transport).events| >= 2;
    }
  }

  /**
   * The status events of every run obey the three ordering rules, and a run
   * succeeds exactly when all four steps reported success.
   */
  lemma RunEventRules(fileType: string, token: string, transport: Request -> FetchOutcome)
    ensures var o := Run(fileType, token, transport);
      WellOrderedTrace(o.events) &&
      (o.result.Value? <==> |o.events| == 8 && o.events[7] == Succeeded(4)) &&
      (o.result.Throws? && o.events != [] ==> o.events[|o.events| - 1].status == Error)
  {
    if IsBlank(token) {
      CompletedWellOrdered(0);
    } else {
      var k, caught := RunTrace(fileType, token, transport);
      var o := Run(fileType, token, transport);
      if o.result.Value? {
        CompletedWellOrdered(4);
        CompletedAt(4, 7);
      } else {
        StoppedWellOrdered(k, MessageOf(caught));
        assert o.events[|o.events| - 1] == Failed(k, MessageOf(caught));
      }
    }
  }

  /**
   * The error event and the error of a failed run: the failing step's body
   * threw on the answer to the last request; the event carries that error's
   * message (or "Unknown error" for a value that is not an `Error`); steps 1, 3
   * and 4 re-throw it unchanged, so their event message is the message of the
   * error the run throws, and step 2 throws it wrapped as a step-2 error.
   */
  lemma RunErrorMessage(fileType: string, token: string, transport: Request -> FetchOutcome)
    requires !IsBlank(token)
    ensures var o := Run(fileType, token, transport);
      o.result.Throws? ==>
        o.events != [] && o.requests != [] &&
        var last := o.events[|o.events| - 1];
        var thrown := BodyError(last.step, transport(o.requests[|o.requests| - 1]));
        last.status == Error && thrown.Some? &&
        last.message == Some(MessageOf(thrown.value)) &&
        o.result.error == (if last.step == 2 then UploadRethrown(thrown.value) else thrown.value) &&
        (last.step != 2 ==> last.message == Some(MessageOf(o.result.error))) &&
        (last.step == 2 ==> o.result.error.PipelineError? && o.result.error.step == 2)
  {
    var k, caught := RunTrace(fileType, token, transport);
  }

  /**
   * A presign request whose `fetch` rejects ends the run at step 1 with that
   * very failure, not wrapped, after a single request.
   */
  lemma RunRejectedPresign(fileType: string, token: string, transport: Request -> FetchOutcome, f: HostFailure)
    requires !IsBlank(token)
    requires transport(PresignRequest(fileType, token)) == Rejected(f)
    ensures Run(fileType, token, transport) ==
      RunOutcome(Throws(Host(f)), [Started(1), Failed(1, MessageOf(Host(f)))], [PresignRequest(fileType, token)])
  {
  }

  /**
   * A PUT whose `fetch` rejects ends the run at step 2. The error event carries
   * the failure's message, or "Unknown error" for a value that is not an
   * `Error`; the run throws a step-2 `PipelineError` with the failure's
   * message, or "Upload failed" for a value that is not an `Error`.
   */
  lemma RunRejectedUpload(fileType: string, token: string, transport: Request -> FetchOutcome,
                          presignedUrl: string, cdnUrl: string, sent: seq<Request>, f: HostFailure)
    requires transport(UploadRequest(presignedUrl, fileType)) == Rejected(f)
    ensures var o := RunUpload(fileType, token, transport, presignedUrl, cdnUrl, sent);
      o.events == Completed(1) + [Started(2), Failed(2, MessageOf(Host(f)))] &&
      o.result == Throws(PipelineError(2, if f.ErrorObject? then f.message else UploadFailedMessage))
  {
  }

  lemma CaptionsResult(token: string, transport: Request -> FetchOutcome, cdnUrl: string, imageId: string,
                       sent: seq<Request>)
    returns (items: seq<Json>)
    requires RunCaptions(token, transport, cdnUrl, imageId, sent).result.Value?
    ensures PostJson(transport(CaptionsRequest(imageId, token)), 4) == Value(JArray(items))
    ensures RunCaptions(token, transport, cdnUrl, imageId, sent) ==
      RunOutcome(Value(PipelineResult(cdnUrl, imageId, FilterCaptions(items))), Completed(4),
                 sent + [CaptionsRequest(imageId, token)])
  {
    items := PostJson(transport(CaptionsRequest(imageId, token)), 4).value.items;
  }

  lemma RegisterResult(token: string, transport: Request -> FetchOutcome, cdnUrl: string, sent: seq<Request>)
    returns (imageId: string, items: seq<Json>)
    requires RunRegister(token, transport, cdnUrl, sent).result.Value?
    ensures Register(transport(RegisterRequest(cdnUrl, token))) == Value(imageId)
    ensures var registered := PostJson(transport(RegisterRequest(cdnUrl, token)), 3);
      registered.Value? && imageId == StringField(registered.value, "imageId").value
    ensures PostJson(transport(CaptionsRequest(imageId, token)), 4) == Value(JArray(items))
    ensures RunRegister(token, transport, cdnUrl, sent) ==
      RunOutcome(Value(PipelineResult(cdnUrl, imageId, FilterCaptions(items))), Completed(4),
                 sent + [RegisterRequest(cdnUrl, token)] + [CaptionsRequest(imageId, token)])
  {
    var request := RegisterRequest(cdnUrl, token);
    imageId := Register(transport(request)).value;
    items := CaptionsResult(token, transport, cdnUrl, imageId, sent + [request]);
  }

  lemma UploadResult(fileType: string, token: string, transport: Request -> FetchOutcome,
                     presignedUrl: string, cdnUrl: string, sent: seq<Request>)
    returns (imageId: string, items: seq<Json>)
    requires RunUpload(fileType, token, transport, presignedUrl, cdnUrl, sent).result.Value?
    ensures Upload(transport(UploadRequest(presignedUrl, fileType))).Value?
    ensures Register(transport(RegisterRequest(cdnUrl, token))) == Value(imageId)
    ensures var registered := PostJson(transport(RegisterRequest(cdnUrl, token)), 3);
      registered.Value? && imageId == StringField(registered.value, "imageId").value
    ensures PostJson(transport(CaptionsRequest(imageId, token)), 4) == Value(JArray(items))
    ensures RunUpload(fileType, token, transport, presignedUrl, cdnUrl, sent) ==
      RunOutcome(Value(PipelineResult(cdnUrl, imageId, FilterCaptions(items))), Completed(4),
                 sent + [UploadRequest(presignedUrl, fileType)] + [RegisterRequest(cdnUrl, token)] +
                 [CaptionsRequest(imageId, token)])
  {
    var request := UploadRequest(presignedUrl, fileType);
    imageId, items := RegisterResult(token, transport, cdnUrl, sent + [request]);
  }

  /**
   * A successful run returns the `cdnUrl` field of step 1's answer, the
   * `imageId` field of step 3's answer and the records of step 4's array,
   * after sending the four requests in order.
   */
  lemma RunResultAssembly(fileType: string, token: string, transport: Request -> FetchOutcome)
    returns (presignedUrl: string, cdnUrl: string, imageId: string, items: seq<Json>)
    requires Run(fileType, token, transport).result.Value?
    ensures Presign(transport(PresignRequest(fileType, token))) == Value((presignedUrl, cdnUrl))
    ensures Upload(transport(UploadRequest(presignedUrl, fileType))).Value?
    ensures Register(transport(RegisterRequest(cdnUrl, token))) == Value(imageId)
    ensures PostJson(transport(CaptionsRequest(imageId, token)), 4) == Value(JArray(items))
    ensures var presigned := PostJson(transport(PresignRequest(fileType, token)), 1);
      presigned.Value? &&
      presignedUrl == StringField(presigned.value, "presignedUrl").value &&
      cdnUrl == StringField(presigned.value, "cdnUrl").value
    ensures var registered := PostJson(transport(RegisterRequest(cdnUrl, token)), 3);
      registered.Value? && imageId == StringField(registered.value, "imageId").value
    ensures Run(fileType, token, transport) ==
      RunOutcome(Value(PipelineResult(cdnUrl, imageId, FilterCaptions(items))), Completed(4),
                 [PresignRequest(fileType, token)] + [UploadRequest(presignedUrl, fileType)] +
                 [RegisterRequest(cdnUrl, token)] + [CaptionsRequest(imageId, token)])
  {
    var request := PresignRequest(fileType, token);
    assert !IsBlank(token);
    assert Run(fileType, token, transport) == RunPresign(fileType, token, transport);
    var urls := Presign(transport(request)).value;
    presignedUrl, cdnUrl := urls.0, urls.1;
    assert RunPresign(fileType, token, transport) ==
      RunUpload(fileType, token, transport, presignedUrl, cdnUrl, [request]);
    imageId, items := UploadResult(fileType, token, transport, presignedUrl, cdnUrl, [request]);
  }

  /** A presign answer whose `presignedUrl` is missing, not a string or blank stops the run at step 1. */
  lemma RunRejectsPresignedUrl(fileType: string, token: string, transport: Request -> FetchOutcome, answer: Json)
    requires !IsBlank(token)
    requires PostJson(transport(PresignRequest(fileType, token)), 1) == Value(answer)
    requires !answer.JNull? && !HasNonBlankString(answer, "presignedUrl")
    ensures var message := InvalidFieldMessage("presignedUrl");
      Run(fileType, token, transport) ==
        RunOutcome(Throws(PipelineError(1, message)), [Started(1), Failed(1, message)],
                   [PresignRequest(fileType, token)])
  {
    var f := Field(answer, "presignedUrl");
    assert AssertString(f, "presignedUrl", 1).Throws?;
  }

  /**
   * A run whose four answers are well formed succeeds: the presign answer has
   * non-blank `presignedUrl` and `cdnUrl` strings, the PUT to that URL is ok,
   * the register answer for that CDN URL has a non-blank `imageId` string, and
   * the captions answer for that id is an array. The result holds those
   * fields and the records of the array, after the eight success events and
   * the four requests.
   */
  lemma RunSucceedsOnWellFormedAnswers(fileType: string, token: string, transport: Request -> FetchOutcome,
                                       presigned: Json, presignedUrl: string, cdnUrl: string,
                                       registered: Json, imageId: string, items: seq<Json>)
    requires !IsBlank(token)
    requires PostJson(transport(PresignRequest(fileType, token)), 1) == Value(presigned)
    requires StringField(presigned, "presignedUrl") == Some(presignedUrl) && !IsBlank(presignedUrl)
    requires StringField(presigned, "cdnUrl") == Some(cdnUrl) && !IsBlank(cdnUrl)
    requires transport(UploadRequest(presignedUrl, fileType)).Responded?
    requires transport(UploadRequest(presignedUrl, fileType)).response.Ok()
    requires PostJson(transport(RegisterRequest(cdnUrl, token)), 3) == Value(registered)
    requires StringField(registered, "imageId") == Some(imageId) && !IsBlank(imageId)
    requires PostJson(transport(CaptionsRequest(imageId, token)), 4) == Value(JArray(items))
    ensures Run(fileType, token, transport) ==
      RunOutcome(Value(PipelineResult(cdnUrl, imageId, FilterCaptions(items))), Completed(4),
                 [PresignRequest(fileType, token)] + [UploadRequest(presignedUrl, fileType)] +
                 [RegisterRequest(cdnUrl, token)] + [CaptionsRequest(imageId, token)])
  {
    var request := PresignRequest(fileType, token);
    assert Presign(transport(request)) == Value((presignedUrl, cdnUrl));
    assert Register(transport(RegisterRequest(cdnUrl, token))) == Value(imageId);
    assert Captions(transport(CaptionsRequest(imageId, token))) == Value(FilterCaptions(items));
  }

  /** A captions answer that is not an array ends the run at step 4 with the invalid-captions error. */
  lemma RunRejectsCaptions(token: string, transport: Request -> FetchOutcome, cdnUrl: string, imageId: string,
                           sent: seq<Request>, answer: Json)
    requires PostJson(transport(CaptionsRequest(imageId, token)), 4) == Value(answer) && !answer.JArray?
    ensures RunCaptions(token, transport, cdnUrl, imageId, sent) ==
      RunOutcome(Throws(PipelineError(4, InvalidCaptionsMessage)),
                 Completed(3) + [Started(4), Failed(4, InvalidCaptionsMessage)],
                 sent + [CaptionsRequest(imageId, token)])
  {
  }

  /** The caption filter keeps exactly the records, every occurrence of them, in their original order. */
  lemma CaptionsInOrder(xs: seq<Json>, ys: seq<Json>)
    ensures FilterCaptions(xs + ys) == FilterCaptions(xs) + FilterCaptions(ys)
  {
    FilterAppend(IsRecord, xs, ys);
  }
}
