/**
 * The Lambda handler (index.js, lines 9-74): fetch the campaign page, read
 * the entrant count and the campaign out of it, build the competition record,
 * publish the envelope, and answer 200, or 422 with the error, always with a
 * permissive cross-origin header.
 *
 * The collaborators are parameters: `get` is the HTTP client, `parseCampaign`
 * stands for the `initCampaign(...)` pattern, entity decoding and
 * `JSON.parse` together, `digest` for the SHA-256 hex digest, and `publish`
 * for the queue.
 */
module Handler {
  import opened Wrappers
  import opened Text
  import opened Errors
  import opened EntryMethods
  import opened Region
  import opened Markup
  import opened Competition
  import opened Fetch

  /** What line 21 makes of a page: no `initCampaign(...)`, an argument that is not JSON, or the campaign. */
  datatype Parse = NotFound | Malformed(message: string) | Parsed(info: Info)

  /** What the queue answers to `sendMessage`. */
  datatype Ack = Accepted | Refused(message: string)

  datatype Services = Services(
    get: Get,
    parseCampaign: string -> Parse,
    digest: string -> string,
    publish: Envelope -> Ack)

  /** What one invocation did: its outcome, and the envelope handed to the queue, if any. */
  datatype Invocation = Invocation(outcome: Result<Envelope, Failure>, sent: Option<Envelope>)

  const StatusOk: int := 200
  const StatusUnprocessable: int := 422
  const CorsHeaders: map<string, string> := map["Access-Control-Allow-Origin" := "*"]

  /** `{ error: e.message }` */
  datatype ErrorBody = ErrorBody(error: Failure)

  /** The response handed to the callback. */
  datatype Answer = Answer(headers: map<string, string>, statusCode: int, body: Option<ErrorBody>)

  /** The envelope for a fetched page, or the first failure of lines 19-54. */
  function Prepare(page: Page, sv: Services, sourceId: Option<string>): Result<Envelope, Failure> {
    match Exec(EntryCount, page.data)
    case None => Failure(NoEntryCount)
    case Some(entrants) =>
      match sv.parseCampaign(page.data)
      case NotFound => Failure(NoCampaignData)
      case Malformed(m) => Failure(MalformedCampaign(m))
      case Parsed(info) =>
        match Normalize(page.id, entrants, info, sv.digest, sourceId)
        case Failure(e) => Failure(e)
        case Success(record) => Success(EnvelopeFor(info, record))
  }

  /** Everything after the fetch: prepare, then publish. */
  function AfterFetch(page: Page, sv: Services, sourceId: Option<string>): Invocation {
    match Prepare(page, sv, sourceId)
    case Failure(e) => Invocation(Failure(e), None)
    case Success(envelope) =>
      match sv.publish(envelope)
      case Accepted => Invocation(Success(envelope), Some(envelope))
      case Refused(m) => Invocation(Failure(PublishFailed(m)), Some(envelope))
  }

  /** The `try` block of the handler. */
  function Attempt(body: string, sv: Services, sourceId: Option<string>): Invocation {
    match Resolve(body, sv.get)
    case Failure(e) => Invocation(Failure(e), None)
    case Success(page) => AfterFetch(page, sv, sourceId)
  }

  /** The `catch` and `finally` blocks: the response for an outcome. */
  function AnswerOf(outcome: Result<Envelope, Failure>): Answer {
    match outcome
    case Success(_) => Answer(CorsHeaders, StatusOk, None)
    case Failure(e) => Answer(CorsHeaders, StatusUnprocessable, Some(ErrorBody(e)))
  }

  /** The `res` object, whose fields the handler sets as it goes. */
  class Response {
    var headers: map<string, string>
    var statusCode: Option<int>
    var body: Option<ErrorBody>

    constructor ()
      ensures headers == CorsHeaders && statusCode.None? && body.None?
    {
      headers := CorsHeaders;
      statusCode := None;
      body := None;
    }
  }

  /** The `try` block, step by step; each failing step stops it. */
  method Try(body: string, sv: Services, sourceId: Option<string>) returns (outcome: Result<Envelope, Failure>, sent: Option<Envelope>)
    ensures Invocation(outcome, sent) == Attempt(body, sv, sourceId)
  {
    sent := None;
    var page := FetchContents(body, sv.get);
    if page.Failure? {
      return Failure(page.error), None;
    }
    var url, data := page.value.id, page.value.data;
    var entrants := Exec(EntryCount, data);
    if entrants.None? {
      return Failure(NoEntryCount), None;
    }
    var info: Info;
    match sv.parseCampaign(data) {
      case NotFound => return Failure(NoCampaignData), None;
      case Malformed(m) => return Failure(MalformedCampaign(m)), None;
      case Parsed(i) => info := i;
    }
    var promoterId := sv.digest(info.campaign.siteUrl);
    // `info.incentives.shift()`
    var incentives := info.incentives;
    var media: Option<Incentive> := None;
    if |incentives| > 0 {
      media, incentives := incentives[0], incentives[1..];
    }
    if !UsableMedia(media) {
      return Failure(InvalidResource), None;
    }
    var c := info.campaign;
    if !ValidTimeValue(c.endsAt * 1000) {
      return Failure(InvalidEndDate), None;
    }
    var competition := Record(
      entrants.value,
      sourceId,
      GetEntryMethods(info.entryMethods),
      media.value.url,
      c.endsAt * 1000,
      Data(Resource(url, c.name, c.startsAt * 1000),
           Promoter(c.siteUrl, promoterId, c.siteName, c.siteName, FaviconService + c.siteUrl)));
    var envelope := Envelope(RegionId(c.termsAndConditions), [competition], "POST");
    sent := Some(envelope);
    match sv.publish(envelope) {
      case Accepted => outcome := Success(envelope);
      case Refused(m) => outcome := Failure(PublishFailed(m));
    }
  }

  /** `exports.handler`: the response it hands to the callback, and what it sent to the queue. */
  method HandleRequest(body: string, sv: Services, sourceId: Option<string>) returns (res: Response, sent: Option<Envelope>)
    ensures fresh(res)
    ensures res.headers == AnswerOf(Attempt(body, sv, sourceId).outcome).headers
    ensures res.statusCode == Some(AnswerOf(Attempt(body, sv, sourceId).outcome).statusCode)
    ensures res.body == AnswerOf(Attempt(body, sv, sourceId).outcome).body
    ensures sent == Attempt(body, sv, sourceId).sent
  {
    res := new Response();
    var outcome;
    outcome, sent := Try(body, sv, sourceId);
    match outcome {
      case Success(_) =>
        res.statusCode := Some(StatusOk);
      case Failure(e) =>
        res.statusCode := Some(StatusUnprocessable);
        res.body := Some(ErrorBody(e));
    }
  }

  /** The envelope is prepared exactly when both patterns match, the campaign parses and its record can be built. */
  lemma PrepareSucceedsExactly(page: Page, sv: Services, sourceId: Option<string>)
    ensures Prepare(page, sv, sourceId).Success? <==>
              Exec(EntryCount, page.data).Some? && sv.parseCampaign(page.data).Parsed? &&
              var info := sv.parseCampaign(page.data).info;
              UsableMedia(Shift(info.incentives).0) && ValidTimeValue(info.campaign.endsAt * 1000)
  {
    if Exec(EntryCount, page.data).Some? && sv.parseCampaign(page.data).Parsed? {
      var info := sv.parseCampaign(page.data).info;
      NormalizeSpec(page.id, Exec(EntryCount, page.data).value, info, sv.digest, sourceId);
    }
  }

  /**
   * The request succeeds exactly when every step does: the fetch, both
   * patterns, a usable first incentive, a representable end date, and the
   * publish.
   */
  lemma {:induction false} SucceedsExactly(body: string, sv: Services, sourceId: Option<string>)
    ensures Attempt(body, sv, sourceId).outcome.Success? <==>
              Resolve(body, sv.get).Success? &&
              var page := Resolve(body, sv.get).value;
              Exec(EntryCount, page.data).Some? && sv.parseCampaign(page.data).Parsed? &&
              var info := sv.parseCampaign(page.data).info;
              UsableMedia(Shift(info.incentives).0) && ValidTimeValue(info.campaign.endsAt * 1000) &&
              sv.publish(Prepare(page, sv, sourceId).value).Accepted?
  {
    if Resolve(body, sv.get).Success? {
      PrepareSucceedsExactly(Resolve(body, sv.get).value, sv, sourceId);
    }
  }

  /**
   * A successful request published one envelope: the one record, the POST
   * tag and the region of the terms, the record carrying the page's entrant
   * count and identifier, the first incentive's url and the start time in
   * milliseconds.
   */
  lemma {:induction false} SuccessShape(body: string, sv: Services, sourceId: Option<string>)
    requires Attempt(body, sv, sourceId).outcome.Success?
    ensures var page := Resolve(body, sv.get).value;
            var info := sv.parseCampaign(page.data).info;
            var envelope := Attempt(body, sv, sourceId).outcome.value;
            envelope.operation == "POST" &&
            envelope.regionId == RegionId(info.campaign.termsAndConditions) &&
            |envelope.competitions| == 1 &&
            envelope.competitions[0].entrants == Exec(EntryCount, page.data).value &&
            envelope.competitions[0].media == info.incentives[0].value.url &&
            envelope.competitions[0].data.resource.resourceId == page.id &&
            envelope.competitions[0].data.resource.posted == info.campaign.startsAt * 1000 &&
            Attempt(body, sv, sourceId).sent == Some(envelope)
  {
    var page := Resolve(body, sv.get).value;
    var info := sv.parseCampaign(page.data).info;
    NormalizeSpec(page.id, Exec(EntryCount, page.data).value, info, sv.digest, sourceId);
  }

  /** Nothing is handed to the queue unless every step before the publish succeeded. */
  lemma {:induction false} NothingSentBeforeFailure(body: string, sv: Services, sourceId: Option<string>)
    ensures Attempt(body, sv, sourceId).sent.Some? <==>
              Resolve(body, sv.get).Success? && Prepare(Resolve(body, sv.get).value, sv, sourceId).Success?
    ensures Attempt(body, sv, sourceId).outcome.Failure? && Attempt(body, sv, sourceId).sent.Some? ==>
              Attempt(body, sv, sourceId).outcome.error.PublishFailed?
  {
  }

  /** Every response carries the cross-origin header; 200 means success, 422 a failure with its error. */
  lemma AnswerShape(outcome: Result<Envelope, Failure>)
    ensures AnswerOf(outcome).headers["Access-Control-Allow-Origin"] == "*"
    ensures AnswerOf(outcome).statusCode == StatusOk <==> outcome.Success?
    ensures AnswerOf(outcome).statusCode == StatusUnprocessable <==> outcome.Failure?
    ensures outcome.Failure? ==> AnswerOf(outcome).body == Some(ErrorBody(outcome.error))
    ensures outcome.Success? ==> AnswerOf(outcome).body.None?
    ensures outcome == Failure(InvalidResource) ==>
              Message(AnswerOf(outcome).body.value.error) == Some(InvalidResourceMessage)
  {
  }

  /**
   * A campaign whose first incentive is missing or carries a truthy `src` is
   * answered 422 with "Resource not in a valid format.", and nothing is sent.
   */
  lemma UnusableMediaAnswered(body: string, sv: Services, sourceId: Option<string>)
    requires Resolve(body, sv.get).Success?
    requires var data := Resolve(body, sv.get).value.data;
             Exec(EntryCount, data).Some? && sv.parseCampaign(data).Parsed? &&
             !UsableMedia(Shift(sv.parseCampaign(data).info.incentives).0)
    ensures var answer := AnswerOf(Attempt(body, sv, sourceId).outcome);
            answer.headers == CorsHeaders && answer.statusCode == StatusUnprocessable &&
            answer.body.Some? && Message(answer.body.value.error) == Some(InvalidResourceMessage)
    ensures Attempt(body, sv, sourceId).sent.None?
  {
    var page := Resolve(body, sv.get).value;
    NormalizeSpec(page.id, Exec(EntryCount, page.data).value, sv.parseCampaign(page.data).info, sv.digest, sourceId);
  }

  /**
   * The handler as written: when `fetchContents` never settles, the
   * handler never reaches its `catch` or `finally`, and hands no response to its callback.
   */
  function AnswerAsWritten(body: string, sv: Services, sourceId: Option<string>): Option<Answer> {
    match ResolveAsWritten(body, sv.get)
    case None => None
    case Some(page) => Some(AnswerOf(AfterFetch(page, sv, sourceId).outcome))
  }

  /** As written, a failed fetch never reaches the callback, where every other outcome is answered. */
  lemma AsWrittenDropsFetchFailures(body: string, sv: Services, sourceId: Option<string>)
    ensures Resolve(body, sv.get).Failure? ==> AnswerAsWritten(body, sv, sourceId).None?
    ensures Resolve(body, sv.get).Success? ==>
              AnswerAsWritten(body, sv, sourceId) == Some(AnswerOf(Attempt(body, sv, sourceId).outcome))
  {
    AsWrittenHangsOnFailure(body, sv.get);
  }

  /** A request whose GET is refused gets no response from the handler as written. */
  lemma UnreachableHostUnanswered(body: string)
    ensures AnswerAsWritten(body, Services(u => Failure("ECONNREFUSED"), d => NotFound, s => s, e => Accepted), None).None?
  {
  }

  /** With the fetch failure propagated, a refused GET is answered 422 with its error and nothing is sent. */
  lemma FetchFailureAnswered(body: string, sv: Services, sourceId: Option<string>)
    requires Resolve(body, sv.get).Failure?
    ensures AnswerOf(Attempt(body, sv, sourceId).outcome) ==
              Answer(CorsHeaders, StatusUnprocessable, Some(ErrorBody(Resolve(body, sv.get).error)))
    ensures Attempt(body, sv, sourceId).sent.None?
  {
  }

  /**
   * End to end: a page with `initEntryCount(42)` and a campaign open to
   * Canada residents, with one image and one twitter entry method, is
   * published as one record with 42 entrants, that image, that entry type,
   * the Canada region and the end time in milliseconds.
   */
  lemma {:induction false} EndToEnd(body: string, sv: Services, page: Page, rest: string)
    requires Resolve(body, sv.get) == Success(page)
    requires page.data == EntryCountOpening + ("42" + ")" + rest)
    requires sv.parseCampaign(page.data) ==
               Parsed(Info(Campaign("Win a Prize", "https://x.com", "X", 1000, 2000, "Open to Canada residents"),
                           [Some(Incentive(Some("https://img/a.png"), None))],
                           [EntryMethod("twitter")]))
    requires forall e :: sv.publish(e) == Accepted
    ensures Attempt(body, sv, None).outcome.Success?
    ensures var envelope := Attempt(body, sv, None).outcome.value;
            envelope.regionId == Canada && |envelope.competitions| == 1 &&
            envelope.competitions[0].entrants == "42" &&
            envelope.competitions[0].media == Some("https://img/a.png") &&
            envelope.competitions[0].entryMethods == ["twitter"] &&
            envelope.competitions[0].endDate == 2000000 &&
            envelope.competitions[0].data.resource.posted == 1000000
  {
    var info := sv.parseCampaign(page.data).info;
    assert Exec(EntryCount, page.data) == Some("42") by {
      assert IsDigit('4') && IsDigit('2');
      EntryCountAtStartFound(page.data, "42", rest);
    }
    CanadaResidents();
    assert GetEntryMethods(info.entryMethods) == ["twitter"] by {
      DistinctOfDistinct(EntryTypes(info.entryMethods));
    }
    NormalizeSpec(page.id, "42", info, sv.digest, None);
  }
}
