/**
 * `analyzeJD` and `deleteJDMatchHistory`.
 *
 * `analyzeJD` checks that the resume exists and belongs to the caller, takes
 * the job description from the uploaded file when there is one and from the
 * body otherwise, refuses a blank one, and keys the match on the digest of
 * the resume text followed directly by the job description. A match already
 * stored for the resume under that key is returned; otherwise the analysis
 * service is asked and one history entry is created. Both handlers end either
 * by sending a response or by throwing to the error handler.
 *
 * To refuse a request the handlers set the status on the response and then
 * throw a plain `Error`; the error handler answers with the error's own code
 * or 500, so that status never reaches the client. The reference functions
 * take a `Refusal`: `AsWritten` throws as the handlers do
 * (`ThrowAfterSettingStatus`), `Corrected` throws an error that carries the
 * status (`ThrowWithStatus`). The imperative handlers are the code as
 * written; the lemmas state what the client receives either way.
 */
module JdMatchController {
  import opened Wrappers
  import opened Text
  import opened Json
  import opened Hashing
  import opened ServiceErrors
  import opened Retry
  import opened AnalysisService
  import opened Store
  import opened Http
  import opened ErrorHandler

  const NotFoundOrNotAuthorized: string := "Resume not found or user not authorized"
  const JobDescriptionRequired: string := "Job description text is required."
  const RetrievedFromDatabase: string := "JD analysis retrieved from database."
  const AnalysisComplete: string := "JD analysis complete."
  const JobTitlePrefix: string := "Analysis vs "
  const EntryNotFound: string := "History entry not found or user not authorized"
  const EntryDeleted: string := "History entry deleted."
  /** The message of the `ValidationError` a required path raises, here for `analysisData`. */
  const AnalysisDataRequired: string := "Path `analysisData` is required."

  /** How a handler ends: a response it sends, or an error it throws to the error handler. */
  datatype Outcome = Sent(response: Response) | Thrown(error: ErrorFields)

  /** What the client receives. */
  function Delivered(o: Outcome): Response {
    match o
    case Sent(r) => r
    case Thrown(e) => Respond(e)
  }

  // ---------------------------------------------------------------------------
  // Refusing a request.

  /** As written: `res.status(statusCode); throw new Error(message)`. The error itself carries no code. */
  function ThrowAfterSettingStatus(statusCode: int, message: string): (e: ErrorFields)
    ensures e.statusCode.None? && e.message == message
  {
    ErrorFields("Error", None, None, None, message, [])
  }

  /** Whatever status the handler set, the client receives 500. */
  lemma StatusSetBeforeThrowIsLost(statusCode: int, message: string)
    ensures Delivered(Thrown(ThrowAfterSettingStatus(statusCode, message))) ==
      Response(500, false, Some("error"), message, NoPayload)
  {
    PlainErrorIs500("Error", message);
  }

  /** Corrected: the thrown error carries the status, as `new AppError(message, statusCode)` does. */
  function ThrowWithStatus(statusCode: int, message: string): (e: ErrorFields)
    ensures e.statusCode == Some(statusCode) && e.message == message
  {
    AppErrorFields(message, statusCode)
  }

  /** The status the handler chose is the status the client receives. */
  lemma ThrownStatusReachesClient(statusCode: int, message: string)
    requires statusCode != 0
    ensures Delivered(Thrown(ThrowWithStatus(statusCode, message))) ==
      Response(statusCode, false, Some(AppStatus(statusCode)), message, NoPayload)
  {
    AppErrorKeepsItsCode(message, statusCode);
  }

  /** How a refusal is thrown: as the handlers are written, or corrected. */
  datatype Refusal = AsWritten | Corrected

  function Refuse(how: Refusal, statusCode: int, message: string): (e: ErrorFields)
    ensures e.message == message
    ensures e.statusCode == if how.Corrected? then Some(statusCode) else None
  {
    match how
    case AsWritten => ThrowAfterSettingStatus(statusCode, message)
    case Corrected => ThrowWithStatus(statusCode, message)
  }

  /** A refusal with a 4xx status reaches the client as 500 "error" as written, and with that status and "fail" corrected. */
  lemma RefusalDelivered(how: Refusal, statusCode: int, message: string)
    requires 400 <= statusCode < 500
    ensures Delivered(Thrown(Refuse(how, statusCode, message))) ==
      if how.AsWritten? then Response(500, false, Some("error"), message, NoPayload)
      else Response(statusCode, false, Some("fail"), message, NoPayload)
  {
    if how.AsWritten? {
      StatusSetBeforeThrowIsLost(statusCode, message);
    } else {
      ThrownStatusReachesClient(statusCode, message);
      AppStatusOfHttpCodes(statusCode);
    }
  }

  /**
   * The `catch` block of `analyzeJD`: a quota error is refused with 429; every
   * other error is rethrown as it is, a plain object with a text code and no name.
   */
  function MatchFailure(how: Refusal, e: ServiceError): ErrorFields {
    if e.Code() == "AI_LIMIT_REACHED" then Refuse(how, 429, e.Message())
    else if e.Code() == TemporarilyUnavailable then Refuse(how, 503, e.Message())
    else ErrorFields("", None, None, None, e.Message(), [])
  }

  /**
   * Every service error reaches the client with its own message. As written
   * each one becomes 500 "error"; corrected, a quota error becomes 429 "fail"
   * and every other one still 500. No service error becomes 503.
   */
  lemma MatchFailureStatus(how: Refusal, e: ServiceError)
    ensures Delivered(Thrown(MatchFailure(how, e))) ==
      if how.Corrected? && e.LimitReached? then Response(429, false, Some("fail"), e.Message(), NoPayload)
      else Response(500, false, Some("error"), e.Message(), NoPayload)
  {
    NoErrorIsTemporarilyUnavailable(e);
    if e.LimitReached? {
      RefusalDelivered(how, 429, e.Message());
    } else {
      assert e.Code() != "AI_LIMIT_REACHED";
      PlainErrorIs500("", e.Message());
    }
  }

  // ---------------------------------------------------------------------------
  // `analyzeJD`.

  /** The job description used: the uploaded file's text replaces the text of the body. */
  function JobDescription(jdText: Option<string>, jdFileText: Option<string>): Option<string> {
    if jdFileText.Some? then jdFileText else jdText
  }

  predicate Blank(jd: Option<string>) {
    jd.None? || Trim(jd.value) == ""
  }

  /** The key of a match: the digest of the resume text followed directly by the job description. */
  function MatchKey(resumeText: string, jd: string): Digest {
    GenerateHash(resumeText + jd)
  }

  /** The key depends on the concatenation only: two pairs share a key exactly when they concatenate to the same text. */
  lemma MatchKeyIsConcatenation(r1: string, j1: string, r2: string, j2: string)
    ensures MatchKey(r1, j1) == MatchKey(r2, j2) <==> r1 + j1 == r2 + j2
  {
  }

  /** For one resume, distinct job descriptions have distinct keys. */
  lemma MatchKeyInjectiveForOneResume(r: string, j1: string, j2: string)
    requires MatchKey(r, j1) == MatchKey(r, j2)
    ensures j1 == j2
  {
    assert (r + j1)[|r|..] == j1 && (r + j2)[|r|..] == j2;
  }

  /** Lines 51-79, once the key has missed: ask the service, then store and send the entry. */
  function Matched(how: Refusal, d: Db, s: State, resume: Resume, jd: string, now: int,
                   replies: Provider, parse: JsonParser, done: int): (Db, State, Outcome)
  {
    var ran := MatchAnalysis(s, resume.parsedText, jd, resume.user, now, replies, parse, done);
    var recorded := Recorded(how, d, resume, jd, Resolve(ran.1, parse), done);
    (recorded.0, ran.0, recorded.1)
  }

  /** Lines 55-79 once the service has answered: the `catch` block, or the entry created and sent. */
  function Recorded(how: Refusal, d: Db, resume: Resume, jd: string, result: Result<JsonValue, ServiceError>, done: int): (Db, Outcome) {
    match result
    case Failure(e) => (d, Thrown(MatchFailure(how, e)))
    case Success(v) =>
      if !Storable(v) then (d, Thrown(ErrorFields(ValidationErrorName, None, None, None, AnalysisDataRequired, [AnalysisDataRequired])))
      else
        var entry := MatchRecord(d.nextId, resume.user, resume.id, JobTitlePrefix + resume.originalFilename, jd,
                                 MatchKey(resume.parsedText, jd), v, done);
        (d.(matches := d.matches + [entry], nextId := d.nextId + 1), Sent(Response(201, true, None, AnalysisComplete, HistoryEntry(entry))))
  }

  /** A whole `analyzeJD` request: the database, the service state and how the handler ends. */
  function MatchRequest(how: Refusal, d: Db, s: State, resumeId: Id, user: UserId, jdText: Option<string>, jdFileText: Option<string>,
                        now: int, replies: Provider, parse: JsonParser, done: int)
    : (Db, State, Outcome)
  {
    match FindResume(d.resumes, resumeId)
    case None => (d, s, Thrown(Refuse(how, 404, NotFoundOrNotAuthorized)))
    case Some(resume) =>
      if resume.user != user then (d, s, Thrown(Refuse(how, 404, NotFoundOrNotAuthorized)))
      else
        var jd := JobDescription(jdText, jdFileText);
        if Blank(jd) then (d, s, Thrown(Refuse(how, 400, JobDescriptionRequired)))
        else
          match FindMatch(d.matches, resumeId, MatchKey(resume.parsedText, jd.value))
          case Some(entry) => (d, s, Sent(Response(200, true, None, RetrievedFromDatabase, HistoryEntry(entry))))
          case None => Matched(how, d, s, resume, jd.value, now, replies, parse, done)
  }

  /**
   * A missing resume and another user's resume are refused alike, before the
   * job description is looked at, and nothing changes; the client receives
   * 500 as written and 404 corrected.
   */
  lemma MissingOrForeignResumeRefused(how: Refusal, d: Db, s: State, resumeId: Id, user: UserId, jdText: Option<string>, jdFileText: Option<string>,
                                         now: int, replies: Provider, parse: JsonParser, done: int)
    requires FindResume(d.resumes, resumeId).None? || FindResume(d.resumes, resumeId).value.user != user
    ensures var r := MatchRequest(how, d, s, resumeId, user, jdText, jdFileText, now, replies, parse, done);
      && r.0 == d && r.1 == s
      && Delivered(r.2) ==
         if how.AsWritten? then Response(500, false, Some("error"), NotFoundOrNotAuthorized, NoPayload)
         else Response(404, false, Some("fail"), NotFoundOrNotAuthorized, NoPayload)
  {
    RefusalDelivered(how, 404, NotFoundOrNotAuthorized);
  }

  /** An uploaded file decides the job description: the text in the body is then ignored. */
  lemma FileReplacesBodyText(how: Refusal, d: Db, s: State, resumeId: Id, user: UserId, t1: Option<string>, t2: Option<string>, file: string,
                             now: int, replies: Provider, parse: JsonParser, done: int)
    ensures MatchRequest(how, d, s, resumeId, user, t1, Some(file), now, replies, parse, done)
         == MatchRequest(how, d, s, resumeId, user, t2, Some(file), now, replies, parse, done)
  {
  }

  /**
   * A blank job description is refused before any lookup or analysis and
   * nothing changes; the client receives 500 as written and 400 corrected.
   */
  lemma BlankJobDescriptionRefused(how: Refusal, d: Db, s: State, resumeId: Id, user: UserId, jdText: Option<string>, jdFileText: Option<string>,
                                      now: int, replies: Provider, parse: JsonParser, done: int)
    requires FindResume(d.resumes, resumeId).Some? && FindResume(d.resumes, resumeId).value.user == user
    requires Blank(JobDescription(jdText, jdFileText))
    ensures var r := MatchRequest(how, d, s, resumeId, user, jdText, jdFileText, now, replies, parse, done);
      && r.0 == d && r.1 == s
      && Delivered(r.2) ==
         if how.AsWritten? then Response(500, false, Some("error"), JobDescriptionRequired, NoPayload)
         else Response(400, false, Some("fail"), JobDescriptionRequired, NoPayload)
  {
    RefusalDelivered(how, 400, JobDescriptionRequired);
  }

  /** A match already stored under the key is returned with 200; the service is not asked and nothing is created. */
  lemma StoredMatchReturned(how: Refusal, d: Db, s: State, resumeId: Id, user: UserId, jdText: Option<string>, jdFileText: Option<string>,
                            now: int, replies: Provider, parse: JsonParser, done: int)
    requires FindResume(d.resumes, resumeId).Some? && FindResume(d.resumes, resumeId).value.user == user
    requires !Blank(JobDescription(jdText, jdFileText))
    requires var key := MatchKey(FindResume(d.resumes, resumeId).value.parsedText, JobDescription(jdText, jdFileText).value);
      FindMatch(d.matches, resumeId, key).Some?
    ensures var key := MatchKey(FindResume(d.resumes, resumeId).value.parsedText, JobDescription(jdText, jdFileText).value);
      var r := MatchRequest(how, d, s, resumeId, user, jdText, jdFileText, now, replies, parse, done);
      && r.0 == d && r.1 == s
      && r.2 == Sent(Response(200, true, None, RetrievedFromDatabase, HistoryEntry(FindMatch(d.matches, resumeId, key).value)))
  {
  }

  /**
   * On a miss, a request that ends with 201 has added exactly one entry, for
   * this user and resume, under the key, titled after the resume's file,
   * holding the value the service's answer resolves to, and sent that entry;
   * a request that ends otherwise has added none. A failed service answer
   * ends in the `catch` block, and a `null` one in the schema's validation
   * error for the required `analysisData`.
   */
  lemma MissCreatesOneEntry(how: Refusal, d: Db, s: State, resume: Resume, jd: string, now: int,
                            replies: Provider, parse: JsonParser, done: int)
    ensures var r := Matched(how, d, s, resume, jd, now, replies, parse, done);
      var ran := MatchAnalysis(s, resume.parsedText, jd, resume.user, now, replies, parse, done);
      && r.1 == ran.0
      && (Resolve(ran.1, parse).Failure? ==> r == (d, ran.0, Thrown(MatchFailure(how, Resolve(ran.1, parse).error))))
      && (r.2.Sent? ==>
           && r.2.response.statusCode == 201
           && r.2.response.payload.HistoryEntry?
           && var e := r.2.response.payload.entry;
              && e == MatchRecord(d.nextId, resume.user, resume.id, JobTitlePrefix + resume.originalFilename, jd,
                                  MatchKey(resume.parsedText, jd), e.analysisData, done)
              && r.0.matches == d.matches + [e] && r.0.nextId == d.nextId + 1
              && Resolve(ran.1, parse) == Success(e.analysisData))
      && (r.2.Thrown? ==> r.0 == d)
      && (Resolve(ran.1, parse) == Success(JNull) ==>
           r.2 == Thrown(ErrorFields(ValidationErrorName, None, None, None, AnalysisDataRequired, [AnalysisDataRequired])))
  {
  }

  /** The imperative handler, as written. */
  method AnalyzeJD(db: Database, svc: Service, resumeId: Id, userId: UserId, jdText: Option<string>, jdFileText: Option<string>,
                   now: int, replies: Provider, parse: JsonParser, done: int)
    returns (outcome: Outcome)
    modifies db, svc
    ensures (db.Snapshot(), svc.Snapshot(), outcome) ==
      MatchRequest(AsWritten, old(db.Snapshot()), old(svc.Snapshot()), resumeId, userId, jdText, jdFileText, now, replies, parse, done)
  {
    var found := FindResume(db.resumes, resumeId);
    if found.None? || found.value.user != userId {
      return Thrown(ThrowAfterSettingStatus(404, NotFoundOrNotAuthorized));
    }
    var resume := found.value;
    var jobDescriptionText := jdText;
    if jdFileText.Some? {
      jobDescriptionText := jdFileText;
    }
    if jobDescriptionText.None? || Trim(jobDescriptionText.value) == "" {
      return Thrown(ThrowAfterSettingStatus(400, JobDescriptionRequired));
    }
    var inputHash := GenerateHash(resume.parsedText + jobDescriptionText.value);
    var historyEntry := FindMatch(db.matches, resumeId, inputHash);
    if historyEntry.Some? {
      return Sent(Response(200, true, None, RetrievedFromDatabase, HistoryEntry(historyEntry.value)));
    }
    outcome := CreateEntry(db, svc, resume, jobDescriptionText.value, now, replies, parse, done);
  }

  /** Lines 51-79: the `try` block and its `catch`. */
  method CreateEntry(db: Database, svc: Service, resume: Resume, jd: string, now: int,
                     replies: Provider, parse: JsonParser, done: int)
    returns (outcome: Outcome)
    modifies db, svc
    ensures (db.Snapshot(), svc.Snapshot(), outcome) ==
      Matched(AsWritten, old(db.Snapshot()), old(svc.Snapshot()), resume, jd, now, replies, parse, done)
  {
    var answer := svc.PerformJDMatchAnalysis(resume.parsedText, jd, resume.user, now, replies, parse, done);
    outcome := Record(db, resume, jd, Resolve(answer, parse), done);
  }

  method Record(db: Database, resume: Resume, jd: string, result: Result<JsonValue, ServiceError>, done: int)
    returns (outcome: Outcome)
    modifies db
    ensures (db.Snapshot(), outcome) == Recorded(AsWritten, old(db.Snapshot()), resume, jd, result, done)
  {
    if result.Failure? {
      var error := result.error;
      if error.Code() == "AI_LIMIT_REACHED" {
        return Thrown(ThrowAfterSettingStatus(429, error.Message()));
      }
      if error.Code() == TemporarilyUnavailable {
        return Thrown(ThrowAfterSettingStatus(503, error.Message()));
      }
      return Thrown(ErrorFields("", None, None, None, error.Message(), []));
    }
    var analysisResult := result.value;
    if !Storable(analysisResult) {
      return Thrown(ErrorFields(ValidationErrorName, None, None, None, AnalysisDataRequired, [AnalysisDataRequired]));
    }
    var entry := MatchRecord(db.nextId, resume.user, resume.id, JobTitlePrefix + resume.originalFilename, jd,
                             GenerateHash(resume.parsedText + jd), analysisResult, done);
    db.matches := db.matches + [entry];
    db.nextId := db.nextId + 1;
    outcome := Sent(Response(201, true, None, AnalysisComplete, HistoryEntry(entry)));
  }

  // ---------------------------------------------------------------------------
  // `deleteJDMatchHistory`.

  function HistoryDeletion(how: Refusal, d: Db, historyId: Id, user: UserId): (Db, Outcome) {
    match FindMatchById(d.matches, historyId)
    case None => (d, Thrown(Refuse(how, 404, EntryNotFound)))
    case Some(entry) =>
      if entry.user != user then (d, Thrown(Refuse(how, 404, EntryNotFound)))
      else (d.(matches := Drop(d.matches, IdIs(historyId), MatchHit)), Sent(Response(200, true, None, EntryDeleted, NoPayload)))
  }

  /**
   * A missing entry and another user's entry are refused alike and nothing
   * changes (the client receives 500 as written and 404 corrected); otherwise
   * exactly the entry with that id is deleted.
   */
  lemma HistoryDeletionOwnership(how: Refusal, d: Db, historyId: Id, user: UserId)
    ensures var r := HistoryDeletion(how, d, historyId, user);
      var owned := FindMatchById(d.matches, historyId).Some? && FindMatchById(d.matches, historyId).value.user == user;
      && (!owned ==>
           && r.0 == d
           && Delivered(r.1) == (if how.AsWritten? then Response(500, false, Some("error"), EntryNotFound, NoPayload)
                                 else Response(404, false, Some("fail"), EntryNotFound, NoPayload)))
      && (owned ==>
           && Delivered(r.1) == Response(200, true, None, EntryDeleted, NoPayload)
           && (forall m :: m in r.0.matches <==> m in d.matches && m.id != historyId)
           && r.0.resumes == d.resumes && r.0.analyses == d.analyses)
  {
    RefusalDelivered(how, 404, EntryNotFound);
  }

  /** The imperative handler, as written. */
  method DeleteJDMatchHistory(db: Database, historyId: Id, userId: UserId) returns (outcome: Outcome)
    modifies db
    ensures (db.Snapshot(), outcome) == HistoryDeletion(AsWritten, old(db.Snapshot()), historyId, userId)
  {
    var historyEntry := FindMatchById(db.matches, historyId);
    if historyEntry.None? || historyEntry.value.user != userId {
      return Thrown(ThrowAfterSettingStatus(404, EntryNotFound));
    }
    db.matches := Drop(db.matches, IdIs(historyId), MatchHit);
    outcome := Sent(Response(200, true, None, EntryDeleted, NoPayload));
  }
}
