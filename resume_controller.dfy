/**
 * `analyzeResume` and `deleteResume`.
 *
 * `analyzeResume` reuses what it can before it asks the model: first an
 * analysis already stored for this resume and text; then, newest first, an
 * analysis of the same text stored for another resume of the same user,
 * deleting on the way the analyses whose resume is gone; and only when neither
 * gives a truthy result does it call the analysis service. It then stores one
 * new analysis for this resume. `deleteResume` removes a resume with its
 * analyses and match history and evicts the cached analysis of its text.
 *
 * The clock is a parameter (`now` when the request starts, `done` when the
 * analysis is available).
 */
module ResumeController {
  import opened Wrappers
  import opened Json
  import opened Hashing
  import opened ServiceErrors
  import opened Retry
  import opened AnalysisService
  import opened Store
  import opened Http

  const ResumeNotFound: string := "Resume not found."
  const NotAuthorizedToAnalyze: string := "Not authorized to analyze this resume."
  const RetrievedFromDatabase: string := "Resume analysis retrieved from database."
  const AnalyzedSuccessfully: string := "Resume analyzed successfully."
  const AnalyzeServerError: string := "Server error while analyzing resume."
  const NotAuthorizedToDelete: string := "Not authorized to delete this resume."
  const DeletedSuccessfully: string := "Resume and all associated data deleted successfully."

  /** A response that refuses the request: `success` false, no status text, no data. */
  function Rejection(statusCode: int, message: string): Response {
    Response(statusCode, false, None, message, NoPayload)
  }

  /** The `catch` block of `analyzeResume`, by the `code` of what was thrown. */
  function Caught(code: string, message: string): Response {
    if code == "AI_LIMIT_REACHED" then Rejection(429, message)
    else if code == TemporarilyUnavailable then Rejection(503, message)
    else Rejection(500, AnalyzeServerError)
  }

  /**
   * A service error answers 429 with its own message exactly when it is the
   * quota error; no service error answers 503; every other one answers 500
   * with the fixed message.
   */
  lemma ServiceErrorStatus(e: ServiceError)
    ensures var r := Caught(e.Code(), e.Message());
      && (r.statusCode == 429 <==> e.LimitReached?)
      && (e.LimitReached? ==> r == Rejection(429, e.Message()))
      && (!e.LimitReached? ==> r == Rejection(500, AnalyzeServerError))
      && r.statusCode != 503
  {
    NoErrorIsTemporarilyUnavailable(e);
  }

  /** The position of the first candidate whose resume still exists (`|cands|` when none does). */
  function FirstLive(cands: seq<AnalysisRecord>, resumes: seq<Resume>): (k: nat)
    ensures k <= |cands|
  {
    if cands == [] then 0
    else if FindResume(resumes, cands[0].resume).Some? then 0
    else 1 + FirstLive(cands[1..], resumes)
  }

  /** One step of `FirstLive` from position `i`. */
  lemma FirstLiveAt(cands: seq<AnalysisRecord>, i: nat, resumes: seq<Resume>)
    requires i < |cands|
    ensures FirstLive(cands[i..], resumes) ==
      if FindResume(resumes, cands[i].resume).Some? then 0 else 1 + FirstLive(cands[i + 1..], resumes)
  {
    assert cands[i..][1..] == cands[i + 1..];
  }

  /** Every candidate before that position is an orphan, and the one at it is not. */
  lemma {:induction false} FirstLiveCharacterized(cands: seq<AnalysisRecord>, resumes: seq<Resume>)
    ensures var k := FirstLive(cands, resumes);
      && (forall j :: 0 <= j < k ==> FindResume(resumes, cands[j].resume).None?)
      && (k < |cands| ==> FindResume(resumes, cands[k].resume).Some?)
  {
    if cands != [] && FindResume(resumes, cands[0].resume).None? {
      FirstLiveCharacterized(cands[1..], resumes);
      assert forall j :: 1 <= j < |cands| ==> cands[1..][j - 1] == cands[j];
    }
  }

  /** The scan of lines 95-114: the database after it, and the result it found, if any. */
  function Scan(d: Db, user: UserId, h: Digest): (Db, Option<JsonValue>) {
    var cands := Candidates(d.analyses, user, h);
    var k := FirstLive(cands, d.resumes);
    (d.(analyses := DropIds(d.analyses, Ids(cands[..k]))), if k < |cands| then Some(cands[k].analysisResult) else None)
  }

  /** Lines 116-138: obtain a result if the scan found none, store it, answer. */
  function Finish(d: Db, s: State, resume: Resume, h: Digest, found: Option<JsonValue>, now: int,
                  replies: Provider, parse: JsonParser, done: int): (Db, State, Response)
  {
    var needed := found.None? || Falsy(found.value);
    var ran := if needed then SimpleAnalysis(s, resume.parsedText, resume.user, now, replies, parse, done) else (s, Ready(found.value));
    var saved := Saved(d, resume, h, Resolve(ran.1, parse), done);
    (saved.0, ran.0, saved.1)
  }

  /** Lines 119-149 once a result is obtained or has failed: the `catch` block, or the record created and the result sent. */
  function Saved(d: Db, resume: Resume, h: Digest, result: Result<JsonValue, ServiceError>, done: int): (Db, Response) {
    match result
    case Failure(e) => (d, Caught(e.Code(), e.Message()))
    case Success(v) =>
      if !Storable(v) then (d, Rejection(500, AnalyzeServerError))
      else
        var record := AnalysisRecord(d.nextId, resume.user, resume.id, h, v, done);
        (d.(analyses := d.analyses + [record], nextId := d.nextId + 1,
            resumes := WithSnapshot(d.resumes, resume.id, AnalysisSnapshot(v, done))),
         Response(200, true, None, AnalyzedSuccessfully, AnalysisData(v)))
  }

  /** A whole `analyzeResume` request: the database, the service state and the response after it. */
  function Analysis(d: Db, s: State, resumeId: Id, user: UserId, now: int,
                    replies: Provider, parse: JsonParser, done: int): (Db, State, Response)
  {
    match FindResume(d.resumes, resumeId)
    case None => (d, s, Rejection(404, ResumeNotFound))
    case Some(resume) =>
      if resume.user != user then (d, s, Rejection(401, NotAuthorizedToAnalyze))
      else
        var h := GenerateHash(resume.parsedText);
        match FindAnalysis(d.analyses, resumeId, h)
        case Some(entry) =>
          if !Storable(entry.analysisResult) then (d, s, Rejection(500, AnalyzeServerError))
          else
            (d.(resumes := WithSnapshot(d.resumes, resumeId, AnalysisSnapshot(entry.analysisResult, entry.createdAt))),
             s,
             Response(200, true, None, RetrievedFromDatabase, AnalysisData(entry.analysisResult)))
        case None =>
          var scan := Scan(d, user, h);
          Finish(scan.0, s, resume, h, scan.1, now, replies, parse, done)
  }

  /** A missing resume answers 404 and another user's resume 401, before anything is read or changed. */
  lemma AccessCheckedFirst(d: Db, s: State, resumeId: Id, user: UserId, now: int,
                           replies: Provider, parse: JsonParser, done: int)
    ensures FindResume(d.resumes, resumeId).None? ==>
      Analysis(d, s, resumeId, user, now, replies, parse, done) == (d, s, Rejection(404, ResumeNotFound))
    ensures FindResume(d.resumes, resumeId).Some? && FindResume(d.resumes, resumeId).value.user != user ==>
      Analysis(d, s, resumeId, user, now, replies, parse, done) == (d, s, Rejection(401, NotAuthorizedToAnalyze))
  {
  }

  /** The owner's resume, and the digest of its text, when the request gets past the access checks. */
  predicate Owned(d: Db, resumeId: Id, user: UserId) {
    FindResume(d.resumes, resumeId).Some? && FindResume(d.resumes, resumeId).value.user == user
  }

  function TextHash(d: Db, resumeId: Id): Digest
    requires FindResume(d.resumes, resumeId).Some?
  {
    GenerateHash(FindResume(d.resumes, resumeId).value.parsedText)
  }

  /**
   * An analysis stored for this resume and text is returned as it is: the
   * service is not consulted and no analysis is created or deleted.
   */
  lemma DirectHitAnswersFromStore(d: Db, s: State, resumeId: Id, user: UserId, now: int,
                                  replies: Provider, parse: JsonParser, done: int)
    requires Owned(d, resumeId, user)
    requires FindAnalysis(d.analyses, resumeId, TextHash(d, resumeId)).Some?
    requires Storable(FindAnalysis(d.analyses, resumeId, TextHash(d, resumeId)).value.analysisResult)
    ensures var r := Analysis(d, s, resumeId, user, now, replies, parse, done);
      var entry := FindAnalysis(d.analyses, resumeId, TextHash(d, resumeId)).value;
      && r.1 == s
      && r.0.analyses == d.analyses && r.0.matches == d.matches && r.0.nextId == d.nextId
      && r.2 == Response(200, true, None, RetrievedFromDatabase, AnalysisData(entry.analysisResult))
  {
  }

  /**
   * Without a direct hit, the service is consulted exactly when the scan
   * found no live candidate or only a falsy result; otherwise its state is
   * left as it was.
   */
  lemma ServiceOnlyWithoutLiveResult(d: Db, s: State, resumeId: Id, user: UserId, now: int,
                                     replies: Provider, parse: JsonParser, done: int)
    requires Owned(d, resumeId, user)
    requires FindAnalysis(d.analyses, resumeId, TextHash(d, resumeId)).None?
    ensures var found := Scan(d, user, TextHash(d, resumeId)).1;
      var r := Analysis(d, s, resumeId, user, now, replies, parse, done);
      var text := FindResume(d.resumes, resumeId).value.parsedText;
      && (found.Some? && !Falsy(found.value) ==> r.1 == s)
      && (found.None? || Falsy(found.value) ==> r.1 == SimpleAnalysis(s, text, user, now, replies, parse, done).0)
  {
  }

  /**
   * Whenever the request succeeds without a direct hit, exactly one analysis
   * is added, for this user, this resume and this text, holding the result
   * that is returned: the newest live candidate's result when it is truthy,
   * and otherwise the value the service's answer resolves to. The rest of the
   * collection is what the scan left. A failed service answer is answered by
   * the `catch` block.
   */
  lemma OneRecordPerAnalysis(d: Db, s: State, resumeId: Id, user: UserId, now: int,
                             replies: Provider, parse: JsonParser, done: int)
    requires Owned(d, resumeId, user)
    requires FindAnalysis(d.analyses, resumeId, TextHash(d, resumeId)).None?
    ensures var r := Analysis(d, s, resumeId, user, now, replies, parse, done);
      var scanned := Scan(d, user, TextHash(d, resumeId)).0;
      var found := Scan(d, user, TextHash(d, resumeId)).1;
      var served := Resolve(SimpleAnalysis(s, FindResume(d.resumes, resumeId).value.parsedText, user, now, replies, parse, done).1, parse);
      && (r.2.statusCode == 200 ==>
           && r.2.payload.AnalysisData?
           && r.0.analyses == scanned.analyses
                + [AnalysisRecord(d.nextId, user, resumeId, TextHash(d, resumeId), r.2.payload.result, done)]
           && r.0.nextId == d.nextId + 1
           && (if found.Some? && !Falsy(found.value) then r.2.payload.result == found.value
               else served == Success(r.2.payload.result)))
      && (r.2.statusCode != 200 ==> r.0 == scanned)
      && ((found.None? || Falsy(found.value)) && served.Failure? ==>
           r.2 == Caught(served.error.Code(), served.error.Message()))
  {
    var resume := FindResume(d.resumes, resumeId).value;
    var h := TextHash(d, resumeId);
    var scan := Scan(d, user, h);
    assert Analysis(d, s, resumeId, user, now, replies, parse, done)
        == Finish(scan.0, s, resume, h, scan.1, now, replies, parse, done);
    FinishAddsOneRecord(scan.0, s, resume, h, scan.1, now, replies, parse, done);
  }

  /**
   * After the scan: a 200 appends exactly one record, holding the result it
   * answers with, which is the scan's result when truthy and otherwise the
   * value the service's answer resolves to; any other answer leaves the
   * database as it is. A failed service answer is answered by the `catch`
   * block, and a `null` one, which the schema refuses to store, with 500.
   */
  lemma FinishAddsOneRecord(d: Db, s: State, resume: Resume, h: Digest, found: Option<JsonValue>, now: int,
                            replies: Provider, parse: JsonParser, done: int)
    ensures var r := Finish(d, s, resume, h, found, now, replies, parse, done);
      var served := Resolve(SimpleAnalysis(s, resume.parsedText, resume.user, now, replies, parse, done).1, parse);
      && (r.2.statusCode == 200 ==>
           && r.2.payload.AnalysisData?
           && r.0.analyses == d.analyses + [AnalysisRecord(d.nextId, resume.user, resume.id, h, r.2.payload.result, done)]
           && r.0.nextId == d.nextId + 1
           && (if found.Some? && !Falsy(found.value) then r.2.payload.result == found.value
               else served == Success(r.2.payload.result)))
      && (r.2.statusCode != 200 ==> r.0 == d)
      && ((found.None? || Falsy(found.value)) && served.Failure? ==>
           r.2 == Caught(served.error.Code(), served.error.Message()))
      && ((found.None? || Falsy(found.value)) && served == Success(JNull) ==>
           r.2 == Rejection(500, AnalyzeServerError))
  {
  }

  /**
   * The scan deletes an analysis exactly when it is one of the candidates
   * before the first one whose resume exists, and all of those are orphans;
   * resumes and match history are untouched.
   */
  lemma ScanDeletesOnlyScannedOrphans(d: Db, user: UserId, h: Digest)
    requires UniqueIds(d.analyses)
    ensures var cands := Candidates(d.analyses, user, h);
      var k := FirstLive(cands, d.resumes);
      var after := Scan(d, user, h).0;
      && (forall x :: x in d.analyses ==> (x !in after.analyses <==> x in cands[..k]))
      && (forall x :: x in after.analyses ==> x in d.analyses)
      && (forall j :: 0 <= j < k ==> FindResume(d.resumes, cands[j].resume).None?)
      && after.resumes == d.resumes && after.matches == d.matches && after.nextId == d.nextId
  {
    var cands := Candidates(d.analyses, user, h);
    var k := FirstLive(cands, d.resumes);
    FirstLiveCharacterized(cands, d.resumes);
    var ids := Ids(cands[..k]);
    forall x | x in d.analyses
      ensures x.id in ids <==> x in cands[..k]
    {
      if x.id in ids {
        var j :| 0 <= j < |ids| && ids[j] == x.id;
        assert cands[..k][j] in d.analyses;
        SameIdSameRecord(d.analyses, x, cands[..k][j]);
      }
      if x in cands[..k] {
        var j :| 0 <= j < k && cands[..k][j] == x;
        assert ids[j] == x.id;
      }
    }
  }

  lemma SameIdSameRecord(analyses: seq<AnalysisRecord>, x: AnalysisRecord, y: AnalysisRecord)
    requires UniqueIds(analyses) && x in analyses && y in analyses && x.id == y.id
    ensures x == y
  {
    var i :| 0 <= i < |analyses| && analyses[i] == x;
    var j :| 0 <= j < |analyses| && analyses[j] == y;
  }

  /**
   * Deleting a resume removes it with every analysis and every match entry
   * that refers to it, keeps every other document, and evicts the cached
   * analysis of its text.
   */
  lemma DeleteCascades(d: Db, cache: map<Digest, CacheEntry>, resumeId: Id, user: UserId)
    requires Owned(d, resumeId, user)
    ensures var r := Deletion(d, cache, resumeId, user);
      var text := FindResume(d.resumes, resumeId).value.parsedText;
      && r.2 == Response(200, true, None, DeletedSuccessfully, NoPayload)
      && FindResume(r.0.resumes, resumeId).None?
      && (forall x :: x in r.0.analyses <==> x in d.analyses && x.resume != resumeId)
      && (forall m :: m in r.0.matches <==> m in d.matches && m.resume != resumeId)
      && (forall x :: x in r.0.resumes <==> x in d.resumes && x.id != resumeId)
      && r.1 == Cleared(cache, text)
  {
  }

  /** The same checks guard deletion: 404 for a missing resume, 401 for another user's, and nothing changes. */
  lemma DeleteAccessCheckedFirst(d: Db, cache: map<Digest, CacheEntry>, resumeId: Id, user: UserId)
    ensures FindResume(d.resumes, resumeId).None? ==>
      Deletion(d, cache, resumeId, user) == (d, cache, Rejection(404, ResumeNotFound))
    ensures FindResume(d.resumes, resumeId).Some? && !Owned(d, resumeId, user) ==>
      Deletion(d, cache, resumeId, user) == (d, cache, Rejection(401, NotAuthorizedToDelete))
  {
  }

  /** The loop of lines 99-114 over the candidates, newest first. */
  method ScanCandidates(db: Database, cands: seq<AnalysisRecord>) returns (found: Option<JsonValue>)
    modifies db
    ensures var k := FirstLive(cands, old(db.resumes));
      && found == (if k < |cands| then Some(cands[k].analysisResult) else None)
      && db.analyses == DropIds(old(db.analyses), Ids(cands[..k]))
    ensures db.resumes == old(db.resumes) && db.matches == old(db.matches) && db.nextId == old(db.nextId)
  {
    ghost var resumes, analyses := db.resumes, db.analyses;
    ghost var k := FirstLive(cands, resumes);
    var i := 0;
    found := None;
    while i < |cands|
      invariant 0 <= i <= |cands|
      invariant i + FirstLive(cands[i..], resumes) == k
      invariant db.analyses == DropIds(analyses, Ids(cands[..i]))
      invariant db.resumes == resumes && db.matches == old(db.matches) && db.nextId == old(db.nextId)
      invariant found.None?
    {
      FirstLiveAt(cands, i, resumes);
      var linked := FindResume(db.resumes, cands[i].resume);
      if linked.Some? {
        found := Some(cands[i].analysisResult);
        return;
      }
      DropIdsPrefixStep(analyses, cands, i);
      db.analyses := Drop(db.analyses, IdIs(cands[i].id), AnalysisHit);
      i := i + 1;
    }
  }

  method AnalyzeResume(db: Database, svc: Service, resumeId: Id, userId: UserId, now: int,
                       replies: Provider, parse: JsonParser, done: int)
    returns (response: Response)
    modifies db, svc
    ensures (db.Snapshot(), svc.Snapshot(), response) ==
      Analysis(old(db.Snapshot()), old(svc.Snapshot()), resumeId, userId, now, replies, parse, done)
  {
    var found := FindResume(db.resumes, resumeId);
    if found.None? {
      return Rejection(404, ResumeNotFound);
    }
    var resume := found.value;
    if resume.user != userId {
      return Rejection(401, NotAuthorizedToAnalyze);
    }
    var inputHash := GenerateHash(resume.parsedText);
    var analysisEntry := FindAnalysis(db.analyses, resumeId, inputHash);
    if analysisEntry.Some? {
      var entry := analysisEntry.value;
      if !Storable(entry.analysisResult) {
        return Rejection(500, AnalyzeServerError);
      }
      db.resumes := WithSnapshot(db.resumes, resumeId, AnalysisSnapshot(entry.analysisResult, entry.createdAt));
      return Response(200, true, None, RetrievedFromDatabase, AnalysisData(entry.analysisResult));
    }
    var existingAnalyses := Candidates(db.analyses, userId, inputHash);
    var analysisResults := ScanCandidates(db, existingAnalyses);
    response := Complete(db, svc, resume, inputHash, analysisResults, now, replies, parse, done);
  }

  /** Lines 116-138, after the scan. */
  method Complete(db: Database, svc: Service, resume: Resume, inputHash: Digest, analysisResults: Option<JsonValue>, now: int,
                  replies: Provider, parse: JsonParser, done: int)
    returns (response: Response)
    modifies db, svc
    ensures (db.Snapshot(), svc.Snapshot(), response) ==
      Finish(old(db.Snapshot()), old(svc.Snapshot()), resume, inputHash, analysisResults, now, replies, parse, done)
  {
    var outcome: Result<JsonValue, ServiceError>;
    if analysisResults.None? || Falsy(analysisResults.value) {
      var answer := svc.PerformSimpleAnalysis(resume.parsedText, resume.user, now, replies, parse, done);
      outcome := Resolve(answer, parse);
    } else {
      outcome := Success(analysisResults.value);
    }
    response := Save(db, resume, inputHash, outcome, done);
  }

  /** Lines 119-149 once a result is obtained or has failed. */
  method Save(db: Database, resume: Resume, inputHash: Digest, outcome: Result<JsonValue, ServiceError>, done: int)
    returns (response: Response)
    modifies db
    ensures (db.Snapshot(), response) == Saved(old(db.Snapshot()), resume, inputHash, outcome, done)
  {
    if outcome.Failure? {
      return Caught(outcome.error.Code(), outcome.error.Message());
    }
    var v := outcome.value;
    if !Storable(v) {
      return Rejection(500, AnalyzeServerError);
    }
    db.analyses := db.analyses + [AnalysisRecord(db.nextId, resume.user, resume.id, inputHash, v, done)];
    db.nextId := db.nextId + 1;
    db.resumes := WithSnapshot(db.resumes, resume.id, AnalysisSnapshot(v, done));
    response := Response(200, true, None, AnalyzedSuccessfully, AnalysisData(v));
  }

  /** A whole `deleteResume` request: the database, the analysis cache and the response after it. */
  function Deletion(d: Db, cache: map<Digest, CacheEntry>, resumeId: Id, user: UserId): (Db, map<Digest, CacheEntry>, Response) {
    match FindResume(d.resumes, resumeId)
    case None => (d, cache, Rejection(404, ResumeNotFound))
    case Some(resume) =>
      if resume.user != user then (d, cache, Rejection(401, NotAuthorizedToDelete))
      else
        (d.(analyses := Drop(d.analyses, ResumeIs(resumeId), AnalysisHit),
            matches := Drop(d.matches, ResumeIs(resumeId), MatchHit),
            resumes := Drop(d.resumes, IdIs(resumeId), ResumeHit)),
         Cleared(cache, resume.parsedText),
         Response(200, true, None, DeletedSuccessfully, NoPayload))
  }

  method DeleteResume(db: Database, svc: Service, resumeId: Id, userId: UserId) returns (response: Response)
    modifies db, svc
    ensures (db.Snapshot(), svc.cache, response) == Deletion(old(db.Snapshot()), old(svc.cache), resumeId, userId)
    ensures svc.pendingRequests == old(svc.pendingRequests) && svc.userRateLimits == old(svc.userRateLimits)
  {
    var found := FindResume(db.resumes, resumeId);
    if found.None? {
      return Rejection(404, ResumeNotFound);
    }
    var resume := found.value;
    if resume.user != userId {
      return Rejection(401, NotAuthorizedToDelete);
    }
    if resume.parsedText != "" {
      svc.ClearAnalysisCache(resume.parsedText);
    }
    db.analyses := Drop(db.analyses, ResumeIs(resumeId), AnalysisHit);
    db.matches := Drop(db.matches, ResumeIs(resumeId), MatchHit);
    db.resumes := Drop(db.resumes, IdIs(resumeId), ResumeHit);
    response := Response(200, true, None, DeletedSuccessfully, NoPayload);
  }
}
