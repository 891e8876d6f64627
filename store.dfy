/**
 * The three MongoDB collections the controllers read and write: resumes,
 * resume analyses and job-description match history. A collection is a
 * sequence of documents in insertion order; a document created later has a
 * larger `createdAt`. Document ids come from one counter and are never reused.
 */
module Store {
  import opened Wrappers
  import opened Json
  import opened Hashing
  import AnalysisService

  type Id = nat

  /** What `resume.analysis` holds after an analysis: the result, stamped with `analyzedAt`. */
  datatype AnalysisSnapshot = AnalysisSnapshot(result: JsonValue, analyzedAt: int)

  datatype Resume = Resume(id: Id, user: AnalysisService.UserId, originalFilename: string, parsedText: string, analysis: Option<AnalysisSnapshot>)

  datatype AnalysisRecord = AnalysisRecord(id: Id, user: AnalysisService.UserId, resume: Id, inputHash: Digest, analysisResult: JsonValue, createdAt: int)

  datatype MatchRecord = MatchRecord(
    id: Id, user: AnalysisService.UserId, resume: Id, jobTitle: string, jdText: string, inputHash: Digest, analysisData: JsonValue, createdAt: int)

  /** A required `Mixed` path refuses `null` and `undefined`; every other value is stored. */
  predicate Storable(v: JsonValue) {
    v != JNull
  }

  /** A query filter: by document id, by the resume referred to, or by that resume and the input digest. */
  datatype Key = IdIs(id: Id) | ResumeIs(resume: Id) | ResumeAndInput(resume: Id, inputHash: Digest)

  predicate AnalysisHit(a: AnalysisRecord, k: Key) {
    match k
    case IdIs(i) => a.id == i
    case ResumeIs(r) => a.resume == r
    case ResumeAndInput(r, h) => a.resume == r && a.inputHash == h
  }

  predicate MatchHit(m: MatchRecord, k: Key) {
    match k
    case IdIs(i) => m.id == i
    case ResumeIs(r) => m.resume == r
    case ResumeAndInput(r, h) => m.resume == r && m.inputHash == h
  }

  predicate ResumeHit(r: Resume, k: Key) {
    k.IdIs? && r.id == k.id
  }

  /** The collection after deleting every document the filter selects. */
  function Drop<T(!new)>(s: seq<T>, k: Key, hits: (T, Key) -> bool): (r: seq<T>)
    ensures forall x :: x in r <==> x in s && !hits(x, k)
    ensures |r| <= |s|
  {
    if s == [] then []
    else (if hits(s[0], k) then [] else [s[0]]) + Drop(s[1..], k, hits)
  }

  /** `findOne` and `findById`: the first document the filter selects. */
  function FindFirst<T(!new)>(s: seq<T>, k: Key, hits: (T, Key) -> bool): (r: Option<T>)
    ensures r.Some? ==> r.value in s && hits(r.value, k)
    ensures r.None? <==> forall x :: x in s ==> !hits(x, k)
  {
    if s == [] then None
    else if hits(s[0], k) then Some(s[0])
    else FindFirst(s[1..], k, hits)
  }

  /** The analyses after deleting, one after the other, the documents with the ids in `ids`. */
  function DropIds(s: seq<AnalysisRecord>, ids: seq<Id>): (r: seq<AnalysisRecord>)
    ensures forall x :: x in r <==> x in s && x.id !in ids
    decreases |ids|
  {
    if ids == [] then s
    else
      var rest := DropIds(s, ids[..|ids| - 1]);
      assert forall i :: i in ids <==> i in ids[..|ids| - 1] || i == ids[|ids| - 1] by {
        assert ids == ids[..|ids| - 1] + [ids[|ids| - 1]];
      }
      Drop(rest, IdIs(ids[|ids| - 1]), AnalysisHit)
  }

  /** Deleting one more id is one more `Drop`. */
  lemma DropIdsStep(s: seq<AnalysisRecord>, ids: seq<Id>, id: Id)
    ensures DropIds(s, ids + [id]) == Drop(DropIds(s, ids), IdIs(id), AnalysisHit)
  {
    assert (ids + [id])[..|ids|] == ids;
  }

  /** Deleting the analyses with the ids of one more record is one more `Drop`. */
  lemma DropIdsPrefixStep(s: seq<AnalysisRecord>, rs: seq<AnalysisRecord>, i: nat)
    requires i < |rs|
    ensures DropIds(s, Ids(rs[..i + 1])) == Drop(DropIds(s, Ids(rs[..i])), IdIs(rs[i].id), AnalysisHit)
  {
    IdsStep(rs, i);
    DropIdsStep(s, Ids(rs[..i]), rs[i].id);
  }

  /** The ids of one more record. */
  lemma IdsStep(rs: seq<AnalysisRecord>, i: nat)
    requires i < |rs|
    ensures Ids(rs[..i + 1]) == Ids(rs[..i]) + [rs[i].id]
  {
  }

  function Ids(rs: seq<AnalysisRecord>): (r: seq<Id>)
    ensures |r| == |rs| && forall i :: 0 <= i < |rs| ==> r[i] == rs[i].id
  {
    seq(|rs|, i requires 0 <= i < |rs| => rs[i].id)
  }

  /** `Resume.findById`. */
  function FindResume(resumes: seq<Resume>, id: Id): (r: Option<Resume>)
    ensures r.Some? ==> r.value in resumes && r.value.id == id
    ensures r.None? <==> forall x :: x in resumes ==> x.id != id
  {
    FindFirst(resumes, IdIs(id), ResumeHit)
  }

  /** `ResumeAnalysis.findOne({ resume, inputHash })`: the first such document. */
  function FindAnalysis(analyses: seq<AnalysisRecord>, resume: Id, h: Digest): (r: Option<AnalysisRecord>)
    ensures r.Some? ==> r.value in analyses && r.value.resume == resume && r.value.inputHash == h
    ensures r.None? <==> forall x :: x in analyses ==> !(x.resume == resume && x.inputHash == h)
  {
    FindFirst(analyses, ResumeAndInput(resume, h), AnalysisHit)
  }

  /** `JDMatchHistory.findOne({ resume, inputHash })`. */
  function FindMatch(matches: seq<MatchRecord>, resume: Id, h: Digest): (r: Option<MatchRecord>)
    ensures r.Some? ==> r.value in matches && r.value.resume == resume && r.value.inputHash == h
    ensures r.None? <==> forall x :: x in matches ==> !(x.resume == resume && x.inputHash == h)
  {
    FindFirst(matches, ResumeAndInput(resume, h), MatchHit)
  }

  /** `JDMatchHistory.findById`. */
  function FindMatchById(matches: seq<MatchRecord>, id: Id): (r: Option<MatchRecord>)
    ensures r.Some? ==> r.value in matches && r.value.id == id
    ensures r.None? <==> forall x :: x in matches ==> x.id != id
  {
    FindFirst(matches, IdIs(id), MatchHit)
  }

  /**
   * `ResumeAnalysis.find({ user, inputHash }).sort({ createdAt: -1 })`: the
   * user's analyses of this text, newest first.
   */
  function Candidates(analyses: seq<AnalysisRecord>, user: AnalysisService.UserId, h: Digest): (r: seq<AnalysisRecord>)
    ensures forall x :: x in r <==> x in analyses && x.user == user && x.inputHash == h
    ensures |r| <= |analyses|
  {
    if analyses == [] then []
    else Candidates(analyses[1..], user, h) + (if analyses[0].user == user && analyses[0].inputHash == h then [analyses[0]] else [])
  }

  predicate CreatedInOrder(analyses: seq<AnalysisRecord>) {
    forall i, j :: 0 <= i < j < |analyses| ==> analyses[i].createdAt <= analyses[j].createdAt
  }

  predicate NewestFirst(r: seq<AnalysisRecord>) {
    forall i, j :: 0 <= i < j < |r| ==> r[i].createdAt >= r[j].createdAt
  }

  /** When the documents were created in time order, the candidates come newest first. */
  lemma {:induction false} CandidatesNewestFirst(analyses: seq<AnalysisRecord>, user: AnalysisService.UserId, h: Digest)
    requires CreatedInOrder(analyses)
    ensures NewestFirst(Candidates(analyses, user, h))
  {
    if analyses != [] {
      var tail := Candidates(analyses[1..], user, h);
      InOrderTail(analyses);
      CandidatesNewestFirst(analyses[1..], user, h);
      if analyses[0].user == user && analyses[0].inputHash == h {
        forall x | x in tail
          ensures x.createdAt >= analyses[0].createdAt
        {
          var k :| 0 <= k < |analyses[1..]| && analyses[1..][k] == x;
          assert analyses[k + 1] == x;
        }
        OlderLast(tail, analyses[0]);
      }
    }
  }

  lemma InOrderTail(analyses: seq<AnalysisRecord>)
    requires analyses != [] && CreatedInOrder(analyses)
    ensures CreatedInOrder(analyses[1..])
  {
    forall i, j | 0 <= i < j < |analyses| - 1
      ensures analyses[1..][i].createdAt <= analyses[1..][j].createdAt
    {
      assert analyses[1..][i] == analyses[i + 1] && analyses[1..][j] == analyses[j + 1];
    }
  }

  lemma OlderLast(r: seq<AnalysisRecord>, x: AnalysisRecord)
    requires NewestFirst(r)
    requires forall y :: y in r ==> y.createdAt >= x.createdAt
    ensures NewestFirst(r + [x])
  {
    var t := r + [x];
    forall i, j | 0 <= i < j < |t|
      ensures t[i].createdAt >= t[j].createdAt
    {
      assert t[i] == r[i] && r[i] in r;
      if j < |r| {
        assert t[j] == r[j];
      }
    }
  }

  /** `resume.analysis = ...; resume.save()` on the resume with this id. */
  function WithSnapshot(resumes: seq<Resume>, id: Id, snap: AnalysisSnapshot): (r: seq<Resume>)
    ensures |r| == |resumes|
    ensures forall i :: 0 <= i < |r| ==>
      r[i] == if resumes[i].id == id then resumes[i].(analysis := Some(snap)) else resumes[i]
  {
    seq(|resumes|, i requires 0 <= i < |resumes| =>
      if resumes[i].id == id then resumes[i].(analysis := Some(snap)) else resumes[i])
  }

  /** Saving a snapshot changes no resume's id, so every lookup by id finds the same resume or none. */
  lemma SnapshotKeepsIds(resumes: seq<Resume>, id: Id, snap: AnalysisSnapshot, other: Id)
    ensures FindResume(WithSnapshot(resumes, id, snap), other).None? <==> FindResume(resumes, other).None?
  {
    var r := WithSnapshot(resumes, id, snap);
    if FindResume(resumes, other).Some? {
      var x := FindResume(resumes, other).value;
      var k :| 0 <= k < |resumes| && resumes[k] == x;
      assert r[k].id == other;
    }
    if FindResume(r, other).Some? {
      var x := FindResume(r, other).value;
      var k :| 0 <= k < |r| && r[k] == x;
      assert resumes[k].id == other;
    }
  }

  /** Document ids are unique within a collection. */
  predicate UniqueIds(analyses: seq<AnalysisRecord>) {
    forall i, j :: 0 <= i < |analyses| && 0 <= j < |analyses| && analyses[i].id == analyses[j].id ==> i == j
  }

  /** The contents of the database at one moment. */
  datatype Db = Db(resumes: seq<Resume>, analyses: seq<AnalysisRecord>, matches: seq<MatchRecord>, nextId: Id)

  /** The database; `nextId` is the id the next document created gets. */
  class Database {
    var resumes: seq<Resume>
    var analyses: seq<AnalysisRecord>
    var matches: seq<MatchRecord>
    var nextId: Id

    constructor (resumes: seq<Resume>, analyses: seq<AnalysisRecord>, matches: seq<MatchRecord>, nextId: Id)
      ensures this.resumes == resumes && this.analyses == analyses && this.matches == matches && this.nextId == nextId
    {
      this.resumes, this.analyses, this.matches, this.nextId := resumes, analyses, matches, nextId;
    }

    function Snapshot(): Db
      reads this
    {
      Db(resumes, analyses, matches, nextId)
    }
  }
}
