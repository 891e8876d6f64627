/**
 * The analysis service's in-memory state and `getAnalysisFromAI`.
 *
 * Three maps live for the life of the process: the result cache (prompt hash
 * to `{data, timestamp}`, valid for 24 hours), the table of provider calls in
 * flight (prompt hash to the promise of the call), and the per-user hourly
 * quota (user to `{count, resetTime}`).
 *
 * `getAnalysisFromAI` runs in two steps separated by an `await`: the
 * synchronous part (`Admit`) checks the quota, looks up the cache and the
 * in-flight table and, when it has to, starts a provider call and records its
 * promise; a request that finds a promise recorded for its prompt returns it;
 * the continuation (`Settled`) runs when that call ends, caches a value and
 * charges the quota of the user who started the call, and releases the
 * in-flight entry either way. Other requests can run between the two steps.
 * The clock (`Date.now()`) is a parameter: `now` when a request starts and
 * `done` when its provider call ends.
 */
module AnalysisService {
  import opened Wrappers
  import opened Text
  import opened Json
  import opened Hashing
  import opened ServiceErrors
  import opened Retry
  import opened Prompts

  const CacheTtl: nat := 24 * 60 * 60 * 1000
  const UserHourlyLimit: nat := 50
  const WindowMs: nat := 3600000
  const MinuteMs: nat := 60000

  type UserId = string

  datatype RateLimit = RateLimit(count: nat, resetTime: int)
  datatype CacheEntry = CacheEntry(data: JsonValue, timestamp: int)

  /**
   * The three maps. The promise of a call in flight is modelled by the replies
   * the provider gives that call: everyone who awaits the promise ends with the
   * run of `executeAICall` on those replies.
   */
  datatype State = State(cache: map<Digest, CacheEntry>, pending: map<Digest, Provider>, limits: map<UserId, RateLimit>)

  // ---------------------------------------------------------------------------
  // The hourly quota.

  /** `Math.ceil(x / y)` for a positive divisor. */
  function CeilDiv(x: int, y: int): (q: int)
    requires y > 0
    ensures (q - 1) * y < x <= q * y
  {
    var f := (-x) / y;
    assert f * y <= -x < f * y + y;
    -f
  }

  /** The user's entry after lines 58-68: created when missing, restarted when its hour is over. */
  function Refreshed(limits: map<UserId, RateLimit>, user: UserId, now: int): RateLimit {
    if user !in limits || now > limits[user].resetTime then RateLimit(0, now + WindowMs) else limits[user]
  }

  /** The error `checkRateLimits` throws for an entry, if any. */
  function QuotaVerdict(l: RateLimit, now: int): (r: Option<ServiceError>)
    ensures r.Some? <==> l.count >= UserHourlyLimit
    ensures r.Some? ==> r.value.LimitReached?
  {
    if l.count >= UserHourlyLimit then Some(LimitReached(CeilDiv(l.resetTime - now, MinuteMs))) else None
  }

  /** `incrementRateLimits`: one more charged call, if the user has an entry. */
  function Incremented(limits: map<UserId, RateLimit>, user: UserId): (r: map<UserId, RateLimit>)
    ensures r.Keys == limits.Keys
    ensures forall u :: u in limits && u != user ==> r[u] == limits[u]
    ensures user in limits ==> r[user] == limits[user].(count := limits[user].count + 1)
  {
    if user in limits then limits[user := limits[user].(count := limits[user].count + 1)] else limits
  }

  /** Every quota window ends at most an hour after `now`. */
  ghost predicate WindowsBounded(limits: map<UserId, RateLimit>, now: int) {
    forall u :: u in limits ==> limits[u].resetTime <= now + WindowMs
  }

  /**
   * After the refresh the window has not ended and ends within the hour; the
   * count is zero or unchanged; an entry whose window is still open is kept.
   */
  lemma RefreshedWindow(limits: map<UserId, RateLimit>, user: UserId, now: int)
    requires WindowsBounded(limits, now)
    ensures var l := Refreshed(limits, user, now);
      && now <= l.resetTime <= now + WindowMs
      && (l.count == 0 || (user in limits && l == limits[user]))
      && (user in limits && now <= limits[user].resetTime ==> l == limits[user])
      && (user !in limits || now > limits[user].resetTime ==> l == RateLimit(0, now + WindowMs))
  {
  }

  /** The minutes in the "try again" message are between 0 and 60. */
  lemma WaitHintWithinHour(limits: map<UserId, RateLimit>, user: UserId, now: int)
    requires WindowsBounded(limits, now)
    ensures var r := QuotaVerdict(Refreshed(limits, user, now), now);
      r.Some? ==> 0 <= r.value.waitMinutes <= 60
  {
    RefreshedWindow(limits, user, now);
  }

  // ---------------------------------------------------------------------------
  // The two steps of `getAnalysisFromAI`.

  /** What the synchronous part of a request decides; a joined call comes with the promise recorded for it. */
  datatype Admission =
    | Rejected(error: ServiceError)
    | CacheHit(data: JsonValue)
    | Joined(h: Digest, call: Provider)
    | Started(h: Digest)

  predicate Fresh(cache: map<Digest, CacheEntry>, h: Digest, now: int) {
    h in cache && now - cache[h].timestamp < CacheTtl
  }

  /**
   * Lines 180-213: quota, then cache, then the in-flight table, then a new
   * call, whose promise (the provider's `replies`) is recorded for the prompt.
   */
  function Admit(s: State, user: UserId, prompt: string, now: int, replies: Provider): (State, Admission) {
    var l := Refreshed(s.limits, user, now);
    var s1 := s.(limits := s.limits[user := l]);
    match QuotaVerdict(l, now)
    case Some(e) => (s1, Rejected(e))
    case None =>
      var h := GenerateHash(prompt);
      if Fresh(s1.cache, h, now) then (s1, CacheHit(s1.cache[h].data))
      else
        var s2 := s1.(cache := s1.cache - {h});
        if h in s2.pending then (s2, Joined(h, s2.pending[h]))
        else (s2.(pending := s2.pending[h := replies]), Started(h))
  }

  /** Lines 201-217: the end of the call `starter` started for `h`. */
  function Settled(s: State, h: Digest, starter: UserId, outcome: Result<JsonValue, ServiceError>, done: int): State {
    var s1 :=
      if outcome.Success? then s.(cache := s.cache[h := CacheEntry(outcome.value, done)], limits := Incremented(s.limits, starter))
      else s;
    s1.(pending := s1.pending - {h})
  }

  /** What a caller of `getAnalysisFromAI` receives. `Shared(h, call)` is the promise recorded for the call in flight for `h`. */
  datatype Answer = Ready(data: JsonValue) | Failed(error: ServiceError) | Shared(h: Digest, call: Provider)

  function AnswerOf(outcome: Result<JsonValue, ServiceError>): Answer {
    match outcome
    case Success(v) => Ready(v)
    case Failure(e) => Failed(e)
  }

  /**
   * What the caller ends with once it has awaited the answer: the answer's
   * value or error, or for a shared promise the outcome of the call behind it.
   */
  function Resolve(a: Answer, parse: JsonParser): Result<JsonValue, ServiceError> {
    match a
    case Ready(v) => Success(v)
    case Failed(e) => Failure(e)
    case Shared(_, call) => Execution(call, parse).outcome
  }

  /** A whole request when nothing else runs while its provider call is in flight. */
  function Served(s: State, user: UserId, prompt: string, now: int, replies: Provider, parse: JsonParser, done: int): (State, Answer) {
    var (s1, a) := Admit(s, user, prompt, now, replies);
    match a
    case Rejected(e) => (s1, Failed(e))
    case CacheHit(d) => (s1, Ready(d))
    case Joined(h, call) => (s1, Shared(h, call))
    case Started(h) =>
      var run := Execution(replies, parse);
      (Settled(s1, h, user, run.outcome, done), AnswerOf(run.outcome))
  }

  // ---------------------------------------------------------------------------
  // Input validation and the public operations.

  const ShortResume: string := "Resume text is too short or empty. Please upload a valid resume."
  const ShortResumeForMatch: string := "Resume text is too short or empty."
  const ShortJobDescription: string := "Job description is too short. Please provide a detailed job description."

  /** `!text || text.trim().length < min`; the empty text is caught by the length test as well. */
  predicate TooShort(text: string, min: nat) {
    Utf16Length(Trim(text)) < min
  }

  function SimpleInputError(resumeText: string): (r: Option<ServiceError>)
    ensures r.Some? <==> TooShort(resumeText, 100)
    ensures r.Some? ==> r.value == InvalidInput(ShortResume)
  {
    if TooShort(resumeText, 100) then Some(InvalidInput(ShortResume)) else None
  }

  /** The resume is checked first; the job description only when the resume passes. */
  function MatchInputError(resumeText: string, jdText: string): (r: Option<ServiceError>)
    ensures TooShort(resumeText, 100) ==> r == Some(InvalidInput(ShortResumeForMatch))
    ensures !TooShort(resumeText, 100) && TooShort(jdText, 50) ==> r == Some(InvalidInput(ShortJobDescription))
    ensures r.None? <==> !TooShort(resumeText, 100) && !TooShort(jdText, 50)
  {
    if TooShort(resumeText, 100) then Some(InvalidInput(ShortResumeForMatch))
    else if TooShort(jdText, 50) then Some(InvalidInput(ShortJobDescription))
    else None
  }

  /** `performSimpleAnalysis`: validation, then the request for the analysis prompt. */
  function SimpleAnalysis(s: State, resumeText: string, user: UserId, now: int, replies: Provider, parse: JsonParser, done: int): (State, Answer) {
    match SimpleInputError(resumeText)
    case Some(e) => (s, Failed(e))
    case None => Served(s, user, CreateAnalysisPrompt(resumeText), now, replies, parse, done)
  }

  /** `performJDMatchAnalysis`: validation, then the request for the match prompt. */
  function MatchAnalysis(s: State, resumeText: string, jdText: string, user: UserId, now: int, replies: Provider, parse: JsonParser, done: int): (State, Answer) {
    match MatchInputError(resumeText, jdText)
    case Some(e) => (s, Failed(e))
    case None => Served(s, user, CreateJDMatchPrompt(resumeText, jdText), now, replies, parse, done)
  }

  /** Input that fails validation is refused before the quota is consulted: nothing changes, not even the quota entry. */
  lemma ValidationComesFirst(s: State, resumeText: string, jdText: string, user: UserId, now: int, replies: Provider, parse: JsonParser, done: int)
    ensures TooShort(resumeText, 100) ==>
      SimpleAnalysis(s, resumeText, user, now, replies, parse, done) == (s, Failed(InvalidInput(ShortResume)))
    ensures TooShort(resumeText, 100) ==>
      MatchAnalysis(s, resumeText, jdText, user, now, replies, parse, done) == (s, Failed(InvalidInput(ShortResumeForMatch)))
    ensures !TooShort(resumeText, 100) && TooShort(jdText, 50) ==>
      MatchAnalysis(s, resumeText, jdText, user, now, replies, parse, done) == (s, Failed(InvalidInput(ShortJobDescription)))
  {
  }

  /** `clearAnalysisCache`: the cache without the entry of this resume's analysis prompt. */
  function Cleared(cache: map<Digest, CacheEntry>, resumeText: string): map<Digest, CacheEntry> {
    if resumeText == "" then cache else cache - {GenerateHash(CreateAnalysisPrompt(resumeText))}
  }

  // ---------------------------------------------------------------------------
  // What the two steps promise.

  /**
   * The quota is checked before the cache: a request is refused exactly when
   * the user's refreshed count has reached 50, even if its answer is cached,
   * and a refused request changes nothing but the user's quota entry.
   */
  lemma RejectedIffAtLimit(s: State, user: UserId, prompt: string, now: int, replies: Provider)
    ensures var r := Admit(s, user, prompt, now, replies);
      && (r.1.Rejected? <==> Refreshed(s.limits, user, now).count >= UserHourlyLimit)
      && (r.1.Rejected? ==> r.0 == s.(limits := s.limits[user := Refreshed(s.limits, user, now)]))
      && (r.1.Rejected? ==> r.1.error.LimitReached?)
  {
  }

  /** A fresh cached answer is returned without a call and without charging the quota. */
  lemma CacheHitIsFree(s: State, user: UserId, prompt: string, now: int, replies: Provider, parse: JsonParser, done: int)
    requires Refreshed(s.limits, user, now).count < UserHourlyLimit
    requires Fresh(s.cache, GenerateHash(prompt), now)
    ensures var r := Served(s, user, prompt, now, replies, parse, done);
      && r.1 == Ready(s.cache[GenerateHash(prompt)].data)
      && r.0.cache == s.cache && r.0.pending == s.pending
      && r.0.limits == s.limits[user := Refreshed(s.limits, user, now)]
  {
  }

  /** An expired entry is dropped, and the request then joins or starts a call. */
  lemma StaleEntryEvicted(s: State, user: UserId, prompt: string, now: int, replies: Provider)
    requires Refreshed(s.limits, user, now).count < UserHourlyLimit
    requires GenerateHash(prompt) in s.cache && !Fresh(s.cache, GenerateHash(prompt), now)
    ensures var r := Admit(s, user, prompt, now, replies);
      && GenerateHash(prompt) !in r.0.cache
      && ((r.1.Joined? && r.1.h == GenerateHash(prompt)) || r.1 == Started(GenerateHash(prompt)))
  {
  }

  /**
   * A request for a prompt whose call is in flight shares that call: it gets
   * the promise recorded for the prompt and starts no call, so what it sees
   * does not depend on its own provider, and it charges nothing.
   */
  lemma JoinStartsNothing(s: State, user: UserId, prompt: string, now: int,
                          replies1: Provider, replies2: Provider, parse: JsonParser, done: int)
    requires Refreshed(s.limits, user, now).count < UserHourlyLimit
    requires !Fresh(s.cache, GenerateHash(prompt), now) && GenerateHash(prompt) in s.pending
    ensures var r := Served(s, user, prompt, now, replies1, parse, done);
      && r.1 == Shared(GenerateHash(prompt), s.pending[GenerateHash(prompt)])
      && r.0.pending == s.pending
      && r.0.limits == s.limits[user := Refreshed(s.limits, user, now)]
      && r == Served(s, user, prompt, now, replies2, parse, done)
  {
  }

  /** A request starts a call exactly when it is within quota and its prompt is neither cached nor in flight. */
  lemma StartedIff(s: State, user: UserId, prompt: string, now: int, replies: Provider)
    ensures var r := Admit(s, user, prompt, now, replies);
      && (r.1.Started? <==>
           Refreshed(s.limits, user, now).count < UserHourlyLimit
           && !Fresh(s.cache, GenerateHash(prompt), now) && GenerateHash(prompt) !in s.pending)
      && (r.1.Started? ==> r.1.h == GenerateHash(prompt) && r.0.pending == s.pending[r.1.h := replies])
  {
  }

  /**
   * When a call ends its in-flight entry goes away whatever the outcome. Only a
   * value is cached, stamped with the time the call ended, and only a value
   * charges the quota: one unit, to the user who started the call.
   */
  lemma SettleReleasesAndChargesOnce(s: State, h: Digest, starter: UserId, outcome: Result<JsonValue, ServiceError>, done: int)
    ensures var t := Settled(s, h, starter, outcome, done);
      && h !in t.pending && t.pending == s.pending - {h}
      && t.limits.Keys == s.limits.Keys
      && (forall u :: u in s.limits && u != starter ==> t.limits[u] == s.limits[u])
      && (starter in s.limits ==>
           t.limits[starter].resetTime == s.limits[starter].resetTime
           && t.limits[starter].count == s.limits[starter].count + (if outcome.Success? then 1 else 0))
      && (outcome.Failure? ==> t.cache == s.cache)
      && (outcome.Success? ==> t.cache.Keys == s.cache.Keys + {h} && t.cache[h] == CacheEntry(outcome.value, done))
      && (forall g :: g in s.cache && g != h ==> t.cache[g] == s.cache[g])
  {
  }

  /**
   * What stays true between requests: no prompt is both cached and in flight
   * (so a request never joins a call whose answer it could have read), and no
   * quota window ends more than an hour from now.
   */
  ghost predicate Coherent(s: State, now: int) {
    && (forall h :: h in s.pending ==> h !in s.cache)
    && WindowsBounded(s.limits, now)
  }

  lemma InitialCoherent(now: int)
    ensures Coherent(State(map[], map[], map[]), now)
  {
  }

  lemma CoherentLater(s: State, now: int, later: int)
    requires Coherent(s, now) && now <= later
    ensures Coherent(s, later)
  {
  }

  lemma AdmitKeepsCoherent(s: State, user: UserId, prompt: string, now: int, replies: Provider)
    requires Coherent(s, now)
    ensures Coherent(Admit(s, user, prompt, now, replies).0, now)
  {
    RefreshedWindow(s.limits, user, now);
  }

  lemma SettleKeepsCoherent(s: State, h: Digest, starter: UserId, outcome: Result<JsonValue, ServiceError>, done: int, now: int)
    requires Coherent(s, now)
    ensures Coherent(Settled(s, h, starter, outcome, done), now)
  {
    SettleReleasesAndChargesOnce(s, h, starter, outcome, done);
  }

  lemma ClearKeepsCoherent(s: State, resumeText: string, now: int)
    requires Coherent(s, now)
    ensures Coherent(s.(cache := Cleared(s.cache, resumeText)), now)
  {
  }

  /** In a coherent state the wait a refused request is told is between 0 and 60 minutes. */
  lemma WaitHintWithinHourWhenCoherent(s: State, user: UserId, prompt: string, now: int, replies: Provider)
    requires Coherent(s, now)
    ensures var r := Admit(s, user, prompt, now, replies);
      r.1.Rejected? ==> 0 <= r.1.error.waitMinutes <= 60
  {
    WaitHintWithinHour(s.limits, user, now);
  }

  /**
   * Once a call has produced a value, the same prompt from any user within 24
   * hours of the call's end is answered from the cache with that value.
   */
  lemma AnsweredPromptIsCached(s: State, u1: UserId, u2: UserId, prompt: string, now1: int,
                               replies: Provider, parse: JsonParser, done: int, now2: int)
    requires Admit(s, u1, prompt, now1, replies).1.Started?
    requires Execution(replies, parse).outcome.Success?
    requires now2 - done < CacheTtl
    ensures var first := Served(s, u1, prompt, now1, replies, parse, done);
      first.1 == Ready(Execution(replies, parse).outcome.value) &&
      (forall other: Provider :: Refreshed(first.0.limits, u2, now2).count < UserHourlyLimit ==>
         Admit(first.0, u2, prompt, now2, other).1 == CacheHit(Execution(replies, parse).outcome.value))
  {
    var (s1, a) := Admit(s, u1, prompt, now1, replies);
    var v := Execution(replies, parse).outcome.value;
    var s2 := Settled(s1, a.h, u1, Success(v), done);
    assert a.h == GenerateHash(prompt);
    assert Served(s, u1, prompt, now1, replies, parse, done) == (s2, Ready(v));
    assert s2.cache[a.h] == CacheEntry(v, done);
    assert Fresh(s2.cache, a.h, now2);
  }

  /**
   * Coalescing. While the call `u1` started for a prompt is in flight, a
   * request from `u2` for the same prompt joins it: it gets the promise the
   * start recorded, makes no provider call of its own (whatever replies its
   * own provider would give), leaves the in-flight table as it is and charges
   * nothing. Awaiting that promise gives exactly the outcome `u1` gets from
   * its call, which is a value or an `AI_RATE_LIMITED` or `AI_SERVICE_ERROR`
   * failure. When the call ends, its entry goes and only `u1` is charged, and
   * only for a value.
   */
  lemma JoinerSharesTheStartersOutcome(s: State, u1: UserId, u2: UserId, prompt: string, now1: int, now2: int,
                                       replies: Provider, other: Provider, parse: JsonParser, done: int)
    requires Admit(s, u1, prompt, now1, replies).1.Started?
    requires Refreshed(Admit(s, u1, prompt, now1, replies).0.limits, u2, now2).count < UserHourlyLimit
    ensures var first := Admit(s, u1, prompt, now1, replies);
      var second := Served(first.0, u2, prompt, now2, other, parse, done);
      var o := Execution(replies, parse).outcome;
      var last := Settled(second.0, first.1.h, u1, o, done);
      && second.1.Shared? && second.1.h == first.1.h
      && second.0.pending == first.0.pending
      && Resolve(second.1, parse) == Resolve(AnswerOf(o), parse) == o
      && (o.Failure? ==> o.error == RateLimited || o.error == ServiceFailure)
      && last.pending == first.0.pending - {first.1.h}
      && (u2 != u1 ==> last.limits[u2] == second.0.limits[u2] == Refreshed(first.0.limits, u2, now2))
      && last.limits[u1].count == second.0.limits[u1].count + (if o.Success? then 1 else 0)
  {
    var first := Admit(s, u1, prompt, now1, replies);
    var h := first.1.h;
    assert h == GenerateHash(prompt) && h in first.0.pending && first.0.pending[h] == replies && h !in first.0.cache;
    var second := Admit(first.0, u2, prompt, now2, other);
    assert second.1 == Joined(h, replies);
    RunFromFailsWithCallError(AttemptsOf(replies, parse), 1, []);
    SettleReleasesAndChargesOnce(second.0, h, u1, Execution(replies, parse).outcome, done);
  }

  /**
   * The quota is charged when a call ends, not when it starts, so calls started
   * side by side all pass the check: a user at 49 who starts two different
   * prompts before either ends is charged to 51.
   */
  lemma QuotaOvershootUnderConcurrency(s: State, user: UserId, p1: string, p2: string, now: int,
                                       r1: Provider, r2: Provider, v1: JsonValue, v2: JsonValue, done1: int, done2: int)
    requires user in s.limits && s.limits[user].count == UserHourlyLimit - 1 && now <= s.limits[user].resetTime
    requires p1 != p2
    requires GenerateHash(p1) !in s.cache && GenerateHash(p1) !in s.pending
    requires GenerateHash(p2) !in s.cache && GenerateHash(p2) !in s.pending
    ensures var a1 := Admit(s, user, p1, now, r1);
      var a2 := Admit(a1.0, user, p2, now, r2);
      && a1.1.Started? && a2.1.Started?
      && Settled(Settled(a2.0, a1.1.h, user, Success(v1), done1), a2.1.h, user, Success(v2), done2).limits[user].count
         == UserHourlyLimit + 1
  {
  }

  /**
   * Clearing a resume's cache drops its analysis entry and nothing else; in
   * particular no job-description match entry is ever dropped.
   */
  lemma ClearEvictsOnlyTheAnalysis(cache: map<Digest, CacheEntry>, resumeText: string)
    ensures var c := Cleared(cache, resumeText);
      && (resumeText != "" ==> GenerateHash(CreateAnalysisPrompt(resumeText)) !in c)
      && (forall h :: h in cache && h != GenerateHash(CreateAnalysisPrompt(resumeText)) ==> h in c && c[h] == cache[h])
      && (resumeText == "" ==> c == cache)
  {
  }

  lemma ClearKeepsMatchEntries(cache: map<Digest, CacheEntry>, resumeText: string, r: string, j: string)
    requires GenerateHash(CreateJDMatchPrompt(r, j)) in cache
    ensures GenerateHash(CreateJDMatchPrompt(r, j)) in Cleared(cache, resumeText)
  {
    AnalysisAndMatchPromptsDiffer(resumeText, r, j);
  }

  // ---------------------------------------------------------------------------
  // The service object.

  class Service {
    var cache: map<Digest, CacheEntry>
    var pendingRequests: map<Digest, Provider>
    var userRateLimits: map<UserId, RateLimit>

    function Snapshot(): State
      reads this
    {
      State(cache, pendingRequests, userRateLimits)
    }

    constructor ()
      ensures Snapshot() == State(map[], map[], map[])
    {
      cache, pendingRequests, userRateLimits := map[], map[], map[];
    }

    method CheckRateLimits(userId: UserId, now: int) returns (err: Option<ServiceError>)
      modifies this
      ensures userRateLimits == old(userRateLimits)[userId := Refreshed(old(userRateLimits), userId, now)]
      ensures err == QuotaVerdict(userRateLimits[userId], now)
      ensures cache == old(cache) && pendingRequests == old(pendingRequests)
    {
      if userId !in userRateLimits {
        userRateLimits := userRateLimits[userId := RateLimit(0, now + WindowMs)];
      }
      var userLimit := userRateLimits[userId];
      if now > userLimit.resetTime {
        userLimit := RateLimit(0, now + WindowMs);
        userRateLimits := userRateLimits[userId := userLimit];
      }
      if userLimit.count >= UserHourlyLimit {
        var waitTime := CeilDiv(userLimit.resetTime - now, MinuteMs);
        return Some(LimitReached(waitTime));
      }
      return None;
    }

    method IncrementRateLimits(userId: UserId)
      modifies this
      ensures userRateLimits == Incremented(old(userRateLimits), userId)
      ensures cache == old(cache) && pendingRequests == old(pendingRequests)
    {
      if userId in userRateLimits {
        var userLimit := userRateLimits[userId];
        userRateLimits := userRateLimits[userId := userLimit.(count := userLimit.count + 1)];
      }
    }

    /** The synchronous part of `getAnalysisFromAI`, up to the `await`; `replies` is the promise of the call it starts. */
    method Begin(prompt: string, userId: UserId, now: int, replies: Provider) returns (a: Admission)
      modifies this
      ensures (Snapshot(), a) == Admit(old(Snapshot()), userId, prompt, now, replies)
    {
      var err := CheckRateLimits(userId, now);
      if err.Some? {
        return Rejected(err.value);
      }
      var promptHash := GenerateHash(prompt);
      if promptHash in cache {
        var cached := cache[promptHash];
        if now - cached.timestamp < CacheTtl {
          return CacheHit(cached.data);
        }
        cache := cache - {promptHash};
      } else {
        assert cache == cache - {promptHash};
      }
      if promptHash in pendingRequests {
        return Joined(promptHash, pendingRequests[promptHash]);
      }
      pendingRequests := pendingRequests[promptHash := replies];
      return Started(promptHash);
    }

    /** The continuation of the call `starter` started for `promptHash`, and the `finally` block. */
    method Settle(promptHash: Digest, starter: UserId, outcome: Result<JsonValue, ServiceError>, done: int)
      modifies this
      ensures Snapshot() == Settled(old(Snapshot()), promptHash, starter, outcome, done)
    {
      if outcome.Success? {
        cache := cache[promptHash := CacheEntry(outcome.value, done)];
        IncrementRateLimits(starter);
      }
      pendingRequests := pendingRequests - {promptHash};
    }

    method GetAnalysisFromAI(prompt: string, userId: UserId, now: int, replies: Provider, parse: JsonParser, done: int)
      returns (answer: Answer)
      modifies this
      ensures (Snapshot(), answer) == Served(old(Snapshot()), userId, prompt, now, replies, parse, done)
    {
      var a := Begin(prompt, userId, now, replies);
      match a
      case Rejected(e) => answer := Failed(e);
      case CacheHit(d) => answer := Ready(d);
      case Joined(h, call) => answer := Shared(h, call);
      case Started(h) =>
        var outcome, _, _ := ExecuteAICall(replies, parse);
        Settle(h, userId, outcome, done);
        answer := AnswerOf(outcome);
    }

    method PerformSimpleAnalysis(resumeText: string, userId: UserId, now: int, replies: Provider, parse: JsonParser, done: int)
      returns (answer: Answer)
      modifies this
      ensures (Snapshot(), answer) == SimpleAnalysis(old(Snapshot()), resumeText, userId, now, replies, parse, done)
    {
      if TooShort(resumeText, 100) {
        return Failed(InvalidInput(ShortResume));
      }
      var prompt := CreateAnalysisPrompt(resumeText);
      answer := GetAnalysisFromAI(prompt, userId, now, replies, parse, done);
    }

    method PerformJDMatchAnalysis(resumeText: string, jdText: string, userId: UserId, now: int, replies: Provider, parse: JsonParser, done: int)
      returns (answer: Answer)
      modifies this
      ensures (Snapshot(), answer) == MatchAnalysis(old(Snapshot()), resumeText, jdText, userId, now, replies, parse, done)
    {
      if TooShort(resumeText, 100) {
        return Failed(InvalidInput(ShortResumeForMatch));
      }
      if TooShort(jdText, 50) {
        return Failed(InvalidInput(ShortJobDescription));
      }
      var prompt := CreateJDMatchPrompt(resumeText, jdText);
      answer := GetAnalysisFromAI(prompt, userId, now, replies, parse, done);
    }

    method ClearAnalysisCache(resumeText: string)
      modifies this
      ensures cache == Cleared(old(cache), resumeText)
      ensures pendingRequests == old(pendingRequests) && userRateLimits == old(userRateLimits)
    {
      if resumeText == "" {
        return;
      }
      var prompt := CreateAnalysisPrompt(resumeText);
      var promptHash := GenerateHash(prompt);
      if promptHash in cache {
        cache := cache - {promptHash};
      }
    }
  }
}
