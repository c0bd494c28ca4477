/**
 * The agreement gate run on every request: fast skips, then the versioned
 * cache reads, a fall-back to the agreement table on a miss (written back to
 * the cache), and a redirect to the confirmation page, recorded in the
 * session, when the user has not agreed to the active terms.
 */
module Middleware {
  import opened Wrappers
  import opened Keys
  import opened VersionedCache
  import opened Models
  import SignalHandlers
  import Utils

  type SessionData = map<string, string>

  /** Django's SESSION_KEY and BACKEND_SESSION_KEY. */
  const SessionKey: string := "_auth_user_id"
  const BackendSessionKey: string := "_auth_user_backend"

  /** The keys the confirmation view reads back. */
  const TosUserKey: string := "tos_user"
  const TosBackendKey: string := "tos_backend"

  /** Django's REDIRECT_FIELD_NAME. */
  const RedirectFieldName: string := "next"

  /** The parts of a request the gate reads; `ajax` is `request.is_ajax()`. */
  datatype Request = Request(httpMethod: string, ajax: bool, pathInfo: string)

  /** `request.session` */
  class Session {
    var data: SessionData

    constructor (data: SessionData)
      ensures this.data == data
    {
      this.data := data;
    }
  }

  /**
   * `None`, a redirect (with or without never-cache headers), or the
   * `KeyError` of a session without a backend.
   */
  datatype GateResult = Pass | Redirect(location: string, neverCache: bool) | SessionKeyError(key: string)

  /**
   * One evaluation: its result, the new cache and session, the cache
   * lookups made in order, and whether the agreement table was queried.
   */
  datatype GateStep = GateStep(result: GateResult, entries: Entries, session: SessionData, lookups: seq<CacheKey>, queried: bool)

  /** `request.session.get(SESSION_KEY, None)` is truthy. */
  predicate LoggedIn(session: SessionData)
  {
    SessionKey in session && session[SessionKey] != ""
  }

  /** The four early exits, in the order they are tested. */
  predicate FastSkip(req: Request, session: SessionData, tosCheckUrl: string)
  {
    req.httpMethod != "GET" || req.ajax || req.pathInfo == tosCheckUrl || !LoggedIn(session)
  }

  /** The request gets past the early exits and its session names a backend. */
  predicate Checked(req: Request, session: SessionData, tosCheckUrl: string)
  {
    !FastSkip(req, session, tosCheckUrl) && BackendSessionKey in session
  }

  /** `'{0}?{1}={2}'.format(tos_check_url, REDIRECT_FIELD_NAME, request.path_info)` */
  function RedirectLocation(tosCheckUrl: string, pathInfo: string): string
  {
    tosCheckUrl + "?" + RedirectFieldName + "=" + pathInfo
  }

  /**
   * `UserAgreement.objects.filter(user__id=user_id, terms_of_service__active=True).exists()`,
   * with the session's user id compared against the decimal text of each agreement's user.
   */
  function AgreedToActiveTerms(userId: string, terms: seq<TermsOfService>, agreements: set<UserAgreement>): (r: bool)
    // no agreement, or no active terms, means no user has agreed
    ensures agreements == {} ==> !r
    ensures (forall i :: 0 <= i < |terms| ==> !terms[i].active) ==> !r
    // true only for an agreement by this user to an active record
    ensures r ==> exists t, a ::
      t in ActiveRows(terms) && a in agreements && a.termsOfService == t.id && Decimal(a.user) == userId
    // an agreement to an active record by this user is enough
    ensures forall a, i ::
      (a in agreements && Decimal(a.user) == userId && 0 <= i < |terms| &&
       terms[i].id == a.termsOfService && terms[i].active) ==> r
  {
    exists a :: a in agreements && Decimal(a.user) == userId &&
      exists i :: 0 <= i < |terms| && terms[i].id == a.termsOfService && terms[i].active
  }

  /** `UserAgreementMiddleware.process_request`, as a function of the state it reads. */
  function Gate(req: Request, session: SessionData, e: Entries, terms: seq<TermsOfService>,
                agreements: set<UserAgreement>, tosCheckUrl: string): (s: GateStep)
    requires CounterValid(e)
    ensures CounterValid(s.entries) && Counter(s.entries) == Counter(e)
    // early exits touch neither the cache nor the session
    ensures FastSkip(req, session, tosCheckUrl) ==> s == GateStep(Pass, e, session, [], false)
    ensures !FastSkip(req, session, tosCheckUrl) && BackendSessionKey !in session ==>
      s == GateStep(SessionKeyError(BackendSessionKey), e, session, [], false)
    // a truthy skip entry at the current version passes with no further read or write
    ensures Checked(req, session, tosCheckUrl) && FoundTruthy(e, CurrentVersion(e), SkipKey(session[SessionKey])) ==>
      s == GateStep(Pass, e, session, [CounterSlot, (CurrentVersion(e), SkipKey(session[SessionKey]))], false)
    ensures Checked(req, session, tosCheckUrl) && !FoundTruthy(e, CurrentVersion(e), SkipKey(session[SessionKey])) ==>
      var uid := session[SessionKey];
      var v := CurrentVersion(e);
      && s.lookups == [CounterSlot, (v, SkipKey(uid)), (v, AgreedKey(uid))]
      // the outcome is a pass or a redirect, never an error
      && !s.result.SessionKeyError?
      // a hit alone decides; a miss consults the table and writes the answer back
      && (Lookup(e, v, AgreedKey(uid)).Some? ==>
            !s.queried && s.entries == e && (s.result == Pass <==> Truthy(e[(v, AgreedKey(uid))])))
      && (Lookup(e, v, AgreedKey(uid)).None? ==>
            && s.queried
            && s.entries == e[(v, AgreedKey(uid)) := Bool(AgreedToActiveTerms(uid, terms, agreements))]
            && (s.result == Pass <==> AgreedToActiveTerms(uid, terms, agreements)))
    // every derived key is read at the current key_version
    ensures forall i :: 0 < i < |s.lookups| ==> s.lookups[i].0 == CurrentVersion(e)
    ensures s.result.Redirect? ==> s.result.location == RedirectLocation(tosCheckUrl, req.pathInfo)
    // the redirect is marked never-cache
    ensures s.result.Redirect? ==> s.result.neverCache
    // only a redirect records the pending user and backend
    ensures s.result.Redirect? ==>
      Checked(req, session, tosCheckUrl) &&
      s.session == session[TosUserKey := session[SessionKey]][TosBackendKey := session[BackendSessionKey]]
    ensures !s.result.Redirect? ==> s.session == session
  {
    if FastSkip(req, session, tosCheckUrl) then GateStep(Pass, e, session, [], false)
    else if BackendSessionKey !in session then GateStep(SessionKeyError(BackendSessionKey), e, session, [], false)
    else
      var uid := session[SessionKey];
      var backend := session[BackendSessionKey];
      var v := CurrentVersion(e);
      KeyFamiliesDisjoint(uid, uid);
      if FoundTruthy(e, v, SkipKey(uid)) then GateStep(Pass, e, session, [CounterSlot, (v, SkipKey(uid))], false)
      else
        var lookups := [CounterSlot, (v, SkipKey(uid)), (v, AgreedKey(uid))];
        var cached := Lookup(e, v, AgreedKey(uid));
        var agreed := if cached.Some? then Truthy(cached.value) else AgreedToActiveTerms(uid, terms, agreements);
        var entries := if cached.Some? then e else e[(v, AgreedKey(uid)) := Bool(agreed)];
        if agreed then GateStep(Pass, entries, session, lookups, cached.None?)
        else
          GateStep(Redirect(RedirectLocation(tosCheckUrl, req.pathInfo), true), entries,
                   session[TosUserKey := uid][TosBackendKey := backend], lookups, cached.None?)
  }

  method ProcessRequest(req: Request, session: Session, cache: Cache, terms: seq<TermsOfService>,
                        agreements: set<UserAgreement>, tosCheckUrl: string) returns (r: GateResult)
    requires cache.Valid()
    modifies cache, session
    ensures cache.Valid()
    ensures var s := Gate(req, old(session.data), old(cache.entries), terms, agreements, tosCheckUrl);
      r == s.result && cache.entries == s.entries && session.data == s.session
  {
    // only GET requests are gated
    if req.httpMethod != "GET" {
      return Pass;
    }
    if req.ajax {
      return Pass;
    }
    // the confirmation page is never gated
    if req.pathInfo == tosCheckUrl {
      return Pass;
    }
    // nobody is logged in
    if !LoggedIn(session.data) {
      return Pass;
    }
    var userId := session.data[SessionKey];
    if BackendSessionKey !in session.data {
      return SessionKeyError(BackendSessionKey);
    }
    var userAuthBackend := session.data[BackendSessionKey];
    KeyFamiliesDisjoint(userId, userId);

    var current := cache.Get(KeyVersionKey, None);
    var keyVersion := Utils.KeyVersion(current);
    assert Resolve(keyVersion) == CurrentVersion(cache.entries);

    var skip := cache.Get(SkipKey(userId), keyVersion);
    if skip.Some? && Truthy(skip.value) {
      return Pass;
    }

    var cached := cache.Get(AgreedKey(userId), keyVersion);
    var userAgreed: bool;
    if cached.None? {
      userAgreed := AgreedToActiveTerms(userId, terms, agreements);
      cache.Set(AgreedKey(userId), Bool(userAgreed), keyVersion);
    } else {
      userAgreed := Truthy(cached.value);
    }

    if !userAgreed {
      session.data := session.data[TosUserKey := userId];
      session.data := session.data[TosBackendKey := userAuthBackend];
      return Redirect(RedirectLocation(tosCheckUrl, req.pathInfo), true);
    }
    return Pass;
  }

  /** The gate's only write is at the current version, so it keeps the generation invariant. */
  lemma GateKeepsGeneration(req: Request, session: SessionData, e: Entries, terms: seq<TermsOfService>,
                            agreements: set<UserAgreement>, tosCheckUrl: string)
    requires CounterValid(e) && NoDerivedAboveCurrent(e)
    ensures NoDerivedAboveCurrent(Gate(req, session, e, terms, agreements, tosCheckUrl).entries)
  {
  }

  /**
   * The gate writes only the requesting user's verdict: every other user's
   * verdict and every skip entry are as they were, at every version.
   */
  lemma GateWritesOnlyOwnVerdict(req: Request, session: SessionData, e: Entries, terms: seq<TermsOfService>,
                                 agreements: set<UserAgreement>, tosCheckUrl: string, other: string)
    requires CounterValid(e)
    requires LoggedIn(session) ==> other != session[SessionKey]
    ensures var s := Gate(req, session, e, terms, agreements, tosCheckUrl);
      && (forall v :: Lookup(s.entries, v, AgreedKey(other)) == Lookup(e, v, AgreedKey(other)))
      && (forall v :: Lookup(s.entries, v, SkipKey(other)) == Lookup(e, v, SkipKey(other)))
  {
    if LoggedIn(session) {
      AgreedKeyInjective(other, session[SessionKey]);
      KeyFamiliesDisjoint(other, session[SessionKey]);
    }
  }

  /**
   * After a bump, a checked request finds neither a skip entry nor a cached
   * verdict: it consults the agreement table, and the table alone decides.
   */
  lemma BumpForcesTableLookup(req: Request, session: SessionData, e: Entries, terms: seq<TermsOfService>,
                              agreements: set<UserAgreement>, tosCheckUrl: string)
    requires CounterValid(e) && Counter(e).Some? && NoDerivedAboveCurrent(e)
    requires Checked(req, session, tosCheckUrl)
    ensures var s := Gate(req, session, SignalHandlers.Bumped(e), terms, agreements, tosCheckUrl);
      && s.queried
      && (s.result == Pass <==> AgreedToActiveTerms(session[SessionKey], terms, agreements))
  {
    var uid := session[SessionKey];
    KeyFamiliesDisjoint(uid, uid);
    SignalHandlers.BumpHidesDerivedEntries(e);
  }

  /**
   * Publishing new terms: once an active record the user never agreed to is
   * saved and the counter bumped, the user is redirected again, whatever the
   * cache said about earlier terms.
   */
  lemma NewTermsForceReacceptance(req: Request, session: SessionData, e: Entries, terms: seq<TermsOfService>,
                                  agreements: set<UserAgreement>, tosCheckUrl: string, published: TermsOfService)
    requires CounterValid(e) && Counter(e).Some? && NoDerivedAboveCurrent(e)
    requires Checked(req, session, tosCheckUrl)
    requires published.active
    requires forall a :: a in agreements && Decimal(a.user) == session[SessionKey] ==> a.termsOfService != published.id
    ensures Gate(req, session, SignalHandlers.Bumped(e), Saved(terms, published), agreements, tosCheckUrl).result
      == Redirect(RedirectLocation(tosCheckUrl, req.pathInfo), true)
  {
    var uid := session[SessionKey];
    var saved := Saved(terms, published);
    BumpForcesTableLookup(req, session, e, saved, agreements, tosCheckUrl);
    assert !AgreedToActiveTerms(uid, saved, agreements) by {
      forall a, i | a in agreements && Decimal(a.user) == uid && 0 <= i < |saved| && saved[i].id == a.termsOfService
        ensures !saved[i].active
      {
      }
    }
  }

  /** A staff or superuser indexed in bulk passes without a verdict lookup or a table query. */
  lemma StaffIndexBypassesCheck(req: Request, session: SessionData, e: Entries, terms: seq<TermsOfService>,
                                agreements: set<UserAgreement>, tosCheckUrl: string, users: seq<User>, u: User)
    requires CounterValid(e)
    requires Checked(req, session, tosCheckUrl) && session[SessionKey] == Decimal(u.id)
    requires u in users && Utils.IsStaffOrSuperuser(u)
    ensures var s := Gate(req, session, Utils.StaffIndexed(e, users, false), terms, agreements, tosCheckUrl);
      s.result == Pass && !s.queried && |s.lookups| == 2
  {
    Utils.StaffIndexedExactly(e, users, u.id);
  }

  /**
   * With the corrected sync, demoting a user removes the bypass: the next
   * checked request goes on to the agreement check.
   */
  lemma DemotionRemovesBypass(req: Request, session: SessionData, e: Entries, terms: seq<TermsOfService>,
                              agreements: set<UserAgreement>, tosCheckUrl: string, u: User)
    requires CounterValid(e)
    requires Checked(req, session, tosCheckUrl) && session[SessionKey] == Decimal(u.id)
    requires !Utils.IsStaffOrSuperuser(u)
    ensures |Gate(req, session, Utils.Synced(e, u, false), terms, agreements, tosCheckUrl).lookups| == 3
  {
  }

  /**
   * With the sync as written, a demoted user at key_version 2 still skips the
   * check: the request passes with no verdict lookup, although the user is
   * neither staff nor superuser and has agreed to nothing.
   */
  lemma DemotedStaffKeepsBypass()
    ensures var e := map[CounterSlot := Int(2), (2, SkipKey(Decimal(7))) := Bool(true)];
      var u := User(7, false, false);
      var session := map[SessionKey := Decimal(7), BackendSessionKey := "django.contrib.auth.backends.ModelBackend"];
      var s := Gate(Request("GET", false, "/"), session, Utils.SyncedAsWritten(e, u, false), [], {}, "/tos/");
      && !Utils.IsStaffOrSuperuser(u)
      && s.result == Pass && |s.lookups| == 2
  {
    Utils.DemotedUserKeepsSkipEntry();
    var e := map[CounterSlot := Int(2), (2, SkipKey(Decimal(7))) := Bool(true)];
    var session := map[SessionKey := Decimal(7), BackendSessionKey := "django.contrib.auth.backends.ModelBackend"];
    assert Decimal(7) == "7";
    assert Checked(Request("GET", false, "/"), session, "/tos/");
  }
}
