/**
 * The login views: the redirect-target sanitiser shared by `login_old` and
 * `login`, and the branch of `login` that logs the user in only after
 * agreement to the latest terms.
 */
module Views {

  /** The light check: an empty target or one containing a space. */
  predicate Garbage(target: string)
  {
    target == "" || ' ' in target
  }

  /** `'//' in redirect_to` */
  predicate ContainsDoubleSlash(s: string)
  {
    exists i :: 0 <= i < |s| - 1 && s[i] == '/' && s[i + 1] == '/'
  }

  /** A `//` occurs before the first `?`: the meaning of the heavier check. */
  ghost predicate DoubleSlashBeforeQuery(s: string)
  {
    exists i :: 0 <= i < |s| - 1 && s[i] == '/' && s[i + 1] == '/' && '?' !in s[..i]
  }

  /** A `//` in the tail is a `//` in the whole. */
  lemma ContainsDoubleSlashOfTail(s: string)
    requires s != []
    ensures ContainsDoubleSlash(s[1..]) ==> ContainsDoubleSlash(s)
  {
    if ContainsDoubleSlash(s[1..]) {
      var j :| 0 <= j < |s[1..]| - 1 && s[1..][j] == '/' && s[1..][j + 1] == '/';
      assert s[j + 1] == '/' && s[j + 2] == '/';
    }
  }

  /**
   * The heavier check's regular expression (any run of non-`?` characters,
   * then `//`, matched from the start), as a left-anchored scan.  A match
   * always contains a `//`, so the `'//' in redirect_to` conjunct in front
   * of it adds nothing.
   */
  function MatchesPrefixPattern(s: string): (r: bool)
    ensures r ==> ContainsDoubleSlash(s)
  {
    if |s| >= 2 && s[0] == '/' && s[1] == '/' then true
    else if |s| == 0 || s[0] == '?' then false
    else
      ContainsDoubleSlashOfTail(s);
      MatchesPrefixPattern(s[1..])
  }

  /** The anchored scan accepts exactly the targets with a `//` before the first `?`. */
  lemma {:induction false} MatchesPrefixPatternMeaning(s: string)
    ensures MatchesPrefixPattern(s) <==> DoubleSlashBeforeQuery(s)
  {
    if |s| >= 2 && s[0] == '/' && s[1] == '/' {
      assert s[..0] == [];
    } else if |s| == 0 {
    } else if s[0] == '?' {
      forall i | 0 < i < |s| - 1
        ensures '?' in s[..i]
      {
        assert s[..i][0] == '?';
      }
    } else {
      var t := s[1..];
      MatchesPrefixPatternMeaning(t);
      if DoubleSlashBeforeQuery(s) {
        var i :| 0 <= i < |s| - 1 && s[i] == '/' && s[i + 1] == '/' && '?' !in s[..i];
        assert i != 0;
        assert s[..i] == [s[0]] + t[..i - 1];
        assert t[i - 1] == '/' && t[i] == '/' && '?' !in t[..i - 1];
      }
      if DoubleSlashBeforeQuery(t) {
        var j :| 0 <= j < |t| - 1 && t[j] == '/' && t[j + 1] == '/' && '?' !in t[..j];
        assert s[..j + 1] == [s[0]] + t[..j];
        assert s[j + 1] == '/' && s[j + 2] == '/';
      }
    }
  }

  /** The target is replaced by the configured default. */
  ghost predicate Rejected(target: string)
  {
    Garbage(target) || DoubleSlashBeforeQuery(target)
  }

  /** The redirect-target rule of `login_old` and `login`. */
  function CleanRedirect(target: string, loginRedirectUrl: string): (r: string)
    ensures r == target || r == loginRedirectUrl
    ensures Rejected(target) ==> r == loginRedirectUrl
    ensures !Rejected(target) ==> r == target
  {
    MatchesPrefixPatternMeaning(target);
    if Garbage(target) then loginRedirectUrl
    else if ContainsDoubleSlash(target) && MatchesPrefixPattern(target) then loginRedirectUrl
    else target
  }

  /** What is ever redirected to is the default or a target that passes both checks. */
  lemma CleanRedirectIsSafe(target: string, loginRedirectUrl: string)
    ensures var r := CleanRedirect(target, loginRedirectUrl);
      r == loginRedirectUrl || (r != "" && ' ' !in r && !DoubleSlashBeforeQuery(r))
  {
  }

  /** An absolute URL such as `http://example.com` is never followed. */
  lemma AbsoluteUrlRejected(scheme: string, rest: string, loginRedirectUrl: string)
    requires '?' !in scheme
    ensures CleanRedirect(scheme + "://" + rest, loginRedirectUrl) == loginRedirectUrl
  {
    var s := scheme + "://" + rest;
    var i := |scheme| + 1;
    assert s[i] == '/' && s[i + 1] == '/';
    assert s[..i] == scheme + ":";
    assert DoubleSlashBeforeQuery(s);
  }

  /** A protocol-relative target such as `//example.com` is never followed. */
  lemma ProtocolRelativeRejected(rest: string, loginRedirectUrl: string)
    ensures CleanRedirect("//" + rest, loginRedirectUrl) == loginRedirectUrl
  {
    var s := "//" + rest;
    assert s[0] == '/' && s[1] == '/' && s[..0] == [];
    assert DoubleSlashBeforeQuery(s);
  }

  /**
   * Sanitising is idempotent: a kept target is kept again, and the default
   * comes back as itself even when it would fail the checks (an absolute
   * `LOGIN_REDIRECT_URL`, say).
   */
  lemma CleanRedirectIdempotent(target: string, loginRedirectUrl: string)
    ensures CleanRedirect(CleanRedirect(target, loginRedirectUrl), loginRedirectUrl)
      == CleanRedirect(target, loginRedirectUrl)
  {
  }

  /** The scan stops at the first `?` when no `//` comes before it. */
  lemma {:induction false} ScanStopsAtQuery(p: string, rest: string)
    requires '?' !in p
    requires forall i :: 0 <= i < |p| - 1 ==> !(p[i] == '/' && p[i + 1] == '/')
    ensures !MatchesPrefixPattern(p + "?" + rest)
  {
    if p != [] {
      assert (p + "?" + rest)[1..] == p[1..] + "?" + rest;
      ScanStopsAtQuery(p[1..], rest);
    }
  }

  /** `/view/?param=http://example.com` splits at its first `?`, before which there is no `//`. */
  lemma QueryUrlParts()
    ensures "/view/?param=http://example.com" == "/view/" + "?" + "param=http://example.com"
    ensures !Garbage("/view/?param=http://example.com")
    ensures '?' !in "/view/"
    ensures forall i :: 0 <= i < |"/view/"| - 1 ==> !("/view/"[i] == '/' && "/view/"[i + 1] == '/')
  {
  }

  /** `/view/?param=http://example.com` is kept: its `//` comes after the `?`. */
  lemma QueryUrlKept(loginRedirectUrl: string)
    ensures CleanRedirect("/view/?param=http://example.com", loginRedirectUrl) == "/view/?param=http://example.com"
  {
    QueryUrlParts();
    ScanStopsAtQuery("/view/", "param=http://example.com");
    MatchesPrefixPatternMeaning("/view/?param=http://example.com");
  }

  /** The response the views hand back. */
  datatype LoginResponse =
    | RedirectTo(url: string)              // HttpResponseRedirect(redirect_to)
    | TosCheckPage(redirectTo: string)     // tos/tos_check.html with the sanitised target
    | LoginPage(redirectTo: string)        // the login form, with the target as given

  /** The response and whether `auth_login` was called. */
  datatype LoginOutcome = LoginOutcome(response: LoginResponse, loggedIn: bool)

  /**
   * `login`: a valid POST is sanitised, then logs in and redirects only when
   * the user has agreed to the latest terms, and otherwise shows the terms.
   */
  function Login(isPost: bool, formValid: bool, agreedLatest: bool, target: string, loginRedirectUrl: string): (o: LoginOutcome)
    ensures o.loggedIn <==> isPost && formValid && agreedLatest
    ensures o.response.RedirectTo? <==> o.loggedIn
    ensures o.response.TosCheckPage? <==> isPost && formValid && !agreedLatest
    ensures o.response.LoginPage? ==> o.response.redirectTo == target
    ensures o.response.RedirectTo? ==> o.response.url == CleanRedirect(target, loginRedirectUrl)
    ensures o.response.TosCheckPage? ==> o.response.redirectTo == CleanRedirect(target, loginRedirectUrl)
  {
    if isPost && formValid then
      var redirectTo := CleanRedirect(target, loginRedirectUrl);
      if agreedLatest then LoginOutcome(RedirectTo(redirectTo), true)
      else LoginOutcome(TosCheckPage(redirectTo), false)
    else LoginOutcome(LoginPage(target), false)
  }

  /** `login_old`: the same sanitiser, with no terms check before logging in. */
  function LoginOld(isPost: bool, formValid: bool, target: string, loginRedirectUrl: string): (o: LoginOutcome)
    ensures o.loggedIn <==> isPost && formValid
    ensures o.response.RedirectTo? <==> o.loggedIn
    ensures !o.response.RedirectTo? ==> o.response == LoginPage(target)
    ensures o.response.RedirectTo? ==> o.response.url == CleanRedirect(target, loginRedirectUrl)
  {
    if isPost && formValid then LoginOutcome(RedirectTo(CleanRedirect(target, loginRedirectUrl)), true)
    else LoginOutcome(LoginPage(target), false)
  }

  /** For a user who has agreed, `login` behaves exactly as `login_old`. */
  lemma AgreedLoginIsOldLogin(isPost: bool, formValid: bool, target: string, loginRedirectUrl: string)
    ensures Login(isPost, formValid, true, target, loginRedirectUrl) == LoginOld(isPost, formValid, target, loginRedirectUrl)
  {
  }

  /** Whether or not the user has agreed, both outcomes carry the same sanitised target. */
  lemma LoginBranchesShareTarget(target: string, loginRedirectUrl: string)
    ensures Login(true, true, true, target, loginRedirectUrl).response.url
      == Login(true, true, false, target, loginRedirectUrl).response.redirectTo
  {
  }
}
