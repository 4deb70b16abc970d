/** The access gate in front of the application: the route matcher that
    decides which request paths the middleware runs on, and the handler
    that sends requests without a session to the sign-in page. */
module Middleware {
  import opened Js

  const SignInPath := "/auth/signin"

  /** The parts of a request the gate reads: the URL's origin and pathname,
      and whether the identity library attached a (truthy) session. */
  datatype Request = Request(origin: string, pathname: string, authenticated: bool)

  /** An absolute URL: an origin and a path resolved against it. */
  datatype Url = Url(origin: string, path: string)

  /** `Continue` is the handler returning nothing (or the middleware not
      running at all): the request proceeds to its route. */
  datatype Response = Continue | Redirect(location: Url, status: int)

  /** One position of a regular-expression alternative: a literal character,
      or `.`. Without the `u` flag `.` matches one UTF-16 code unit that is
      not a line terminator, so at a character outside the Basic Multilingual
      Plane it consumes only the first half of a surrogate pair. */
  datatype Atom = Lit(c: char) | AnyChar

  /** A pattern that matches exactly the characters of `w`. */
  function Literal(w: string): (pat: seq<Atom>)
    ensures |pat| == |w|
    ensures forall i :: 0 <= i < |w| ==> pat[i] == Lit(w[i])
  {
    seq(|w|, i requires 0 <= i < |w| => Lit(w[i]))
  }

  predicate AtomMatches(a: Atom, c: char)
  {
    match a
    case Lit(x) => c == x
    case AnyChar => !IsLineTerminator(c) && IsOneCodeUnit(c)
  }

  /** The pattern matches at the start of `s` (what a lookahead tests). */
  predicate PatternAt(pat: seq<Atom>, s: string)
  {
    |pat| <= |s| && forall i :: 0 <= i < |pat| ==> AtomMatches(pat[i], s[i])
  }

  /** The literal alternatives of the matcher's negative lookahead
      `(?!api|_next/static|_next/image|favicon.ico|auth/signin|$)`; the dot
      in "favicon.ico" is unescaped and so matches any one code unit that is
      not a line terminator. */
  const ExcludedPatterns: seq<seq<Atom>> := [
    Literal("api"),
    Literal("_next/static"),
    Literal("_next/image"),
    Literal("favicon") + [AnyChar] + Literal("ico"),
    Literal("auth/signin")
  ]

  /** The negative lookahead fails on the text after the leading slash:
      one of the alternatives matches there, or the text is empty (`$`). */
  predicate LookaheadRejects(rest: string)
  {
    rest == "" || exists k :: 0 <= k < |ExcludedPatterns| && PatternAt(ExcludedPatterns[k], rest)
  }

  /** The whole pathname matches `/((?!…).*)` anchored at both ends: a
      slash, a lookahead that does not reject, then `.*` over the rest. */
  predicate Matches(pathname: string)
    ensures Matches(pathname) ==> |pathname| >= 2 && pathname[0] == '/'
  {
    && |pathname| >= 1
    && pathname[0] == '/'
    && !LookaheadRejects(pathname[1..])
    && forall i :: 1 <= i < |pathname| ==> !IsLineTerminator(pathname[i])
  }

  /** A literal pattern matches at the start of `s` iff `s` starts with it. */
  lemma LiteralAt(w: string, s: string)
    ensures PatternAt(Literal(w), s) <==> StartsWith(s, w)
  {
  }

  /** "favicon", one code unit that is not a line terminator, then "ico". */
  predicate FaviconLike(rest: string)
  {
    && |rest| >= 11
    && StartsWith(rest, "favicon")
    && !IsLineTerminator(rest[7])
    && IsOneCodeUnit(rest[7])
    && rest[8..11] == "ico"
  }

  lemma FaviconAt(rest: string)
    ensures PatternAt(ExcludedPatterns[3], rest) <==> FaviconLike(rest)
  {
  }

  /** The text holds a character that `.` does not match. */
  predicate HasLineTerminator(rest: string)
  {
    exists i :: 0 <= i < |rest| && IsLineTerminator(rest[i])
  }

  /** The lookahead's alternatives stated as plain prefixes of the text. */
  predicate ExcludedText(rest: string)
  {
    || rest == ""
    || StartsWith(rest, "api")
    || StartsWith(rest, "_next/static")
    || StartsWith(rest, "_next/image")
    || FaviconLike(rest)
    || StartsWith(rest, "auth/signin")
  }

  lemma LookaheadRejectsExcludedText(rest: string)
    ensures LookaheadRejects(rest) <==> ExcludedText(rest)
  {
    LiteralAt("api", rest);
    LiteralAt("_next/static", rest);
    LiteralAt("_next/image", rest);
    FaviconAt(rest);
    LiteralAt("auth/signin", rest);
    if exists k :: 0 <= k < |ExcludedPatterns| && PatternAt(ExcludedPatterns[k], rest) {
      var k :| 0 <= k < |ExcludedPatterns| && PatternAt(ExcludedPatterns[k], rest);
      assert k == 0 || k == 1 || k == 2 || k == 3 || k == 4;
    }
    if ExcludedText(rest) && rest != "" {
      if StartsWith(rest, "api") {
        assert PatternAt(ExcludedPatterns[0], rest);
      } else if StartsWith(rest, "_next/static") {
        assert PatternAt(ExcludedPatterns[1], rest);
      } else if StartsWith(rest, "_next/image") {
        assert PatternAt(ExcludedPatterns[2], rest);
      } else if FaviconLike(rest) {
        assert PatternAt(ExcludedPatterns[3], rest);
      } else {
        assert PatternAt(ExcludedPatterns[4], rest);
      }
    }
  }

  lemma MatchesSplit(rest: string)
    ensures Matches("/" + rest) <==> !LookaheadRejects(rest) && !HasLineTerminator(rest)
  {
  }

  /** The path words the matcher leaves out, stated as plain prefixes: the
      pathname is not matched iff the text after its slash is empty, begins
      with one of the excluded words (the dot of "favicon.ico" standing for
      one code unit that is not a line terminator) or holds a line
      terminator. */
  lemma MatcherExcludes(rest: string)
    ensures !Matches("/" + rest) <==> ExcludedText(rest) || HasLineTerminator(rest)
  {
    MatchesSplit(rest);
    LookaheadRejectsExcludedText(rest);
  }

  /** Exclusion works on text, not on path segments: once a non-root
      pathname is excluded, every longer pathname that extends it is
      excluded too ("/api" excludes "/apiary"). */
  lemma ExclusionExtends(rest: string, more: string)
    requires rest != "" && !Matches("/" + rest)
    ensures !Matches("/" + rest + more)
  {
    MatcherExcludes(rest);
    MatcherExcludes(rest + more);
    assert "/" + rest + more == "/" + (rest + more);
    if StartsWith(rest, "api") { StartsWithExtends(rest, "api", more); }
    if StartsWith(rest, "_next/static") { StartsWithExtends(rest, "_next/static", more); }
    if StartsWith(rest, "_next/image") { StartsWithExtends(rest, "_next/image", more); }
    if StartsWith(rest, "auth/signin") { StartsWithExtends(rest, "auth/signin", more); }
    if FaviconLike(rest) {
      StartsWithExtends(rest, "favicon", more);
      assert (rest + more)[8..11] == rest[8..11];
    }
    if HasLineTerminator(rest) {
      var i :| 0 <= i < |rest| && IsLineTerminator(rest[i]);
      assert IsLineTerminator((rest + more)[i]);
    }
  }

  /** The sign-in page itself is never matched, so the middleware never runs
      on it. */
  lemma SignInNotMatched(pathname: string)
    requires Matches(pathname)
    ensures pathname != SignInPath
  {
    if pathname == SignInPath {
      assert pathname == "/" + "auth/signin";
      MatcherExcludes("auth/signin");
      StartsWithConcat("auth/signin", "");
    }
  }

  /** The handler: a request without a session for any page other than the
      sign-in page is answered with a 302 redirect to the sign-in page on the
      request's own origin; every other request proceeds. */
  function Handle(req: Request): (r: Response)
    ensures r.Redirect? <==> !req.authenticated && req.pathname != SignInPath
    ensures r.Redirect? ==> r.location == Url(req.origin, SignInPath) && r.status == 302
  {
    if !req.authenticated && req.pathname != SignInPath then
      Redirect(Url(req.origin, SignInPath), 302)
    else
      Continue
  }

  /** The gate as deployed: the handler runs only on matched pathnames. A
      request is redirected iff it has no session and the matcher selects
      its pathname; an authenticated request always proceeds. */
  function Gate(req: Request): (r: Response)
    ensures r.Redirect? <==> !req.authenticated && Matches(req.pathname)
    ensures r.Redirect? ==> r.location == Url(req.origin, SignInPath) && r.status == 302
    ensures req.authenticated ==> r == Continue
  {
    if Matches(req.pathname) then
      SignInNotMatched(req.pathname);
      Handle(req)
    else
      Continue
  }

  /** Following a redirect never leads to another redirect, with or without
      a session, whether or not the matcher is consulted. */
  lemma NoRedirectLoop(req: Request, authenticated: bool)
    requires Gate(req).Redirect?
    ensures var target := Request(Gate(req).location.origin, Gate(req).location.path, authenticated);
      Gate(target) == Continue && Handle(target) == Continue
  {
  }

  /** The root page is not matched (the `$` alternative). */
  lemma RootNotMatched()
    ensures !Matches("/")
  {
  }

  /** Every pathname whose text after the slash begins with "api",
      "_next/static", "_next/image" or "auth/signin" is left alone, such as
      "/api/auth/session", "/apiary" and "/auth/signin". */
  lemma ExcludedWord(word: string, more: string)
    requires word == "api" || word == "_next/static" || word == "_next/image" || word == "auth/signin"
    ensures !Matches("/" + (word + more))
  {
    MatcherExcludes(word + more);
    StartsWithConcat(word, more);
  }

  /** "/favicon.ico" is left alone, and so is "/favicon" followed by any
      other single code unit that is not a line terminator and then "ico". */
  lemma FaviconExcluded(c: char)
    requires !IsLineTerminator(c) && IsOneCodeUnit(c)
    ensures !Matches("/" + ("favicon" + [c] + "ico"))
  {
    var rest := "favicon" + [c] + "ico";
    assert rest[..7] == "favicon" && rest[7] == c && rest[8..11] == "ico";
    MatcherExcludes(rest);
  }

  /** The dashboard and every route below it are gated. */
  lemma DashboardMatched(more: string)
    requires !HasLineTerminator(more)
    ensures Matches("/" + ("dashboard" + more))
  {
    var rest := "dashboard" + more;
    assert rest[0] == 'd';
    MatcherExcludes(rest);
  }

  /** A character outside the Basic Multilingual Plane between "favicon"
      and "ico" is two code units, which `.` cannot both consume, so such a
      pathname is gated. */
  lemma FaviconAstralMatched(c: char)
    requires !IsOneCodeUnit(c)
    ensures Matches("/" + ("favicon" + [c] + "ico"))
  {
    var rest := "favicon" + [c] + "ico";
    assert rest[..3] != "api" by { assert rest[..3][0] == 'f'; }
    assert rest[..11] != "_next/static" && rest[..11] != "_next/image" && rest[..11] != "auth/signin"
      by { assert rest[..11][0] == 'f'; }
    MatcherExcludes(rest);
  }
}
