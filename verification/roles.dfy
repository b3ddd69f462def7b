/** Roles and routing: how `ProtectedRoute` in the app shell resolves a
    role and decides between showing a dashboard and redirecting, the route
    table (matched as React Router matches: ignoring letter case and
    trailing slashes), and how the landing page resolves a role at sign-in and sign-up,
    writes the new user record and words authentication errors.

    The `users` query is the parameter `lookup`: it threw, found no
    document, or found one whose `role` field is given as a string (""
    when missing; a non-string role is not modelled). Authentication and
    the record write are the parameter `authError`: None when they
    succeed, else the error code thrown. */
module Roles {
  import opened Common

  const DriverDomain: string := "@driver.com"
  const AgencyDomain: string := "@agency.com"

  /** The role an email address suggests: driver before agency, else user. */
  function EmailRole(email: string): (role: string)
    ensures role == "driver" <==> Contains(email, DriverDomain)
    ensures role == "agency" <==> !Contains(email, DriverDomain) && Contains(email, AgencyDomain)
    ensures role in {"user", "driver", "agency"}
  {
    if Contains(email, DriverDomain) then "driver"
    else if Contains(email, AgencyDomain) then "agency"
    else "user"
  }

  predicate HasIndicator(email: string) {
    Contains(email, DriverDomain) || Contains(email, AgencyDomain)
  }

  datatype Lookup = Threw(code: string) | NoDoc | Doc(role: string)

  /** The stored role is used only when it is truthy (non-empty). */
  predicate StoredRole(lookup: Lookup) {
    lookup.Doc? && lookup.role != ""
  }

  // ---------------------------------------------------------------------
  // ProtectedRoute
  // ---------------------------------------------------------------------

  /** The role `ProtectedRoute` resolves: a stored role overrides the role
      the email suggests; a user without an email is a user. */
  function GuardRole(email: Option<string>, lookup: Lookup): (role: string)
    requires !lookup.Threw?
    ensures StoredRole(lookup) ==> role == lookup.role
    ensures !StoredRole(lookup) ==> role == (if email.Some? then EmailRole(email.value) else "user")
  {
    if StoredRole(lookup) then lookup.role
    else match email
      case Some(e) => EmailRole(e)
      case None => "user"
  }

  function DashboardPath(role: string): string {
    "/" + role + "-dashboard"
  }

  datatype Decision = Grant | Redirect(path: string)

  /** The signed-in Firebase user, by email. */
  datatype AuthUser = AuthUser(email: Option<string>)

  /** `checkUserRole`: no user or a failing lookup sends the visitor to the
      landing page; otherwise the page is shown exactly when the resolved
      role is allowed, and the visitor is sent to that role's dashboard
      when it is not. */
  function Guard(user: Option<AuthUser>, lookup: Lookup, allowed: seq<string>): (d: Decision)
    ensures user.None? || lookup.Threw? ==> d == Redirect("/")
    ensures user.Some? && !lookup.Threw? ==>
      (d == Grant <==> GuardRole(user.value.email, lookup) in allowed)
      && (d != Grant ==> d == Redirect(DashboardPath(GuardRole(user.value.email, lookup))))
  {
    if user.None? || lookup.Threw? then Redirect("/")
    else
      var role := GuardRole(user.value.email, lookup);
      if role in allowed then Grant else Redirect(DashboardPath(role))
  }

  // ---------------------------------------------------------------------
  // Navigation and the route table
  // ---------------------------------------------------------------------

  /** Cuts `s` at the first `c`: the longest prefix without a `c`. */
  function CutAt(s: string, c: char): (r: string)
    ensures |r| <= |s| && r == s[..|r|] && c !in r
    ensures |r| < |s| ==> s[|r|] == c
    ensures c !in s ==> r == s
  {
    if |s| == 0 || s[0] == c then "" else [s[0]] + CutAt(s[1..], c)
  }

  /** The pathname `navigate` takes from its string: React Router's
      `parsePath` splits the hash off at the first `#`, then the query at
      the first `?` of what remains. So the pathname is the longest
      prefix holding neither. */
  function PathOf(to: string): (r: string)
    ensures |r| <= |to| && r == to[..|r|] && '#' !in r && '?' !in r
    ensures |r| < |to| ==> to[|r|] == '#' || to[|r|] == '?'
  {
    var h := CutAt(to, '#');
    var r := CutAt(h, '?');
    assert r == h[..|r|] == to[..|r|];
    r
  }

  /** A target made of a plain prefix, a `#` and anything else has that
      prefix as its pathname. */
  lemma PathOfCutsAtHash(a: string, b: string)
    requires '#' !in a && '?' !in a
    ensures PathOf(a + "#" + b) == a
  {
    var s, r := a + "#" + b, PathOf(a + "#" + b);
    assert s[|a|] == '#';
    assert s[..|a|] == a;
  }

  /** What each path of the router renders. */
  datatype Page = LandingPage | Protected(allowed: seq<string>) | ToLanding

  /** Drops the slashes at the end of a path, keeping a lone "/". */
  function TrimTrailingSlashes(s: string): (r: string)
    ensures |r| <= |s| && r == s[..|r|]
    ensures forall i :: |r| <= i < |s| ==> s[i] == '/'
    ensures |s| > 0 ==> |r| > 0
    ensures |r| > 1 ==> r[|r| - 1] != '/'
    decreases |s|
  {
    if |s| > 1 && s[|s| - 1] == '/' then TrimTrailingSlashes(s[..|s| - 1]) else s
  }

  /** The form in which a `<Route path>` compares a location: matching
      ignores letter case (`caseSensitive` is off by default) and
      trailing slashes. */
  function MatchKey(path: string): string {
    TrimTrailingSlashes(Lower(path))
  }

  /** The route table of `App`. */
  function RouteFor(path: string): Page {
    RouteForKey(MatchKey(path))
  }

  /** The table itself, on the matching form of a location. */
  function RouteForKey(key: string): Page {
    if key == "/" then LandingPage
    else if key == "/user-dashboard" then Protected(["user"])
    else if key == "/driver-dashboard" then Protected(["driver"])
    else if key == "/agency-dashboard" then Protected(["agency"])
    else ToLanding
  }

  predicate KnownRole(role: string) {
    role in {"user", "driver", "agency"}
  }

  const TablePaths: set<string> := {"/", "/user-dashboard", "/driver-dashboard", "/agency-dashboard"}

  /** Characters that change where a pushed URL leads: `navigate` cuts
      the target at a hash (`#`) or a query (`?`); the browser's URL
      parser drops tabs and line breaks, reads `\` as a path separator and
      then removes `.` and `..` segments, and percent escapes (`%`) are
      decoded. */
  predicate Rewritten(c: char) {
    c in {'#', '?', '/', '\\', '\t', '\n', '\r', '%'}
  }

  /** A role whose dashboard path `navigate` passes on unchanged and the
      browser does not rewrite. */
  predicate PlainRole(role: string) {
    forall i :: 0 <= i < |role| ==> !Rewritten(role[i])
  }

  /** The page `navigate(to)` ends on. */
  function Locate(to: string): Page {
    RouteFor(PathOf(to))
  }

  /** Each dashboard admits one role: navigating to the dashboard path of
      a plain role reaches the dashboard that admits the lower-cased role
      when that is a known role, and the landing page otherwise; a
      pathname reaches the landing page exactly when its matching form is
      not in the table, and every protected page admits one known role. */
  lemma RouteTable(role: string, path: string)
    ensures PlainRole(role) && KnownRole(Lower(role)) ==> Locate(DashboardPath(role)) == Protected([Lower(role)])
    ensures PlainRole(role) && !KnownRole(Lower(role)) ==> Locate(DashboardPath(role)) == ToLanding
    ensures RouteFor(path) == ToLanding <==> MatchKey(path) !in TablePaths
    ensures RouteFor(path).Protected? ==> |RouteFor(path).allowed| == 1 && KnownRole(RouteFor(path).allowed[0])
  {
    DashboardKey(role);
    DashboardRoute(Lower(role));
    if PlainRole(role) {
      PlainDashboardPath(role);
    }
    ProtectedAdmitsOneKnownRole(MatchKey(path));
  }

  /** `navigate` keeps the dashboard path of a plain role whole. */
  lemma PlainDashboardPath(role: string)
    requires PlainRole(role)
    ensures PathOf(DashboardPath(role)) == DashboardPath(role)
  {
    var p := DashboardPath(role);
    forall i | 0 <= i < |p| ensures p[i] != '#' && p[i] != '?' {
      if 1 <= i < 1 + |role| {
        assert p[i] == role[i - 1];
      }
    }
  }

  lemma ProtectedAdmitsOneKnownRole(key: string)
    ensures RouteForKey(key).Protected? ==> |RouteForKey(key).allowed| == 1 && KnownRole(RouteForKey(key).allowed[0])
  {
  }

  /** The table on a dashboard path: the dashboard of a known role admits
      that role, any other dashboard path is not in the table. */
  lemma DashboardRoute(role: string)
    ensures KnownRole(role) ==> RouteForKey(DashboardPath(role)) == Protected([role])
    ensures !KnownRole(role) ==> RouteForKey(DashboardPath(role)) == ToLanding
  {
    if !KnownRole(role) {
      DashboardPathOfUnknown(role);
    } else {
      assert DashboardPath("user") == "/user-dashboard";
      assert DashboardPath("driver") == "/driver-dashboard";
      assert DashboardPath("agency") == "/agency-dashboard";
    }
  }

  /** The matching form of a dashboard path is the dashboard path of the
      lower-cased role. */
  lemma DashboardKey(role: string)
    ensures MatchKey(DashboardPath(role)) == DashboardPath(Lower(role))
  {
    LowerDashboardPath(role);
    var p := DashboardPath(Lower(role));
    assert p[|p| - 1] == 'd';
    TrimWithoutTrailingSlash(p);
  }

  /** Lower-casing a dashboard path lower-cases the role in it. */
  lemma LowerDashboardPath(role: string)
    ensures Lower(DashboardPath(role)) == DashboardPath(Lower(role))
  {
    LowerAppend("/", role);
    LowerAppend("/" + role, "-dashboard");
    LowerKeepsLowerCase("/");
    LowerKeepsLowerCase("-dashboard");
  }

  /** A path that does not end in a slash is its own trimmed form. */
  lemma TrimWithoutTrailingSlash(s: string)
    requires |s| > 0 && s[|s| - 1] != '/'
    ensures TrimTrailingSlashes(s) == s
  {
  }

  lemma DashboardPathOfUnknown(role: string)
    requires !KnownRole(role)
    ensures DashboardPath(role) !in TablePaths
  {
    var p := DashboardPath(role);
    assert p[1..|p| - 10] == role;
    assert "/user-dashboard"[1..5] == "user";
    assert "/driver-dashboard"[1..7] == "driver";
    assert "/agency-dashboard"[1..7] == "agency";
  }

  /** A location routes as its lower-cased form does, and a slash added
      at its end changes nothing. */
  lemma RouterIgnoresCaseAndSlash(path: string)
    ensures RouteFor(Lower(path)) == RouteFor(path)
    ensures |path| > 0 ==> RouteFor(path + "/") == RouteFor(path)
  {
    LowerIdempotent(path);
    if |path| > 0 {
      LowerAppend(path, "/");
      LowerKeepsLowerCase("/");
      TrimSlashAppended(Lower(path));
    }
  }

  /** A slash added at the end of a non-empty path is trimmed again. */
  lemma TrimSlashAppended(s: string)
    requires |s| > 0
    ensures TrimTrailingSlashes(s + "/") == TrimTrailingSlashes(s)
  {
    var t := s + "/";
    assert t[..|t| - 1] == s;
  }

  /** The known roles are written in lower case. */
  lemma KnownRoleIsLower(role: string)
    requires KnownRole(role)
    ensures Lower(role) == role
  {
  }

  /** A role that is known up to letter case is plain: lower-casing
      keeps `#`, `?` and `/`, and no known role holds them. */
  lemma CaseKnownRoleIsPlain(role: string)
    requires KnownRole(Lower(role))
    ensures PlainRole(role)
  {
    var l := Lower(role);
    assert PlainRole(l);
    forall i | 0 <= i < |role| ensures !Rewritten(role[i]) {
      assert l[i] == LowerChar(role[i]);
    }
  }

  /** Where a redirect ends. For a known role it lands on a page that
      admits the visitor, so the second check grants access. Any other
      role is never admitted: on whichever dashboard it lands, that
      guard redirects to the very target it came from, and the
      protected route renders nothing. A role known only up to letter
      case ("Driver") lands on the dashboard of that role; any other
      plain role lands on the landing page. */
  lemma RedirectSettles(user: AuthUser, lookup: Lookup, allowed: seq<string>)
    requires !lookup.Threw?
    requires Guard(Some(user), lookup, allowed).Redirect?
    ensures var role := GuardRole(user.email, lookup);
      var target := Guard(Some(user), lookup, allowed).path;
      var page := Locate(target);
      (KnownRole(role) ==> page.Protected? && Guard(Some(user), lookup, page.allowed) == Grant)
      && (!KnownRole(role) && page.Protected? ==> Guard(Some(user), lookup, page.allowed) == Redirect(target))
      && (KnownRole(Lower(role)) && !KnownRole(role) ==> page == Protected([Lower(role)]))
      && (PlainRole(role) && !KnownRole(Lower(role)) ==> page == ToLanding)
  {
    var role := GuardRole(user.email, lookup);
    var target := Guard(Some(user), lookup, allowed).path;
    assert target == DashboardPath(role);
    DashboardPage(role);
    var page := Locate(target);
    if !KnownRole(role) && page.Protected? {
      GuardRefusesUnknown(Some(user), lookup, page.allowed);
    }
  }

  /** A protected page admits one known role, so it refuses any other
      role and sends it to that role's dashboard path. */
  lemma GuardRefusesUnknown(user: Option<AuthUser>, lookup: Lookup, allowed: seq<string>)
    requires user.Some? && !lookup.Threw?
    requires |allowed| == 1 && KnownRole(allowed[0]) && !KnownRole(GuardRole(user.value.email, lookup))
    ensures Guard(user, lookup, allowed) == Redirect(DashboardPath(GuardRole(user.value.email, lookup)))
  {
    assert GuardRole(user.value.email, lookup) !in allowed;
  }

  /** Where navigating to a role's dashboard path ends, by role. */
  lemma DashboardPage(role: string)
    ensures KnownRole(role) ==> Locate(DashboardPath(role)) == Protected([role])
    ensures KnownRole(Lower(role)) ==> Locate(DashboardPath(role)) == Protected([Lower(role)])
    ensures PlainRole(role) && !KnownRole(Lower(role)) ==> Locate(DashboardPath(role)) == ToLanding
    ensures Locate(DashboardPath(role)).Protected? ==>
      |Locate(DashboardPath(role)).allowed| == 1 && KnownRole(Locate(DashboardPath(role)).allowed[0])
  {
    RouteTable(role, PathOf(DashboardPath(role)));
    if KnownRole(Lower(role)) {
      CaseKnownRoleIsPlain(role);
    }
    if KnownRole(role) {
      KnownRoleIsLower(role);
    }
  }

  /** The case-only mismatch: a user whose stored role is "Driver" is
      sent from the user dashboard to "/Driver-dashboard", which the
      router serves with the driver dashboard, whose guard sends the user
      to the same path again. */
  lemma CapitalisedRoleIsStuck(email: string, role: string)
    requires role == "Driver"
    ensures Guard(Some(AuthUser(Some(email))), Doc(role), ["user"]) == Redirect(DashboardPath(role))
    ensures Locate(DashboardPath(role)) == Protected(["driver"])
    ensures Guard(Some(AuthUser(Some(email))), Doc(role), ["driver"]) == Redirect(DashboardPath(role))
  {
    LowerDriver();
    CaseKnownRoleIsPlain(role);
    RouteTable(role, "");
  }

  /** The hash case: a stored role such as "driver-dashboard#" is sent
      to "/driver-dashboard#-dashboard", whose pathname is the driver
      dashboard; its guard sends the user to the same target again. */
  lemma HashRoleIsStuck(email: string, known: string, role: string)
    requires KnownRole(known) && role == known + "-dashboard#"
    ensures Locate(DashboardPath(role)) == Protected([known])
    ensures Guard(Some(AuthUser(Some(email))), Doc(role), [known]) == Redirect(DashboardPath(role))
  {
    HashTarget(known, role);
    KnownRoleIsLower(known);
    CaseKnownRoleIsPlain(known);
    RouteTable(known, "");
    assert role != known by {
      assert |role| > |known|;
    }
  }

  /** The pathname of the hash role's target is the known role's
      dashboard path. */
  lemma HashTarget(known: string, role: string)
    requires KnownRole(known) && role == known + "-dashboard#"
    ensures PathOf(DashboardPath(role)) == DashboardPath(known)
  {
    var plain := DashboardPath(known);
    assert DashboardPath(role) == plain + "#" + "-dashboard";
    assert '#' !in plain && '?' !in plain;
    PathOfCutsAtHash(plain, "-dashboard");
  }

  lemma LowerDriver()
    ensures Lower("Driver") == "driver"
  {
    LowerAppend("D", "river");
    assert "D" + "river" == "Driver";
    LowerKeepsLowerCase("river");
    assert Lower("D") == "d";
  }

  // ---------------------------------------------------------------------
  // Landing page
  // ---------------------------------------------------------------------

  /** The role resolved at sign-in: an email indicator wins and the
      stored role is consulted only without one; None when that lookup
      throws. */
  function SignInRole(email: string, lookup: Lookup): (r: Option<string>)
    ensures r.None? <==> !HasIndicator(email) && lookup.Threw?
    ensures HasIndicator(email) ==> r == Some(EmailRole(email))
    ensures !HasIndicator(email) && !lookup.Threw? ==> r == Some(if StoredRole(lookup) then lookup.role else "user")
  {
    if Contains(email, DriverDomain) then Some("driver")
    else if Contains(email, AgencyDomain) then Some("agency")
    else match lookup
      case Threw(_) => None
      case NoDoc => Some("user")
      case Doc(role) => Some(if role != "" then role else "user")
  }

  /** The landing page and the route guard apply opposite precedence: they
      agree on a role exactly when the email has no indicator, nothing is
      stored, or the stored role is the one the email suggests. */
  lemma OppositePrecedence(email: string, lookup: Lookup)
    requires !lookup.Threw?
    ensures SignInRole(email, lookup) == Some(GuardRole(Some(email), lookup)) <==>
      !HasIndicator(email) || !StoredRole(lookup) || lookup.role == EmailRole(email)
  {
  }

  /** So a driver-domain account stored as a user is sent to the driver
      dashboard at sign-in and bounced from there to the user dashboard. */
  lemma SignInBounce(email: string)
    requires Contains(email, DriverDomain)
    ensures SignInRole(email, Doc("user")) == Some("driver")
    ensures Guard(Some(AuthUser(Some(email))), Doc("user"), ["driver"]) == Redirect("/user-dashboard")
  {
  }

  /** The role at sign-up: the selected role when one is selected, else
      the one the email suggests. */
  function SignUpRole(selected: string, email: string): (role: string)
    ensures selected != "" ==> role == selected
    ensures selected == "" ==> role == EmailRole(email)
  {
    if selected != "" then selected else EmailRole(email)
  }

  /** The document written to `users` at sign-up. */
  datatype UserRecord = UserRecord(email: string, role: string, points: Option<int>)

  function NewUserRecord(email: string, role: string): (r: UserRecord)
    ensures r.email == email && r.role == role
    ensures r.points.Some? <==> role == "user"
    ensures r.points.Some? ==> r.points.value == 0
  {
    UserRecord(email, role, if role == "user" then Some(0) else None)
  }

  datatype Persistence = LocalPersistence | SessionPersistence

  /** "Remember me" keeps the session across browser restarts. */
  function PersistenceFor(rememberMe: bool): (p: Persistence)
    ensures p == LocalPersistence <==> rememberMe
  {
    if rememberMe then LocalPersistence else SessionPersistence
  }

  /** The text shown for an authentication error code. */
  function AuthErrorMessage(code: string, isLogin: bool): string {
    if code == "auth/email-already-in-use" then "This email is already in use. Please use a different email or login."
    else if code == "auth/invalid-email" then "Please enter a valid email address."
    else if code == "auth/weak-password" then "Password should be at least 6 characters."
    else if code == "auth/network-request-failed" then "Network error. Please check your connection and try again."
    else if code == "auth/user-not-found" || code == "auth/wrong-password" then "Invalid email or password."
    else if isLogin then "Error signing in. Please try again."
    else "Error creating account. Please try again."
  }

  const ListedCodes: set<string> := {
    "auth/email-already-in-use", "auth/invalid-email", "auth/weak-password",
    "auth/network-request-failed", "auth/user-not-found", "auth/wrong-password"}

  /** An unknown account and a wrong password read the same, so the page
      does not tell which accounts exist; listed codes read the same in
      both modes, and any other code gets the generic text of the mode. */
  lemma AuthErrorWording(code: string, isLogin: bool)
    ensures AuthErrorMessage("auth/user-not-found", isLogin) == AuthErrorMessage("auth/wrong-password", isLogin)
    ensures code in ListedCodes ==> AuthErrorMessage(code, true) == AuthErrorMessage(code, false)
    ensures code !in ListedCodes ==>
      AuthErrorMessage(code, isLogin) == (if isLogin then "Error signing in. Please try again."
                                          else "Error creating account. Please try again.")
    ensures code !in ListedCodes ==> AuthErrorMessage(code, true) != AuthErrorMessage(code, false)
  {
    if code !in ListedCodes {
      var a, b := AuthErrorMessage(code, true), AuthErrorMessage(code, false);
      assert a[6] != b[6];
    }
  }

  datatype SubmitOutcome =
    | Navigate(path: string, record: Option<UserRecord>)
    | ShowError(message: string)

  /** `handleSubmit` after the persistence choice: sign in or sign up,
      then go to the dashboard of the resolved role; a thrown error shows
      its message instead. */
  function Submit(isLogin: bool, email: string, selected: string, authError: Option<string>, lookup: Lookup)
    : (o: SubmitOutcome)
    ensures authError.Some? ==> o == ShowError(AuthErrorMessage(authError.value, isLogin))
    ensures authError.None? && isLogin ==>
      match SignInRole(email, lookup)
      case Some(role) => o == Navigate(DashboardPath(role), None)
      case None => o == ShowError(AuthErrorMessage(lookup.code, true))
    ensures authError.None? && !isLogin ==>
      var role := SignUpRole(selected, email);
      o == Navigate(DashboardPath(role), Some(NewUserRecord(email, role)))
  {
    if authError.Some? then ShowError(AuthErrorMessage(authError.value, isLogin))
    else if isLogin then
      match SignInRole(email, lookup)
      case Some(role) => Navigate(DashboardPath(role), None)
      case None => ShowError(AuthErrorMessage(lookup.code, true))
    else
      var role := SignUpRole(selected, email);
      Navigate(DashboardPath(role), Some(NewUserRecord(email, role)))
  }

  /** A new account reaches a dashboard that admits it: the role written
      to its record is the role of the dashboard it is sent to, and for a
      known role the guard there grants access. */
  lemma SignUpLandsOnOwnDashboard(email: string, selected: string)
    requires KnownRole(SignUpRole(selected, email))
    ensures var o := Submit(false, email, selected, None, NoDoc);
      o.Navigate? && o.record.Some? &&
      Locate(o.path) == Protected([o.record.value.role])
      && Guard(Some(AuthUser(Some(email))), Doc(o.record.value.role), [o.record.value.role]) == Grant
  {
    var role := SignUpRole(selected, email);
    var o := Submit(false, email, selected, None, NoDoc);
    assert o == Navigate(DashboardPath(role), Some(NewUserRecord(email, role)));
    assert o.record.value.role == role;
    DashboardPage(role);
    StoredRoleAdmitted(email, role);
  }

  /** A stored non-empty role is admitted where that role is allowed. */
  lemma StoredRoleAdmitted(email: string, role: string)
    requires role != ""
    ensures Guard(Some(AuthUser(Some(email))), Doc(role), [role]) == Grant
  {
    assert GuardRole(Some(email), Doc(role)) == role;
  }
}
