/** Browser sessions and login tokens: expiring tables against the history of what was issued. */
module Sessions {
  import opened Common

  type Token = nat  // a random token; its digest is taken as injective

  type Seconds = nat

  const SESSION_TTL: Seconds := 12 * 60 * 60
  const LOGIN_CSRF_TTL: Seconds := 30 * 60
  const MAX_LOGIN_CSRF_TOKENS: nat := 4096

  datatype User = User(username: string, scopes: seq<string>)

  datatype Session = Session(csrf: Token, expires: Seconds, user: User)

  /** The cookies and the header of a request. */
  datatype Request = Request(session: Option<Token>, csrfCookie: Option<Token>, csrfHeader: Option<Token>)

  datatype Binding = BoundToSession(token: Token) | BoundToLogin(token: Token)

  predicate ScopeSatisfied(scopes: seq<string>, required: string) {
    exists s :: s in scopes && (s == "admin" || s == required || (required == "read" && s == "control"))
  }

  predicate ScopeGranted(user: User, required: Option<string>) {
    required.Some? ==> ScopeSatisfied(user.scopes, required.value)
  }

  /** What a user's scopes allow: the admin scope everything, the control scope also reading, and
      any scope what it names. */
  ghost predicate Allows(scopes: seq<string>, required: Option<string>) {
    match required
    case None => true
    case Some("control") => "admin" in scopes || "control" in scopes
    case Some("read") => "admin" in scopes || "control" in scopes || "read" in scopes
    case Some(other) => "admin" in scopes || other in scopes
  }

  lemma GrantedMeans(user: User, required: Option<string>)
    ensures ScopeGranted(user, required) <==> Allows(user.scopes, required)
  {
  }

  /** The scopes of a role; an unknown role has none. */
  function RoleScopes(role: string): Option<seq<string>> {
    match role
    case "admin" => Some(["admin"])
    case "operator" => Some(["control", "output"])
    case "viewer" => Some(["read", "output"])
    case _ => None
  }

  /** Only an admin has every scope; an operator reads, controls and uses outputs; a viewer reads and
      uses outputs. */
  lemma RolesMay(user: User, role: string, scope: string)
    requires RoleScopes(role) == Some(user.scopes)
    ensures ScopeGranted(user, Some(scope)) <==>
              || role == "admin"
              || scope == "read" || scope == "output"
              || (role == "operator" && scope == "control")
  {
    GrantedMeans(user, Some(scope));
  }

  // ---------------------------------------------------------------- history

  datatype Event =
    | SignedIn(token: Token, csrf: Token, at: Seconds, user: User, replaced: Option<Token>)
    | Reissued(token: Token, csrf: Token)
    | SignedOut(token: Token)

  predicate SignsIn(e: Event, t: Token) {
    e.SignedIn? && e.token == t
  }

  /** A log-out, or a new sign-in bound to the session. */
  predicate Ends(e: Event, t: Token) {
    (e.SignedOut? && e.token == t) || (e.SignedIn? && e.replaced == Some(t) && e.token != t)
  }

  predicate SetsCsrf(e: Event, t: Token) {
    (e.SignedIn? || e.Reissued?) && e.token == t
  }

  /** Sign-in number `i` opened the session and nothing has ended it since. */
  ghost predicate OpenSince(h: seq<Event>, t: Token, i: nat) {
    i < |h| && SignsIn(h[i], t) && forall j :: i < j < |h| ==> !SignsIn(h[j], t) && !Ends(h[j], t)
  }

  /** Event number `j` was the last to give the session a token against forged requests. */
  ghost predicate LastCsrf(h: seq<Event>, t: Token, j: nat) {
    j < |h| && SetsCsrf(h[j], t) && forall k :: j < k < |h| ==> !SetsCsrf(h[k], t)
  }

  /** The session opened under 12 hours ago by sign-in `i` and not ended since. */
  ghost predicate Live(h: seq<Event>, t: Token, i: nat, now: Seconds) {
    OpenSince(h, t, i) && now < h[i].at + 12 * 60 * 60
  }

  ghost predicate LiveAt(h: seq<Event>, t: Token, now: Seconds) {
    exists i: nat :: Live(h, t, i, now)
  }

  /** `csrf` is the session's latest token. */
  ghost predicate Latest(h: seq<Event>, t: Token, csrf: Token) {
    exists j: nat :: LastCsrf(h, t, j) && h[j].csrf == csrf
  }

  /** Header and cookie both carry the session's latest token. */
  ghost predicate CsrfGiven(h: seq<Event>, t: Token, r: Request) {
    r.csrfHeader.Some? && r.csrfHeader == r.csrfCookie && Latest(h, t, r.csrfHeader.value)
  }

  /** Who may pass with a session cookie. */
  ghost predicate Authorised(h: seq<Event>, r: Request, requireCsrf: bool, scope: Option<string>, now: Seconds) {
    && r.session.Some?
    && (exists i: nat :: Live(h, r.session.value, i, now) && Allows(h[i].user.scopes, scope))
    && (requireCsrf ==> CsrfGiven(h, r.session.value, r))
  }

  /** The table entry a session would have if nothing were ever purged. */
  function Entry(h: seq<Event>, t: Token): Option<Session> {
    if h == [] then None else
      var e, before := h[|h| - 1], Entry(h[..|h| - 1], t);
      if SignsIn(e, t) then Some(Session(e.csrf, e.at + SESSION_TTL, e.user))
      else if Ends(e, t) then None
      else if SetsCsrf(e, t) && before.Some? then Some(before.value.(csrf := e.csrf))
      else before
  }

  lemma EntryPush(h: seq<Event>, e: Event, t: Token)
    ensures Entry(h + [e], t) ==
              if SignsIn(e, t) then Some(Session(e.csrf, e.at + SESSION_TTL, e.user))
              else if Ends(e, t) then None
              else if SetsCsrf(e, t) && Entry(h, t).Some? then Some(Entry(h, t).value.(csrf := e.csrf))
              else Entry(h, t)
  {
    assert (h + [e])[..|h|] == h;
  }

  lemma OpenPush(h: seq<Event>, e: Event, t: Token, i: nat)
    ensures OpenSince(h + [e], t, i) <==>
              if SignsIn(e, t) then i == |h| else !Ends(e, t) && OpenSince(h, t, i)
  {
    var h' := h + [e];
    assert h'[|h|] == e && forall k :: 0 <= k < |h| ==> h'[k] == h[k];
  }

  lemma CsrfPush(h: seq<Event>, e: Event, t: Token, j: nat)
    ensures LastCsrf(h + [e], t, j) <==> if SetsCsrf(e, t) then j == |h| else LastCsrf(h, t, j)
  {
    var h' := h + [e];
    assert h'[|h|] == e && forall k :: 0 <= k < |h| ==> h'[k] == h[k];
  }

  /** The entry says what the history says: it is there exactly for an open session, expires
      12 hours after the sign-in however often its token was reissued, and holds the latest. */
  lemma {:induction false} EntryMeans(h: seq<Event>, t: Token)
    ensures Entry(h, t).Some? <==> exists i: nat :: OpenSince(h, t, i)
    ensures forall i: nat :: OpenSince(h, t, i) ==>
              Entry(h, t).Some? && Entry(h, t).value.expires == h[i].at + SESSION_TTL && Entry(h, t).value.user == h[i].user
    ensures Entry(h, t).Some? ==> exists j: nat :: LastCsrf(h, t, j) && h[j].csrf == Entry(h, t).value.csrf
  {
    if h != [] {
      var n := |h| - 1;
      var before, e := h[..n], h[n];
      assert h == before + [e];
      EntryMeans(before, t);
      EntryPush(before, e, t);
      forall i: nat ensures OpenSince(h, t, i) <==> if SignsIn(e, t) then i == n else !Ends(e, t) && OpenSince(before, t, i) {
        OpenPush(before, e, t, i);
      }
      forall j: nat ensures LastCsrf(h, t, j) <==> if SetsCsrf(e, t) then j == n else LastCsrf(before, t, j) {
        CsrfPush(before, e, t, j);
      }
      hide OpenSince, LastCsrf, Entry;
      if SignsIn(e, t) {
        assert OpenSince(h, t, n);
      } else if Entry(h, t).Some? {
        var i: nat :| OpenSince(before, t, i);
        assert OpenSince(h, t, i);
        var j: nat :| LastCsrf(before, t, j) && before[j].csrf == Entry(before, t).value.csrf;
        assert LastCsrf(h, t, if SetsCsrf(e, t) then n else j);
      }
    }
  }

  lemma LastCsrfUnique(h: seq<Event>, t: Token, j: nat, j': nat)
    requires LastCsrf(h, t, j) && LastCsrf(h, t, j')
    ensures j == j'
  {
  }

  /** A reissued token neither extends nor shortens any session. */
  lemma ReissueDoesNotExtend(h: seq<Event>, t: Token, csrf: Token, u: Token, now: Seconds)
    ensures LiveAt(h + [Reissued(t, csrf)], u, now) <==> LiveAt(h, u, now)
  {
    var h' := h + [Reissued(t, csrf)];
    forall i: nat ensures Live(h', u, i, now) <==> Live(h, u, i, now) {
      OpenPush(h, Reissued(t, csrf), u, i);
    }
  }

  /** A session that was ended stays ended until its token is issued again. */
  lemma EndIsFinal(h: seq<Event>, t: Token, j: nat, now: Seconds)
    requires j < |h| && Ends(h[j], t) && forall k :: j < k < |h| ==> !SignsIn(h[k], t)
    ensures !LiveAt(h, t, now)
  {
  }

  // ------------------------------------------------------------------ table

  /** A purge keeps the entries that have not expired. */
  function Purge(table: map<Token, Session>, now: Seconds): map<Token, Session> {
    map t | t in table && table[t].expires > now :: table[t]
  }

  /** The table agrees with the history on every session that has not expired, and holds
      nothing the history does not. */
  ghost predicate Agrees(table: map<Token, Session>, h: seq<Event>, clock: Seconds) {
    && (forall t :: t in table ==> Entry(h, t) == Some(table[t]))
    && (forall t :: Entry(h, t).Some? && Entry(h, t).value.expires > clock ==> t in table)
  }

  lemma PurgeAgrees(table: map<Token, Session>, h: seq<Event>, clock: Seconds, now: Seconds)
    requires Agrees(table, h, clock) && clock <= now
    ensures Agrees(Purge(table, now), h, now)
    ensures forall t :: t in Purge(table, now) <==> Entry(h, t).Some? && Entry(h, t).value.expires > now
  {
  }

  lemma LiveMeans(h: seq<Event>, t: Token, now: Seconds)
    ensures Entry(h, t).Some? && Entry(h, t).value.expires > now <==> LiveAt(h, t, now)
  {
    EntryMeans(h, t);
    hide OpenSince, Entry;
    if i: nat :| OpenSince(h, t, i) {
      assert Live(h, t, i, now) <==> Entry(h, t).value.expires > now;
    }
  }

  lemma GivenMeans(h: seq<Event>, t: Token, r: Request)
    requires Entry(h, t).Some?
    ensures forall csrf :: Latest(h, t, csrf) <==> csrf == Entry(h, t).value.csrf
    ensures CsrfGiven(h, t, r) <==> r.csrfHeader == r.csrfCookie == Some(Entry(h, t).value.csrf)
  {
    EntryMeans(h, t);
    var j: nat :| LastCsrf(h, t, j) && h[j].csrf == Entry(h, t).value.csrf;
    forall k: nat | LastCsrf(h, t, k) ensures k == j {
      LastCsrfUnique(h, t, j, k);
    }
    hide LastCsrf, Entry;
  }

  lemma AuthorisedMeans(h: seq<Event>, r: Request, requireCsrf: bool, scope: Option<string>, now: Seconds)
    requires r.session.Some?
    ensures var entry := Entry(h, r.session.value);
            Authorised(h, r, requireCsrf, scope, now) <==>
              && entry.Some? && entry.value.expires > now && ScopeGranted(entry.value.user, scope)
              && (requireCsrf ==> r.csrfHeader == r.csrfCookie == Some(entry.value.csrf))
  {
    var t := r.session.value;
    EntryMeans(h, t);
    if Entry(h, t).Some? {
      GivenMeans(h, t, r);
      GrantedMeans(Entry(h, t).value.user, scope);
    }
    hide OpenSince, Entry, ScopeGranted, Allows, CsrfGiven;
  }

  lemma PushAgrees(table: map<Token, Session>, h: seq<Event>, clock: Seconds, e: Event, table': map<Token, Session>)
    requires Agrees(table, h, clock)
    requires match e
             case SignedIn(t, c, at, user, replaced) =>
               table' == (if replaced.Some? then table - {replaced.value} else table)[t := Session(c, at + SESSION_TTL, user)]
             case Reissued(t, c) => t in table && table' == table[t := table[t].(csrf := c)]
             case SignedOut(t) => table' == table - {t}
    ensures Agrees(table', h + [e], clock)
  {
    forall t {
      EntryPush(h, e, t);
    }
    hide Entry;
  }

  // ----------------------------------------------------------- login tokens

  function PurgeLogins(table: map<Token, Seconds>, now: Seconds): map<Token, Seconds> {
    map t | t in table && table[t] > now :: table[t]
  }

  /** What happened to the tokens for a sign-in; an eviction makes room in a full table. */
  datatype LoginEvent = LoginIssued(token: Token, at: Seconds) | LoginSpent(token: Token) | LoginEvicted(token: Token)

  /** Event number `i` issued the token under 30 minutes ago, and it was neither spent nor evicted
      nor issued again since. */
  ghost predicate LoginLive(h: seq<LoginEvent>, t: Token, i: nat, now: Seconds) {
    && i < |h| && h[i].LoginIssued? && h[i].token == t && now < h[i].at + 30 * 60
    && forall j :: i < j < |h| ==> h[j].token != t
  }

  ghost predicate LoginGood(h: seq<LoginEvent>, t: Token, now: Seconds) {
    exists i: nat :: LoginLive(h, t, i, now)
  }

  /** The expiry of a token if nothing were ever purged. */
  function LoginEntry(h: seq<LoginEvent>, t: Token): Option<Seconds> {
    if h == [] then None
    else if h[|h| - 1].token != t then LoginEntry(h[..|h| - 1], t)
    else if h[|h| - 1].LoginIssued? then Some(h[|h| - 1].at + LOGIN_CSRF_TTL)
    else None
  }

  lemma {:induction false} LoginEntryMeans(h: seq<LoginEvent>, t: Token, now: Seconds)
    ensures LoginGood(h, t, now) <==> LoginEntry(h, t).Some? && LoginEntry(h, t).value > now
  {
    if h != [] {
      var n := |h| - 1;
      LoginEntryMeans(h[..n], t, now);
      if h[n].token == t {
        assert forall i: nat :: LoginLive(h, t, i, now) ==> i == n;
        assert LoginLive(h, t, n, now) <==> h[n].LoginIssued? && now < h[n].at + LOGIN_CSRF_TTL;
      } else {
        forall i: nat ensures LoginLive(h, t, i, now) <==> LoginLive(h[..n], t, i, now) {
          assert i < n ==> h[..n][i] == h[i];
        }
      }
    }
  }

  /** The table agrees with the history on every token that has not expired. */
  ghost predicate LoginsAgree(table: map<Token, Seconds>, h: seq<LoginEvent>, clock: Seconds) {
    && (forall t :: t in table ==> LoginEntry(h, t) == Some(table[t]))
    && (forall t :: LoginEntry(h, t).Some? && LoginEntry(h, t).value > clock ==> t in table)
  }

  lemma PurgeLoginsAgree(table: map<Token, Seconds>, h: seq<LoginEvent>, clock: Seconds, now: Seconds)
    requires LoginsAgree(table, h, clock) && clock <= now
    ensures LoginsAgree(table, h, now) && LoginsAgree(PurgeLogins(table, now), h, now)
    ensures forall t :: t in PurgeLogins(table, now) <==> LoginGood(h, t, now)
  {
    forall t ensures LoginGood(h, t, now) <==> LoginEntry(h, t).Some? && LoginEntry(h, t).value > now {
      LoginEntryMeans(h, t, now);
    }
    hide LoginGood, LoginEntry;
  }

  lemma LoginPush(table: map<Token, Seconds>, h: seq<LoginEvent>, clock: Seconds, e: LoginEvent)
    requires LoginsAgree(table, h, clock)
    ensures LoginsAgree(if e.LoginIssued? then table[e.token := e.at + LOGIN_CSRF_TTL] else table - {e.token}, h + [e], clock)
  {
    forall t ensures LoginEntry(h + [e], t) ==
                       if e.token != t then LoginEntry(h, t) else if e.LoginIssued? then Some(e.at + LOGIN_CSRF_TTL) else None {
      assert (h + [e])[..|h|] == h;
    }
    hide LoginEntry;
  }

  lemma PurgeShrinks(table: map<Token, Seconds>, now: Seconds)
    ensures |PurgeLogins(table, now)| <= |table|
  {
    var kept := PurgeLogins(table, now).Keys;
    assert table.Keys == kept + (table.Keys - kept);
    assert |table.Keys| == |kept| + |table.Keys - kept|;
  }

  /** Only a full table of live tokens loses one, and it expires no later than any other. */
  ghost predicate Evicts(live: map<Token, Seconds>, evicted: Token) {
    |live| >= 4096 && evicted in live && forall t :: t in live ==> live[evicted] <= live[t]
  }

  /** A token that expires no later than any other. */
  method Oldest(table: map<Token, Seconds>) returns (oldest: Token)
    requires table != map[]
    ensures oldest in table && forall t :: t in table ==> table[oldest] <= table[t]
  {
    oldest :| oldest in table;
    var unseen := table.Keys - {oldest};
    while unseen != {}
      invariant unseen <= table.Keys && oldest in table
      invariant forall t :: t in table && t !in unseen ==> table[oldest] <= table[t]
      decreases unseen
    {
      var t :| t in unseen;
      if table[t] < table[oldest] {
        oldest := t;
      }
      unseen := unseen - {t};
    }
  }

  // ---------------------------------------------------------------- manager

  class AuthManager {
    var sessions: map<Token, Session>
    var logins: map<Token, Seconds>  // the expiry of tokens for a sign-in
    ghost var history: seq<Event>
    ghost var loginHistory: seq<LoginEvent>
    ghost var clock: Seconds

    ghost predicate Valid()
      reads this
    {
      && Agrees(sessions, history, clock)
      && LoginsAgree(logins, loginHistory, clock) && |logins| <= 4096
    }

    constructor ()
      ensures Valid() && history == [] && loginHistory == [] && clock == 0 && logins == map[]
    {
      sessions := map[];
      logins := map[];
      history := [];
      loginHistory := [];
      clock := 0;
    }

    /** Drops the expired sessions; the history does not change. */
    method Retain(now: Seconds)
      requires Valid() && clock <= now
      modifies this`sessions, this`clock
      ensures Valid() && clock == now
      ensures forall t :: t in sessions <==> Entry(history, t).Some? && Entry(history, t).value.expires > now
    {
      PurgeAgrees(sessions, history, clock, now);
      PurgeLoginsAgree(logins, loginHistory, clock, now);
      sessions := Purge(sessions, now);
      clock := now;
    }

    /** A session request passes exactly when the history says so. */
    method Authorize(r: Request, requireCsrf: bool, scope: Option<string>, now: Seconds) returns (ok: bool)
      requires Valid() && clock <= now
      modifies this`sessions, this`clock
      ensures Valid() && clock == (if r.session.Some? then now else old(clock))
      ensures ok <==> Authorised(history, r, requireCsrf, scope, now)
    {
      if r.session.None? {
        return false;
      }
      var token := r.session.value;
      AuthorisedMeans(history, r, requireCsrf, scope, now);
      hide Authorised, Entry, ScopeSatisfied;
      Retain(now);
      if token !in sessions {
        return false;
      }
      var session := sessions[token];
      if !ScopeGranted(session.user, scope) {
        return false;
      }
      if requireCsrf {
        if r.csrfHeader.None? || r.csrfCookie.None? {
          return false;
        }
        if r.csrfHeader != r.csrfCookie || r.csrfHeader.value != session.csrf {
          return false;
        }
      }
      return true;
    }

    /** The account of a live session, without purging. */
    method SessionUser(r: Request, now: Seconds) returns (user: Option<User>)
      requires Valid() && clock <= now
      ensures user.Some? <==> r.session.Some? && LiveAt(history, r.session.value, now)
      ensures user.Some? ==> exists i: nat :: Live(history, r.session.value, i, now) && history[i].user == user.value
    {
      if r.session.None? {
        return None;
      }
      var token := r.session.value;
      LiveMeans(history, token, now);
      EntryMeans(history, token);
      hide Entry, OpenSince;
      if token !in sessions || sessions[token].expires <= now {
        return None;
      }
      return Some(sessions[token].user);
    }

    method Logout(r: Request)
      requires Valid()
      modifies this`sessions, this`history
      ensures Valid()
      ensures history == old(history) + (if r.session.Some? then [SignedOut(r.session.value)] else [])
    {
      if r.session.Some? {
        PushAgrees(sessions, history, clock, SignedOut(r.session.value), sessions - {r.session.value});
        sessions := sessions - {r.session.value};
        history := history + [SignedOut(r.session.value)];
      }
    }

    /** Opens a session; a sign-in bound to a session replaces it, one bound to a login token
        spends that token. */
    method CompleteLogin(binding: Option<Binding>, user: User, token: Token, csrf: Token, now: Seconds)
      requires Valid() && clock <= now
      modifies this
      ensures Valid() && clock == now
      ensures var replaced := if binding.Some? && binding.value.BoundToSession? then Some(binding.value.token) else None;
              history == old(history) + [SignedIn(token, csrf, now, user, replaced)]
      ensures loginHistory == old(loginHistory)
                + (if binding.Some? && binding.value.BoundToLogin? then [LoginSpent(binding.value.token)] else [])
    {
      var table := sessions;
      ghost var replaced: Option<Token> := None;
      if binding.Some? && binding.value.BoundToSession? {
        table := table - {binding.value.token};
        replaced := Some(binding.value.token);
      }
      table := table[token := Session(csrf, now + SESSION_TTL, user)];
      assert Agrees(sessions, history, now);
      PushAgrees(sessions, history, now, SignedIn(token, csrf, now, user, replaced), table);
      history := history + [SignedIn(token, csrf, now, user, replaced)];
      PurgeLoginsAgree(logins, loginHistory, clock, now);
      sessions := table;
      clock := now;
      if binding.Some? && binding.value.BoundToLogin? {
        LoginPush(logins, loginHistory, now, LoginSpent(binding.value.token));
        loginHistory := loginHistory + [LoginSpent(binding.value.token)];
        RemovalShrinks(logins, binding.value.token);
        logins := logins - {binding.value.token};
      }
    }

    /** What a sign-in may bind to: the live session whose latest token it carries, or, without
        a live session, a login token issued under 30 minutes ago, not spent and not evicted. */
    method CsrfBinding(r: Request, now: Seconds) returns (b: Option<Binding>)
      requires Valid() && clock <= now
      modifies this`sessions, this`logins, this`clock
      ensures Valid()
      ensures b.Some? && b.value.BoundToSession? <==>
                r.session.Some? && LiveAt(history, r.session.value, now) && CsrfGiven(history, r.session.value, r)
      ensures b.Some? && b.value.BoundToSession? ==> Some(b.value.token) == r.session
      ensures b.Some? && b.value.BoundToLogin? <==>
                && !(r.session.Some? && LiveAt(history, r.session.value, now))
                && r.csrfHeader.Some? && r.csrfHeader == r.csrfCookie
                && LoginGood(loginHistory, r.csrfHeader.value, now)
      ensures b.Some? && b.value.BoundToLogin? ==> Some(b.value.token) == r.csrfHeader
    {
      if r.session.Some? {
        LiveMeans(history, r.session.value, now);
        if Entry(history, r.session.value).Some? {
          GivenMeans(history, r.session.value, r);
        }
      }
      hide LiveAt, Entry;
      if r.csrfCookie.None? || r.csrfHeader.None? || r.csrfHeader != r.csrfCookie {
        return None;
      }
      hide CsrfGiven;
      var csrf := r.csrfHeader.value;
      Retain(now);
      if r.session.Some? && r.session.value in sessions {
        return if csrf == sessions[r.session.value].csrf then Some(BoundToSession(r.session.value)) else None;
      }
      PurgeShrinks(logins, now);
      PurgeLoginsAgree(logins, loginHistory, clock, now);
      logins := PurgeLogins(logins, now);
      return if csrf in logins then Some(BoundToLogin(csrf)) else None;
    }

    /** Gives a request without the right token a new one: for its live session, without
        extending it, or for a sign-in.  A full login table first loses one of its oldest
        tokens, also when no random token can be made afterwards. */
    method EnsureCsrfCookie(r: Request, random: Option<Token>, now: Seconds) 
      returns (issued: Option<Token>, ghost evicted: Option<Token>)
      requires Valid() && clock <= now
      modifies this
      ensures Valid() && clock == now && (issued.Some? ==> issued == random)
      ensures r.session.Some? && LiveAt(old(history), r.session.value, now) ==>
                && logins == old(logins) && loginHistory == old(loginHistory)
                && history == old(history) + (if issued.Some? then [Reissued(r.session.value, issued.value)] else [])
      ensures !(r.session.Some? && LiveAt(old(history), r.session.value, now)) ==>
                && history == old(history)
                && loginHistory == old(loginHistory) + LoginEvents(evicted, issued, now)
                && (evicted.Some? ==> Evicts(PurgeLogins(old(logins), now), evicted.value))
      ensures issued.Some? <==>
                && random.Some?
                && !(r.csrfCookie.Some? && if r.session.Some? && LiveAt(old(history), r.session.value, now)
                                           then Latest(old(history), r.session.value, r.csrfCookie.value)
                                           else LoginGood(old(loginHistory), r.csrfCookie.value, now))
    {
      if r.session.Some? {
        LiveMeans(history, r.session.value, now);
        if Entry(history, r.session.value).Some? {
          GivenMeans(history, r.session.value, r);
        }
      }
      hide LiveAt, Entry, Agrees, Latest, CsrfGiven;
      Retain(now);
      if r.session.Some? && r.session.value in sessions {
        var token := r.session.value;
        if r.csrfCookie == Some(sessions[token].csrf) || random.None? {
          return None, None;
        }
        var table := sessions[token := sessions[token].(csrf := random.value)];
        PushAgrees(sessions, history, now, Reissued(token, random.value), table);
        sessions := table;
        history := history + [Reissued(token, random.value)];
        return random, None;
      }
      ghost var h;
      logins, issued, evicted, h := IssueLogin(logins, r.csrfCookie, random, now, loginHistory);
      loginHistory := h;
    }
  }

  /** Issues a login token unless the request carries a good one. */
  method IssueLogin(table: map<Token, Seconds>, cookie: Option<Token>, random: Option<Token>, now: Seconds, ghost h: seq<LoginEvent>)
    returns (table': map<Token, Seconds>, issued: Option<Token>, ghost evicted: Option<Token>, ghost h': seq<LoginEvent>)
    requires LoginsAgree(table, h, now) && |table| <= MAX_LOGIN_CSRF_TOKENS
    ensures LoginsAgree(table', h', now) && |table'| <= MAX_LOGIN_CSRF_TOKENS
    ensures (issued.Some? ==> issued == random) && h' == h + LoginEvents(evicted, issued, now)
    ensures evicted.Some? ==> Evicts(PurgeLogins(table, now), evicted.value)
    ensures issued.Some? <==> random.Some? && !(cookie.Some? && LoginGood(h, cookie.value, now))
  {
    PurgeShrinks(table, now);
    PurgeLoginsAgree(table, h, now, now);
    hide LoginsAgree, LoginGood, PurgeLogins, Evicts;
    table', issued, evicted, h' := PurgeLogins(table, now), None, None, h;
    if cookie.Some? && cookie.value in table' {
      return;
    }
    table', evicted, h' := MakeRoom(table', now, h);
    if random.Some? {
      table', h' := AddLogin(table', random.value, now, h');
      issued := random;
    }
  }

  method AddLogin(table: map<Token, Seconds>, token: Token, now: Seconds, ghost h: seq<LoginEvent>)
    returns (table': map<Token, Seconds>, ghost h': seq<LoginEvent>)
    requires LoginsAgree(table, h, now) && |table| < MAX_LOGIN_CSRF_TOKENS
    ensures LoginsAgree(table', h', now) && |table'| <= MAX_LOGIN_CSRF_TOKENS && h' == h + [LoginIssued(token, now)]
  {
    InsertGrows(table, token, now + LOGIN_CSRF_TTL);
    LoginPush(table, h, now, LoginIssued(token, now));
    hide LoginsAgree;
    table', h' := table[token := now + LOGIN_CSRF_TTL], h + [LoginIssued(token, now)];
  }

  /** Drops one of the oldest tokens of a full table. */
  method MakeRoom(live: map<Token, Seconds>, now: Seconds, ghost h: seq<LoginEvent>)
    returns (table: map<Token, Seconds>, ghost evicted: Option<Token>, ghost h': seq<LoginEvent>)
    requires LoginsAgree(live, h, now) && |live| <= MAX_LOGIN_CSRF_TOKENS
    ensures LoginsAgree(table, h', now) && |table| < MAX_LOGIN_CSRF_TOKENS && h' == h + LoginEvents(evicted, None, now)
    ensures evicted.Some? ==> Evicts(live, evicted.value)
  {
    table, evicted, h' := live, None, h;
    if |live| >= MAX_LOGIN_CSRF_TOKENS {
      var oldest := Oldest(live);
      RemovalShrinks(live, oldest);
      LoginPush(live, h, now, LoginEvicted(oldest));
      hide LoginsAgree;
      table, evicted, h' := live - {oldest}, Some(oldest), h + [LoginEvicted(oldest)];
    }
  }

  /** At most one eviction, then the token that was issued. */
  function LoginEvents(evicted: Option<Token>, issued: Option<Token>, now: Seconds): seq<LoginEvent> {
    (if evicted.Some? then [LoginEvicted(evicted.value)] else []) + (if issued.Some? then [LoginIssued(issued.value, now)] else [])
  }

  lemma RemovalShrinks(table: map<Token, Seconds>, t: Token)
    ensures |table - {t}| == if t in table then |table| - 1 else |table|
  {
    assert (table - {t}).Keys == table.Keys - {t};
    assert |table.Keys - {t}| == if t in table.Keys then |table.Keys| - 1 else |table.Keys|;
  }
}
