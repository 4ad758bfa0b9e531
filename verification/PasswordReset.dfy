/** Password reset links and the sessions they end, with every read and write as its own step. */
module PasswordReset {
  import opened Options

  const COOLDOWN := 60000
  const LINK_TTL := 3600000

  // changedAt: when a reset last changed the password. verifiedAt: when the address was proved.
  datatype User = User(password: string, resetToken: Option<nat>, resetExpiresAt: Option<int>,
                       resetSentAt: Option<int>, changedAt: Option<int>, verifiedAt: Option<int>)

  // What a request still has to do. verified: the verification it read when it opened the link.
  datatype Ticket =
    | Sending(user: nat, token: nat, at: int)
    | Opened(user: nat, token: nat, password: string, verified: Option<int>)
    | Hashed(user: nat, token: nat, password: string, verified: Option<int>, changed: int)
    | Signing(user: nat)

  // A token's user, the second it was issued in and the second it expires in.
  datatype Session = Session(user: nat, iat: int, exp: int)

  // A reset that went through: the link it used, the password it stored and the second it is stamped with.
  datatype Reset = Reset(user: nat, token: nat, password: string, changed: int)

  // lifetime: the seconds a session is signed for, as configured.
  datatype State =
    State(users: map<nat, User>, now: int, nextToken: nat, tickets: map<nat, Ticket>, nextId: nat,
          sessions: seq<Session>, resets: seq<Reset>, lifetime: int)

  datatype Event =
    | Tick(ms: nat)
    | RequestLink(user: nat)
    | CommitLink(id: nat)
    | OpenLink(user: nat, token: nat, password: string)
    | HashPassword(id: nat)
    | CommitReset(id: nat)
    | Sign(id: nat)
    | Login(user: nat)
    | VerifyEmail(user: nat)
    | ReplacePassword(user: nat, password: string)     // by a signed-in user who knows the old one

  function WholeSecond(ms: int): int { ms / 1000 * 1000 }

  function Signed(user: nat, now: int, lifetime: int): Session { Session(user, now / 1000, now / 1000 + lifetime) }

  function Linked(u: User, token: nat, at: int): User {
    u.(resetToken := Some(token), resetExpiresAt := Some(at + LINK_TTL), resetSentAt := Some(at))
  }

  function Changed(u: User, password: string, changed: int, verified: Option<int>): User {
    u.(password := password, changedAt := Some(changed), resetToken := None, resetExpiresAt := None,
       verifiedAt := if verified.Some? then verified else Some(changed))
  }

  function Issue(s: State, ticket: Ticket): State {
    s.(tickets := s.tickets[s.nextId := ticket], nextId := s.nextId + 1)
  }

  predicate MayRequest(u: User, now: int) {
    now - (if u.resetSentAt.Some? then u.resetSentAt.value else 0) >= COOLDOWN
  }

  predicate MayOpen(u: User, token: nat, now: int) {
    u.resetToken == Some(token) && u.resetExpiresAt.Some? && u.resetExpiresAt.value >= now
  }

  predicate Holds(s: State, user: nat, token: nat) {
    user in s.users && s.users[user].resetToken == Some(token)
  }

  function Apply(s: State, e: Event): State {
    match e
    case Tick(ms) => s.(now := s.now + ms)
    case RequestLink(user) =>
      if user in s.users && MayRequest(s.users[user], s.now)
      then Issue(s, Sending(user, s.nextToken, s.now)).(nextToken := s.nextToken + 1) else s
    case CommitLink(id) =>
      if id in s.tickets && s.tickets[id].Sending? then
        var t := s.tickets[id];
        s.(tickets := s.tickets - {id},
           users := if t.user in s.users then s.users[t.user := Linked(s.users[t.user], t.token, t.at)] else s.users)
      else s
    case OpenLink(user, token, password) =>
      if user in s.users && MayOpen(s.users[user], token, s.now)
      then Issue(s, Opened(user, token, password, s.users[user].verifiedAt)) else s
    case HashPassword(id) =>
      if id in s.tickets && s.tickets[id].Opened? then
        var t := s.tickets[id];
        s.(tickets := s.tickets[id := Hashed(t.user, t.token, t.password, t.verified, WholeSecond(s.now))])
      else s
    case CommitReset(id) =>
      if id in s.tickets && s.tickets[id].Hashed? then
        var t := s.tickets[id];
        if Holds(s, t.user, t.token) then
          s.(users := s.users[t.user := Changed(s.users[t.user], t.password, t.changed, t.verified)],
             tickets := s.tickets[id := Signing(t.user)],
             resets := s.resets + [Reset(t.user, t.token, t.password, t.changed)])
        else s.(tickets := s.tickets - {id})
      else s
    case Sign(id) =>
      if id in s.tickets && s.tickets[id].Signing? then
        s.(tickets := s.tickets - {id}, sessions := s.sessions + [Signed(s.tickets[id].user, s.now, s.lifetime)])
      else s
    case Login(user) =>
      if user in s.users then s.(sessions := s.sessions + [Signed(user, s.now, s.lifetime)]) else s
    case VerifyEmail(user) =>
      if user in s.users then s.(users := s.users[user := s.users[user].(verifiedAt := Some(s.now))]) else s
    case ReplacePassword(user, password) =>
      if user in s.users then s.(users := s.users[user := s.users[user].(password := password)]) else s
  }

  function Run(s: State, events: seq<Event>): State
    decreases |events|
  {
    if events == [] then s else Apply(Run(s, events[..|events| - 1]), events[|events| - 1])
  }

  // Requests nothing else interleaves with.
  lemma SendNow(s: State, user: nat)
    requires user in s.users && MayRequest(s.users[user], s.now) && s.nextId !in s.tickets
    ensures Apply(Apply(s, RequestLink(user)), CommitLink(s.nextId))
      == s.(users := s.users[user := Linked(s.users[user], s.nextToken, s.now)],
            nextToken := s.nextToken + 1, nextId := s.nextId + 1)
  {
    assert s.tickets[s.nextId := Sending(user, s.nextToken, s.now)] - {s.nextId} == s.tickets;
  }

  function ResetSteps(s: State, user: nat, token: nat, password: string, hashing: nat): State {
    var reading := Apply(s, OpenLink(user, token, password));
    var hashed := Apply(Apply(reading, Tick(hashing)), HashPassword(s.nextId));
    Apply(Apply(hashed, CommitReset(s.nextId)), Sign(s.nextId))
  }

  lemma ResetNow(s: State, user: nat, token: nat, password: string, hashing: nat)
    requires user in s.users && MayOpen(s.users[user], token, s.now) && s.nextId !in s.tickets
    ensures var changed := WholeSecond(s.now + hashing);
      ResetSteps(s, user, token, password, hashing)
      == s.(users := s.users[user := Changed(s.users[user], password, changed, s.users[user].verifiedAt)], now := s.now + hashing,
            nextId := s.nextId + 1, resets := s.resets + [Reset(user, token, password, changed)],
            sessions := s.sessions + [Signed(user, s.now + hashing, s.lifetime)])
  {
    var verified := s.users[user].verifiedAt;
    var t := Opened(user, token, password, verified);
    assert s.tickets[s.nextId := t][s.nextId := Hashed(user, token, password, verified, WholeSecond(s.now + hashing))]
      [s.nextId := Signing(user)] - {s.nextId} == s.tickets;
  }

  // The token's own expiry, in whole seconds, checked before the account is read.
  predicate Expired(session: Session, now: int) { now / 1000 >= session.exp }

  // The guard's comparison with the account's last reset.
  predicate Current(u: User, session: Session) {
    u.changedAt.None? || session.iat * 1000 >= u.changedAt.value
  }

  predicate Accepts(users: map<nat, User>, session: Session, now: int) {
    !Expired(session, now) && session.user in users && Current(users[session.user], session)
  }

  datatype Access = Granted | Unauthorized | NotVerified

  // The guard's answer; some routes are open to accounts not verified yet.
  function Guard(users: map<nat, User>, session: Session, now: int, allowUnverified: bool): Access {
    if !Accepts(users, session, now) then Unauthorized
    else if users[session.user].verifiedAt.None? && !allowUnverified then NotVerified
    else Granted
  }

  // ---------------------------------------------------------------- dead links

  // No row holds the token and no write will ever store it again.
  ghost predicate Dead(s: State, token: nat) {
    && token < s.nextToken
    && (forall u :: u in s.users ==> s.users[u].resetToken != Some(token))
    && forall id :: id in s.tickets && s.tickets[id].Sending? ==> s.tickets[id].token != token
  }

  lemma DeadStaysDead(s: State, e: Event, token: nat)
    requires Dead(s, token)
    ensures Dead(Apply(s, e), token)
    ensures forall i :: |s.resets| <= i < |Apply(s, e).resets| ==> Apply(s, e).resets[i].token != token
  {
  }

  lemma {:induction false} DeadLinksNeverWork(s: State, events: seq<Event>, token: nat)
    requires Dead(s, token)
    ensures var after := Run(s, events);
      && Dead(after, token) && s.resets <= after.resets
      && forall i :: |s.resets| <= i < |after.resets| ==> after.resets[i].token != token
    decreases |events|
  {
    if events != [] {
      DeadLinksNeverWork(s, events[..|events| - 1], token);
      DeadStaysDead(Run(s, events[..|events| - 1]), events[|events| - 1], token);
    }
  }

  // ---------------------------------------------------------------- invariant

  ghost predicate UserOk(u: User, nextToken: nat, now: int) {
    && (u.resetToken.Some? ==> u.resetToken.value < nextToken)
    && (u.changedAt.Some? ==> WholeSecond(u.changedAt.value) == u.changedAt.value <= now)
  }

  ghost predicate UsersOk(s: State) {
    forall u :: u in s.users ==> UserOk(s.users[u], s.nextToken, s.now)
  }

  // No two users share a link.
  ghost predicate Unshared(s: State) {
    forall u, v :: u in s.users && v in s.users && s.users[u].resetToken == s.users[v].resetToken ==>
      s.users[u].resetToken.Some? ==> u == v
  }

  // Stamped with a past whole second, and not before the user's last change while it can still win.
  ghost predicate StampOk(s: State, id: nat)
    requires id in s.tickets && s.tickets[id].Hashed?
  {
    var t := s.tickets[id];
    && WholeSecond(t.changed) == t.changed <= s.now
    && (Holds(s, t.user, t.token) && s.users[t.user].changedAt.Some? ==> s.users[t.user].changedAt.value <= t.changed)
  }

  ghost predicate HashedOk(s: State) {
    forall id :: id in s.tickets && s.tickets[id].Hashed? ==> StampOk(s, id)
  }

  // A link on its way is stored nowhere and was opened by nobody.
  ghost predicate SendingOk(s: State) {
    forall id :: id in s.tickets && s.tickets[id].Sending? ==>
      && s.tickets[id].token < s.nextToken
      && (forall u :: u in s.users ==> s.users[u].resetToken != Some(s.tickets[id].token))
      && (forall other :: other in s.tickets && other != id && !s.tickets[other].Signing? ==>
            s.tickets[other].token != s.tickets[id].token)
  }

  ghost predicate TicketsOk(s: State) {
    forall id :: id in s.tickets ==>
      id < s.nextId && (!s.tickets[id].Signing? ==> s.tickets[id].token < s.nextToken)
  }

  // The stored moment of change is the latest recorded reset.
  ghost predicate LogOk(s: State) {
    && (forall r :: r in s.resets ==>
          && Dead(s, r.token)
          && r.user in s.users && s.users[r.user].changedAt.Some? && r.changed <= s.users[r.user].changedAt.value)
    && forall u :: u in s.users && s.users[u].changedAt.Some? ==>
          exists r :: r in s.resets && r.user == u && r.changed == s.users[u].changedAt.value
  }

  // A link proves the address: whoever a reset signs in is verified.
  ghost predicate SigningOk(s: State) {
    forall id :: id in s.tickets && s.tickets[id].Signing? ==> Verified(s, s.tickets[id].user)
  }

  predicate Verified(s: State, user: nat) { user in s.users && s.users[user].verifiedAt.Some? }

  ghost predicate Inv(s: State) {
    UsersOk(s) && Unshared(s) && TicketsOk(s) && SendingOk(s) && HashedOk(s) && LogOk(s) && SigningOk(s)
  }

  lemma UsersStayOk(s: State, e: Event)
    requires Inv(s)
    ensures UsersOk(Apply(s, e)) && Unshared(Apply(s, e))
  {
  }

  lemma TicketsStayOk(s: State, e: Event)
    requires Inv(s)
    ensures TicketsOk(Apply(s, e))
  {
  }

  lemma SendingStaysOk(s: State, e: Event)
    requires UsersOk(s) && TicketsOk(s) && SendingOk(s)
    ensures SendingOk(Apply(s, e))
  {
  }

  lemma StampStaysOk(s: State, e: Event, id: nat)
    requires UsersOk(s) && SendingOk(s) && HashedOk(s)
    requires id in Apply(s, e).tickets && Apply(s, e).tickets[id].Hashed?
    ensures StampOk(Apply(s, e), id)
  {
    match e
    case HashPassword(other) =>
    case CommitLink(other) =>
    case CommitReset(other) =>
    case _ =>
  }

  lemma HashedStaysOk(s: State, e: Event)
    requires UsersOk(s) && SendingOk(s) && HashedOk(s)
    ensures HashedOk(Apply(s, e))
  {
    forall id | id in Apply(s, e).tickets && Apply(s, e).tickets[id].Hashed? ensures StampOk(Apply(s, e), id) {
      StampStaysOk(s, e, id);
    }
  }

  // No step takes a verification back.
  lemma VerifiedStays(s: State, e: Event, user: nat)
    requires Verified(s, user)
    ensures Verified(Apply(s, e), user)
  {
  }

  lemma SigningStaysOk(s: State, e: Event)
    requires SigningOk(s)
    ensures SigningOk(Apply(s, e))
  {
    var after := Apply(s, e);
    forall id | id in after.tickets && after.tickets[id].Signing? ensures Verified(after, after.tickets[id].user) {
      if id in s.tickets && s.tickets[id].Signing? { VerifiedStays(s, e, s.tickets[id].user); }
    }
  }

  // The link a reset has used is dead from then on.
  lemma UsedLinkIsDead(s: State, id: nat)
    requires Inv(s) && id in s.tickets && s.tickets[id].Hashed?
    requires Holds(s, s.tickets[id].user, s.tickets[id].token)
    ensures Dead(Apply(s, CommitReset(id)), s.tickets[id].token)
  {
  }

  lemma LogStaysOk(s: State, e: Event)
    requires Inv(s)
    ensures LogOk(Apply(s, e))
  {
    var after := Apply(s, e);
    forall r | r in s.resets ensures Dead(after, r.token) {
      DeadStaysDead(s, e, r.token);
    }
    if e.CommitReset? && after.resets != s.resets {
      var t := s.tickets[e.id];
      UsedLinkIsDead(s, e.id);
      var r := Reset(t.user, t.token, t.password, t.changed);
      assert after.resets == s.resets + [r] && r in after.resets;
    } else {
      assert after.resets == s.resets;
    }
  }

  // Accounts that never asked for a link.
  ghost predicate Clean(users: map<nat, User>) {
    forall u :: u in users ==> users[u].resetToken.None? && users[u].changedAt.None?
  }

  function Initial(users: map<nat, User>, now: int, lifetime: int): State {
    State(users, now, 0, map[], 0, [], [], lifetime)
  }

  lemma StepKeepsInv(s: State, e: Event)
    requires Inv(s)
    ensures Inv(Apply(s, e))
  {
    UsersStayOk(s, e);
    TicketsStayOk(s, e);
    SendingStaysOk(s, e);
    HashedStaysOk(s, e);
    LogStaysOk(s, e);
    SigningStaysOk(s, e);
  }

  lemma {:induction false} RunKeepsInv(s: State, events: seq<Event>)
    requires Inv(s)
    ensures Inv(Run(s, events))
    decreases |events|
  {
    if events != [] {
      RunKeepsInv(s, events[..|events| - 1]);
      StepKeepsInv(Run(s, events[..|events| - 1]), events[|events| - 1]);
    }
  }

  ghost predicate Reachable(s: State) {
    exists users, now, lifetime, events :: Clean(users) && s == Run(Initial(users, now, lifetime), events)
  }

  lemma ReachableInv(s: State)
    requires Reachable(s)
    ensures Inv(s)
  {
    var users, now, lifetime, events :| Clean(users) && s == Run(Initial(users, now, lifetime), events);
    RunKeepsInv(Initial(users, now, lifetime), events);
  }

  // ---------------------------------------------------------------- theorems about links

  ghost predicate DistinctTokens(resets: seq<Reset>) {
    forall i, j :: 0 <= i < j < |resets| ==> resets[i].token != resets[j].token
  }

  lemma StepWorksOnce(s: State, e: Event)
    requires Inv(s) && DistinctTokens(s.resets)
    ensures DistinctTokens(Apply(s, e).resets)
  {
    if Apply(s, e).resets != s.resets {
      var t := s.tickets[e.id];
      assert !Dead(s, t.token) by {
        assert Holds(s, t.user, t.token);
      }
      forall i | 0 <= i < |s.resets| ensures s.resets[i].token != t.token {
        assert s.resets[i] in s.resets;
      }
    }
  }

  lemma {:induction false} RunWorksOnce(s: State, events: seq<Event>)
    requires Inv(s) && DistinctTokens(s.resets)
    ensures DistinctTokens(Run(s, events).resets)
    decreases |events|
  {
    if events != [] {
      RunKeepsInv(s, events[..|events| - 1]);
      RunWorksOnce(s, events[..|events| - 1]);
      StepWorksOnce(Run(s, events[..|events| - 1]), events[|events| - 1]);
    }
  }

  /** However often and however concurrently a link is opened, it changes a password at most once. */
  lemma LinkWorksOnce(users: map<nat, User>, now: int, lifetime: int, events: seq<Event>)
    requires Clean(users)
    ensures DistinctTokens(Run(Initial(users, now, lifetime), events).resets)
  {
    RunWorksOnce(Initial(users, now, lifetime), events);
  }

  /** Once another link is stored in its place, a link never works again, even if it was already opened. */
  lemma StoredLinkReplacesOther(s: State, id: nat, other: nat, events: seq<Event>)
    requires Reachable(s) && id in s.tickets && s.tickets[id].Sending? && Holds(s, s.tickets[id].user, other)
    ensures var stored, t := Apply(s, CommitLink(id)), s.tickets[id];
      && Holds(stored, t.user, t.token) && Dead(stored, other)
      && (forall token :: MayOpen(stored.users[t.user], token, stored.now) <==>
            token == t.token && stored.now <= t.at + 60 * 60_000)
      && (forall now :: MayRequest(stored.users[t.user], now) <==> now >= t.at + 60_000)
      && stored.resets <= Run(stored, events).resets
      && forall i :: |stored.resets| <= i < |Run(stored, events).resets| ==> Run(stored, events).resets[i].token != other
  {
    ReachableInv(s);
    var stored := Apply(s, CommitLink(id));
    assert Dead(stored, other);
    DeadLinksNeverWork(stored, events, other);
  }

  /**
   * The link stored last wins, not the one asked for last: when two requests overlap, the link of the
   * later one can be dead and that of the earlier one live.
   */
  lemma EarlierLinkCanWin(users: map<nat, User>, now: int, lifetime: int, user: nat) returns (s: State, events: seq<Event>)
    requires Clean(users) && user in users && MayRequest(users[user], now)
    ensures events == [RequestLink(user), RequestLink(user), CommitLink(1), CommitLink(0)]
    ensures s == Run(Initial(users, now, lifetime), events)
    ensures user in s.users && MayOpen(s.users[user], 0, s.now) && Dead(s, 1)
  {
    var start := Initial(users, now, lifetime);
    var one := Apply(start, RequestLink(user));
    var two := Apply(one, RequestLink(user));
    var three := Apply(two, CommitLink(1));
    s := Apply(three, CommitLink(0));
    events := [RequestLink(user), RequestLink(user), CommitLink(1), CommitLink(0)];
    FourSteps(start, RequestLink(user), RequestLink(user), CommitLink(1), CommitLink(0));
  }

  lemma FourSteps(s: State, a: Event, b: Event, c: Event, d: Event)
    ensures Run(s, [a, b, c, d]) == Apply(Apply(Apply(Apply(s, a), b), c), d)
  {
    assert [a, b, c, d][..3] == [a, b, c] && [a, b, c][..2] == [a, b] && [a, b][..1] == [a] && [a][..0] == [];
    assert Run(s, [a]) == Apply(s, a);
    assert Run(s, [a, b]) == Apply(Run(s, [a]), b);
    assert Run(s, [a, b, c]) == Apply(Run(s, [a, b]), c);
  }

  // ---------------------------------------------------------------- theorems about passwords

  // The row of an account a reset went through for.
  predicate WasReset(u: User, u': User, password: string, changed: int, verified: Option<int>) {
    && u'.password == password && u'.resetToken.None? && u'.resetExpiresAt.None?
    && u'.changedAt == Some(changed) && u'.resetSentAt == u.resetSentAt
    && u'.verifiedAt == (if verified.Some? then verified else Some(changed))
  }

  /**
   * The halves of a reset: opening remembers the password asked for, hashing adds the whole second it
   * ends in, and the last half writes just that to that account, if the link is still there.
   */
  lemma ResetHalves(s: State, user: nat, token: nat, password: string, id: nat)
    ensures user in s.users && MayOpen(s.users[user], token, s.now) ==>
      var s' := Apply(s, OpenLink(user, token, password));
      s.nextId in s'.tickets && s'.tickets[s.nextId] == Opened(user, token, password, s.users[user].verifiedAt)
    ensures id in s.tickets && s.tickets[id].Opened? ==>
      var t, s' := s.tickets[id], Apply(s, HashPassword(id));
      && id in s'.tickets && s'.tickets[id].Hashed? && s'.users == s.users
      && s'.tickets[id] == Hashed(t.user, t.token, t.password, t.verified, s'.tickets[id].changed)
      && s.now - 1000 < s'.tickets[id].changed <= s.now && s'.tickets[id].changed % 1000 == 0
    ensures id in s.tickets && s.tickets[id].Hashed? ==>
      var t, s' := s.tickets[id], Apply(s, CommitReset(id));
      if Holds(s, t.user, t.token) then
        && s'.users.Keys == s.users.Keys && (forall u :: u in s.users && u != t.user ==> s'.users[u] == s.users[u])
        && WasReset(s.users[t.user], s'.users[t.user], t.password, t.changed, t.verified)
        && s'.resets == s.resets + [Reset(t.user, t.token, t.password, t.changed)]
      else s'.users == s.users && s'.resets == s.resets
  {
  }

  // The password written to the account by this step, if any.
  function Writes(s: State, e: Event, user: nat): Option<string> {
    if e.ReplacePassword? && e.user == user then Some(e.password)
    else
      var resets := Apply(s, e).resets;
      if |resets| > |s.resets| && resets[|resets| - 1].user == user then Some(resets[|resets| - 1].password) else None
  }

  function LastWritten(s: State, events: seq<Event>, user: nat): Option<string>
    decreases |events|
  {
    if events == [] then None
    else
      var some, last := events[..|events| - 1], events[|events| - 1];
      var written := Writes(Run(s, some), last, user);
      if written.Some? then written else LastWritten(s, some, user)
  }

  lemma PasswordStep(s: State, e: Event, user: nat)
    requires user in s.users
    ensures user in Apply(s, e).users
    ensures Apply(s, e).users[user].password ==
      if Writes(s, e, user).Some? then Writes(s, e, user).value else s.users[user].password
  {
  }

  /** The stored password is the one last written, by a recorded reset or by its signed-in owner, or the first one. */
  lemma {:induction false} PasswordIsLastWritten(s: State, events: seq<Event>, user: nat)
    requires user in s.users
    ensures user in Run(s, events).users
    ensures Run(s, events).users[user].password ==
      if LastWritten(s, events, user).Some? then LastWritten(s, events, user).value else s.users[user].password
    decreases |events|
  {
    if events != [] {
      PasswordIsLastWritten(s, events[..|events| - 1], user);
      PasswordStep(Run(s, events[..|events| - 1]), events[|events| - 1], user);
    }
  }

  // Every password on its way, or recorded, was asked for with the link it came by.
  ghost predicate AllAskedFor(s: State, events: seq<Event>) {
    && (forall id :: id in s.tickets && (s.tickets[id].Opened? || s.tickets[id].Hashed?) ==>
          OpenLink(s.tickets[id].user, s.tickets[id].token, s.tickets[id].password) in events)
    && forall r :: r in s.resets ==> OpenLink(r.user, r.token, r.password) in events
  }

  lemma AskedForStep(s: State, events: seq<Event>, e: Event)
    requires AllAskedFor(s, events)
    ensures AllAskedFor(Apply(s, e), events + [e])
  {
    var after := Apply(s, e);
    assert forall x :: x in events ==> x in events + [e];
    assert e in events + [e];
    forall r | r in after.resets ensures OpenLink(r.user, r.token, r.password) in events + [e] {
      if r !in s.resets {
        var t := s.tickets[e.id];
        assert r == Reset(t.user, t.token, t.password, t.changed);
      }
    }
  }

  /** A reset stores the very password that was sent with the link it used. */
  lemma {:induction false} ResetStoresWhatWasAsked(users: map<nat, User>, now: int, lifetime: int, events: seq<Event>)
    ensures AllAskedFor(Run(Initial(users, now, lifetime), events), events)
    decreases |events|
  {
    if events != [] {
      var some, last := events[..|events| - 1], events[|events| - 1];
      ResetStoresWhatWasAsked(users, now, lifetime, some);
      AskedForStep(Run(Initial(users, now, lifetime), some), some, last);
      assert some + [last] == events;
    }
  }

  // ---------------------------------------------------------------- theorems about sessions

  /** A session is accepted exactly while it has not expired and no reset of its user is stamped with a later second. */
  lemma AcceptedIff(s: State, session: Session)
    requires Reachable(s) && session.user in s.users
    ensures Accepts(s.users, session, s.now) <==>
      && !Expired(session, s.now)
      && forall r :: r in s.resets && r.user == session.user ==> r.changed <= session.iat * 1000
  {
    ReachableInv(s);
  }

  lemma {:induction false} ResetsOnlyGrow(s: State, events: seq<Event>)
    ensures s.resets <= Run(s, events).resets && s.now <= Run(s, events).now
    ensures forall u :: u in s.users <==> u in Run(s, events).users
    decreases |events|
  {
    if events != [] {
      ResetsOnlyGrow(s, events[..|events| - 1]);
    }
  }

  lemma RunAppends(s: State, first: seq<Event>, more: seq<Event>)
    ensures Run(Run(s, first), more) == Run(s, first + more)
    decreases |more|
  {
    if more == [] {
      assert first + more == first;
    } else {
      RunAppends(s, first, more[..|more| - 1]);
      assert (first + more)[..|first + more| - 1] == first + more[..|more| - 1];
    }
  }

  lemma ReachableLater(s: State, events: seq<Event>)
    requires Reachable(s)
    ensures Reachable(Run(s, events))
  {
    var users, now, lifetime, first :| Clean(users) && s == Run(Initial(users, now, lifetime), first);
    RunAppends(Initial(users, now, lifetime), first, events);
  }

  /** A session older than a reset, by the second, is refused from that reset on, for ever. */
  lemma OldSessionsEnd(s: State, r: Reset, session: Session, events: seq<Event>)
    requires Reachable(s) && r in s.resets && r.user == session.user && session.iat * 1000 < r.changed
    ensures !Accepts(Run(s, events).users, session, Run(s, events).now)
  {
    ReachableInv(s);
    ResetsOnlyGrow(s, events);
    ReachableLater(s, events);
    AcceptedIff(Run(s, events), session);
  }

  /** Refused once, for whatever reason, a session is refused for ever. */
  lemma RefusedForEver(s: State, session: Session, events: seq<Event>)
    requires Reachable(s) && !Accepts(s.users, session, s.now)
    ensures !Accepts(Run(s, events).users, session, Run(s, events).now)
  {
    ResetsOnlyGrow(s, events);
    ReachableLater(s, events);
    if session.user in s.users {
      AcceptedIff(s, session);
      AcceptedIff(Run(s, events), session);
    }
  }

  /**
   * The session a reset ends with passes every guard, whether or not the account was verified before,
   * as long as sessions are signed for any time at all.
   */
  lemma ResetSignsIn(s: State, id: nat)
    requires Reachable(s) && id in s.tickets && s.tickets[id].Signing?
    ensures var signed, session := Apply(s, Sign(id)), Signed(s.tickets[id].user, s.now, s.lifetime);
      && signed.sessions == s.sessions + [session]
      && (Guard(signed.users, session, signed.now, false) == Granted <==> s.lifetime > 0)
  {
    ReachableInv(s);
  }

  // Some reset recorded after the first n ends the session.
  ghost predicate EndedSince(s: State, n: nat, session: Session) {
    exists i :: n <= i < |s.resets| && s.resets[i].user == session.user && s.resets[i].changed > session.iat * 1000
  }

  /** An accepted session stays accepted exactly until it expires or a reset of its user is stamped with a later second. */
  lemma AcceptedUntil(s: State, session: Session, events: seq<Event>)
    requires Reachable(s) && Accepts(s.users, session, s.now)
    ensures var after := Run(s, events);
      && session.user in after.users
      && (Accepts(after.users, session, after.now) <==>
            !Expired(session, after.now) && !EndedSince(after, |s.resets|, session))
  {
    var after := Run(s, events);
    ReachableLater(s, events);
    ResetsOnlyGrow(s, events);
    AcceptedIff(s, session);
    AcceptedIff(after, session);
    forall i | 0 <= i < |s.resets| && s.resets[i].user == session.user
      ensures after.resets[i].changed <= session.iat * 1000
    {
      assert after.resets[i] == s.resets[i] && s.resets[i] in s.resets;
    }
  }

  lemma {:induction false} VerifiedForEver(s: State, user: nat, events: seq<Event>)
    requires Verified(s, user)
    ensures Verified(Run(s, events), user)
    decreases |events|
  {
    if events != [] {
      VerifiedForEver(s, user, events[..|events| - 1]);
      VerifiedStays(Run(s, events[..|events| - 1]), events[|events| - 1], user);
    }
  }

  /** A session let in everywhere is let in everywhere until it expires or such a reset, and then nowhere. */
  lemma GrantedUntil(s: State, session: Session, events: seq<Event>, allowUnverified: bool)
    requires Reachable(s) && Guard(s.users, session, s.now, false) == Granted
    ensures var after := Run(s, events);
      Guard(after.users, session, after.now, allowUnverified) ==
        if Expired(session, after.now) || EndedSince(after, |s.resets|, session) then Unauthorized else Granted
  {
    AcceptedUntil(s, session, events);
    VerifiedForEver(s, session.user, events);
  }
}
