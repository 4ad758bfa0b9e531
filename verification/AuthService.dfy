/** The password reset endpoints and the guard over the user table. */
module AuthService {
  import opened Options
  import opened PasswordReset

  datatype PasswordAnswer = NoSuchUser | WrongPassword | Replaced

  class AuthService {
    var users: map<nat, User>
    var clock: int
    // JWT_EXPIRES_IN, in seconds.
    const lifetime: int
    // Stands for the random source: a value never drawn before.
    var nextToken: nat
    // Other requests, and the history.
    ghost var tickets: map<nat, Ticket>
    ghost var nextId: nat
    ghost var sessions: seq<Session>
    ghost var resets: seq<Reset>

    ghost function State(): State
      reads this
    {
      PasswordReset.State(users, clock, nextToken, tickets, nextId, sessions, resets, lifetime)
    }

    constructor (users: map<nat, User>, now: int, lifetime: int)
      ensures State() == Initial(users, now, lifetime)
    {
      this.users, clock, nextToken, this.lifetime := users, now, 0, lifetime;
      tickets, nextId, sessions, resets := map[], 0, [], [];
    }

    /** Mails a link unless the account is unknown or one was sent within the minute; the answer tells neither. */
    method RequestPasswordReset(user: nat) returns (mailed: Option<nat>)
      requires nextId !in tickets
      modifies this
      ensures mailed.Some? <==> user in old(users) && MayRequest(old(users)[user], old(clock))
      ensures mailed.Some? && old(users)[user].resetSentAt.Some? ==>
        clock >= old(users)[user].resetSentAt.value + 60_000
      ensures mailed.Some? ==>
        && user in users && users[user].resetToken == mailed && users[user].resetSentAt == Some(clock)
        && users[user].resetExpiresAt == Some(clock + 60 * 60_000)
      ensures mailed.Some? ==> mailed.value == old(nextToken)
      ensures State() == if mailed.Some?
        then Apply(Apply(old(State()), RequestLink(user)), CommitLink(old(nextId))) else old(State())
    {
      if user !in users {
        return None;
      }
      var last := if users[user].resetSentAt.Some? then users[user].resetSentAt.value else 0;
      if clock - last < COOLDOWN {
        return None;
      }
      SendNow(State(), user);
      var token := nextToken;
      users := users[user := users[user].(resetToken := Some(token), resetExpiresAt := Some(clock + LINK_TTL),
                                          resetSentAt := Some(clock))];
      nextToken, nextId := nextToken + 1, nextId + 1;
      mailed := Some(token);
    }

    // The row holding the token.
    method FindByToken(token: nat) returns (found: Option<nat>)
      ensures found.Some? ==> found.value in users && users[found.value].resetToken == Some(token)
      ensures found.None? ==> forall u :: u in users ==> users[u].resetToken != Some(token)
    {
      if u :| u in users && users[u].resetToken == Some(token) {
        found := Some(u);
      } else {
        found := None;
      }
    }

    // The account whose live link the token is.
    method OpenByToken(token: nat) returns (opening: Option<nat>)
      requires Unshared(State())
      ensures opening.Some? ==> opening.value in users && MayOpen(users[opening.value], token, clock)
      ensures opening.None? ==> forall u :: u in users ==> !MayOpen(users[u], token, clock)
    {
      var found := FindByToken(token);
      if found.None? || users[found.value].resetExpiresAt.None? || users[found.value].resetExpiresAt.value < clock {
        return None;
      }
      opening := found;
    }

    /** Opens the link, changes the password and signs in, when nothing else happens in between. */
    method ResetPassword(token: nat, password: string, hashing: nat) returns (session: Option<Session>)
      requires nextId !in tickets && Unshared(State())
      modifies this
      ensures session.None? ==>
        State() == old(State()) && forall u :: u in old(users) ==> !MayOpen(old(users)[u], token, old(clock))
      ensures session.Some? ==>
        && session.value.user in old(users) && MayOpen(old(users)[session.value.user], token, old(clock))
        && State() == ResetSteps(old(State()), session.value.user, token, password, hashing)
        && sessions == old(sessions) + [session.value]
        && users.Keys == old(users).Keys && users[session.value.user].password == password
        && users[session.value.user].resetToken.None? && users[session.value.user].verifiedAt.Some?
        && (forall u :: u in old(users) && u != session.value.user ==> users[u] == old(users)[u])
    {
      var opening := OpenByToken(token);
      if opening.None? {
        return None;
      }
      var user := opening.value;
      ResetNow(State(), user, token, password, hashing);
      session := ChangePassword(user, token, password, users[user].verifiedAt, hashing);
    }

    /** Hashing takes its time; the row is then written only if it still holds the token, and a session signed. */
    method ChangePassword(user: nat, token: nat, password: string, verified: Option<int>, hashing: nat)
      returns (issued: Option<Session>)
      requires user in users
      modifies this
      ensures issued.Some? <==> old(users)[user].resetToken == Some(token)
      ensures issued.None? ==> State() == old(State()).(now := old(clock) + hashing)
      ensures issued.Some? ==>
        var s, changed := old(State()), WholeSecond(old(clock) + hashing);
        && issued.value == Signed(user, s.now + hashing, lifetime)
        && State() ==
          s.(users := s.users[user := Changed(s.users[user], password, changed, verified)], now := s.now + hashing,
             nextId := s.nextId + 1, resets := s.resets + [Reset(user, token, password, changed)],
             sessions := s.sessions + [issued.value])
    {
      clock := clock + hashing;
      var changedAt := clock / 1000 * 1000;
      if users[user].resetToken != Some(token) {
        return None;
      }
      users := users[user := users[user].(password := password, changedAt := Some(changedAt),
                                          resetToken := None, resetExpiresAt := None,
                                          verifiedAt := if verified.Some? then verified else Some(changedAt))];
      resets := resets + [Reset(user, token, password, changedAt)];
      nextId := nextId + 1;
      issued := Some(Signed(user, clock, lifetime));
      sessions := sessions + [issued.value];
    }

    /** A signed-in user's own change asks for the old password; it ends no session and leaves links alone. */
    method ReplacePassword(user: nat, currentPassword: string, newPassword: string) returns (answer: PasswordAnswer)
      modifies this`users
      ensures answer == NoSuchUser <==> user !in old(users)
      ensures answer == WrongPassword <==> user in old(users) && old(users)[user].password != currentPassword
      ensures answer != Replaced ==> State() == old(State())
      ensures answer == Replaced ==>
        && State() == Apply(old(State()), PasswordReset.ReplacePassword(user, newPassword))
        && users == old(users)[user := old(users)[user].(password := newPassword)]
    {
      if user !in users {
        return NoSuchUser;
      }
      if users[user].password != currentPassword {
        return WrongPassword;
      }
      users := users[user := users[user].(password := newPassword)];
      answer := Replaced;
    }

    /**
     * A session is refused exactly when it has expired, or its user is gone or has reset in a later
     * second; of the others, exactly those of accounts not verified are kept from the routes that ask
     * for it.
     */
    method CanActivate(session: Session, allowUnverified: bool) returns (access: Access)
      ensures access == Unauthorized <==>
        Expired(session, clock) || session.user !in users || !Current(users[session.user], session)
      ensures access == NotVerified ==> !allowUnverified && users[session.user].verifiedAt.None?
      ensures access == Granted ==> allowUnverified || users[session.user].verifiedAt.Some?
      ensures access == Guard(users, session, clock, allowUnverified)
    {
      if clock / 1000 >= session.exp {
        return Unauthorized;
      }
      if session.user !in users {
        return Unauthorized;
      }
      var changedAt := users[session.user].changedAt;
      if changedAt.Some? && session.iat * 1000 < changedAt.value {
        return Unauthorized;
      }
      if users[session.user].verifiedAt.None? && !allowUnverified {
        return NotVerified;
      }
      access := Granted;
    }
  }
}
