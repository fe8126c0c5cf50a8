/** Google sign-in: the token payload check, account lookup and linking, and the plan allowance. */
module AuthService {
  import opened Types
  import opened Text
  import opened Db
  import opened OtpService

  /** The claims of a verified Google ID token that the service reads. */
  datatype TokenPayload = TokenPayload(sub: Option<string>, email: Option<string>, name: Option<string>, picture: Option<string>)

  datatype GoogleProfile = GoogleProfile(googleId: string, email: string, name: string, avatar: Option<string>)

  const InvalidPayload: string := "Invalid Google token payload"

  /**
   * `verifyGoogleToken` after the signature check: a missing payload, or one without a subject, an email
   * or a name, is refused; otherwise the profile carries those claims and the picture as the avatar.
   */
  function ProfileOf(payload: Option<TokenPayload>): (r: Result<GoogleProfile, string>)
    ensures r.Err? <==> payload.None? || !Truthy(payload.value.sub) || !Truthy(payload.value.email) || !Truthy(payload.value.name)
    ensures r.Err? ==> r.error == InvalidPayload
    ensures r.Ok? ==> r.value.googleId == payload.value.sub.value && r.value.email == payload.value.email.value &&
                      r.value.name == payload.value.name.value && r.value.avatar == payload.value.picture
    ensures r.Ok? ==> r.value.googleId != "" && r.value.email != "" && r.value.name != ""
  {
    if payload.None? || !Truthy(payload.value.sub) || !Truthy(payload.value.email) || !Truthy(payload.value.name) then
      Err(InvalidPayload)
    else
      var p := payload.value;
      Ok(GoogleProfile(p.sub.value, p.email.value, p.name.value, p.picture))
  }

  /** The unique indexes on `googleId` and `email`: no two accounts share either. */
  ghost predicate UniqueAccounts(users: map<UserId, User>) {
    forall a, b :: a in users && b in users && a != b ==>
      users[a].googleId != users[b].googleId && users[a].email != users[b].email
  }

  /** A returning user: the name follows the profile, the avatar only when the profile has one. */
  function Refreshed(u: User, p: GoogleProfile): (r: User)
    ensures r.name == p.name
    ensures r.avatar == if Truthy(p.avatar) then p.avatar else u.avatar
    ensures r.(name := u.name, avatar := u.avatar) == u
  {
    var named := if u.name != p.name then u.(name := p.name) else u;
    if Truthy(p.avatar) && named.avatar != p.avatar then named.(avatar := p.avatar) else named
  }

  /** Whether the returning user's record differs from the profile, so that it is saved. */
  predicate ProfileChanged(u: User, p: GoogleProfile) {
    u.name != p.name || (Truthy(p.avatar) && u.avatar != p.avatar)
  }

  /** An account found by email and linked: it takes the Google id and name, and the avatar when one is given. */
  function Linked(u: User, p: GoogleProfile): (r: User)
    ensures r.googleId == p.googleId && r.name == p.name
    ensures r.avatar == if Truthy(p.avatar) then p.avatar else u.avatar
    ensures r.(googleId := u.googleId, name := u.name, avatar := u.avatar) == u
  {
    u.(googleId := p.googleId, avatar := if Truthy(p.avatar) then p.avatar else u.avatar, name := p.name)
  }

  /** A new account: the free plan, nothing used, WhatsApp disconnected. */
  function NewUser(p: GoogleProfile): (r: User)
    ensures r.googleId == p.googleId && r.email == p.email && r.name == p.name && r.avatar == p.avatar
    ensures r.plan == Free && r.usageCount == 0 && r.whatsappStatus == Disconnected
    ensures r.messageUsageCount == 0 && r.dailyOtpCount == 0 && r.dailyMessageCount == 0 && r.lastDailyResetAt.None?
  {
    User(p.googleId, p.email, p.name, p.avatar, Free, 0, 0, 0, 0, None, Disconnected)
  }

  /**
   * `findOrCreateUser`: the account with this Google id, its name and avatar brought up to date and saved
   * only when they changed; else the account with this email, linked to the Google id; else a new one under
   * the fresh id `newId`. The unique indexes keep holding.
   */
  method FindOrCreateUser(db: Database, profile: GoogleProfile, newId: UserId) returns (id: UserId, saved: bool)
    requires UniqueAccounts(db.users) && newId !in db.users
    modifies db`users
    ensures UniqueAccounts(db.users)
    ensures id in db.users && db.users[id].googleId == profile.googleId && db.users[id].name == profile.name
    ensures forall u :: u in old(db.users) && old(db.users)[u].googleId == profile.googleId ==>
      id == u && saved == ProfileChanged(old(db.users)[u], profile) &&
      db.users == old(db.users)[u := Refreshed(old(db.users)[u], profile)]
    ensures (forall u :: u in old(db.users) ==> old(db.users)[u].googleId != profile.googleId) ==>
      saved && forall u :: u in old(db.users) && old(db.users)[u].email == profile.email ==>
        id == u && db.users == old(db.users)[u := Linked(old(db.users)[u], profile)]
    ensures (forall u :: u in old(db.users) ==> old(db.users)[u].googleId != profile.googleId && old(db.users)[u].email != profile.email) ==>
      saved && id == newId && db.users == old(db.users)[newId := NewUser(profile)]
  {
    if u :| u in db.users && db.users[u].googleId == profile.googleId {
      var user := db.users[u];
      var changed := false;
      if user.name != profile.name {
        user := user.(name := profile.name);
        changed := true;
      }
      if Truthy(profile.avatar) && user.avatar != profile.avatar {
        user := user.(avatar := profile.avatar);
        changed := true;
      }
      if changed {
        db.users := db.users[u := user];
      } else {
        assert db.users[u := user] == db.users;
      }
      id, saved := u, changed;
    } else if u :| u in db.users && db.users[u].email == profile.email {
      db.users := db.users[u := Linked(db.users[u], profile)];
      id, saved := u, true;
    } else {
      db.users := db.users[newId := NewUser(profile)];
      id, saved := newId, true;
    }
  }

  /** Signing in again with the same profile changes nothing: a refreshed or linked account needs no save. */
  lemma SecondSignInSavesNothing(u: User, p: GoogleProfile)
    ensures !ProfileChanged(Refreshed(u, p), p)
    ensures !ProfileChanged(Linked(u, p), p)
    ensures !ProfileChanged(NewUser(p), p)
  {
  }

  /** A refresh is saved exactly when it changes the record. */
  lemma SavedIffChanged(u: User, p: GoogleProfile)
    ensures ProfileChanged(u, p) <==> Refreshed(u, p) != u
  {
    if ProfileChanged(u, p) {
      if u.name != p.name {
        assert Refreshed(u, p).name != u.name;
      } else {
        assert Refreshed(u, p).avatar != u.avatar;
      }
    }
  }

  /** `getOtpLimit`: the plan's monthly allowance, the one the OTP service enforces. */
  function GetOtpLimit(plan: Plan): (r: nat)
    ensures r == MonthlyOtpLimit(plan)
    ensures r > 0
  {
    if plan == Pro then 10000 else 100
  }
}
