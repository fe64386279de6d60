/**
 * `GET`, `PUT` and `DELETE /api/user/profile`: read-or-create the signed-in
 * user's profile row, apply a partial update to it, or delete the account.
 * The `users` and `user_profiles` tables are maps from user id to rows; every
 * call a handler makes on the database client is appended to the client's
 * log, so the order of effects can be stated.
 */
module UserProfile {
  import opened Common

  /** The profile columns a `PUT` body may set (`phone`, `address`, ..., `refresh_interval`). */
  datatype ProfileField =
    // contact fields
    | Phone | Address | City | State | Pincode | Bio | ProfileImage
    // notification settings
    | EmailNotifications | PushNotifications | IssueUpdates | NearbyIssues | WeeklyDigest
    | CriticalAlerts | ResolutionUpdates | CommentReplies | UpvoteNotifications
    // privacy settings
    | ProfileVisibility | ShowEmail | ShowPhone | ShowLocation | AllowAnalytics | DataSharing
    // system settings
    | Language | Timezone | DateFormat | MapProvider | AutoRefresh | RefreshInterval

  /**
   * JSON keys and column names. The constructors stand for the snake_case
   * names the handlers use (`FullName` is `full_name`, `UserIdCol` is
   * `user_id`, `Users` is the nested `users` object of the join); any other
   * key is `Other`.
   */
  datatype Key =
    | Field(field: ProfileField)
    | UserIdCol | UpdatedAt | Users | FullName | Name | Email | Avatar
    | Other(name: string)

  /** A JSON value as it arrives in a request body or sits in a column. */
  datatype Value =
    | Null
    | Bool(b: bool)
    | Num(n: int)
    | Str(s: string)
    | Obj(fields: map<Key, Value>)

  /** A table row or a JSON object. A key the map lacks is `undefined`. */
  type Row = map<Key, Value>

  /** The calls the handlers make on the database client. */
  datatype Op =
    | SelectProfile(user: UserId)   // user_profiles joined with users, `.single()`
    | InsertProfile(user: UserId)   // insert { user_id }, then select it joined
    | UpdateUserName(user: UserId)  // users.update({ name }).eq("id", user)
    | UpsertProfile(user: UserId)   // user_profiles.upsert(..., { onConflict: "user_id" })
    | DeleteUser(user: UserId)      // users.delete().eq("id", user)

  /** What a `.single()` read gives: the joined row, not found (`PGRST116`), or another error. */
  datatype ReadResult = Found(row: Row) | NotFound | ReadFailed

  /** The JSON reply: 401, 500 with a fixed message, or 200 with an optional message and data. */
  datatype Response =
    | Unauthorized
    | ServerError(error: string)
    | Success(message: Option<string>, data: Option<Row>)

  const NotConfigured := "Database not configured"
  const FetchFailed := "Failed to fetch profile"
  const UpdateFailed := "Failed to update profile"
  const DeleteFailed := "Failed to delete account"
  const Updated := "Profile updated successfully"
  const Deleted := "Account deleted successfully"

  /** The profile columns a `PUT` body may set, in the order the handler tests them. */
  const ProfileFields: seq<ProfileField> := [
    Phone, Address, City, State, Pincode, Bio, ProfileImage,
    EmailNotifications, PushNotifications, IssueUpdates, NearbyIssues, WeeklyDigest,
    CriticalAlerts, ResolutionUpdates, CommentReplies, UpvoteNotifications,
    ProfileVisibility, ShowEmail, ShowPhone, ShowLocation, AllowAnalytics, DataSharing,
    Language, Timezone, DateFormat, MapProvider, AutoRefresh, RefreshInterval]

  /** A column of a row; a column the row lacks reads as `null`. */
  function Col(row: Row, k: Key): Value
  {
    if k in row then row[k] else Null
  }

  /** `row.users[k]` on a joined row. */
  function UserField(row: Row, k: Key): Value
  {
    if Users in row && row[Users].Obj? then Col(row[Users].fields, k) else Null
  }

  /** The select `*, users!inner(name, email, avatar)`: the profile columns plus the nested user. */
  function Joined(profile: Row, user: Row): (r: Row)
    ensures r.Keys == profile.Keys + {Users}
    ensures forall k :: k in profile && k != Users ==> r[k] == profile[k]
    ensures UserField(r, Name) == Col(user, Name)
    ensures UserField(r, Email) == Col(user, Email)
    ensures UserField(r, Avatar) == Col(user, Avatar)
  {
    profile[Users := Obj(map[Name := Col(user, Name), Email := Col(user, Email), Avatar := Col(user, Avatar)])]
  }

  /**
   * `{ ...row, full_name: row.users.name, email: row.users.email, avatar: row.users.avatar }`:
   * the identity fields are written after the spread and so win over columns
   * of the same name.
   */
  function Flatten(row: Row): (r: Row)
    ensures r.Keys == row.Keys + {FullName, Email, Avatar}
    ensures r[FullName] == UserField(row, Name)
    ensures r[Email] == UserField(row, Email)
    ensures r[Avatar] == UserField(row, Avatar)
    ensures forall k :: k in row && k !in {FullName, Email, Avatar} ==> r[k] == row[k]
  {
    row[FullName := UserField(row, Name)][Email := UserField(row, Email)][Avatar := UserField(row, Avatar)]
  }

  /** The recognised profile fields among `fields` that `body` defines, with the body's values. */
  function Pick(body: Row, fields: seq<ProfileField>): (r: Row)
    ensures forall k :: k in r <==> k in body && k.Field? && k.field in fields
    ensures forall k :: k in r ==> r[k] == body[k]
  {
    map k | k in body && k.Field? && k.field in fields :: body[k]
  }

  /** The profile update a body yields: every recognised profile field it defines, with its value. */
  function Patch(body: Row): (r: Row)
    ensures forall k :: k in r <==> k in body && k.Field?
    ensures forall k :: k in r ==> r[k] == body[k]
  {
    map k | k in body && k.Field? :: body[k]
  }

  /** `ProfileFields` lists every profile field. */
  lemma ProfileFieldsComplete(f: ProfileField)
    ensures f in ProfileFields
  {
  }

  /**
   * The row an upsert keyed on `user_id` leaves behind: the columns of
   * `{ user_id, ...patch, updated_at }` written over the existing row, if any.
   */
  function Upserted(existing: Row, user: UserId, patch: Row, now: Value): (r: Row)
    ensures r.Keys == existing.Keys + patch.Keys + {UserIdCol, UpdatedAt}
    ensures r[UpdatedAt] == now
    ensures UserIdCol !in patch ==> r[UserIdCol] == Str(user)
    ensures forall k :: k in patch && k != UpdatedAt ==> r[k] == patch[k]
    ensures forall k :: k in existing && k !in patch && k !in {UserIdCol, UpdatedAt} ==> r[k] == existing[k]
  {
    existing + (map[UserIdCol := Str(user)] + patch)[UpdatedAt := now]
  }

  /** The profile row a first `GET` inserts: only `user_id` (the table supplies the defaults). */
  function DefaultRow(user: UserId): (r: Row)
    ensures r.Keys == {UserIdCol} && r[UserIdCol] == Str(user)
  {
    map[UserIdCol := Str(user)]
  }

  /** `users.update({ name }).eq("id", user)` on the table: no matching row, no change. */
  function Renamed(users: map<UserId, Row>, user: UserId, name: Value): (r: map<UserId, Row>)
    ensures r.Keys == users.Keys
    ensures user in users ==> r[user] == users[user][Name := name]
    ensures forall u :: u in users && u != user ==> r[u] == users[u]
  {
    if user in users then users[user := users[user][Name := name]] else users
  }

  /** Whether the upsert is accepted: a new profile row needs its user (foreign key). */
  predicate UpsertAllowed(users: map<UserId, Row>, profiles: map<UserId, Row>, user: UserId)
  {
    user in profiles || user in users
  }

  /** The `user_profiles` table after an accepted upsert. */
  function UpsertedTable(profiles: map<UserId, Row>, user: UserId, patch: Row, now: Value): (r: map<UserId, Row>)
    ensures r.Keys == profiles.Keys + {user}
    ensures forall u :: u in profiles && u != user ==> r[u] == profiles[u]
  {
    profiles[user := Upserted(if user in profiles then profiles[user] else map[], user, patch, now)]
  }

  /** The hosted database as the handlers see it. Each `fails` argument is the store's own failure. */
  class Database {
    var users: map<UserId, Row>
    var profiles: map<UserId, Row>
    var log: seq<Op>

    constructor (users: map<UserId, Row>, profiles: map<UserId, Row>)
      ensures this.users == users && this.profiles == profiles && log == []
    {
      this.users := users;
      this.profiles := profiles;
      log := [];
    }

    /** The joined `.single()` read; the inner join finds nothing without both rows. */
    method SelectJoined(user: UserId, fails: bool) returns (r: ReadResult)
      modifies this`log
      ensures log == old(log) + [SelectProfile(user)]
      ensures r == if fails then ReadFailed
                   else if user in profiles && user in users then Found(Joined(profiles[user], users[user]))
                   else NotFound
    {
      log := log + [SelectProfile(user)];
      if fails {
        r := ReadFailed;
      } else if user in profiles && user in users {
        r := Found(Joined(profiles[user], users[user]));
      } else {
        r := NotFound;
      }
    }

    /**
     * Inserts `{ user_id }` and selects it joined. The insert is refused when a
     * row for the user exists (one profile per user) or the user does not
     * (foreign key); then nothing changes.
     */
    method InsertDefault(user: UserId, fails: bool) returns (r: ReadResult)
      modifies this`profiles, this`log
      ensures log == old(log) + [InsertProfile(user)]
      ensures var ok := !fails && user !in old(profiles) && user in users;
              && profiles == (if ok then old(profiles)[user := DefaultRow(user)] else old(profiles))
              && r == (if ok then Found(Joined(DefaultRow(user), users[user])) else ReadFailed)
    {
      log := log + [InsertProfile(user)];
      if !fails && user !in profiles && user in users {
        profiles := profiles[user := DefaultRow(user)];
        r := Found(Joined(DefaultRow(user), users[user]));
      } else {
        r := ReadFailed;
      }
    }

    method UpdateName(user: UserId, name: Value, fails: bool) returns (ok: bool)
      modifies this`users, this`log
      ensures log == old(log) + [UpdateUserName(user)]
      ensures ok == !fails
      ensures users == if ok then Renamed(old(users), user, name) else old(users)
    {
      log := log + [UpdateUserName(user)];
      ok := !fails;
      if ok {
        users := Renamed(users, user, name);
      }
    }

    /** `upsert({ user_id, ...patch, updated_at: now }, { onConflict: "user_id" })`. */
    method Upsert(user: UserId, patch: Row, now: Value, fails: bool) returns (ok: bool)
      modifies this`profiles, this`log
      ensures log == old(log) + [UpsertProfile(user)]
      ensures ok == (!fails && UpsertAllowed(users, old(profiles), user))
      ensures profiles == if ok then UpsertedTable(old(profiles), user, patch, now) else old(profiles)
    {
      log := log + [UpsertProfile(user)];
      ok := !fails && UpsertAllowed(users, profiles, user);
      if ok {
        profiles := UpsertedTable(profiles, user, patch, now);
      }
    }

    /** `users.delete().eq("id", user)`; rows that depend on the user are the database's cascade. */
    method Delete(user: UserId, fails: bool) returns (ok: bool)
      modifies this`users, this`log
      ensures log == old(log) + [DeleteUser(user)]
      ensures ok == !fails
      ensures users == if ok then old(users) - {user} else old(users)
    {
      log := log + [DeleteUser(user)];
      ok := !fails;
      if ok {
        users := users - {user};
      }
    }
  }

  /** Testing one more field adds it to the picked fields exactly when the body defines it. */
  lemma PickExtend(body: Row, fields: seq<ProfileField>, f: ProfileField)
    ensures Pick(body, fields + [f])
         == if Field(f) in body then Pick(body, fields)[Field(f) := body[Field(f)]] else Pick(body, fields)
  {
  }

  /** Picking every field of the handler's list is the whole patch. */
  lemma PickAllIsPatch(body: Row)
    ensures Pick(body, ProfileFields) == Patch(body)
  {
    forall k | k in body && k.Field?
      ensures k.field in ProfileFields
    {
      ProfileFieldsComplete(k.field);
    }
  }

  /**
   * Builds `profileUpdate` field by field, in the order of `ProfileFields`:
   * each recognised field whose value is not `undefined` is copied under the
   * same key; `null` is a value like any other.
   */
  method BuildPatch(body: Row) returns (patch: Row)
    ensures forall k :: k in patch <==> k in body && k.Field?
    ensures forall k :: k in patch ==> patch[k] == body[k]
    ensures patch == Patch(body)
  {
    patch := map[];
    for i := 0 to |ProfileFields|
      invariant patch == Pick(body, ProfileFields[..i])
    {
      var key := Field(ProfileFields[i]);
      PickExtend(body, ProfileFields[..i], key.field);
      assert ProfileFields[..i + 1] == ProfileFields[..i] + [key.field];
      if key in body {
        patch := patch[key := body[key]];
      }
    }
    assert ProfileFields[..|ProfileFields|] == ProfileFields;
    PickAllIsPatch(body);
  }

  /** `GET`: read the joined row, or create the default row on `PGRST116`, and flatten it. */
  method GetProfile(user: Option<UserId>, db: Database?, readFails: bool, insertFails: bool)
    returns (r: Response)
    modifies db
    ensures user.None? ==> r == Unauthorized && (db != null ==> unchanged(db))
    ensures user.Some? && db == null ==> r == ServerError(NotConfigured)
    ensures user.Some? && db != null ==>
      var uid := user.value;
      var found := uid in old(db.profiles) && uid in old(db.users);
      var inserts := !readFails && !found;
      var created := inserts && !insertFails && uid in old(db.users);
      && db.users == old(db.users)
      && db.log == old(db.log) + [SelectProfile(uid)] + (if inserts then [InsertProfile(uid)] else [])
      && db.profiles == (if created then old(db.profiles)[uid := DefaultRow(uid)] else old(db.profiles))
      && r == (if readFails then ServerError(FetchFailed)
               else if found then Success(None, Some(Flatten(Joined(old(db.profiles)[uid], old(db.users)[uid]))))
               else if created then Success(None, Some(Flatten(Joined(DefaultRow(uid), old(db.users)[uid]))))
               else ServerError(FetchFailed))
  {
    if user.None? {
      return Unauthorized;
    }
    if db == null {
      return ServerError(NotConfigured);
    }
    var uid := user.value;
    var profile := db.SelectJoined(uid, readFails);
    if profile.ReadFailed? {
      return ServerError(FetchFailed);
    }
    if profile.NotFound? {
      var newProfile := db.InsertDefault(uid, insertFails);
      if newProfile.ReadFailed? {
        return ServerError(FetchFailed);
      }
      return Success(None, Some(Flatten(newProfile.row)));
    }
    r := Success(None, Some(Flatten(profile.row)));
  }

  /** What the writes of a `PUT` did: whether they all succeeded, the tables after them, the calls made. */
  datatype Writes = Writes(ok: bool, users: map<UserId, Row>, profiles: map<UserId, Row>, ops: seq<Op>)

  /**
   * The writes of `PUT` for an authenticated user with a parsed body: the
   * name first, when the body has `full_name`, then the upsert of the patch,
   * when it is non-empty. A failed write ends the sequence.
   */
  function PutWrites(users: map<UserId, Row>, profiles: map<UserId, Row>, user: UserId, body: Row,
                     now: Value, nameFails: bool, upsertFails: bool): (r: Writes)
    ensures |r.ops| <= 2
    ensures r.users.Keys == users.Keys
    ensures !r.ok ==> r.profiles == profiles
  {
    var patch := Patch(body);
    var renames := FullName in body;
    if renames && nameFails then Writes(false, users, profiles, [UpdateUserName(user)])
    else
      var users1 := if renames then Renamed(users, user, body[FullName]) else users;
      var nameOps := if renames then [UpdateUserName(user)] else [];
      if |patch| == 0 then Writes(true, users1, profiles, nameOps)
      else if upsertFails || !UpsertAllowed(users1, profiles, user) then
        Writes(false, users1, profiles, nameOps + [UpsertProfile(user)])
      else Writes(true, users1, UpsertedTable(profiles, user, patch, now), nameOps + [UpsertProfile(user)])
  }

  method WriteProfileUpdate(db: Database, user: UserId, body: Row, now: Value, nameFails: bool, upsertFails: bool)
    returns (ok: bool)
    modifies db
    ensures var w := PutWrites(old(db.users), old(db.profiles), user, body, now, nameFails, upsertFails);
      && ok == w.ok && db.users == w.users && db.profiles == w.profiles && db.log == old(db.log) + w.ops
  {
    ghost var users0, profiles0, log0 := db.users, db.profiles, db.log;
    ghost var w := PutWrites(users0, profiles0, user, body, now, nameFails, upsertFails);
    ok := true;
    if FullName in body {
      ok := db.UpdateName(user, body[FullName], nameFails);
      if !ok {
        assert w == Writes(false, users0, profiles0, [UpdateUserName(user)]);
        return;
      }
    }
    ghost var users1, nameOps := db.users, db.log[|log0|..];
    assert db.log == log0 + nameOps;
    assert users1 == if FullName in body then Renamed(users0, user, body[FullName]) else users0;
    assert nameOps == if FullName in body then [UpdateUserName(user)] else [];
    var profileUpdate := BuildPatch(body);
    if |profileUpdate| > 0 {
      ok := db.Upsert(user, profileUpdate, now, upsertFails);
      assert db.log == log0 + (nameOps + [UpsertProfile(user)]);
      if ok {
        assert w == Writes(true, users1, UpsertedTable(profiles0, user, profileUpdate, now), nameOps + [UpsertProfile(user)]);
      } else {
        assert w == Writes(false, users1, profiles0, nameOps + [UpsertProfile(user)]);
      }
    } else {
      assert w == Writes(true, users1, profiles0, nameOps);
    }
  }

  /**
   * `PUT`. `body` is the parsed request body; `None` is a body that does not
   * parse or is `null`, which the destructuring rejects. `now` is the
   * `updated_at` timestamp.
   */
  method PutProfile(user: Option<UserId>, body: Option<Row>, db: Database?, now: Value,
                    nameFails: bool, upsertFails: bool, fetchFails: bool)
    returns (r: Response)
    modifies db
    ensures user.None? ==> r == Unauthorized && (db != null ==> unchanged(db))
    ensures user.Some? && body.None? ==> r == ServerError(UpdateFailed) && (db != null ==> unchanged(db))
    ensures user.Some? && body.Some? && db == null ==> r == ServerError(NotConfigured)
    ensures user.Some? && body.Some? && db != null ==>
      var uid := user.value;
      var w := PutWrites(old(db.users), old(db.profiles), uid, body.value, now, nameFails, upsertFails);
      && db.users == w.users
      && db.profiles == w.profiles
      && db.log == old(db.log) + w.ops + (if w.ok then [SelectProfile(uid)] else [])
      && r == (if !w.ok || fetchFails || uid !in w.profiles || uid !in w.users
               then ServerError(UpdateFailed)
               else Success(Some(Updated), Some(Flatten(Joined(w.profiles[uid], w.users[uid])))))
  {
    if user.None? {
      return Unauthorized;
    }
    if body.None? {
      return ServerError(UpdateFailed);
    }
    if db == null {
      return ServerError(NotConfigured);
    }
    var uid := user.value;
    var ok := WriteProfileUpdate(db, uid, body.value, now, nameFails, upsertFails);
    if !ok {
      return ServerError(UpdateFailed);
    }
    var updatedProfile := db.SelectJoined(uid, fetchFails);
    if !updatedProfile.Found? {
      return ServerError(UpdateFailed);
    }
    r := Success(Some(Updated), Some(Flatten(updatedProfile.row)));
  }

  /** A body with no recognised field and no `full_name` writes nothing. */
  lemma EmptyPayloadWritesNothing(users: map<UserId, Row>, profiles: map<UserId, Row>, user: UserId, body: Row,
                                  now: Value, nameFails: bool, upsertFails: bool)
    requires FullName !in body
    requires forall k :: k in body ==> !k.Field?
    ensures PutWrites(users, profiles, user, body, now, nameFails, upsertFails)
         == Writes(true, users, profiles, [])
  {
    assert Patch(body) == map[];
  }

  /**
   * The name is written first and a failure there stops everything; the
   * upsert happens exactly when the name write did not fail and the patch is
   * non-empty.
   */
  lemma PutWriteOrder(users: map<UserId, Row>, profiles: map<UserId, Row>, user: UserId, body: Row,
                      now: Value, nameFails: bool, upsertFails: bool)
    ensures var w := PutWrites(users, profiles, user, body, now, nameFails, upsertFails);
      var renames := FullName in body;
      var upserts := !(renames && nameFails) && |Patch(body)| > 0;
      && w.ops == (if renames then [UpdateUserName(user)] else []) + (if upserts then [UpsertProfile(user)] else [])
      && (renames && nameFails ==> !w.ok && w.users == users && w.profiles == profiles)
  {
  }

  /** `PUT` never touches another user's profile row, and leaves the profiles alone when the patch is empty. */
  lemma PutKeepsOtherProfiles(users: map<UserId, Row>, profiles: map<UserId, Row>, user: UserId, body: Row,
                              now: Value, nameFails: bool, upsertFails: bool)
    ensures var w := PutWrites(users, profiles, user, body, now, nameFails, upsertFails);
      && (forall u :: u in profiles && u != user ==> u in w.profiles && w.profiles[u] == profiles[u])
      && (|Patch(body)| == 0 ==> w.profiles == profiles)
  {
    var w := PutWrites(users, profiles, user, body, now, nameFails, upsertFails);
    var users1 := if FullName in body then Renamed(users, user, body[FullName]) else users;
    if !(FullName in body && nameFails) && |Patch(body)| > 0 && !upsertFails && UpsertAllowed(users1, profiles, user) {
      assert w.profiles == UpsertedTable(profiles, user, Patch(body), now);
    } else {
      assert w.profiles == profiles;
    }
  }

  /** `PUT` never touches another user's `users` row. */
  lemma PutKeepsOtherUsers(users: map<UserId, Row>, profiles: map<UserId, Row>, user: UserId, body: Row,
                           now: Value, nameFails: bool, upsertFails: bool)
    ensures var w := PutWrites(users, profiles, user, body, now, nameFails, upsertFails);
      forall u :: u in users && u != user ==> u in w.users && w.users[u] == users[u]
  {
    var w := PutWrites(users, profiles, user, body, now, nameFails, upsertFails);
    if FullName in body && !nameFails {
      assert w.users == Renamed(users, user, body[FullName]);
    } else {
      assert w.users == users;
    }
  }

  /**
   * When neither write fails, the upsert is accepted (the profile or its user
   * exists) and the body has a recognised field, the caller's profile row
   * holds the body's value for every recognised field, a fresh `updated_at`,
   * and every other column it had before.
   */
  lemma PutPatchesCallerRow(users: map<UserId, Row>, profiles: map<UserId, Row>, user: UserId, body: Row,
                            now: Value, nameFails: bool, upsertFails: bool)
    requires !(FullName in body && nameFails) && !upsertFails
    requires user in profiles || user in users
    requires exists k :: k in body && k.Field?
    ensures var w := PutWrites(users, profiles, user, body, now, nameFails, upsertFails);
      && w.ok
      && user in w.profiles
      && w.profiles[user][UpdatedAt] == now
      && (forall k :: k in body && k.Field? ==> w.profiles[user][k] == body[k])
      && (user in profiles ==>
            forall k :: k in profiles[user] && !(k in body && k.Field?) && k !in {UserIdCol, UpdatedAt}
              ==> w.profiles[user][k] == profiles[user][k])
  {
    var k :| k in body && k.Field?;
    assert k in Patch(body);
    var existing := if user in profiles then profiles[user] else map[];
    assert PutWrites(users, profiles, user, body, now, nameFails, upsertFails).profiles[user]
        == Upserted(existing, user, Patch(body), now);
  }

  /** `DELETE`: one delete of the user's `users` row. */
  method DeleteProfile(user: Option<UserId>, db: Database?, deleteFails: bool) returns (r: Response)
    modifies db
    ensures user.None? ==> r == Unauthorized && (db != null ==> unchanged(db))
    ensures user.Some? && db == null ==> r == ServerError(NotConfigured)
    ensures user.Some? && db != null ==>
      && db.log == old(db.log) + [DeleteUser(user.value)]
      && db.profiles == old(db.profiles)
      && db.users == (if deleteFails then old(db.users) else old(db.users) - {user.value})
      && r == (if deleteFails then ServerError(DeleteFailed) else Success(Some(Deleted), None))
  {
    if user.None? {
      return Unauthorized;
    }
    if db == null {
      return ServerError(NotConfigured);
    }
    var ok := db.Delete(user.value, deleteFails);
    if !ok {
      return ServerError(DeleteFailed);
    }
    r := Success(Some(Deleted), None);
  }

  /** The flattened reply carries the joined user's name, email and avatar, whatever the profile holds. */
  lemma FlattenedIdentity(profile: Row, user: Row)
    ensures var r := Flatten(Joined(profile, user));
      && r[FullName] == Col(user, Name)
      && r[Email] == Col(user, Email)
      && r[Avatar] == Col(user, Avatar)
      && forall k :: k in profile && k !in {FullName, Email, Avatar, Users} ==> r[k] == profile[k]
  {
  }
}
