/** The system service: the key/value settings collection with its upsert, and
    staff accounts (creation with its validation order, and the staff listing
    that never shows a password hash). The clock, the id generator and the
    password hash function are parameters. */
module System {
  import opened Common
  import opened Views
  import opened Documents

  // ---------------------------------------------------------------------------
  // Settings
  // ---------------------------------------------------------------------------

  datatype SystemSetting = SystemSetting(
    key: string,
    value: string,
    description: Option<string>,
    createdAt: int,
    updatedAt: int)

  ghost predicate UniqueKeys(settings: seq<SystemSetting>) {
    forall i, j :: 0 <= i < j < |settings| ==> settings[i].key != settings[j].key
  }

  /** `find_one({"key": key})`: the position of the first setting with the key. */
  function KeyIndex(settings: seq<SystemSetting>, key: string): (r: Option<nat>)
    ensures r.Some? ==> r.value < |settings| && settings[r.value].key == key
    ensures r.Some? ==> forall j :: 0 <= j < r.value ==> settings[j].key != key
    ensures r.None? ==> forall j :: 0 <= j < |settings| ==> settings[j].key != key
    decreases |settings|
  {
    if settings == [] then None
    else if settings[0].key == key then Some(0)
    else match KeyIndex(settings[1..], key)
      case None => None
      case Some(i) => Some(i + 1)
  }

  /** The collection after an upsert: the setting with the key carries the new
      value, description and update time; an existing one keeps its place and
      creation time, a new one goes last; every other setting is unchanged,
      and the keys stay unique. */
  function Upserted(settings: seq<SystemSetting>, key: string, value: string, description: Option<string>, now: int)
    : (r: seq<SystemSetting>)
    requires UniqueKeys(settings)
    ensures UniqueKeys(r)
    ensures |r| == |settings| + (if KeyIndex(settings, key).Some? then 0 else 1)
    ensures KeyIndex(r, key).Some?
    ensures var i := KeyIndex(r, key).value;
      r[i].value == value && r[i].description == description && r[i].updatedAt == now
    ensures forall j :: 0 <= j < |r| && r[j].key == key ==> j == KeyIndex(r, key).value
    ensures forall j :: 0 <= j < |settings| && settings[j].key != key ==> r[j] == settings[j]
    ensures KeyIndex(settings, key).Some? ==>
      KeyIndex(r, key) == KeyIndex(settings, key)
      && r[KeyIndex(r, key).value].createdAt == settings[KeyIndex(settings, key).value].createdAt
    ensures KeyIndex(settings, key).None? ==> r[|settings|].createdAt == now
  {
    match KeyIndex(settings, key)
    case Some(i) =>
      var r := settings[i := settings[i].(value := value, description := description, updatedAt := now)];
      KeyIndexSameKeys(settings, r, key);
      r
    case None =>
      var r := settings + [SystemSetting(key, value, description, now, now)];
      assert KeyIndex(r, key).Some? by {
        KeyIndexOfLast(settings, SystemSetting(key, value, description, now, now));
      }
      r
  }

  /** The lookup depends only on the keys. */
  lemma {:induction false} KeyIndexSameKeys(a: seq<SystemSetting>, b: seq<SystemSetting>, key: string)
    requires |a| == |b| && forall j :: 0 <= j < |a| ==> a[j].key == b[j].key
    ensures KeyIndex(a, key) == KeyIndex(b, key)
    decreases |a|
  {
    if a != [] {
      KeyIndexSameKeys(a[1..], b[1..], key);
    }
  }

  /** A key found nowhere else is found at the end. */
  lemma {:induction false} KeyIndexOfLast(settings: seq<SystemSetting>, s: SystemSetting)
    requires forall j :: 0 <= j < |settings| ==> settings[j].key != s.key
    ensures KeyIndex(settings + [s], s.key) == Some(|settings|)
    decreases |settings|
  {
    if settings != [] {
      assert (settings + [s])[1..] == settings[1..] + [s];
      KeyIndexOfLast(settings[1..], s);
    }
  }

  /** Upserting the same setting twice in a row only moves its update time. */
  lemma UpsertTwice(settings: seq<SystemSetting>, key: string, value: string, description: Option<string>,
                    now: int, later: int)
    requires UniqueKeys(settings)
    ensures var once := Upserted(settings, key, value, description, now);
      var twice := Upserted(once, key, value, description, later);
      |twice| == |once|
      && forall j :: 0 <= j < |once| ==> twice[j] == (if once[j].key == key then once[j].(updatedAt := later) else once[j])
  {
  }

  /** The `system_settings` collection. */
  class SettingsCollection {
    var settings: seq<SystemSetting>

    ghost predicate Valid()
      reads this
    {
      UniqueKeys(settings)
    }

    constructor ()
      ensures Valid() && settings == []
    {
      settings := [];
    }

    /** Updates the setting with the key, or creates it. */
    method UpdateSettings(key: string, value: string, description: Option<string>, now: int)
      returns (message: string, echoed: string)
      requires Valid()
      modifies this`settings
      ensures Valid()
      ensures settings == Upserted(old(settings), key, value, description, now)
      ensures message == "Setting updated successfully" && echoed == key
    {
      var existing := KeyIndex(settings, key);
      if existing.Some? {
        var i := existing.value;
        settings := settings[i := settings[i].(value := value, description := description, updatedAt := now)];
      } else {
        settings := settings + [SystemSetting(key, value, description, now, now)];
      }
      return "Setting updated successfully", key;
    }
  }

  // ---------------------------------------------------------------------------
  // Staff
  // ---------------------------------------------------------------------------

  const StaffRoles: seq<string> := ["admin", "librarian"]

  const RoleRefused := HttpError(400, "Role must be 'admin' or 'librarian'")
  const EmailRefused := HttpError(400, "Email already registered")

  /** `find_one({"email": email})` finds a user. */
  predicate EmailTaken(users: seq<Doc>, email: string) {
    exists i :: 0 <= i < |users| && Get(users[i], "email", JNull) == JStr(email)
  }

  /** Why a staff request is refused, if it is: the role is checked first, so a
      bad role is reported even for a registered email. */
  function StaffRefusal(users: seq<Doc>, email: string, role: string): (e: Option<HttpError>)
    ensures role !in StaffRoles ==> e == Some(RoleRefused)
    ensures role in StaffRoles ==> (e.Some? <==> EmailTaken(users, email))
    ensures e.Some? ==> e.value == RoleRefused || e.value == EmailRefused
  {
    if role !in StaffRoles then Some(RoleRefused)
    else if EmailTaken(users, email) then Some(EmailRefused)
    else None
  }

  /** The stored account: the password only as its hash, active, created now. */
  function StaffDoc(id: string, email: string, fullName: string, passwordHash: string, role: string, now: int)
    : (d: Doc)
    ensures d.Keys == {"_id", "email", "password_hash", "full_name", "role", "is_active", "created_at"}
    ensures d["_id"] == JOid(id) && d["email"] == JStr(email) && d["role"] == JStr(role)
    ensures d["password_hash"] == JStr(passwordHash) && d["is_active"] == JBool(true)
  {
    map[
      "_id" := JOid(id),
      "email" := JStr(email),
      "password_hash" := JStr(passwordHash),
      "full_name" := JStr(fullName),
      "role" := JStr(role),
      "is_active" := JBool(true),
      "created_at" := JInt(now)]
  }

  datatype StaffCreated = StaffCreated(message: string, userId: string, role: string)

  /** The `users` collection. */
  class UserStore {
    var users: seq<Doc>

    constructor (users: seq<Doc>)
      ensures this.users == users
    {
      this.users := users;
    }

    /** Creates a staff account after the role and email checks; a refused
        request leaves the store as it was. */
    method AddStaff(email: string, fullName: string, password: string, role: string,
                    hash: string -> string, freshId: string, now: int)
      returns (r: Result<StaffCreated>)
      modifies this`users
      ensures StaffRefusal(old(users), email, role).Some? ==>
        r == Err(StaffRefusal(old(users), email, role).value) && users == old(users)
      ensures StaffRefusal(old(users), email, role).None? ==>
        r == Ok(StaffCreated("Staff member added successfully", freshId, role))
        && users == old(users) + [StaffDoc(freshId, email, fullName, hash(password), role, now)]
    {
      if role !in StaffRoles {
        return Err(RoleRefused);
      }
      if EmailTaken(users, email) {
        return Err(EmailRefused);
      }
      users := users + [StaffDoc(freshId, email, fullName, hash(password), role, now)];
      r := Ok(StaffCreated("Staff member added successfully", freshId, role));
    }
  }

  /** `{"role": {"$in": ["admin", "librarian"]}}`. */
  predicate IsStaff(d: Doc) {
    "role" in d && d["role"].JStr? && d["role"].s in StaffRoles
  }

  /** A listed account: id exposed, password hash removed. */
  function StaffView(d: Doc): (r: Doc)
    requires Stored(d)
    ensures "id" in r && "_id" !in r && "password_hash" !in r
    ensures forall k :: k in d && k !in {"_id", "id", "password_hash"} ==> k in r && r[k] == d[k]
  {
    Exposed(d) - {"password_hash"}
  }

  ghost predicate AllStored(docs: seq<Doc>) {
    forall i :: 0 <= i < |docs| ==> Stored(docs[i])
  }

  function Staff(users: seq<Doc>): seq<Doc> {
    Filter(users, IsStaff)
  }

  /** The listing loop: every staff account in collection order, without its
      password hash, and their number. */
  method ListStaff(users: seq<Doc>) returns (staff: seq<Doc>, total: int)
    requires AllStored(users)
    ensures total == |staff| == |Staff(users)|
    ensures forall i :: 0 <= i < |staff| ==>
      Stored(Staff(users)[i]) && staff[i] == StaffView(Staff(users)[i])
    ensures forall i :: 0 <= i < |staff| ==> "password_hash" !in staff[i] && IsStaff(staff[i])
  {
    var cursor := Staff(users);
    FilterKeeps(users, IsStaff, Stored);
    staff := [];
    var i := 0;
    while i < |cursor|
      invariant 0 <= i <= |cursor|
      invariant |staff| == i
      invariant forall j :: 0 <= j < i ==> staff[j] == StaffView(cursor[j]) && IsStaff(staff[j])
    {
      var view := StaffView(cursor[i]);
      assert view["role"] == cursor[i]["role"];
      staff := staff + [view];
      i := i + 1;
    }
    total := |staff|;
  }
}
