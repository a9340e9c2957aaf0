/** convex/users.ts: one user record per signed-in account. */
module Users {
  import opened Wrappers
  import opened Tables
  import opened Schema
  import opened Store

  /** What `getOrCreateUser` returns: the stored record when there is one, else the new record's id. */
  datatype UserResult = Existing(doc: Doc<User>) | Created(id: Id)

  function HasClerkId(clerkId: string): User -> bool {
    (u: User) => u.clerkId == clerkId
  }

  /** `getUser`: the first user in the table with that clerk id, or null. */
  function GetUser(s: State, clerkId: string): (r: Option<Doc<User>>)
    ensures r.Some? ==> r.value in s.users && r.value.value.clerkId == clerkId
    ensures r.None? <==> forall i :: 0 <= i < |s.users| ==> s.users[i].value.clerkId != clerkId
  {
    First(s.users, HasClerkId(clerkId))
  }

  /**
   * `getOrCreateUser`: the caller's existing record, or a new one built from the identity.
   * The non-null assertions on name, email and picture do nothing at run time: a missing one
   * reaches the insert as undefined and the table's validator rejects it.
   */
  function GetOrCreate(s: State, identity: Option<Identity>): (r: Result<(State, UserResult)>)
    ensures identity.None? ==> r == Err(UNAUTHORIZED)
    ensures identity.Some? && GetUser(s, identity.value.subject).Some? ==>
      r == Ok((s, Existing(GetUser(s, identity.value.subject).value)))
    ensures r.Ok? && r.value.1.Created? ==>
      var id := identity.value;
      && GetUser(s, id.subject).None?
      && id.name.Some? && id.email.Some? && id.pictureUrl.Some?
      && r.value.1.id == s.nextId
      && r.value.0 == s.(users := s.users + [Doc(s.nextId, User(id.subject, id.name.value, id.email.value, id.pictureUrl.value))],
                         nextId := s.nextId + 1)
    ensures identity.Some? && GetUser(s, identity.value.subject).None? && r.Ok? ==> r.value.1.Created?
    ensures identity.Some? && GetUser(s, identity.value.subject).None? ==>
      (r.Ok? <==> identity.value.name.Some? && identity.value.email.Some? && identity.value.pictureUrl.Some?)
  {
    if identity.None? then Err(UNAUTHORIZED)
    else
      var id := identity.value;
      match GetUser(s, id.subject)
      case Some(u) => Ok((s, Existing(u)))
      case None =>
        if id.name.None? || id.email.None? || id.pictureUrl.None? then Err(INVALID)
        else
          Ok((s.(users := s.users + [Doc(s.nextId, User(id.subject, id.name.value, id.email.value, id.pictureUrl.value))],
                 nextId := s.nextId + 1), Created(s.nextId)))
  }

  /** A successful call leaves the store well formed with a record for the caller that `getUser` finds. */
  lemma GetOrCreateFindsCaller(s: State, identity: Option<Identity>)
    requires WellFormed(s)
    requires GetOrCreate(s, identity).Ok?
    ensures var (t, res) := GetOrCreate(s, identity).value;
      && WellFormed(t)
      && GetUser(t, identity.value.subject).Some?
      && (res.Existing? ==> GetUser(t, identity.value.subject).value == res.doc)
      && (res.Created? ==> GetUser(t, identity.value.subject).value.id == res.id)
  {
    var (t, res) := GetOrCreate(s, identity).value;
    if res.Created? {
      var u := t.users[|t.users| - 1];
      AppendKeepsIncreasing(s.users, s.nextId, u.value);
      var f := GetUser(t, identity.value.subject);
      assert f.Some? by { assert t.users[|s.users|].value.clerkId == identity.value.subject; }
    }
  }

  /** The number of records of `clerkId`. */
  function CountOf(users: seq<Doc<User>>, clerkId: string): nat {
    if users == [] then 0
    else (if users[0].value.clerkId == clerkId then 1 else 0) + CountOf(users[1..], clerkId)
  }

  lemma {:induction false} CountZero(users: seq<Doc<User>>, clerkId: string)
    ensures CountOf(users, clerkId) == 0 <==> forall i :: 0 <= i < |users| ==> users[i].value.clerkId != clerkId
  {
    if users != [] {
      CountZero(users[1..], clerkId);
      assert forall i :: 1 <= i < |users| ==> users[i] == users[1..][i - 1];
    }
  }

  lemma {:induction false} CountAppend(users: seq<Doc<User>>, d: Doc<User>, clerkId: string)
    ensures CountOf(users + [d], clerkId) == CountOf(users, clerkId) + (if d.value.clerkId == clerkId then 1 else 0)
  {
    if users != [] {
      assert (users + [d])[1..] == users[1..] + [d];
      CountAppend(users[1..], d, clerkId);
    }
  }

  /**
   * Calling `getOrCreateUser` again with the same identity changes nothing and returns the stored
   * record; after any number of successful calls the caller has exactly one record, however many
   * the table had for others.
   */
  lemma GetOrCreateTwice(s: State, identity: Option<Identity>)
    requires WellFormed(s)
    requires GetOrCreate(s, identity).Ok?
    requires CountOf(s.users, identity.value.subject) <= 1
    ensures var t := GetOrCreate(s, identity).value.0;
      && GetOrCreate(t, identity).Ok?
      && GetOrCreate(t, identity).value.0 == t
      && GetOrCreate(t, identity).value.1.Existing?
      && CountOf(t.users, identity.value.subject) == 1
  {
    GetOrCreateFindsCaller(s, identity);
    var (t, res) := GetOrCreate(s, identity).value;
    var subject := identity.value.subject;
    if res.Created? {
      CountZero(s.users, subject);
      CountAppend(s.users, t.users[|t.users| - 1], subject);
      assert t.users == s.users + [t.users[|t.users| - 1]];
    } else {
      CountZero(s.users, subject);
    }
  }

  /** `getOrCreateUser` on the store object. */
  method GetOrCreateUser(db: Db, identity: Option<Identity>) returns (r: Result<UserResult>)
    requires db.Valid()
    modifies db
    ensures db.Valid()
    ensures var spec := GetOrCreate(old(db.Snapshot()), identity);
      && r.Ok? == spec.Ok?
      && (spec.Ok? ==> r.value == spec.value.1 && db.Snapshot() == spec.value.0)
      && (spec.Err? ==> r == Err(spec.msg) && db.Snapshot() == old(db.Snapshot()))
  {
    if identity.None? {
      return Err(UNAUTHORIZED);
    }
    var id := identity.value;
    var existing := First(db.users, HasClerkId(id.subject));
    if existing.Some? {
      return Ok(Existing(existing.value));
    }
    if id.name.None? || id.email.None? || id.pictureUrl.None? {
      return Err(INVALID);
    }
    var u := User(id.subject, id.name.value, id.email.value, id.pictureUrl.value);
    var newId := db.nextId;
    AppendKeepsIncreasing(db.users, newId, u);
    db.users := db.users + [Doc(newId, u)];
    db.nextId := newId + 1;
    r := Ok(Created(newId));
  }
}
