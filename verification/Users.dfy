/** User rows (user.repository.ts) under the database's uniqueness constraints. */
module Users {
  import opened Wrappers
  import opened Slug
  import opened Credentials

  type Id = string

  /** A row of the user table. A password or refresh-token hash is represented by the text it
      verifies; `details` holds the columns no flow here reads (contact, bank, storefront). */
  datatype Row = Row(
    id: Id, email: string, password: string, provider: Provider, isEmailVerified: bool,
    twoFactorEnabled: bool, userType: Option<UserType>, refreshToken: Option<Token>, lastLoginAt: Option<nat>,
    profile: Profile, details: map<string, string>)

  type Table = map<Id, Row>

  // @id and @unique on the email column.
  ghost predicate Keyed(t: Table) {
    && (forall id <- t :: t[id].id == id && id != "" && t[id].email != "")
    && (forall id <- t, id' <- t :: t[id].email == t[id'].email ==> id == id')
  }

  // The value stands in the column of some row but id's; null never clashes.
  predicate TakenBySlug(t: Table, id: Id, p: Profile) {
    exists other :: other in t && other != id && SameSlug(t[other].profile, p)
  }

  predicate SameSlug(p: Profile, q: Profile) {
    (p.slug.Some? && p.slug == q.slug) || (p.slugId.Some? && p.slugId == q.slugId)
  }

  // @unique on the slug columns as well.
  ghost predicate Unique(t: Table) {
    Keyed(t) && forall id <- t :: !TakenBySlug(t, id, t[id].profile)
  }

  // The unique columns, one by one: null may stand in any number of rows.
  lemma UniqueColumns(t: Table)
    ensures Unique(t) <==>
            && (forall id <- t :: t[id].id == id && id != "" && t[id].email != "")
            && (forall a <- t, b <- t :: a != b ==>
                  && t[a].email != t[b].email
                  && (t[a].profile.slug == t[b].profile.slug ==> t[b].profile.slug == None)
                  && (t[a].profile.slugId == t[b].profile.slugId ==> t[b].profile.slugId == None))
  {
    forall a <- t, b <- t | Unique(t) && a != b ensures !SameSlug(t[b].profile, t[a].profile) {
      assert !TakenBySlug(t, a, t[a].profile);
    }
    assert forall a <- t, b <- t :: SameSlug(t[b].profile, t[a].profile) <==>
        (t[b].profile.slug.Some? && t[b].profile.slug == t[a].profile.slug) ||
        (t[b].profile.slugId.Some? && t[b].profile.slugId == t[a].profile.slugId);
  }

  // A slug or slug id that is not null stands in a row of somebody else.
  lemma TakenColumns(t: Table, id: Id, p: Profile)
    ensures TakenBySlug(t, id, p) <==>
            exists other <- t :: other != id && ((p.slug != None && t[other].profile.slug == p.slug) ||
                                                 (p.slugId != None && t[other].profile.slugId == p.slugId))
  {
    assert forall other <- t :: SameSlug(t[other].profile, p) <==>
        (p.slug != None && t[other].profile.slug == p.slug) ||
        (p.slugId != None && t[other].profile.slugId == p.slugId);
  }

  lemma NoClash(t: Table, row: Row, id: Id, other: Id)
    requires Unique(t) && !TakenBySlug(t, row.id, row.profile) && other != id
    requires id in t[row.id := row] && other in t[row.id := row]
    ensures !SameSlug(t[row.id := row][other].profile, t[row.id := row][id].profile)
  {
    var t' := t[row.id := row];
    assert SameSlug(t'[other].profile, t'[id].profile) <==> SameSlug(t'[id].profile, t'[other].profile);
    if id != row.id && other != row.id {
      assert !TakenBySlug(t, id, t[id].profile);
    }
  }

  // A row rewritten to a profile that clashes with no other keeps the table unique.
  lemma UniqueUpdate(t: Table, row: Row)
    requires Unique(t) && row.id in t && row.email == t[row.id].email && !TakenBySlug(t, row.id, row.profile)
    ensures Unique(t[row.id := row])
  {
    var t' := t[row.id := row];
    forall id <- t', other <- t' | other != id ensures !SameSlug(t'[other].profile, t'[id].profile) {
      NoClash(t, row, id, other);
    }
  }

  lemma UniqueRow(t: Table, id: Id)
    requires Unique(t) && id in t
    ensures t[id].id == id && id != "" && !TakenBySlug(t, id, t[id].profile)
  {
  }

  // Slugs printed from distinct parsable ids are distinct, so where every slug is kept by the
  // generator the id column alone decides whether an update clashes.
  lemma ClashIsIdClash(lower: LowerCase, t: Table, id: Id, p: Profile)
    requires Coherent(lower, p) && forall other <- t :: Coherent(lower, t[other].profile)
    ensures TakenBySlug(t, id, p) <==>
            exists other :: other in t && other != id && p.slugId.Some? && t[other].profile.slugId == p.slugId
  {
    if other :| other in t && other != id && SameSlug(t[other].profile, p) {
      var q := t[other].profile;
      if p.slugId != q.slugId {
        DistinctIdsDistinctSlugs(lower, p.names, q.names, p.slugId.value, q.slugId.value);
      }
    }
    if other :| other in t && other != id && p.slugId.Some? && t[other].profile.slugId == p.slugId {
      assert SameSlug(t[other].profile, p);
    }
  }

  ghost function ByEmail(t: Table, email: string): (r: Option<Id>)
    ensures r.Some? ==> r.value in t && t[r.value].email == email
    ensures r.None? ==> forall id <- t :: t[id].email != email
  {
    if id :| id in t && t[id].email == email then Some(id) else None
  }

  /** The fields an update may carry; absent ones are left alone. */
  datatype UserUpdate = UserUpdate(
    id: Option<Id>, password: Option<string>, provider: Option<Provider>, isEmailVerified: Option<bool>,
    twoFactorEnabled: Option<bool>, userType: Option<Option<UserType>>, lastLoginAt: Option<Option<nat>>,
    profile: ProfileUpdate, details: map<string, string>)

  const NO_CHANGE := UserUpdate(None, None, None, None, None, None, None, NO_PROFILE_CHANGE, map[])

  // The id the row is to have is its own or free.
  predicate IdFree(t: Table, id: Id, u: UserUpdate) {
    u.id.GetOr(id) == id || (u.id.value != "" && u.id.value !in t)
  }

  // A row moved to another key and rewritten to a profile that clashes with no other.
  lemma UniqueMove(t: Table, id: Id, row: Row)
    requires Unique(t) && id in t && row.email == t[id].email && row.id != "" && (row.id == id || row.id !in t)
    requires !TakenBySlug(t, id, row.profile)
    ensures Unique((t - {id})[row.id := row])
  {
    var rest, t' := t - {id}, (t - {id})[row.id := row];
    forall other <- rest ensures !TakenBySlug(rest, other, rest[other].profile) {
      assert !TakenBySlug(t, other, t[other].profile);
    }
    assert Unique(rest) && row.id !in rest && !TakenBySlug(rest, row.id, row.profile);
    assert forall other <- rest :: rest[other].email != row.email;
    UniqueCreate(rest, row);
  }

  // A stored hash dates the last login; clearing the hash leaves the date.
  function Stored(row: Row, token: Option<Token>, now: nat): Row {
    row.(refreshToken := token, lastLoginAt := if token.Some? then Some(now) else row.lastLoginAt)
  }

  lemma UniqueCreate(t: Table, row: Row)
    requires Unique(t) && row.id != "" && row.id !in t && row.email != "" && ByEmail(t, row.email).None?
    requires !TakenBySlug(t, row.id, row.profile)
    ensures Unique(t[row.id := row])
  {
    var t' := t[row.id := row];
    forall id <- t', other <- t' | other != id ensures !SameSlug(t'[other].profile, t'[id].profile) {
      NoClash(t, row, id, other);
    }
  }

  /** `UserRepository`. A result of None stands for the exception thrown when no row matches. */
  class UserRepository {
    const lower: LowerCase
    var rows: Table
    ghost var created: map<Id, string>

    constructor (lower: LowerCase)
      ensures rows == map[] && created == map[] && this.lower == lower
    {
      this.lower, rows, created := lower, map[], map[];
    }

    method FindById(id: Id) returns (r: Option<Row>)
      ensures r == if id in rows then Some(rows[id]) else None
    {
      r := if id in rows then Some(rows[id]) else None;
    }

    method FindByEmail(email: string) returns (r: Option<Row>)
      requires Keyed(rows)
      ensures match ByEmail(rows, email) case None => r == None case Some(id) => r == Some(rows[id])
    {
      var ids := set id | id in rows && rows[id].email == email;
      if ids == {} {
        assert forall id <- rows :: id !in ids;
        r := None;
      } else {
        var id :| id in ids;
        r := Some(rows[id]);
      }
    }

    // False when a uniqueness constraint or the schema of the row is violated.
    method Create(row: Row) returns (ok: bool)
      requires Unique(rows)
      modifies this
      ensures ok <==> row.id != "" && row.id !in old(rows) && row.email != "" && ByEmail(old(rows), row.email).None? &&
                      !TakenBySlug(old(rows), row.id, row.profile)
      ensures ok ==> rows == old(rows)[row.id := row] && created == old(created)[row.id := row.password]
      ensures !ok ==> rows == old(rows) && created == old(created)
      ensures Unique(rows)
    {
      var taken := FindByEmail(row.email);
      ok := row.id != "" && row.id !in rows && row.email != "" && taken.None? &&
          !TakenBySlug(rows, row.id, row.profile);
      if ok {
        UniqueCreate(rows, row);
        rows, created := rows[row.id := row], created[row.id := row.password];
      }
    }

    method Update(id: Id, u: UserUpdate, nano: string) returns (r: Option<Row>)
      requires Unique(rows) && NanoId(nano)
      modifies this`rows
      ensures r.Some? <==> id in old(rows) &&
                           (u.id == None || u.id == Some(id) || (u.id.value != "" && u.id.value !in old(rows))) &&
                           !TakenBySlug(old(rows), id, UpdateProfile(lower, old(rows)[id].profile, u.profile, nano))
      ensures r.Some? ==> rows == (old(rows) - {id})[r.value.id := r.value] &&
                          r.value.profile == UpdateProfile(lower, old(rows)[id].profile, u.profile, nano)
      ensures r.None? ==> rows == old(rows)
      ensures r.Some? ==>
                var row, names := old(rows)[id], r.value.profile.names;
                && r.value.id == (if u.id.Some? then u.id.value else row.id)
                && r.value.email == row.email && r.value.refreshToken == row.refreshToken
                && r.value.password == (if u.password.Some? then u.password.value else row.password)
                && r.value.provider == (if u.provider.Some? then u.provider.value else row.provider)
                && r.value.isEmailVerified ==
                   (if u.isEmailVerified.Some? then u.isEmailVerified.value else row.isEmailVerified)
                && r.value.twoFactorEnabled ==
                   (if u.twoFactorEnabled.Some? then u.twoFactorEnabled.value else row.twoFactorEnabled)
                && r.value.userType == (if u.userType.Some? then u.userType.value else row.userType)
                && r.value.lastLoginAt == (if u.lastLoginAt.Some? then u.lastLoginAt.value else row.lastLoginAt)
                && (forall k :: k in r.value.details <==> k in u.details || k in row.details)
                && (forall k :: k in r.value.details ==>
                      r.value.details[k] == if k in u.details then u.details[k] else row.details[k])
                && names.firstName ==
                   (if u.profile.firstName.Some? then u.profile.firstName.value else row.profile.names.firstName)
                && names.lastName ==
                   (if u.profile.lastName.Some? then u.profile.lastName.value else row.profile.names.lastName)
                && names.companyName ==
                   (if u.profile.companyName.Some? then u.profile.companyName.value else row.profile.names.companyName)
      ensures r.Some? ==>
                var p, q := old(rows)[id].profile, r.value.profile;
                if u.profile.firstName.Some? || u.profile.lastName.Some? || u.profile.companyName.Some?
                then q.slugId.Some? && q.slug == Some(SlugText(lower, q.names, q.slugId.value)) &&
                     (p.slugId.Some? && p.slugId.value != "" ==> q.slugId == p.slugId) &&
                     (p.slugId == None || p.slugId == Some("") ==> q.slugId == Some(DashesToUnderscores(nano)))
                else q.slug == (if u.profile.slug.Some? then u.profile.slug.value else p.slug) &&
                     q.slugId == (if u.profile.slugId.Some? then u.profile.slugId.value else p.slugId)
      ensures id in old(rows) &&
              u == NO_CHANGE.(password := u.password, isEmailVerified := u.isEmailVerified, userType := u.userType) ==>
                && r == Some(old(rows)[id].(password := u.password.GetOr(old(rows)[id].password),
                                            isEmailVerified := u.isEmailVerified.GetOr(old(rows)[id].isEmailVerified),
                                            userType := u.userType.GetOr(old(rows)[id].userType)))
                && rows == old(rows)[id := r.value]
      ensures Unique(rows)
    {
      hide SlugText, Unique, TakenBySlug, Keyed;
      var slugData := GenerateSlugForUser(id, u.profile, nano);
      if id !in rows {
        return None;
      }
      UniqueRow(rows, id);
      var row := rows[id];
      assert row.details + map[] == row.details;
      var slug, slugId := u.profile.slug.GetOr(row.profile.slug), u.profile.slugId.GetOr(row.profile.slugId);
      if slugData.Some? {
        slug, slugId := Some(slugData.value.0), Some(slugData.value.1);
      }
      row := row.(id := u.id.GetOr(row.id),
                  password := u.password.GetOr(row.password),
                  provider := u.provider.GetOr(row.provider),
                  isEmailVerified := u.isEmailVerified.GetOr(row.isEmailVerified),
                  twoFactorEnabled := u.twoFactorEnabled.GetOr(row.twoFactorEnabled),
                  userType := u.userType.GetOr(row.userType),
                  lastLoginAt := u.lastLoginAt.GetOr(row.lastLoginAt),
                  profile := Profile(MergeNames(row.profile.names, u.profile), slug, slugId),
                  details := row.details + u.details);
      if !IdFree(rows, id, u) || TakenBySlug(rows, id, row.profile) {
        return None;
      }
      ProfileFields(lower, rows[id].profile, u.profile, nano);
      UniqueMove(rows, id, row);
      assert row.id == id ==> (rows - {id})[row.id := row] == rows[id := row];
      rows := (rows - {id})[row.id := row];
      r := Some(row);
    }

    method GenerateSlugForUser(id: Id, u: ProfileUpdate, nano: string) returns (r: Option<(string, string)>)
      requires NanoId(nano)
      ensures r.Some? <==> ShouldRegenerateSlug(u) && id in rows
      ensures r.Some? ==>
                var p := UpdateProfile(lower, rows[id].profile, u, nano);
                p.slug == Some(r.value.0) && p.slugId == Some(r.value.1)
      ensures r.Some? <==> id in rows && (u.firstName.Some? || u.lastName.Some? || u.companyName.Some?)
      ensures r.Some? ==>
                var p := rows[id].profile;
                var names := Names(if u.firstName.Some? then u.firstName.value else p.names.firstName,
                                   if u.lastName.Some? then u.lastName.value else p.names.lastName,
                                   if u.companyName.Some? then u.companyName.value else p.names.companyName);
                && r.value.0 == SlugText(lower, names, r.value.1)
                && (p.slugId.Some? && p.slugId.value != "" ==> r.value.1 == p.slugId.value)
                && (p.slugId == None || p.slugId == Some("") ==> r.value.1 == DashesToUnderscores(nano))
    {
      if !ShouldRegenerateSlug(u) || id !in rows {
        return None;
      }
      var current := rows[id].profile;
      var slug, slugId := GenerateUserSlug(lower, MergeNames(current.names, u), current.slugId, nano);
      r := Some((slug, slugId));
    }

    // The two-factor use case writes this column through the database client.
    method SetTwoFactor(id: Id, enabled: bool) returns (ok: bool)
      requires Unique(rows)
      modifies this`rows
      ensures ok <==> id in old(rows)
      ensures rows == if ok then old(rows)[id := old(rows)[id].(twoFactorEnabled := enabled)] else old(rows)
      ensures Unique(rows)
    {
      ok := id in rows;
      if ok {
        UniqueRow(rows, id);
        UniqueUpdate(rows, rows[id].(twoFactorEnabled := enabled));
        rows := rows[id := rows[id].(twoFactorEnabled := enabled)];
      }
    }

    method UpdateRefreshToken(id: Id, token: Option<Token>, now: nat) returns (ok: bool)
      requires Unique(rows)
      modifies this`rows
      ensures ok <==> id in old(rows)
      ensures rows == if ok then old(rows)[id := Stored(old(rows)[id], token, now)] else old(rows)
      ensures ok && token.Some? ==>
                rows == old(rows)[id := old(rows)[id].(refreshToken := token, lastLoginAt := Some(now))]
      ensures ok && token.None? ==> rows == old(rows)[id := old(rows)[id].(refreshToken := None)]
      ensures Unique(rows)
    {
      ok := id in rows;
      if ok {
        UniqueRow(rows, id);
        UniqueUpdate(rows, Stored(rows[id], token, now));
        rows := rows[id := rows[id].(refreshToken := token, lastLoginAt := if token.Some?
            then Some(now) else rows[id].lastLoginAt)];
      }
    }
  }
}
