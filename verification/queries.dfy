/**
 * The store-side read filters of back/src/features/formData/handlers.ts
 * (`readDataAsSignedInPrivilegesQuery`, `readDataAsSignedOutPrivilegesQuery`), as a small clause
 * language and its meaning over one stored form-data record.
 */
module ReadQueries {
  import opened Wrappers
  import opened JsonValue
  import opened Privileges

  /** A document path the filters name: `formId`, or `privileges.read.<key>`. */
  datatype Path = FormIdPath | ReadPriv(key: string)

  /** The filter operators the builders use. */
  datatype Clause =
    | Eq(path: Path, v: Json)             // { path: v }
    | In(path: Path, vs: seq<Json>)       // { path: { $in: vs } }
    | NotIn(path: Path, vs: seq<Json>)    // { path: { $not: { $in: vs } } }
    | Or(alts: seq<Clause>)               // { $or: alts }
    | And(parts: seq<Clause>)             // { $and: parts }

  /** The part of a stored record the filters look at. */
  datatype StoredDoc = StoredDoc(formId: string, readPriv: Option<PrivObj>)

  function FieldAt(d: StoredDoc, p: Path): Option<Json> {
    match p
    case FormIdPath => Some(JStr(d.formId))
    case ReadPriv(k) => if d.readPriv.Some? && k in d.readPriv.value then Some(d.readPriv.value[k]) else None
  }

  /** Equality as the store applies it: the field equals `v`, or is an array holding `v`. A missing field holds nothing. */
  predicate HasValue(f: Option<Json>, v: Json) {
    f.Some? && (f.value == v || (f.value.JArr? && v in f.value.items))
  }

  predicate HasAnyOf(f: Option<Json>, vs: seq<Json>) {
    exists v :: v in vs && HasValue(f, v)
  }

  /** Whether document `d` satisfies clause `c`; `$not` also admits a missing field. */
  predicate Eval(d: StoredDoc, c: Clause)
    decreases c
  {
    match c
    case Eq(p, v) => HasValue(FieldAt(d, p), v)
    case In(p, vs) => HasAnyOf(FieldAt(d, p), vs)
    case NotIn(p, vs) => !HasAnyOf(FieldAt(d, p), vs)
    case Or(alts) => exists i :: 0 <= i < |alts| && Eval(d, alts[i])
    case And(parts) => forall i :: 0 <= i < |parts| ==> Eval(d, parts[i])
  }

  /** A clause list spread into `$and`: every clause holds. */
  predicate AllHold(d: StoredDoc, cs: seq<Clause>) {
    forall i :: 0 <= i < |cs| ==> Eval(d, cs[i])
  }

  /** The requester's ids as the JSON strings the store compares (the source hands the string list over as it is). */
  function Strs(ids: seq<string>): (r: seq<Json>)
    ensures |r| == |ids| && forall i :: 0 <= i < |ids| ==> r[i] == JStr(ids[i])
  {
    seq(|ids|, i requires 0 <= i < |ids| => JStr(ids[i]))
  }

  /** `{ $or: [{ requireCsrfHeader: false }, { requireCsrfHeader: csrfIsGood }] }`, shared by both builders. */
  function CsrfClause(csrfIsGood: bool): Clause {
    Or([Eq(ReadPriv("requireCsrfHeader"), JBool(false)), Eq(ReadPriv("requireCsrfHeader"), JBool(csrfIsGood))])
  }

  /** `readDataAsSignedInPrivilegesQuery(userData, csrfIsGood)`. */
  function SignedInQuery(user: UserData, csrfIsGood: bool): (cs: seq<Clause>)
    ensures |cs| == if user.isSysAdmin then 2 else 5
  {
    [NotIn(ReadPriv("public"), [JStr("onlyPublic")]), CsrfClause(csrfIsGood)]
    + if user.isSysAdmin then []
      else [
        Or([Eq(ReadPriv("users"), JStr(user.userId)), In(ReadPriv("groups"), Strs(user.userGroups))]),
        NotIn(ReadPriv("excludedUsers"), [JStr(user.userId)]),
        NotIn(ReadPriv("excludedGroups"), Strs(user.userGroups))
      ]
  }

  /** `readDataAsSignedOutPrivilegesQuery(csrfIsGood)`. */
  function SignedOutQuery(csrfIsGood: bool): (cs: seq<Clause>)
    ensures |cs| == 2
  {
    [Or([Eq(ReadPriv("public"), JStr("true")), Eq(ReadPriv("public"), JStr("onlyPublic"))]), CsrfClause(csrfIsGood)]
  }

  /** The bulk filter `{ $and: [{ formId }, ...builder] }`, the builder chosen by the requester's sign-in state. */
  function BulkFilter(formId: string, user: UserData, csrfIsGood: bool): Clause {
    And([Eq(FormIdPath, JStr(formId))] + if user.isSignedIn then SignedInQuery(user, csrfIsGood) else SignedOutQuery(csrfIsGood))
  }

  // ---- meaning of the clauses, as conditions on the record's read privileges ----

  function Field(d: StoredDoc, key: string): Option<Json> {
    FieldAt(d, ReadPriv(key))
  }

  /** `requireCsrfHeader` holds `false`, or holds the request's CSRF result. */
  predicate CsrfAdmits(d: StoredDoc, csrfIsGood: bool) {
    HasValue(Field(d, "requireCsrfHeader"), JBool(false)) || HasValue(Field(d, "requireCsrfHeader"), JBool(csrfIsGood))
  }

  /** Some requester group is listed under `key`. */
  predicate SomeGroupIn(d: StoredDoc, key: string, groups: seq<string>) {
    exists g :: g in groups && HasValue(Field(d, key), JStr(g))
  }

  lemma CsrfClauseMeaning(d: StoredDoc, csrfIsGood: bool)
    ensures Eval(d, CsrfClause(csrfIsGood)) <==> CsrfAdmits(d, csrfIsGood)
  {
    var c := CsrfClause(csrfIsGood);
    if CsrfAdmits(d, csrfIsGood) {
      if HasValue(Field(d, "requireCsrfHeader"), JBool(false)) {
        assert Eval(d, c.alts[0]);
      } else {
        assert Eval(d, c.alts[1]);
      }
    }
  }

  lemma StrsMembership(ids: seq<string>, f: Option<Json>)
    ensures HasAnyOf(f, Strs(ids)) <==> exists g :: g in ids && HasValue(f, JStr(g))
  {
    var js := Strs(ids);
    if HasAnyOf(f, js) {
      var v :| v in js && HasValue(f, v);
      var i :| 0 <= i < |js| && js[i] == v;
      assert ids[i] in ids && HasValue(f, JStr(ids[i]));
    }
    if exists g :: g in ids && HasValue(f, JStr(g)) {
      var g :| g in ids && HasValue(f, JStr(g));
      var i :| 0 <= i < |ids| && ids[i] == g;
      assert js[i] in js;
    }
  }

  /**
   * The signed-out filter admits a record exactly when its `public` holds `'true'` or `'onlyPublic'`
   * and the CSRF clause holds.
   */
  lemma SignedOutQueryMeaning(d: StoredDoc, csrfIsGood: bool)
    ensures AllHold(d, SignedOutQuery(csrfIsGood)) <==>
      && (HasValue(Field(d, "public"), JStr("true")) || HasValue(Field(d, "public"), JStr("onlyPublic")))
      && CsrfAdmits(d, csrfIsGood)
  {
    var cs := SignedOutQuery(csrfIsGood);
    CsrfClauseMeaning(d, csrfIsGood);
    assert cs[1] == CsrfClause(csrfIsGood);
    var pub := cs[0];
    if HasValue(Field(d, "public"), JStr("true")) {
      assert Eval(d, pub.alts[0]);
    } else if HasValue(Field(d, "public"), JStr("onlyPublic")) {
      assert Eval(d, pub.alts[1]);
    }
  }

  /** With a good CSRF header the CSRF clause accepts `requireCsrfHeader` of either boolean value. */
  lemma CsrfGoodAcceptsEither(d: StoredDoc)
    ensures CsrfAdmits(d, true) <==>
      HasValue(Field(d, "requireCsrfHeader"), JBool(false)) || HasValue(Field(d, "requireCsrfHeader"), JBool(true))
  {
  }

  /** A record without `privileges.read.requireCsrfHeader` passes neither filter (equality never matches a missing field). */
  lemma MissingCsrfFlagExcluded(d: StoredDoc, user: UserData, csrfIsGood: bool)
    requires Field(d, "requireCsrfHeader").None?
    ensures !AllHold(d, SignedOutQuery(csrfIsGood))
    ensures !AllHold(d, SignedInQuery(user, csrfIsGood))
  {
    CsrfClauseMeaning(d, csrfIsGood);
    assert SignedOutQuery(csrfIsGood)[1] == CsrfClause(csrfIsGood);
    assert SignedInQuery(user, csrfIsGood)[1] == CsrfClause(csrfIsGood);
  }

  /** The listing clause: listed by id or by one of the requester's groups. */
  lemma ListedClauseMeaning(d: StoredDoc, user: UserData)
    ensures Eval(d, Or([Eq(ReadPriv("users"), JStr(user.userId)), In(ReadPriv("groups"), Strs(user.userGroups))])) <==>
      (HasValue(Field(d, "users"), JStr(user.userId)) || SomeGroupIn(d, "groups", user.userGroups))
  {
    var listed := Or([Eq(ReadPriv("users"), JStr(user.userId)), In(ReadPriv("groups"), Strs(user.userGroups))]);
    StrsMembership(user.userGroups, Field(d, "groups"));
    if HasValue(Field(d, "users"), JStr(user.userId)) {
      assert Eval(d, listed.alts[0]);
    } else if SomeGroupIn(d, "groups", user.userGroups) {
      assert Eval(d, listed.alts[1]);
    }
  }

  /** The two exclusion clauses: neither the requester's id nor any of their groups is excluded. */
  lemma ExcludedClausesMeaning(d: StoredDoc, user: UserData)
    ensures Eval(d, NotIn(ReadPriv("excludedUsers"), [JStr(user.userId)])) <==> !HasValue(Field(d, "excludedUsers"), JStr(user.userId))
    ensures Eval(d, NotIn(ReadPriv("excludedGroups"), Strs(user.userGroups))) <==> !SomeGroupIn(d, "excludedGroups", user.userGroups)
  {
    StrsMembership(user.userGroups, Field(d, "excludedGroups"));
  }

  /**
   * The signed-in filter: `public` must not hold `'onlyPublic'`, the CSRF clause must hold and, unless the
   * requester is a system admin, the requester must be listed (by id in `users` or by a group in `groups`)
   * and must not be listed in `excludedUsers` or `excludedGroups`. `public` being `'true'` does not
   * replace the listing.
   */
  lemma SignedInQueryMeaning(d: StoredDoc, user: UserData, csrfIsGood: bool)
    ensures AllHold(d, SignedInQuery(user, csrfIsGood)) <==>
      && !HasValue(Field(d, "public"), JStr("onlyPublic"))
      && CsrfAdmits(d, csrfIsGood)
      && (!user.isSysAdmin ==>
            && (HasValue(Field(d, "users"), JStr(user.userId)) || SomeGroupIn(d, "groups", user.userGroups))
            && !HasValue(Field(d, "excludedUsers"), JStr(user.userId))
            && !SomeGroupIn(d, "excludedGroups", user.userGroups))
  {
    var cs := SignedInQuery(user, csrfIsGood);
    CsrfClauseMeaning(d, csrfIsGood);
    assert cs[1] == CsrfClause(csrfIsGood);
    assert Eval(d, cs[0]) <==> !HasValue(Field(d, "public"), JStr("onlyPublic"));
    if !user.isSysAdmin {
      ListedClauseMeaning(d, user);
      ExcludedClausesMeaning(d, user);
      assert cs[2] == Or([Eq(ReadPriv("users"), JStr(user.userId)), In(ReadPriv("groups"), Strs(user.userGroups))]);
      assert cs[3] == NotIn(ReadPriv("excludedUsers"), [JStr(user.userId)]);
      assert cs[4] == NotIn(ReadPriv("excludedGroups"), Strs(user.userGroups));
    }
  }

  /** The signed-in filter never admits a record whose `public` holds `'onlyPublic'`, admin or not. */
  lemma SignedInExcludesOnlyPublic(d: StoredDoc, user: UserData, csrfIsGood: bool)
    requires HasValue(Field(d, "public"), JStr("onlyPublic"))
    ensures !AllHold(d, SignedInQuery(user, csrfIsGood))
  {
    SignedInQueryMeaning(d, user, csrfIsGood);
  }

  /** Whatever the non-admin filter admits, the admin filter for the same requester admits too. */
  lemma AdminQueryIsWeaker(d: StoredDoc, user: UserData, csrfIsGood: bool)
    requires AllHold(d, SignedInQuery(user, csrfIsGood))
    ensures AllHold(d, SignedInQuery(user.(isSysAdmin := true), csrfIsGood))
  {
    SignedInQueryMeaning(d, user, csrfIsGood);
    SignedInQueryMeaning(d, user.(isSysAdmin := true), csrfIsGood);
  }

  /**
   * A record whose `public` holds `'true'` but that lists neither the requester's id in `users` nor one of
   * their groups in `groups` is refused to a signed-in requester who is not a system admin, whatever its
   * CSRF flag.
   */
  lemma PublicRecordNeedsListing(d: StoredDoc, user: UserData, csrfIsGood: bool)
    requires !user.isSysAdmin
    requires HasValue(Field(d, "public"), JStr("true"))
    requires !HasValue(Field(d, "users"), JStr(user.userId)) && !SomeGroupIn(d, "groups", user.userGroups)
    ensures !AllHold(d, SignedInQuery(user, csrfIsGood))
  {
    SignedInQueryMeaning(d, user, csrfIsGood);
  }

  /** The bulk filter also pins the record to the requested form. */
  lemma BulkFilterMeaning(d: StoredDoc, formId: string, user: UserData, csrfIsGood: bool)
    ensures Eval(d, BulkFilter(formId, user, csrfIsGood)) <==>
      && d.formId == formId
      && if user.isSignedIn then AllHold(d, SignedInQuery(user, csrfIsGood)) else AllHold(d, SignedOutQuery(csrfIsGood))
  {
    var q := if user.isSignedIn then SignedInQuery(user, csrfIsGood) else SignedOutQuery(csrfIsGood);
    var parts := [Eq(FormIdPath, JStr(formId))] + q;
    assert BulkFilter(formId, user, csrfIsGood) == And(parts);
    assert Eval(d, parts[0]) <==> d.formId == formId;
    assert forall i :: 0 <= i < |q| ==> parts[i + 1] == q[i];
    if Eval(d, And(parts)) {
      forall i | 0 <= i < |q| ensures Eval(d, q[i]) {
        assert Eval(d, parts[i + 1]);
      }
    }
  }
}
