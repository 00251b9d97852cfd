/**
 * Privilege objects, the requester, and the merge rule that `back/src/features/formData/handlers.ts`
 * writes with object spread. The privilege evaluator `isPrivBlocked` lives in a file that is not part of
 * this model; it is a parameter of every operation that uses it, so every property proved here holds
 * for any evaluator.
 */
module Privileges {
  import opened Wrappers
  import opened JsonValue

  /** A privilege object such as a record's `privileges.read`: property name to value (`public`, `users`, ...). */
  type PrivObj = map<string, Json>

  /** The requester as `getUserData` resolves it. */
  datatype UserData = UserData(isSignedIn: bool, userId: string, userGroups: seq<string>, isSysAdmin: bool)

  /** The error object `isPrivBlocked` returns when access is denied; `code` is what a reply shows. */
  datatype PrivError = PrivError(code: string)

  /** `isPrivBlocked(privilegeAccess, userData, csrfIsGood)`: `None` (JavaScript `null`) means access is allowed. */
  type PrivCheck = (Option<PrivObj>, UserData, bool) -> Option<PrivError>

  /** `{ ...base, ...over }`: every key of `over` wins, every other key comes from `base`. */
  function Merge(base: PrivObj, over: PrivObj): (r: PrivObj)
    ensures r.Keys == base.Keys + over.Keys
    ensures forall k :: k in over ==> r[k] == over[k]
    ensures forall k :: k in base && k !in over ==> r[k] == base[k]
  {
    base + over
  }

  /**
   * The document-level read rule: the form's default read privileges with the record's own
   * `privileges.read` spread over them, `{}` standing in when the record has none.
   */
  function MainPrivileges(formDefaults: PrivObj, recordRead: Option<PrivObj>): (r: PrivObj)
    ensures recordRead.None? ==> r == formDefaults
    ensures recordRead.Some? ==> r.Keys == formDefaults.Keys + recordRead.value.Keys
    ensures forall k :: k in r ==> r[k] == if recordRead.Some? && k in recordRead.value then recordRead.value[k] else formDefaults[k]
  {
    Merge(formDefaults, recordRead.GetOr(map[]))
  }

  /**
   * The rule an element override is checked against is the three layers in precedence order:
   * the element's override, then the record's read privileges, then the form's defaults.
   */
  lemma EffectiveElemRule(formDefaults: PrivObj, recordRead: Option<PrivObj>, elemRead: PrivObj, k: string)
    requires k in Merge(MainPrivileges(formDefaults, recordRead), elemRead)
    ensures Merge(MainPrivileges(formDefaults, recordRead), elemRead)[k] ==
      if k in elemRead then elemRead[k]
      else if recordRead.Some? && k in recordRead.value then recordRead.value[k]
      else formDefaults[k]
  {
  }
}
