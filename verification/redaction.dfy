/**
 * Field redaction (`checkAndSetReadData` in back/src/features/formData/handlers.ts): one pass over a
 * record's raw `data` list that keeps every element the requester may read and drops the others.
 */
module Redaction {
  import opened Wrappers
  import opened JsonValue
  import opened Privileges

  /** One entry of a stored record's `data` list; `readOverride` is the entry's `privileges.read`, if any. */
  datatype RawElem = RawElem(elemId: string, value: Json, valueType: string, readOverride: Option<PrivObj>)

  /** One entry of the reply (the handler's `Data` type); `orderNr` is the entry's index in the raw list. */
  datatype Data = Data(elemId: string, orderNr: nat, value: Json, valueType: string)

  /** Everything the redaction pass reads besides the raw list. */
  datatype ReadCtx = ReadCtx(
    main: PrivObj,
    user: UserData,
    csrfIsGood: bool,
    hasElemPrivileges: bool,
    isPrivBlocked: PrivCheck)

  /**
   * The error for one element: only an element that carries its own read override, in a record that
   * declares element privileges, is checked, and then against the override spread over `main`.
   */
  function ElemPrivError(elem: RawElem, ctx: ReadCtx): Option<PrivError> {
    if ctx.hasElemPrivileges && elem.readOverride.Some? then
      ctx.isPrivBlocked(Some(Merge(ctx.main, elem.readOverride.value)), ctx.user, ctx.csrfIsGood)
    else
      None
  }

  predicate Readable(elem: RawElem, ctx: ReadCtx) {
    ElemPrivError(elem, ctx).None?
  }

  /** The white-listed reply entry for raw element `i`. */
  function Project(rawData: seq<RawElem>, i: nat): Data
    requires i < |rawData|
  {
    Data(rawData[i].elemId, i, rawData[i].value, rawData[i].valueType)
  }

  /** The reply entries built from the first `n` raw elements, in order. */
  function ReadData(rawData: seq<RawElem>, n: nat, ctx: ReadCtx): seq<Data>
    requires n <= |rawData|
  {
    if n == 0 then []
    else ReadData(rawData, n - 1, ctx) + (if Readable(rawData[n - 1], ctx) then [Project(rawData, n - 1)] else [])
  }

  /** `orderNr` strictly increases along the list. */
  ghost predicate StrictlyOrdered(out: seq<Data>) {
    forall j1, j2 :: 0 <= j1 < j2 < |out| ==> out[j1].orderNr < out[j2].orderNr
  }

  /**
   * The output is an order-preserving subsequence of the input: every entry is the projection of a
   * readable raw element at index `orderNr`, and the indices strictly increase.
   */
  lemma {:induction false} ReadDataIsSubsequence(rawData: seq<RawElem>, n: nat, ctx: ReadCtx)
    requires n <= |rawData|
    ensures |ReadData(rawData, n, ctx)| <= n
    ensures forall j :: 0 <= j < |ReadData(rawData, n, ctx)| ==>
      var d := ReadData(rawData, n, ctx)[j];
      d.orderNr < n && d == Project(rawData, d.orderNr) && Readable(rawData[d.orderNr], ctx)
    ensures StrictlyOrdered(ReadData(rawData, n, ctx))
  {
    if n > 0 {
      ReadDataIsSubsequence(rawData, n - 1, ctx);
    }
  }

  /** Some entry of `out` comes from raw element `i`. */
  predicate HasEntryFor(out: seq<Data>, i: nat) {
    exists j :: 0 <= j < |out| && out[j].orderNr == i
  }

  /** Raw element `i` appears in the output exactly when it is readable. */
  lemma {:induction false} ReadDataKeepsExactlyReadable(rawData: seq<RawElem>, n: nat, ctx: ReadCtx, i: nat)
    requires i < n <= |rawData|
    ensures HasEntryFor(ReadData(rawData, n, ctx), i) <==> Readable(rawData[i], ctx)
  {
    var prev := ReadData(rawData, n - 1, ctx);
    var out := ReadData(rawData, n, ctx);
    var tail := if Readable(rawData[n - 1], ctx) then [Project(rawData, n - 1)] else [];
    assert out == prev + tail;
    if i < n - 1 {
      ReadDataKeepsExactlyReadable(rawData, n - 1, ctx, i);
      if HasEntryFor(out, i) {
        var j :| 0 <= j < |out| && out[j].orderNr == i;
        assert prev[j].orderNr == i;
      }
      if Readable(rawData[i], ctx) {
        var j :| 0 <= j < |prev| && prev[j].orderNr == i;
        assert out[j] == prev[j];
      }
    } else if Readable(rawData[i], ctx) {
      assert out[|prev|].orderNr == i;
    } else {
      ReadDataIsSubsequence(rawData, n - 1, ctx);
      assert out == prev;
    }
  }

  /**
   * With `hasElemPrivileges` off nothing is dropped: the output has one entry per raw element, at its
   * own index, whatever the evaluator and the main privileges say.
   */
  lemma {:induction false} NoElemPrivilegesKeepsAll(rawData: seq<RawElem>, n: nat, ctx: ReadCtx)
    requires n <= |rawData|
    requires !ctx.hasElemPrivileges
    ensures |ReadData(rawData, n, ctx)| == n
    ensures forall i :: 0 <= i < n ==> ReadData(rawData, n, ctx)[i] == Project(rawData, i)
  {
    if n > 0 {
      NoElemPrivilegesKeepsAll(rawData, n - 1, ctx);
    }
  }

  /**
   * The main privilege is not re-checked during redaction: two contexts that differ only in the main
   * privileges and the evaluator keep the same elements, provided no element carries an override.
   */
  lemma {:induction false} NoOverrideIgnoresMainRule(rawData: seq<RawElem>, n: nat, ctx1: ReadCtx, ctx2: ReadCtx)
    requires n <= |rawData|
    requires forall i :: 0 <= i < n ==> rawData[i].readOverride.None?
    ensures ReadData(rawData, n, ctx1) == ReadData(rawData, n, ctx2)
  {
    if n > 0 {
      NoOverrideIgnoresMainRule(rawData, n - 1, ctx1, ctx2);
    }
  }

  /** An element carrying an override is kept exactly when the evaluator accepts the override merged over `main`. */
  lemma OverrideDecidedByMerge(elem: RawElem, ctx: ReadCtx)
    requires ctx.hasElemPrivileges && elem.readOverride.Some?
    ensures Readable(elem, ctx) <==>
      ctx.isPrivBlocked(Some(Merge(ctx.main, elem.readOverride.value)), ctx.user, ctx.csrfIsGood).None?
  {
  }

  /**
   * `checkAndSetReadData`: walks `rawData` once and appends the white-listed entry of every element
   * whose element-level check reports no error.
   */
  method CheckAndSetReadData(rawData: seq<RawElem>, ctx: ReadCtx) returns (returnData: seq<Data>)
    ensures returnData == ReadData(rawData, |rawData|, ctx)
    ensures forall j :: 0 <= j < |returnData| ==>
      returnData[j].orderNr < |rawData| && returnData[j] == Project(rawData, returnData[j].orderNr)
    ensures StrictlyOrdered(returnData)
    ensures forall i :: 0 <= i < |rawData| ==>
      (Readable(rawData[i], ctx) <==> HasEntryFor(returnData, i))
  {
    returnData := [];
    for i := 0 to |rawData|
      invariant returnData == ReadData(rawData, i, ctx)
    {
      var elem := rawData[i];
      var privError: Option<PrivError> := None;
      if ctx.hasElemPrivileges && elem.readOverride.Some? {
        var elemPrivileges := Merge(ctx.main, elem.readOverride.value);
        privError := ctx.isPrivBlocked(Some(elemPrivileges), ctx.user, ctx.csrfIsGood);
      }
      if privError.None? {
        returnData := returnData + [Data(elem.elemId, i, elem.value, elem.valueType)];
      }
    }
    ReadDataIsSubsequence(rawData, |rawData|, ctx);
    forall i | 0 <= i < |rawData|
      ensures Readable(rawData[i], ctx) <==> HasEntryFor(returnData, i)
    {
      ReadDataKeepsExactlyReadable(rawData, |rawData|, ctx, i);
    }
  }
}
