/**
 * The read handler `formDataGet` of back/src/features/formData/handlers.ts: request dispatch, the
 * page-limit clamp, record inclusion and output shaping. The store calls (`findOne`, `findById`,
 * `paginate`), the CSRF check and the requester lookup are inputs bundled in `Env`.
 */
module FormDataRead {
  import opened Wrappers
  import opened JsonValue
  import opened Privileges
  import opened ReadQueries
  import opened Redaction

  const MaxLimit: int := 500

  /** The `dataId` query value: a list of ids or a single string. */
  datatype DataIdParam = Ids(ids: seq<string>) | Text(s: string)

  /** The query-string values the handler reads. */
  datatype Query = Query(getForm: bool, dataId: Option<DataIdParam>, flat: bool, offset: Option<int>, limit: Option<int>)

  /** A form document: its id, `form.form` without `formElems`, its elements, and `formDataDefaultPrivileges.read`. */
  datatype Form = Form(simpleId: string, formProps: map<string, Json>, formElems: seq<map<string, Json>>, defaultRead: PrivObj)

  /** A stored form-data record. */
  datatype FormDataRecord = FormDataRecord(
    formId: string,
    readPriv: Option<PrivObj>,
    data: Option<seq<RawElem>>,
    hasElemPrivileges: bool)

  /** What the handler asks the paginating store for. */
  datatype StoreRequest =
    | PaginateFiltered(filter: Clause, offset: int, limit: int)
      // `{ $and: [{ formId }, { _id: { $in: ids }, ...clauses }] }` with no page options; left uninterpreted
    | PaginateIds(formId: string, ids: seq<string>, clauses: seq<Clause>)

  /** The store's page: its documents and what `getPaginationData` makes of it. */
  datatype PageResult = PageResult(docs: seq<FormDataRecord>, pagination: Json)

  /** Everything the handler obtains from collaborators. */
  datatype Env = Env(
    form: Option<Form>,                          // findOne({ url })
    privilegeAccess: string -> Option<PrivObj>,  // simpleId -> privilege?.privilegeAccess
    csrfIsGood: bool,
    user: UserData,
    isPrivBlocked: PrivCheck,
    paginate: StoreRequest -> PageResult,
    findById: string -> Option<FormDataRecord>,
    isObjectId: string -> bool)                  // whether an id casts to an ObjectId

  /** A value of the reply object. */
  datatype ReplyValue =
    | FormCode(code: string)
    | FormValue(props: map<string, Json>, formElems: seq<map<string, Json>>)
    | Pagination(meta: Json)
    | DataList(items: seq<seq<Data>>)
    | DataItem(item: seq<Data>)
    | FieldValue(value: Json)

  /** `ServerError` is the rejected promise when an id does not cast to an ObjectId. */
  datatype GetResult = NotFound | BadRequest | ServerError | Reply(fields: map<string, ReplyValue>)

  // ---- limit and offset ----

  /** `limit && limit < MAX_LIMIT ? Math.abs(limit) : MAX_LIMIT` */
  function Limiter(limit: Option<int>): (r: int)
    ensures r > 0
    ensures limit.None? || limit == Some(0) ==> r == MaxLimit
    ensures limit.Some? && 0 < limit.value < MaxLimit ==> r == limit.value
    ensures limit.Some? && limit.value >= MaxLimit ==> r == MaxLimit
    ensures limit.Some? && limit.value < 0 ==> r == -limit.value
  {
    if limit.Some? && limit.value != 0 && limit.value < MaxLimit then
      (if limit.value < 0 then -limit.value else limit.value)
    else MaxLimit
  }

  /** The ceiling holds for every limit from -500 upwards, and a limit below -500 escapes it. */
  lemma LimiterCeiling(limit: Option<int>)
    ensures (limit.None? || limit.value >= -MaxLimit) <==> Limiter(limit) <= MaxLimit
  {
  }

  /** `offset || 0` */
  function Offset(offset: Option<int>): (r: int)
    ensures offset.None? ==> r == 0
    ensures offset.Some? ==> r == offset.value
  {
    if offset.Some? && offset.value != 0 then offset.value else 0
  }

  // ---- dispatch ----

  /** `dataId[0]`: the first id of a list, the first character of a string, `undefined` when empty. */
  function FirstId(d: DataIdParam): (r: Option<string>)
    ensures d.Ids? ==> (r.Some? <==> |d.ids| > 0)
    ensures d.Text? ==> (r.Some? <==> |d.s| > 0) && (r.Some? ==> |r.value| == 1)
    ensures d.Ids? && |d.ids| > 0 ==> r == Some(d.ids[0])
    ensures d.Text? && |d.s| > 0 ==> r == Some([d.s[0]])
  {
    match d
    case Ids(ids) => if |ids| > 0 then Some(ids[0]) else None
    case Text(s) => if |s| > 0 then Some([s[0]]) else None
  }

  /** JavaScript truthiness of `dataId`: any array, or a non-empty string. */
  predicate DataIdTruthy(d: Option<DataIdParam>) {
    d.Some? && (d.value.Ids? || d.value.s != "")
  }

  datatype Mode = Bulk | Multi(ids: seq<string>) | Single(id: Option<string>)

  /** Bulk when `dataId[0] === 'all'`, else multi-id for an array of more than one id, else single-id on `dataId[0]`. */
  function SelectMode(d: DataIdParam): (m: Mode)
    ensures m.Bulk? <==> FirstId(d) == Some("all")
    ensures m.Multi? <==> FirstId(d) != Some("all") && d.Ids? && |d.ids| > 1
    ensures m.Multi? ==> m.ids == d.ids
    ensures m.Single? ==> m.id == FirstId(d)
  {
    if FirstId(d) == Some("all") then Bulk
    else if d.Ids? && |d.ids| > 1 then Multi(d.ids)
    else Single(FirstId(d))
  }

  /** The string `'all'` is not the bulk selector: `dataId[0]` of a string is its first character. */
  lemma AllAsStringIsSingle()
    ensures SelectMode(Text("all")) == Single(Some("a"))
  {
  }

  /**
   * A non-empty string `dataId` asks for the one-character id `dataId[0]`. When only ids of 12 or 24
   * characters cast to an ObjectId, that cast fails and the handler throws.
   */
  lemma StringDataIdThrows(q: Query, env: Env)
    requires env.form.Some? && q.dataId.Some? && q.dataId.value.Text? && q.dataId.value.s != ""
    requires forall id :: env.isObjectId(id) ==> |id| == 12 || |id| == 24
    ensures Respond(q, env) == ServerError
  {
    var id := [q.dataId.value.s[0]];
    assert FirstId(q.dataId.value) == Some(id);
    assert SelectMode(q.dataId.value) == Single(Some(id));
    assert !env.isObjectId(id);
    assert CastFails(env, Single(Some(id)));
  }

  // ---- the `$form` entry ----

  const PublicElemKeys: set<string> := {
    "elemId", "orderNr", "elemType", "valueType", "classes", "elemData", "label", "required",
    "validationRegExp", "mustMatchValue", "validationFn", "inputErrors", "doNotSave" }

  function WhiteList(elem: map<string, Json>): (r: map<string, Json>)
    ensures r.Keys == elem.Keys * PublicElemKeys
    ensures forall k :: k in r ==> r[k] == elem[k]
  {
    map k | k in elem && k in PublicElemKeys :: elem[k]
  }

  function CanUseFormId(simpleId: string): string {
    "form__" + simpleId + "__canUseForm"
  }

  /** `privError?.code || { ...form.form, formElems }` with the element list white-listed, or empty when blocked. */
  function FormEntry(form: Form, privError: Option<PrivError>): (r: ReplyValue)
    ensures privError.Some? && privError.value.code != "" ==> r == FormCode(privError.value.code)
    ensures privError.Some? && privError.value.code == "" ==> r == FormValue(form.formProps, [])
    ensures privError.None? ==> r.FormValue? && r.props == form.formProps && |r.formElems| == |form.formElems|
    ensures privError.None? ==> forall i :: 0 <= i < |form.formElems| ==> r.formElems[i] == WhiteList(form.formElems[i])
  {
    if privError.Some? && privError.value.code != "" then FormCode(privError.value.code)
    else FormValue(form.formProps,
                   if privError.Some? then [] else seq(|form.formElems|, i requires 0 <= i < |form.formElems| => WhiteList(form.formElems[i])))
  }

  /** The reply before any data is added: `$form` when `getForm` is set. */
  function FormPart(q: Query, env: Env, form: Form): map<string, ReplyValue> {
    if q.getForm then
      map["$form" := FormEntry(form, env.isPrivBlocked(env.privilegeAccess(CanUseFormId(form.simpleId)), env.user, env.csrfIsGood))]
    else map[]
  }

  // ---- record inclusion ----

  /** The read context of one record: form defaults merged with the record's read privileges. */
  function RecordCtx(form: Form, env: Env, rec: FormDataRecord): ReadCtx {
    ReadCtx(MainPrivileges(form.defaultRead, rec.readPriv), env.user, env.csrfIsGood, rec.hasElemPrivileges, env.isPrivBlocked)
  }

  function Redacted(form: Form, env: Env, rec: FormDataRecord): seq<Data> {
    ReadData(rec.data.GetOr([]), |rec.data.GetOr([])|, RecordCtx(form, env, rec))
  }

  /** List paths: the non-empty redactions of the first `n` documents, in order. */
  function ListData(form: Form, env: Env, docs: seq<FormDataRecord>, n: nat): seq<seq<Data>>
    requires n <= |docs|
  {
    if n == 0 then []
    else ListData(form, env, docs, n - 1) + (if |Redacted(form, env, docs[n - 1])| > 0 then [Redacted(form, env, docs[n - 1])] else [])
  }

  /** The positions below `n` where `flags` holds, in order. */
  function TrueIndices(flags: seq<bool>, n: nat): seq<nat>
    requires n <= |flags|
  {
    if n == 0 then [] else TrueIndices(flags, n - 1) + (if flags[n - 1] then [n - 1] else [])
  }

  /** Which documents have a non-empty redaction. */
  function NonEmptyFlags(form: Form, env: Env, docs: seq<FormDataRecord>): seq<bool> {
    seq(|docs|, i requires 0 <= i < |docs| => |Redacted(form, env, docs[i])| > 0)
  }

  /** The indices of the first `n` documents whose redaction is non-empty, in order. */
  function ListIndices(form: Form, env: Env, docs: seq<FormDataRecord>, n: nat): seq<nat>
    requires n <= |docs|
  {
    TrueIndices(NonEmptyFlags(form, env, docs), n)
  }

  /** Single path: the record's redaction, kept only when the document-level check passes and it is non-empty. */
  function SingleData(form: Form, env: Env, rec: Option<FormDataRecord>): (r: seq<seq<Data>>)
    ensures |r| <= 1
    ensures forall k :: 0 <= k < |r| ==> |r[k]| > 0
    ensures rec.None? ==> r == []
  {
    var main := MainPrivileges(form.defaultRead, if rec.Some? then rec.value.readPriv else None);
    var raw := if rec.Some? then rec.value.data.GetOr([]) else [];
    var dataSet := ReadData(raw, |raw|, ReadCtx(main, env.user, env.csrfIsGood, rec.Some? && rec.value.hasElemPrivileges, env.isPrivBlocked));
    if env.isPrivBlocked(Some(main), env.user, env.csrfIsGood).None? && |dataSet| > 0 then [dataSet] else []
  }

  function Builder(env: Env): seq<Clause> {
    if env.user.isSignedIn then SignedInQuery(env.user, env.csrfIsGood) else SignedOutQuery(env.csrfIsGood)
  }

  function BulkRequest(q: Query, env: Env, form: Form): StoreRequest {
    PaginateFiltered(BulkFilter(form.simpleId, env.user, env.csrfIsGood), Offset(q.offset), Limiter(q.limit))
  }

  /** The collected data sets and, for the list paths, the pagination summary. */
  function DataPart(q: Query, env: Env, form: Form, mode: Mode): (seq<seq<Data>>, Option<Json>) {
    match mode
    case Bulk =>
      var page := env.paginate(BulkRequest(q, env, form));
      (ListData(form, env, page.docs, |page.docs|), Some(page.pagination))
    case Multi(ids) =>
      var page := env.paginate(PaginateIds(form.simpleId, ids, Builder(env)));
      (ListData(form, env, page.docs, |page.docs|), Some(page.pagination))
    case Single(id) =>
      (SingleData(form, env, if id.Some? then env.findById(id.value) else None), None)
  }

  // ---- output shaping ----

  /** Flat mode's loop: for `i < n`, key `item[i].elemId` gets `item[i].value`. */
  function FlatWrite(base: map<string, ReplyValue>, item: seq<Data>, n: nat): map<string, ReplyValue>
    requires n <= |item|
  {
    if n == 0 then base else FlatWrite(base, item, n - 1)[item[n - 1].elemId := FieldValue(item[n - 1].value)]
  }

  /** The keys flat mode writes are added to the base, and the last entry written wins. */
  lemma {:induction false} FlatWriteKeys(base: map<string, ReplyValue>, item: seq<Data>, n: nat)
    requires n <= |item|
    ensures FlatWrite(base, item, n).Keys == base.Keys + set i | 0 <= i < n :: item[i].elemId
    ensures n > 0 ==> FlatWrite(base, item, n)[item[n - 1].elemId] == FieldValue(item[n - 1].value)
  {
    if n > 0 {
      FlatWriteKeys(base, item, n - 1);
      assert (set i | 0 <= i < n :: item[i].elemId) == (set i | 0 <= i < n - 1 :: item[i].elemId) + {item[n - 1].elemId};
    }
  }

  /** A base key that no written entry names keeps its base value. */
  lemma {:induction false} FlatWriteKeepsOthers(base: map<string, ReplyValue>, item: seq<Data>, n: nat, k: string)
    requires n <= |item|
    requires k in base && forall i :: 0 <= i < n ==> item[i].elemId != k
    ensures k in FlatWrite(base, item, n) && FlatWrite(base, item, n)[k] == base[k]
  {
    if n > 0 {
      FlatWriteKeepsOthers(base, item, n - 1, k);
    }
  }

  /** Flat mode writes `data[0][i]` for `i < data.length`; the other modes set `data`. */
  function Shaped(base: map<string, ReplyValue>, oneItem: bool, flat: bool, data: seq<seq<Data>>): (r: map<string, ReplyValue>)
    requires oneItem && flat && |data| > 0 ==> |data| <= |data[0]|
    ensures !(oneItem && flat) ==> forall k :: k != "data" ==> (k in r <==> k in base) && (k in r ==> r[k] == base[k])
    ensures !oneItem ==> "data" in r && r["data"] == DataList(data)
    ensures oneItem && !flat && |data| > 0 ==> "data" in r && r["data"] == DataItem(data[0])
    ensures oneItem && !flat && |data| == 0 ==> r == base
    ensures oneItem && flat ==> r.Keys == base.Keys + set i | 0 <= i < |data| :: data[0][i].elemId
  {
    if oneItem && flat then
      (if |data| == 0 then base else FlatWriteKeys(base, data[0], |data|); FlatWrite(base, data[0], |data|))
    else if oneItem then (if |data| > 0 then base["data" := DataItem(data[0])] else base)
    else base["data" := DataList(data)]
  }

  /** Casting the requested ids throws: any id of a multi-id read, or the one id of a single-id read. */
  predicate CastFails(env: Env, mode: Mode) {
    match mode
    case Bulk => false
    case Multi(ids) => exists i :: 0 <= i < |ids| && !env.isObjectId(ids[i])
    case Single(id) => id.Some? && !env.isObjectId(id.value)
  }

  /** The whole reply of `formDataGet`. */
  function Respond(q: Query, env: Env): (r: GetResult)
    ensures env.form.None? ==> r == NotFound
    ensures env.form.Some? && !q.getForm && !DataIdTruthy(q.dataId) ==> r == BadRequest
    ensures env.form.Some? && DataIdTruthy(q.dataId) && CastFails(env, SelectMode(q.dataId.value)) ==> r == ServerError
    ensures (env.form.Some? && (q.getForm || DataIdTruthy(q.dataId))
             && !(DataIdTruthy(q.dataId) && CastFails(env, SelectMode(q.dataId.value)))) ==> r.Reply?
  {
    if env.form.None? then NotFound
    else if !q.getForm && !DataIdTruthy(q.dataId) then BadRequest
    else
      var form := env.form.value;
      var base := FormPart(q, env, form);
      if !DataIdTruthy(q.dataId) then Reply(base)
      else
        var mode := SelectMode(q.dataId.value);
        if CastFails(env, mode) then ServerError
        else
          var (data, pagination) := DataPart(q, env, form, mode);
          var withPage := if pagination.Some? then base["$pagination" := Pagination(pagination.value)] else base;
          Reply(Shaped(withPage, mode.Single?, q.flat, data))
  }

  // ---- properties of record inclusion and shaping ----

  /** The positions lie below `n`, hold in `flags`, and strictly increase. */
  lemma {:induction false} TrueIndicesOrdered(flags: seq<bool>, n: nat)
    requires n <= |flags|
    ensures |TrueIndices(flags, n)| <= n
    ensures forall k :: 0 <= k < |TrueIndices(flags, n)| ==> TrueIndices(flags, n)[k] < n && flags[TrueIndices(flags, n)[k]]
    ensures forall k1, k2 :: 0 <= k1 < k2 < |TrueIndices(flags, n)| ==> TrueIndices(flags, n)[k1] < TrueIndices(flags, n)[k2]
  {
    if n > 0 {
      TrueIndicesOrdered(flags, n - 1);
    }
  }

  /** A position below `n` is listed if and only if `flags` holds there. */
  lemma {:induction false} TrueIndicesComplete(flags: seq<bool>, n: nat)
    requires n <= |flags|
    ensures forall m :: 0 <= m < n ==> (m in TrueIndices(flags, n) <==> flags[m])
  {
    if n > 0 {
      TrueIndicesComplete(flags, n - 1);
      TrueIndicesOrdered(flags, n - 1);
      assert n - 1 !in TrueIndices(flags, n - 1);
    }
  }

  /** Entry `k` of the collected list is the redaction of document `ListIndices[k]`. */
  lemma {:induction false} ListDataAlongIndices(form: Form, env: Env, docs: seq<FormDataRecord>, n: nat)
    requires n <= |docs|
    ensures |ListData(form, env, docs, n)| == |ListIndices(form, env, docs, n)|
    ensures forall k :: 0 <= k < |ListIndices(form, env, docs, n)| ==>
      ListIndices(form, env, docs, n)[k] < n &&
      ListData(form, env, docs, n)[k] == Redacted(form, env, docs[ListIndices(form, env, docs, n)[k]])
  {
    TrueIndicesOrdered(NonEmptyFlags(form, env, docs), n);
    if n > 0 {
      ListDataAlongIndices(form, env, docs, n - 1);
    }
  }

  /**
   * The list paths collect, in document order, exactly the non-empty redactions: entry `k` is the redaction
   * of document `ListIndices[k]`, the indices strictly increase (one entry per document at most), and a
   * document is collected if and only if its redaction is non-empty.
   */
  lemma ListDataEntries(form: Form, env: Env, docs: seq<FormDataRecord>, n: nat)
    requires n <= |docs|
    ensures |ListData(form, env, docs, n)| == |ListIndices(form, env, docs, n)| <= n
    ensures forall k :: 0 <= k < |ListIndices(form, env, docs, n)| ==>
      var m := ListIndices(form, env, docs, n)[k];
      m < n && ListData(form, env, docs, n)[k] == Redacted(form, env, docs[m]) && |Redacted(form, env, docs[m])| > 0
    ensures forall k1, k2 :: 0 <= k1 < k2 < |ListIndices(form, env, docs, n)| ==>
      ListIndices(form, env, docs, n)[k1] < ListIndices(form, env, docs, n)[k2]
    ensures forall m :: 0 <= m < n ==> (m in ListIndices(form, env, docs, n) <==> |Redacted(form, env, docs[m])| > 0)
  {
    var flags := NonEmptyFlags(form, env, docs);
    TrueIndicesOrdered(flags, n);
    TrueIndicesComplete(flags, n);
    ListDataAlongIndices(form, env, docs, n);
  }

  /** Every field of a record, at its own index. */
  function AllFields(rec: FormDataRecord): seq<Data> {
    var raw := rec.data.GetOr([]);
    seq(|raw|, i requires 0 <= i < |raw| => Project(raw, i))
  }

  /**
   * The list paths make no document-level check: records without element privileges and with data are
   * returned whole, in order, whatever the evaluator says about their document-level rule.
   */
  lemma {:induction false} ListPathsSkipDocumentCheck(form: Form, env: Env, docs: seq<FormDataRecord>, n: nat)
    requires n <= |docs|
    requires forall m :: 0 <= m < n ==> !docs[m].hasElemPrivileges && |docs[m].data.GetOr([])| > 0
    ensures |ListData(form, env, docs, n)| == n
    ensures forall m :: 0 <= m < n ==> ListData(form, env, docs, n)[m] == AllFields(docs[m])
  {
    if n > 0 {
      ListPathsSkipDocumentCheck(form, env, docs, n - 1);
      var rec := docs[n - 1];
      var raw := rec.data.GetOr([]);
      NoElemPrivilegesKeepsAll(raw, |raw|, RecordCtx(form, env, rec));
      assert Redacted(form, env, rec) == AllFields(rec);
    }
  }

  /** In the single path a document-level denial hides the record, element overrides notwithstanding. */
  lemma SingleDeniedHidesRecord(form: Form, env: Env, rec: FormDataRecord)
    requires env.isPrivBlocked(Some(MainPrivileges(form.defaultRead, rec.readPriv)), env.user, env.csrfIsGood).Some?
    ensures SingleData(form, env, Some(rec)) == []
  {
  }

  /** In the single path the record is returned exactly when the document-level check passes and its redaction is non-empty. */
  lemma SingleInclusion(form: Form, env: Env, rec: FormDataRecord)
    ensures SingleData(form, env, Some(rec)) ==
      if env.isPrivBlocked(Some(MainPrivileges(form.defaultRead, rec.readPriv)), env.user, env.csrfIsGood).None?
         && |Redacted(form, env, rec)| > 0
      then [Redacted(form, env, rec)] else []
  {
  }

  /**
   * The single path never looks at the record's `formId`: a record of another form, fetched by its id, is
   * judged by this form's default read privileges.
   */
  lemma SingleIgnoresFormId(form: Form, env: Env, rec: FormDataRecord, otherFormId: string)
    ensures SingleData(form, env, Some(rec)) == SingleData(form, env, Some(rec.(formId := otherFormId)))
  {
  }

  /**
   * Flat mode iterates over `data.length`, which is at most one, so it adds at most one key to the
   * reply: the first field of the single record, name to value. A malformed id throws instead.
   */
  lemma FlatModeAtMostOneKey(q: Query, env: Env)
    requires env.form.Some? && DataIdTruthy(q.dataId) && SelectMode(q.dataId.value).Single? && q.flat
    ensures CastFails(env, SelectMode(q.dataId.value)) ==> Respond(q, env) == ServerError
    ensures !CastFails(env, SelectMode(q.dataId.value)) ==>
            var form := env.form.value;
            var id := SelectMode(q.dataId.value).id;
            var data := SingleData(form, env, if id.Some? then env.findById(id.value) else None);
            var base := FormPart(q, env, form);
            Respond(q, env) == Reply(if data == [] then base else base[data[0][0].elemId := FieldValue(data[0][0].value)])
  {
    var form := env.form.value;
    var mode := SelectMode(q.dataId.value);
    var rec := if mode.id.Some? then env.findById(mode.id.value) else None;
    var data := SingleData(form, env, rec);
    var base := FormPart(q, env, form);
    if !CastFails(env, mode) {
      assert DataPart(q, env, form, mode) == (data, None);
      if data != [] {
        assert FlatWrite(base, data[0], |data|) == base[data[0][0].elemId := FieldValue(data[0][0].value)];
      }
    }
  }

  /** `$form` is present whenever `getForm` is set and nothing throws, and flat mode does not write a field over it. */
  lemma FormEntryPresent(q: Query, env: Env)
    requires env.form.Some? && q.getForm
    requires !(DataIdTruthy(q.dataId) && SelectMode(q.dataId.value).Single? && q.flat)
    ensures !(DataIdTruthy(q.dataId) && CastFails(env, SelectMode(q.dataId.value))) ==>
            var form := env.form.value;
            Respond(q, env).Reply? &&
            Respond(q, env).fields["$form"] ==
              FormEntry(form, env.isPrivBlocked(env.privilegeAccess(CanUseFormId(form.simpleId)), env.user, env.csrfIsGood))
  {
  }

  /**
   * A bulk read that does not fail replies with the redacted list of the page the store returned for the
   * bulk request, and with that page's pagination summary.
   */
  lemma BulkReplyContents(q: Query, env: Env)
    requires env.form.Some? && DataIdTruthy(q.dataId) && SelectMode(q.dataId.value).Bulk?
    ensures var form := env.form.value;
            var page := env.paginate(BulkRequest(q, env, form));
            && Respond(q, env).Reply?
            && Respond(q, env).fields["data"] == DataList(ListData(form, env, page.docs, |page.docs|))
            && Respond(q, env).fields["$pagination"] == Pagination(page.pagination)
  {
  }

  /** A bulk request asks the store for at most 500 records unless the client sent a limit below -500. */
  lemma BulkRequestClamped(q: Query, env: Env, form: Form)
    requires q.limit.None? || q.limit.value >= -MaxLimit
    ensures 0 < BulkRequest(q, env, form).limit <= MaxLimit
  {
  }

  // ---- the handler ----

  /** The list-path loop: redact each document and keep the non-empty results. */
  method CollectReadable(form: Form, env: Env, docs: seq<FormDataRecord>) returns (data: seq<seq<Data>>)
    ensures data == ListData(form, env, docs, |docs|)
    ensures forall k :: 0 <= k < |data| ==> |data[k]| > 0
  {
    data := [];
    for i := 0 to |docs|
      invariant data == ListData(form, env, docs, i)
    {
      var fd := docs[i];
      var mainPrivileges := MainPrivileges(form.defaultRead, fd.readPriv);
      var rawData := fd.data.GetOr([]);
      var dataSet := CheckAndSetReadData(rawData, ReadCtx(mainPrivileges, env.user, env.csrfIsGood, fd.hasElemPrivileges, env.isPrivBlocked));
      if |dataSet| > 0 {
        data := data + [dataSet];
      }
    }
    ListDataEntries(form, env, docs, |docs|);
  }

  /** `dataId.map((id) => new Types.ObjectId(id))`: succeeds only when every id casts; it stops at the first that does not. */
  method CastIds(env: Env, ids: seq<string>) returns (ok: bool)
    ensures ok <==> forall i :: 0 <= i < |ids| ==> env.isObjectId(ids[i])
  {
    for i := 0 to |ids|
      invariant forall j :: 0 <= j < i ==> env.isObjectId(ids[j])
    {
      if !env.isObjectId(ids[i]) {
        return false;
      }
    }
    return true;
  }

  /**
   * The fetch step for a truthy `dataId`: bulk, multi-id or single-id as the handler branches, with the id
   * casts that throw. Returns the collected data sets and, on the list paths, the store's page summary.
   */
  method FetchData(q: Query, env: Env, form: Form, dataId: DataIdParam) returns (thrown: bool, data: seq<seq<Data>>, pagination: Option<Json>)
    ensures thrown == CastFails(env, SelectMode(dataId))
    ensures !thrown ==> (data, pagination) == DataPart(q, env, form, SelectMode(dataId))
  {
    thrown, data, pagination := false, [], None;
    if FirstId(dataId) == Some("all") {
      var page := env.paginate(PaginateFiltered(BulkFilter(form.simpleId, env.user, env.csrfIsGood), Offset(q.offset), Limiter(q.limit)));
      data := CollectReadable(form, env, page.docs);
      pagination := Some(page.pagination);
    } else if dataId.Ids? && |dataId.ids| > 1 {
      var castOk := CastIds(env, dataId.ids);
      if !castOk {
        return true, [], None;
      }
      var clauses := if env.user.isSignedIn then SignedInQuery(env.user, env.csrfIsGood) else SignedOutQuery(env.csrfIsGood);
      var page := env.paginate(PaginateIds(form.simpleId, dataId.ids, clauses));
      data := CollectReadable(form, env, page.docs);
      pagination := Some(page.pagination);
    } else {
      var id := FirstId(dataId);
      if id.Some? && !env.isObjectId(id.value) {
        // `findById` rejects an id that does not cast
        return true, [], None;
      }
      var formData := if id.Some? then env.findById(id.value) else None;
      var mainPrivileges := MainPrivileges(form.defaultRead, if formData.Some? then formData.value.readPriv else None);
      var mainPrivError := env.isPrivBlocked(Some(mainPrivileges), env.user, env.csrfIsGood);
      var rawData := if formData.Some? then formData.value.data.GetOr([]) else [];
      var hasElemPrivileges := formData.Some? && formData.value.hasElemPrivileges;
      var dataSet := CheckAndSetReadData(rawData, ReadCtx(mainPrivileges, env.user, env.csrfIsGood, hasElemPrivileges, env.isPrivBlocked));
      if mainPrivError.None? && |dataSet| > 0 {
        data := [dataSet];
      }
    }
  }

  /** Flat mode's loop: `returnObject[item[i].elemId] = item[i].value` for `i < n`. */
  method FlatLoop(base: map<string, ReplyValue>, item: seq<Data>, n: nat) returns (returnObject: map<string, ReplyValue>)
    requires n <= |item|
    ensures returnObject == FlatWrite(base, item, n)
  {
    returnObject := base;
    for i := 0 to n
      invariant returnObject == FlatWrite(base, item, i)
    {
      returnObject := returnObject[item[i].elemId := FieldValue(item[i].value)];
    }
  }

  /** The shaping step: flat mode's loop over `data.length`, else the `data` key. */
  method ShapeReply(base: map<string, ReplyValue>, oneItem: bool, flat: bool, data: seq<seq<Data>>) returns (returnObject: map<string, ReplyValue>)
    requires oneItem && flat && |data| > 0 ==> |data| <= |data[0]|
    ensures returnObject == Shaped(base, oneItem, flat, data)
  {
    returnObject := base;
    if oneItem && flat {
      if |data| > 0 {
        returnObject := FlatLoop(base, data[0], |data|);
      }
    } else if oneItem {
      if |data| > 0 {
        returnObject := returnObject["data" := DataItem(data[0])];
      }
    } else {
      returnObject := returnObject["data" := DataList(data)];
    }
  }

  /** `formDataGet`: not-found, then bad-request, then `$form`, then the data for the selected mode, then shaping. */
  method FormDataGet(q: Query, env: Env) returns (r: GetResult)
    ensures r == Respond(q, env)
  {
    if env.form.None? {
      return NotFound;
    }
    var form := env.form.value;
    if !q.getForm && !DataIdTruthy(q.dataId) {
      return BadRequest;
    }
    var returnObject: map<string, ReplyValue> := map[];
    if q.getForm {
      var privilege := env.privilegeAccess(CanUseFormId(form.simpleId));
      var privError := env.isPrivBlocked(privilege, env.user, env.csrfIsGood);
      returnObject := returnObject["$form" := FormEntry(form, privError)];
    }
    if DataIdTruthy(q.dataId) {
      var dataId := q.dataId.value;
      var thrown, data, pagination := FetchData(q, env, form, dataId);
      if thrown {
        return ServerError;
      }
      if pagination.Some? {
        returnObject := returnObject["$pagination" := Pagination(pagination.value)];
      }
      var oneItem := SelectMode(dataId).Single?;
      returnObject := ShapeReply(returnObject, oneItem, q.flat, data);
    }
    return Reply(returnObject);
  }
}
