# Form-data reads, configuration lookup and input validation of council-fastify

This project is a Dafny model of these parts of the council-fastify back end:

- **Form-data reads** (`back/src/features/formData/handlers.ts`). `formDataGet` answers a read of a form's records. It returns not-found or bad-request, then the optional `$form` entry (the form with its element list white-listed, or the privilege error's code). Then it fetches records in one of three modes: bulk (`dataId[0] === 'all'`), multi-id (an array of more than one id) or single-id. Each record is redacted by `checkAndSetReadData`, which keeps the data elements the requester may read. Last, the reply is shaped as `data`, or field by field in flat mode.
- The **store-side read filters** `readDataAsSignedInPrivilegesQuery` and `readDataAsSignedOutPrivilegesQuery`. They are modelled as a small clause language, and a record's meaning is the MongoDB matching rules over its `privileges.read`.
- **Configuration lookup** (`back/src/core/config.ts`). `getConfig` walks a dotted path with a fallback default. The system-settings cache is a class with a time-to-live: `getSysSetting`, `getSysSettingsForm` and `getPublicSysSettings`.
- **Input validation** (`back/src/utils/validation.ts`). Sign-up checks with their fixed order and their bounds: option, then configuration, then default. The multiline simple-id pattern. The value/type tag check.

The privilege evaluator `isPrivBlocked` is a function parameter (`Privileges.PrivCheck`), so every property proved here holds for any evaluator. The store calls, the CSRF check, the requester lookup and the clock are inputs too.

Behaviours of the code that the model keeps and proves, even where the source's comments or names suggest otherwise:

- **A negative `limit` escapes the ceiling.** The page size is `Math.abs(limit)`, so a limit below -500 asks for more than 500 records (`FormDataRead.LimiterCeiling`).
- **When the handler receives `dataId` as the string `"all"`, it does not select bulk mode.** `dataId[0]` of a string is its first character, so it becomes a single-id read of id `"a"` (`FormDataRead.AllAsStringIsSingle`). A one-character id never casts to an ObjectId, so any non-empty string `dataId` ends in a server error, and the single-id path is not reached from a string (`FormDataRead.StringDataIdThrows`). Whether the query-string validator turns a single `dataId` into a one-element list before the handler runs is decided outside this model.
- **Flat mode writes at most one field.** The loop runs over `data.length`, which is at most 1, not over the record's fields (`FormDataRead.FlatModeAtMostOneKey`).
- **Only the single-id path makes a document-level check.** There, a denial hides the record even when an element override would allow a field. The list paths rely on the store filter alone, and return records whole when they have no element privileges (`FormDataRead.SingleDeniedHidesRecord`, `FormDataRead.ListPathsSkipDocumentCheck`).
- **`public: 'true'` does not replace being listed.** The signed-in filter requires a non-admin to be listed in `users` or `groups` even then, and it never admits `'onlyPublic'` records (`ReadQueries.PublicRecordNeedsListing`, `ReadQueries.SignedInExcludesOnlyPublic`).
- **A record without `requireCsrfHeader` passes neither filter** (`ReadQueries.MissingCsrfFlagExcluded`).
- **The exclusion fields are named `excludedUsers` / `excludedGroups`** in the filters, as the code writes them.
- **`orderNr` in a reply is the element's index in the stored `data` list**, not the form element's order number.
- **The single-id path never checks that the fetched record belongs to the requested form.** A record of another form is judged by this form's default read privileges (`FormDataRead.SingleIgnoresFormId`).
- **An id that does not cast to an ObjectId makes the handler throw.** This covers any id of a multi-id read (`new Types.ObjectId` in the `map`) and the id of a single-id read (`findById`). The client then gets a server error instead of a reply (`FormDataRead.Respond`, `FormDataRead.CastIds`).

The filters' meaning rests on `ReadQueries.Eval`, the model's statement of the MongoDB matching rules it relies on. An equality matches a field that equals the value or an array holding it. `$in` matches when some listed value does. `$not` also matches a missing field. `$or` and `$and` are disjunction and conjunction.

## Model

| member | source | states |
|---|---|---|
| Privileges.Merge | back/src/features/formData/handlers.ts:238 | object spread: the keys are the union, every key of the override wins, every other key keeps its base value |
| Privileges.MainPrivileges | back/src/features/formData/handlers.ts:172-175 | the document rule is the form's default read privileges, overridden key by key by the record's `privileges.read`; exactly the defaults when the record has none |
| Privileges.EffectiveElemRule | back/src/features/formData/handlers.ts:237-238 | an element override is checked against three layers in precedence order: element override, then record read privileges, then form defaults |
| Redaction.ReadDataIsSubsequence | back/src/features/formData/handlers.ts:233-253 | the redacted list is no longer than the input; every entry is the white-listed projection of a readable raw element at index `orderNr`; the indices strictly increase |
| Redaction.ReadDataKeepsExactlyReadable | back/src/features/formData/handlers.ts:234-251 | raw element `i` appears in the output if and only if its element-level check reports no error |
| Redaction.NoElemPrivilegesKeepsAll | back/src/features/formData/handlers.ts:237-251 | without `hasElemPrivileges` every element is returned, in order, at its own index, whatever the evaluator says |
| Redaction.NoOverrideIgnoresMainRule | back/src/features/formData/handlers.ts:236-243 | when no element carries an override, the output does not depend on the main privileges or the evaluator |
| Redaction.OverrideDecidedByMerge | back/src/features/formData/handlers.ts:237-240 | an element with an override is kept exactly when the evaluator accepts the override spread over the main privileges; `ElemPrivError` checks nothing else (see `NoElemPrivilegesKeepsAll`) |
| Redaction.CheckAndSetReadData | back/src/features/formData/handlers.ts:226-254 | the loop returns the specification list: projections of readable elements only, strictly ordered by index, each element present if and only if readable |
| ReadQueries.SignedInQuery | back/src/features/formData/handlers.ts:256-276 | the signed-in filter has two clauses for a system admin and five otherwise |
| ReadQueries.SignedOutQuery | back/src/features/formData/handlers.ts:278-288 | the signed-out filter has two clauses |
| ReadQueries.CsrfClauseMeaning | back/src/features/formData/handlers.ts:259-262 | the CSRF clause holds exactly when `requireCsrfHeader` holds `false` or holds the request's CSRF result |
| ReadQueries.StrsMembership | back/src/features/formData/handlers.ts:270 | `$in` over the group list matches exactly when the field holds one of the requester's groups |
| ReadQueries.SignedOutQueryMeaning | back/src/features/formData/handlers.ts:278-288 | a signed-out requester sees a record if and only if `public` holds `'true'` or `'onlyPublic'` and the CSRF clause holds |
| ReadQueries.CsrfGoodAcceptsEither | back/src/features/formData/handlers.ts:283-286 | with a good CSRF header, a record passes the CSRF clause exactly when `requireCsrfHeader` holds either boolean |
| ReadQueries.MissingCsrfFlagExcluded | back/src/features/formData/handlers.ts:259-262 | a record without `requireCsrfHeader` is refused by both filters, whoever asks |
| ReadQueries.ListedClauseMeaning | back/src/features/formData/handlers.ts:266-271 | the listing clause matches exactly when the requester's id is in `users` or one of their groups is in `groups` |
| ReadQueries.ExcludedClausesMeaning | back/src/features/formData/handlers.ts:272-273 | the exclusion clauses match exactly when the requester's id is not in `excludedUsers` and none of their groups is in `excludedGroups` |
| ReadQueries.SignedInQueryMeaning | back/src/features/formData/handlers.ts:256-276 | a signed-in requester sees a record if and only if it is not `'onlyPublic'`, the CSRF clause holds and, for a non-admin, they are listed by id or group and excluded by neither |
| ReadQueries.SignedInExcludesOnlyPublic | back/src/features/formData/handlers.ts:257 | an `'onlyPublic'` record is never admitted to a signed-in requester, admin or not |
| ReadQueries.AdminQueryIsWeaker | back/src/features/formData/handlers.ts:264-275 | whatever the non-admin filter admits, the admin filter for the same requester admits too |
| ReadQueries.PublicRecordNeedsListing | back/src/features/formData/handlers.ts:264-275 | a record whose `public` holds `'true'` but that lists neither the requester's id nor one of their groups is refused to a signed-in non-admin, whatever its CSRF flag |
| ReadQueries.BulkFilterMeaning | back/src/features/formData/handlers.ts:113-130 | the bulk filter admits a record exactly when it belongs to the form and passes the builder chosen by the sign-in state |
| FormDataRead.Limiter | back/src/features/formData/handlers.ts:99-100 | the page size is positive; a missing or zero limit gives 500; a limit in 1..499 is kept; 500 and above give 500; a negative limit gives its absolute value |
| FormDataRead.LimiterCeiling | back/src/features/formData/handlers.ts:100 | the page size is at most 500 if and only if the limit is missing or at least -500 |
| FormDataRead.Offset | back/src/features/formData/handlers.ts:102 | `offset \|\| 0`: the given offset, 0 when missing |
| FormDataRead.FirstId | back/src/features/formData/handlers.ts:109 | `dataId[0]` is the first id of a non-empty list, the first character of a non-empty string, and undefined otherwise |
| FormDataRead.SelectMode | back/src/features/formData/handlers.ts:109-166 | bulk if and only if `dataId[0]` is `'all'`; multi-id if and only if not bulk and a list of more than one id; single-id otherwise, on `dataId[0]` |
| FormDataRead.AllAsStringIsSingle | back/src/features/formData/handlers.ts:109 | the string `"all"` selects a single-id read of `"a"` |
| FormDataRead.StringDataIdThrows | back/src/features/formData/handlers.ts:109-166 | a non-empty string `dataId` gives a server error when only ids of 12 or 24 characters cast: its first character is the id asked for |
| FormDataRead.WhiteList | back/src/features/formData/handlers.ts:71-85 | a form element keeps exactly its 13 white-listed properties, with their values |
| FormDataRead.FormEntry | back/src/features/formData/handlers.ts:64-89 | `$form` is the error code when the privilege check fails with a non-empty code; otherwise the form with no elements when blocked, or all elements white-listed when allowed |
| FormDataRead.Respond | back/src/features/formData/handlers.ts:43-166 | not-found without a form; bad-request when neither `getForm` nor a truthy `dataId` is given; a server error when a requested id does not cast to an ObjectId; a reply otherwise |
| FormDataRead.CastIds | back/src/features/formData/handlers.ts:136 | mapping the ids to ObjectIds succeeds if and only if every id casts |
| FormDataRead.SingleData | back/src/features/formData/handlers.ts:192-209 | the single path collects at most one data set, never an empty one, and none for a missing record |
| FormDataRead.ListDataEntries | back/src/features/formData/handlers.ts:168-187 | the list paths collect, in document order, exactly the non-empty redactions: entry `k` is the redaction of document `ListIndices[k]`, the indices strictly increase, and a document is collected if and only if its redaction is non-empty |
| FormDataRead.TrueIndicesOrdered | back/src/features/formData/handlers.ts:170-186 | the collected document indices lie below the document count, name documents with a non-empty redaction, and strictly increase |
| FormDataRead.TrueIndicesComplete | back/src/features/formData/handlers.ts:184-186 | a document index is collected if and only if that document's redaction is non-empty |
| FormDataRead.ListPathsSkipDocumentCheck | back/src/features/formData/handlers.ts:168-187 | documents with data and without element privileges are returned whole and in order, whatever the document-level rule says |
| FormDataRead.SingleDeniedHidesRecord | back/src/features/formData/handlers.ts:197-208 | in the single path a failed document-level check hides the whole record |
| FormDataRead.SingleInclusion | back/src/features/formData/handlers.ts:192-209 | in the single path the record is returned if and only if the document-level check passes and its redaction is non-empty |
| FormDataRead.SingleIgnoresFormId | back/src/features/formData/handlers.ts:165-208 | the single path's result does not depend on the record's `formId` |
| FormDataRead.FlatWriteKeys | back/src/features/formData/handlers.ts:212-214 | the flat loop adds exactly the written element ids as keys to the base, and the last entry written wins |
| FormDataRead.FlatWriteKeepsOthers | back/src/features/formData/handlers.ts:212-214 | a base key that no written entry names keeps its base value |
| FormDataRead.FlatLoop | back/src/features/formData/handlers.ts:212-214 | the flat loop builds exactly the map of `FlatWriteKeys`: the base with the first `n` fields written by element id |
| FormDataRead.Shaped | back/src/features/formData/handlers.ts:211-219 | outside flat mode only the `data` key changes: the list of data sets for the list paths, the single data set when there is one; flat mode adds exactly the element ids of the first `data.length` fields |
| FormDataRead.ShapeReply | back/src/features/formData/handlers.ts:211-219 | the shaping step returns exactly the reply that `Shaped` describes |
| FormDataRead.FlatModeAtMostOneKey | back/src/features/formData/handlers.ts:211-214 | in flat single-id mode the reply is the `$form` part plus at most one key, the first field of the record, name to value; a malformed id gives a server error instead |
| FormDataRead.FormEntryPresent | back/src/features/formData/handlers.ts:64-90 | with `getForm` set and no id failing to cast, the reply carries the `$form` entry computed from the `canUseForm` privilege, unless flat mode overwrites it |
| FormDataRead.BulkReplyContents | back/src/features/formData/handlers.ts:109-219 | a bulk reply's `data` is the redacted list of the page the store returned for the bulk request, and `$pagination` is that page's summary |
| FormDataRead.BulkRequestClamped | back/src/features/formData/handlers.ts:99-122 | a bulk request asks for between 1 and 500 records, unless the limit is below -500 |
| FormDataRead.FetchData | back/src/features/formData/handlers.ts:109-209 | the fetch throws exactly when a requested id fails to cast; otherwise it returns the data sets and pagination of the selected mode |
| FormDataRead.CollectReadable | back/src/features/formData/handlers.ts:168-187 | the list loop returns the specification list of non-empty redactions, in document order |
| FormDataRead.FormDataGet | back/src/features/formData/handlers.ts:38-224 | the handler returns exactly the specified reply or error, so every property of `Respond` holds for it |
| Config.Split | back/src/core/config.ts:51 | `split('.')` gives at least one piece, and no piece holds a separator |
| Config.SplitJoin | back/src/core/config.ts:51 | joining the pieces with the separator gives the path back |
| Config.SplitSingle | back/src/core/config.ts:51-52 | a path splits into one piece if and only if it holds no dot |
| Config.SplitAfterFirstSeparator | back/src/core/config.ts:51-55 | the first piece is everything before the first dot; the rest splits independently |
| Config.ResolveAppend | back/src/core/config.ts:55-65 | walking a path equals walking its first part, then the rest from where that ends |
| Config.Wrap | back/src/core/config.ts:36-48 | `returnWrapper`: a defined value (even `null`) is returned as is, `undefined` becomes the default |
| Config.Root | back/src/core/config.ts:35 | `CONFIG \|\| {}`: a truthy configuration is returned unchanged, a falsy one becomes `{}`, so the root is never `null` |
| Config.NoPathGivesWholeConfig | back/src/core/config.ts:50-68 | no path, or an empty one, returns the whole configuration object |
| Config.SingleSegment | back/src/core/config.ts:52-54 | a dot-free path reads one property, falls back to the default and never throws |
| Config.DefinedValueWins | back/src/core/config.ts:44-47 | when the path resolves, the result is that value, whatever default is given |
| Config.UndefinedOnlyWithoutDefault | back/src/core/config.ts:36-48 | the result is `undefined` only when the path is non-empty, does not resolve, and no default was given |
| Config.GetConfig | back/src/core/config.ts:34-69 | the step-by-step walk returns exactly the specified lookup, including the `TypeError` thrown when reading through `null` |
| SysSettings.MissingSectionGivesDefault | back/src/core/config.ts:55-57 | a dotted path whose first segment is missing from the configuration returns the default |
| SysSettings.CacheTimeDefault | back/src/core/config.ts:74 | the cache time is 180000 ms when the configuration has no `caches` section |
| SysSettings.FindSetting | back/src/core/config.ts:98-101 | the value of the first setting with the id; none if and only if no setting has that id |
| SysSettings.CollectPublicSettings | back/src/core/config.ts:123-130 | the keys are exactly the public elements that have a setting, each mapped to that setting's value |
| SysSettings.SettingsCache.constructor | back/src/core/config.ts:71-74 | the cache starts empty, with the configured time-to-live |
| SysSettings.SettingsCache.SetCachedSysSettings | back/src/core/config.ts:76-80 | both cached values come from the store, and the time is stamped |
| SysSettings.SettingsCache.GetCachedSysSettings | back/src/core/config.ts:82-91 | refresh happens if and only if the settings or the timestamp is missing or strictly older than the time-to-live; otherwise nothing changes; the returned list is the cache; afterwards the cache is fresh whenever the time-to-live is not negative |
| SysSettings.SettingsCache.GetSysSetting | back/src/core/config.ts:94-102 | same refresh rule; the result is the first cached setting with the id |
| SysSettings.SettingsCache.GetSysSettingsForm | back/src/core/config.ts:105-114 | the form's own refresh rule (the cached form instead of the settings); returns the cached form |
| SysSettings.SettingsCache.GetPublicSysSettings | back/src/core/config.ts:119-133 | `{}` without a cached form; otherwise exactly the public elements that have a setting, each with its value |
| Validation.TrimStart | back/src/utils/validation.ts:15-16 | the result is a suffix, only white space was dropped, and it does not start with white space |
| Validation.TrimEnd | back/src/utils/validation.ts:15-16 | the result is a prefix, only white space was dropped, and it does not end with white space |
| Validation.Trim | back/src/utils/validation.ts:15-16 | the result is no longer than the input, and neither starts nor ends with white space |
| Validation.TrimIdempotent | back/src/utils/validation.ts:15-16 | trimming twice equals trimming once |
| Validation.Bound | back/src/utils/validation.ts:23-24 | a non-zero option wins; otherwise the configured value; otherwise the default |
| Validation.SignupVerdict | back/src/utils/validation.ts:10-52 | sign-up is valid if and only if the name is free and both trimmed lengths lie within their bounds; a taken username is reported first, with the trimmed name, whatever the lengths |
| Validation.CheckTrimmed | back/src/utils/validation.ts:18-51 | each error is reported exactly when every earlier check passed and its own bound is broken, and it carries that bound; no error exactly when all bounds hold |
| Validation.PasswordCheckedAfterUsername | back/src/utils/validation.ts:25-48 | a password error is reported only for a free username of acceptable length; too-long only after the minimum passed |
| Validation.SignupIgnoresSurroundingSpace | back/src/utils/validation.ts:15-16 | surrounding white space never changes the verdict |
| Validation.DefaultBounds | back/src/utils/validation.ts:23-43 | with no options (or zero options) and nothing configured, the bounds are 2, 32, 8 and 128 |
| Validation.ValidateSimpleId | back/src/utils/validation.ts:54-58 | the empty string is never a valid simple id |
| Validation.SimpleIdSingleLine | back/src/utils/validation.ts:54-58 | for a one-line input the test holds if and only if the input is non-empty and only letters, digits, `-` and `_` |
| Validation.SimpleIdLinesSplit | back/src/utils/validation.ts:54-58 | a match in a string with a line terminator lies in the text before it or in the text after it |
| Validation.SimpleIdLinesBefore | back/src/utils/validation.ts:54-58 | a matching line before a line terminator makes the whole string match |
| Validation.SimpleIdLinesAfter | back/src/utils/validation.ts:54-58 | a matching line after a line terminator makes the whole string match |
| Validation.SimpleIdLines | back/src/utils/validation.ts:54-58 | under the multiline flag, a string with a line terminator passes if and only if the text before it or the text after it passes |
| Validation.IsValueAndTypeValid | back/src/utils/validation.ts:60-73 | `'unknown'` and `'none'` accept anything; `'string'` and `'number'` accept exactly values of that type; any other tag rejects |

## Left out

- The privilege evaluator `isPrivBlocked`, `getUserData`, `isCsrfGood`, `getPaginationData` and `getApiPathFromReqUrl` are parameters or inputs. Their code is not part of this model.
- The store calls (`findOne`, `findById`, `paginate`) are inputs. The paginating store is a function from the request to its page. The bulk filter is given a meaning (`ReadQueries.BulkFilterMeaning`); the store's sorting, collation and page arithmetic are not modelled.
- The multi-id request spreads the clause array into an object next to `_id: { $in }`. What the store makes of those numbered keys depends on the mapper's strict-query setting, so `PaginateIds` is left uninterpreted.
- FormDataRead.Respond: whether an id casts to an ObjectId is the `isObjectId` input. The driver accepts 24 hexadecimal digits, and some driver versions also accept a 12-character string. The cast inside `findById` is given the same rule as `new Types.ObjectId`. The error's status code and body come from the framework and are not modelled.
- `formDataPost` is a placeholder that only looks up the form, and is not modelled.
- In the single path, when nothing is collected and flat is off, the source sets `data` to `undefined`. The model leaves the key absent, which is what a JSON reply shows.
- The query-string values `elemId`, `orderBy`, `orderDir` and `s` are read but unused, and only logged. Logging (`console.log`, `console.warn`) is not modelled.
- Numbers are integers. Floating-point limits, offsets, settings and lengths are not modelled.
- String lengths count code points; JavaScript counts UTF-16 code units, which differ for characters outside the Basic Multilingual Plane.
- Config.Member: reads own object members and array indices only. Inherited properties, `length` of strings and arrays, and character indexing of strings read as `undefined`.
- The configured bounds and the cache time are integers when present. A non-numeric value in the configuration file is not modelled.
- SysSettings.SettingsCache.SetCachedSysSettings: the refresh is one atomic step. The source awaits the settings, then the form, then stamps the time. Concurrent requests can interleave there: a reader can see new settings with the old form and timestamp, and two readers that both find the cache stale both refresh. The model does not capture those interleavings.
- ReadQueries.Eval: the matching rules are the model's statement of MongoDB's semantics for the operators used. They are not derived from the database's code, and they do not cover `null` values or dotted paths that go through arrays.
- The real clock is the `now` parameter. The store's answers at refresh time are the `SettingsDb` parameter.
- The branch `if (!settings)` in `getSysSetting` and `getPublicSysSettings` cannot be taken, because the settings list is always an array after a refresh, so it has no model.
- Validation.IsValueAndTypeValid: the `'date'` tag is excluded by its precondition. It depends on `Date` parsing and ISO formatting.
- Validation.Trim: the contract states the length bound and the non-white-space ends, but not that the result is a slice of the input with only white space removed. Those slice properties are proved for `TrimStart` and `TrimEnd` separately.
- Validation.ValidatePublicSignup: the error messages are reduced to the error kind and its bound.
