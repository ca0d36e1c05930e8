# audiencemanager in Dafny

A model of the core of `audiencemanager`, a Python wrapper around the Adobe Audience Manager
REST API, and proofs about it. The model covers four subsystems:

- **The session object `AdobeRequest`** (`Connector`, connector.dfy). Construction refuses an
  empty `org_id`. It then reads the private key, inline or from a file found by `find_path`. It
  builds the claim set of the signed assertion and the exchange form, and reads the token and
  its lifetime from the endpoint's reply. Last, it stores the token, the deadline and the
  bearer header in place. Before every request, `_checkingDate` compares the clock with the
  deadline. When a reply to `postData` has no JSON body, the status decides between a
  "success" dict and an "error" dict.
- **Folder flattening `_loop_folders`** (`Folders`, folders.dfy). This is a recursive walk over
  nested lists and dicts. Every folder dict appends one row to five shared lists, in
  pre-order. The walk is a class with five `seq` fields, and its method is proved against a
  pure specification of the walk. The specification is in turn proved to append exactly the
  rows of a reference pre-order listing, or to stop on a missing key.
- **The request builders and validators of `AudienceManager`** (`AudienceManager`,
  builders.dfy). These are the query parameters of `getTraits`, `getSegments` and the trait
  reports. They also cover the payloads of `createTrait`, `updateTrait`, the folder methods and
  the destination methods, each with its `for key in kwargs` loop. The paths of `getTrait`,
  `deleteTrait` and `deleteSegment`, and the bulk deletes, are modelled too.
- **The package functions of `audiencemanager/__init__.py`** (`Package`, package.dfy).
  `importConfigFile` overwrites the module-global `config_object` and `header` in place, so it
  is a method of a class holding both, proved against a pure specification. Also covered are
  the template and file name of `createConfigFile` and the variants of the builders that differ
  from the class in audiencemanager.py.

Python values are the `Json` datatype of `PyValues` (values.dfy). A dict is an association list
in insertion order, `Get` finds a key and `Put` is `d[k] = v`. A float is carried as its
`str()` text. A raised exception is an `Error` value, returned through `Result` or `Option`
(wrappers.dfy). Time is an integer number of milliseconds.

Two facts of the code decide when a token is renewed:

- `date_limit` is `now + expires_in/1000 - 500` in seconds, a margin of 500 seconds
  (`MARGIN_MS` is 500000 ms).
- `_checkingDate` renews the token only when `now > date_limit`, a strict comparison.

## Model

| member | source | states |
|---|---|---|
| Connector.FindPath | audiencemanager/connector.py:42-49 | the path itself when it exists; otherwise `.`+path when the path starts with `/` or `\` and that exists; otherwise nothing, exactly when neither exists |
| Connector.PrivateKey | audiencemanager/connector.py:51-63 | `get_private_key_from_config`: the inline key, else the text of the file `find_path` finds, else FileNotFoundError; stated by InlineKeyWins and KeyFileResolution |
| Connector.InlineKeyWins | audiencemanager/connector.py:55-57 | an inline `private_key` other than None is the key, whatever the files hold |
| Connector.KeyFileResolution | audiencemanager/connector.py:58-63 | without an inline key, the key is the text of the file that `find_path(pathToKey)` finds; when none is found, FileNotFoundError |
| Connector.FindPathRelativeFallback | audiencemanager/connector.py:44-49 | a missing path with a leading separator resolves to `.`+path exactly when that exists |
| Connector.Claims | audiencemanager/connector.py:77-84 | the claim set of the assertion, or the KeyError of its first missing entry; stated by ClaimValues and ClaimsFailure |
| Connector.ExchangeForm | audiencemanager/connector.py:87-91 | the form posted to the token endpoint; stated by ExchangeFormValues |
| Connector.ReadGrant | audiencemanager/connector.py:93-99 | reading `access_token` and `expires_in` from the reply, with the unbound `token` of a missing access token; stated by NoAccessTokenNoGrant and GrantFields |
| Connector.TokenAndExpiry | audiencemanager/connector.py:65-106 | `get_token_and_expiry_for_config`: key, claims, signing, exchange and reply read in order, the first failure winning; stated through StartSessionState and OnlyOrgIdChecked |
| Connector.Establish | audiencemanager/connector.py:26-31 | storing a grant in the object, its config and its header; stated by EstablishState |
| Connector.StartSession | audiencemanager/connector.py:20-31 | the whole construction: the org_id check, the exchange, then storing the grant; stated by StartSessionState, StartSessionIsValid and EmptyOrgIdRejected |
| Connector.ClaimValues | audiencemanager/connector.py:77-84 | the claim set has five entries: `exp` = now in whole seconds + 86400, `iss` = org_id, `sub` = tech_id, `aud` = the audience prefix + client_id, and the entitlement claim True |
| Connector.ClaimsFailure | audiencemanager/connector.py:78-83 | the claim set fails exactly when org_id, tech_id or client_id is missing; a missing org_id gives KeyError('org_id') |
| Connector.ExchangeFormValues | audiencemanager/connector.py:87-91 | the exchange form holds exactly client_id, client_secret = secret, and jwt_token = the signed assertion |
| Connector.NoAccessTokenNoGrant | audiencemanager/connector.py:94-99 | a reply without `access_token` never yields a token: the call fails on `expires_in` or on the unbound `token` |
| Connector.GrantFields | audiencemanager/connector.py:94-106 | a grant comes exactly from a dict with both `access_token` and `expires_in`, and carries their values |
| Connector.EmptyOrgIdRejected | audiencemanager/connector.py:20-22 | `org_id == ""` raises the configuration exception, whatever the key, the signer or the endpoint do |
| Connector.OnlyOrgIdChecked | audiencemanager/connector.py:20-25 | with any other org_id, construction fails exactly as the token exchange fails; otherwise it succeeds exactly when the lifetime divides |
| Connector.EstablishState | audiencemanager/connector.py:26-31 | after a grant: the token is in the object and in the config, `Authorization` = `Bearer <token>`, `date_limit` = now + expires_in − 500000 ms, and every other config entry and header is unchanged |
| Connector.StartSessionState | audiencemanager/connector.py:20-31 | construction is the exchange followed by storing its grant, and it succeeds exactly when both steps do |
| Connector.StartSessionIsValid | audiencemanager/connector.py:28-31 | a constructed session holds the invariant: a numeric deadline, and the same token in the config and the bearer header |
| Connector.ExampleSession | audiencemanager/connector.py:29-31 | token "tok-123" valid for 3600000 ms gives `Bearer tok-123` and a deadline 3100 s after the clock reading |
| Connector.AdobeRequest.constructor | audiencemanager/connector.py:23-31 | the fields are the caller's config with `token` and `date_limit` set, and the header with the bearer `Authorization`; the invariant holds |
| Connector.Connect | audiencemanager/connector.py:20-31 | the object built, or the exception raised, is exactly what the construction specification gives; a built object holds the invariant |
| Connector.AdobeRequest.CheckingDate | audiencemanager/connector.py:118-124 | raises AttributeError('retrieveToken') exactly when now > date_limit, and otherwise does nothing |
| Connector.AdobeRequest.RequestHeaders | audiencemanager/connector.py:130-132 | past the deadline the request helpers raise; otherwise they take the caller's headers, or else the session's with its bearer token |
| Connector.AdobeRequest.EnsureValid | audiencemanager/connector.py:122-124 | before the deadline nothing changes; after it, the whole session is replaced by a new exchange, or left untouched if that fails; the invariant is kept |
| Connector.RefreshRenews | audiencemanager/connector.py:118-124 | a refresh whose lifetime exceeds the margin leaves a valid session whose deadline is not past at the time of the refresh |
| Connector.BitAnd | audiencemanager/connector.py:179 | Python's `200 & status` is at most 200, and at most the status when that is non-negative |
| Connector.SuccessTestAsWritten | audiencemanager/connector.py:179 | the status test as Python parses it; stated by SuccessTestAsWrittenIsNonNegative |
| Connector.NoJsonReplyAsWritten | audiencemanager/connector.py:179-182 | the reply for a body without JSON, as written; stated by NotFoundReportedAsSuccess and TestsAgreeOnSuccess |
| Connector.SuccessTestAsWrittenIsNonNegative | audiencemanager/connector.py:179 | the test as Python parses it, `status >= (200 & status) < 300`, holds for exactly the non-negative statuses |
| Connector.NotFoundReportedAsSuccess | audiencemanager/connector.py:179-182 | as written, a 404 without a JSON body yields the "success" dict; with the intended test it yields the "error" dict |
| Connector.TestsAgreeOnSuccess | audiencemanager/connector.py:179-182 | on a 2xx status both tests give the same reply |
| Connector.NoJsonReply | audiencemanager/connector.py:179-182 | the reply has `success` exactly for a 2xx status, and `error` exactly otherwise |
| Connector.NoJsonSuccessNamesStatus | audiencemanager/connector.py:180 | the fallback success reply determines the status: two statuses with the same reply are equal |
| Folders.FolderColumns.constructor | audiencemanager/audiencemanager.py:27-46 | the five lists start as the caller's lists |
| Folders.Visit | audiencemanager/audiencemanager.py:52-57 | the entry one dict appends, or the KeyError of `name` or `parentFolderId`; stated by DefaultsFilled and WalkErrors |
| Folders.Walk | audiencemanager/audiencemanager.py:47-60 | `_loop_folders` on values: lists walked element by element, dicts visited and then their `subFolders`; stated by WalkIsExtend, WalkKeepsPrefix and WalkErrors |
| Folders.WalkItems | audiencemanager/audiencemanager.py:48-50 | the loop over a list from a given element on; stated by WalkItemsIsExtend, WalkItemsKeepsPrefix and WalkItemsErrors |
| Folders.Rows | audiencemanager/audiencemanager.py:47-60 | the reference definition: the pre-order rows of a well-formed tree, one per dict with a `folderId` |
| Folders.FolderColumns.LoopFolders | audiencemanager/audiencemanager.py:47-61 | the lists after the in-place walk, and the exception that stopped it, are exactly what the walk specification gives from the lists before |
| Folders.FlattenFolders | audiencemanager/audiencemanager.py:293-294 | from fresh lists: success exactly on a well-formed tree; the lists are then the tree's pre-order rows, aligned and one per folder; the only errors are KeyError('name') and KeyError('parentFolderId') |
| Folders.ExtendShape | audiencemanager/audiencemanager.py:53-57 | appending rows keeps the old lists as prefixes and grows each by one entry per row; the id, name, parent id, folder count and path at each new position are those of its row; the lists stay aligned |
| Folders.ExtendConcat | audiencemanager/audiencemanager.py:48-50 | appending two runs of rows equals appending their concatenation |
| Folders.WalkIsExtend | audiencemanager/audiencemanager.py:47-60 | the walk succeeds exactly on a well-formed tree, and then appends exactly the pre-order rows of the tree |
| Folders.WalkItemsIsExtend | audiencemanager/audiencemanager.py:48-50 | the same for the rest of a list from a given element on |
| Folders.WalkKeepsPrefix | audiencemanager/audiencemanager.py:47-60 | whatever happens, the lists passed in survive as prefixes: the walk only appends |
| Folders.WalkItemsKeepsPrefix | audiencemanager/audiencemanager.py:48-50 | the same for the rest of a list |
| Folders.WalkErrors | audiencemanager/audiencemanager.py:52-57 | from aligned lists, a successful walk ends aligned; a failed one raises only KeyError('name') or KeyError('parentFolderId'), raised by a folder of the tree that lacks that key, whose id is the last one appended (and, for parentFolderId, whose name is the last name appended), with the other lists one entry shorter |
| Folders.WalkItemsErrors | audiencemanager/audiencemanager.py:48-50 | the same for the rest of a list, the culprit being a folder in one of those elements |
| Folders.NoFolderIdStillWalked | audiencemanager/audiencemanager.py:58-60 | a dict without `folderId` adds no row of its own, but its `subFolders` are walked |
| Folders.DefaultsFilled | audiencemanager/audiencemanager.py:56-57 | a folder without `folderCount` or `path` contributes 0 and '' |
| Folders.ScalarsAddNothing | audiencemanager/audiencemanager.py:47-51 | a value that is neither list nor dict changes nothing and has no rows |
| AudienceManager.StrAll | audiencemanager/audiencemanager.py:90 | the list of texts has one entry per id, the `str` of that id |
| AudienceManager.TraitsParams | audiencemanager/audiencemanager.py:76-92 | the query of `getTraits`; stated by TraitsParamsGet and DefaultMetricsSent |
| AudienceManager.DataSourceIdCases | audiencemanager/audiencemanager.py:87-92 | one id is sent as it is; no ids give the empty text; several give their texts joined by `&dataSourceId=` |
| AudienceManager.DataSourceIdQuery | audiencemanager/audiencemanager.py:89-92 | after `dataSourceId=`, the joined text reads as one `dataSourceId=` parameter per id, separated by `&` |
| AudienceManager.TraitsParamsGet | audiencemanager/audiencemanager.py:76-92 | each `getTraits` parameter and when it is present: the flags when truthy, the ids when not None, `dataSourceId` for a list; nothing else |
| AudienceManager.GetTraitPath | audiencemanager/audiencemanager.py:113-124 | the path `getTrait` requests, or its Exception; stated by GetTraitPrefersIntCode and IdentifierRequired |
| AudienceManager.DeleteTraitPath | audiencemanager/audiencemanager.py:134-140 | the path `deleteTrait` deletes, or its Exception; stated by DeleteTraitPrefersTraitId and IdentifierRequired |
| AudienceManager.DeleteSegmentPath | audiencemanager/audiencemanager.py:431-442 | the path `deleteSegment` deletes, or its Exception; stated by DeleteSegmentPrefersSegId and IdentifierRequired |
| AudienceManager.GetTraitPrefersIntCode | audiencemanager/audiencemanager.py:113-124 | `getTrait` uses `/traits/ic:<intCode>` whenever there is an integration code |
| AudienceManager.DeleteTraitPrefersTraitId | audiencemanager/audiencemanager.py:134-140 | `deleteTrait` uses `/traits/<traitId>` whenever there is a trait id |
| AudienceManager.DeleteSegmentPrefersSegId | audiencemanager/audiencemanager.py:431-442 | `deleteSegment` uses `/segments/<segId>` whenever there is a segment id |
| AudienceManager.IdentifierRequired | audiencemanager/audiencemanager.py:113-114 | each of the three raises an Exception exactly when both identifiers are None |
| AudienceManager.GetAndDeleteDisagree | audiencemanager/audiencemanager.py:115-139 | with the same two identifiers, `getTrait` and `deleteTrait` address the same path exactly when only one is given, or the two texts coincide |
| AudienceManager.AddKwargs | audiencemanager/audiencemanager.py:232-234 | the keyword loop computes the left fold of `obj[key] = str(value)`, skipping "nan" values where the source filters them |
| AudienceManager.WithKwargs | audiencemanager/audiencemanager.py:232-234 | the reference definition of the keyword loop, the fold the method is proved against; stated by WithKwargsGet |
| AudienceManager.WithKwargsGet | audiencemanager/audiencemanager.py:232-234 | after the loop, each keyword maps to its `str`, except a filtered "nan", which leaves the earlier entry; other keys are unchanged |
| PyValues.OnlyNanPrintsNan | audiencemanager/audiencemanager.py:233 | no value other than a float or a str prints as "nan" (None, bools, ints, lists, dicts), so the filter drops only NaN floats and the text "nan" |
| AudienceManager.NewTraitChecks | audiencemanager/audiencemanager.py:217-222 | `createTrait` succeeds exactly with name, dataSourceId and folderId given and one of the three trait types; a missing argument raises Exception, and with all four given a wrong type raises ValueError |
| AudienceManager.NewTrait | audiencemanager/audiencemanager.py:217-234 | the checks and payload of `createTrait`; stated by NewTraitChecks, NewTraitFields and DefaultTtlSent |
| AudienceManager.TraitBaseFields | audiencemanager/audiencemanager.py:224-231 | the fixed payload: name, type and rule as given, the ids and `ttl` as text |
| AudienceManager.NewTraitFields | audiencemanager/audiencemanager.py:224-234 | the payload holds the fixed entries, overridden by each keyword's text, except "nan" values |
| AudienceManager.NanKwargDropped | audiencemanager/audiencemanager.py:233-234 | a "nan" keyword never reaches a filtered payload, and reaches an unfiltered one as "nan" |
| AudienceManager.CreateTrait | audiencemanager/audiencemanager.py:217-237 | as written: the payload and exceptions specified above, posted to the literal path of line 223, which is not `/traits/` and starts with a character not allowed in a URL |
| AudienceManager.CreateTraitIntended | audiencemanager/audiencemanager.py:217-237 | the same checks and payload, posted to `/traits/`, a path made of URL characters only |
| AudienceManager.DefaultTtlSent | audiencemanager/audiencemanager.py:195 | a trait created with the default `ttl` is sent with `ttl` "120" (`ttl` is a named parameter, so no keyword can replace it) |
| AudienceManager.TraitUpdate | audiencemanager/audiencemanager.py:260-271 | the request of `updateTrait`; stated by TraitUpdateGet and TraitUpdateFields |
| AudienceManager.TraitUpdateGet | audiencemanager/audiencemanager.py:260-271 | built exactly when there is a trait id (otherwise Exception), at `/traits/<traitId>`; each payload key holds the keyword's text unless that is "nan", else the name and type as given and the two ids as text |
| AudienceManager.TraitUpdateFields | audiencemanager/audiencemanager.py:260-271 | `updateTrait` checks only the trait id; ids it is not given are sent as "None" |
| AudienceManager.UpdateTrait | audiencemanager/audiencemanager.py:260-274 | the request is the one the `updateTrait` specification gives, path `/traits/<traitId>` |
| AudienceManager.NewTraitFolderFields | audiencemanager/audiencemanager.py:313-318 | a folder needs a name; the payload is exactly the parent id as text and the name |
| AudienceManager.NewTraitFolder | audiencemanager/audiencemanager.py:312-318 | the payload of `createTraitFolder`; stated by NewTraitFolderFields |
| AudienceManager.FolderUpdate | audiencemanager/audiencemanager.py:345-354 | the request of `updateTraitFolder`; stated by FolderUpdateGet and FolderUpdateKeepsEveryKwarg |
| AudienceManager.FolderUpdateGet | audiencemanager/audiencemanager.py:345-354 | a None folder id raises Exception; otherwise the path is `/folders/traits/<folderId>` and each payload key holds the keyword's text, "nan" included, else the parent id as text and the name as given |
| AudienceManager.DefaultParentFolderSent | audiencemanager/audiencemanager.py:305-318 | with the default `parentFolderId`, `createTraitFolder` and `updateTraitFolder` send the root folder "0" (`parentFolderId` is a named parameter, so no keyword can replace it) |
| AudienceManager.FolderUpdateKeepsEveryKwarg | audiencemanager/audiencemanager.py:352-354 | `updateTraitFolder` sends every keyword as its text, "nan" included |
| AudienceManager.UpdateTraitFolder | audiencemanager/audiencemanager.py:345-357 | the request is the one the folder-update specification gives, path `/folders/traits/<folderId>` |
| AudienceManager.SegmentsQueryGet | audiencemanager/audiencemanager.py:375-390 | each `getSegments` parameter and when it is present, for a given status test |
| AudienceManager.SegmentsParams | audiencemanager/audiencemanager.py:374-390 | the query of `getSegments` as written; stated by SegmentsNeverSendStatus |
| AudienceManager.SegmentsParamsIntended | audiencemanager/audiencemanager.py:382-384 | the query with the intended status test; stated by SegmentsIntendedStatus |
| AudienceManager.DefaultMetricsSent | audiencemanager/audiencemanager.py:63 | with the default `includeMetrics=True`, `getTraits` and `getSegments` (line 359) send `includeMetrics` True |
| AudienceManager.SegmentsNeverSendStatus | audiencemanager/audiencemanager.py:382-384 | as written, no call sends `status`, and `dataSourceId` has no effect |
| AudienceManager.SegmentsIntendedStatus | audiencemanager/audiencemanager.py:382-384 | with the intended test, `status` is sent exactly when it is ACTIVE or INACTIVE; the other parameters are as written |
| AudienceManager.TraitReportGet | audiencemanager/audiencemanager.py:748-751 | the report parameters are `interval` and `cutOff`, plus `restrictType` exactly when it is one of the three trait types |
| AudienceManager.TraitReportParams | audiencemanager/audiencemanager.py:748-751 | the report query as written; stated by TraitReportGet and CutOffIgnored |
| AudienceManager.TraitReportParamsIntended | audiencemanager/audiencemanager.py:741-751 | the report query sending the caller's `cutOff`; stated by CutOffSent |
| AudienceManager.CutOffIgnored | audiencemanager/audiencemanager.py:748 | as written, the parameters are those of cut-off 0, whatever the caller passes |
| AudienceManager.CutOffSent | audiencemanager/audiencemanager.py:741 | with the intended builder, the caller's `cutOff` is sent |
| AudienceManager.DestinationChecks | audiencemanager/audiencemanager.py:933-938 | a destination is accepted exactly as a dict with a `name`, and posted unchanged; the two errors are as raised |
| AudienceManager.DestinationUpdateChecks | audiencemanager/audiencemanager.py:948-955 | the id is checked first, with ValueError; then the update behaves as creation does |
| AudienceManager.NewDestination | audiencemanager/audiencemanager.py:933-938 | the checks of `createDestination`; stated by DestinationChecks |
| AudienceManager.DestinationUpdate | audiencemanager/audiencemanager.py:948-955 | the checks and path of `updateDestination`; stated by DestinationUpdateChecks |
| AudienceManager.BulkIds | audiencemanager/audiencemanager.py:152-156 | the list check and copy of the bulk deletes; stated by BulkIdsChecks |
| AudienceManager.BulkIdsChecks | audiencemanager/audiencemanager.py:152-156 | the bulk deletes accept exactly a list, and send its elements in order |
| Package.GlobalConfig.constructor | audiencemanager/config.py:3-21 | the module-global configuration and header start with the defaults |
| Package.NotConfiguredByDefault | audiencemanager/config.py:4 | with the default configuration, the session refuses to start |
| Package.GlobalConfig.ImportConfigFile | audiencemanager/__init__.py:57-78 | the configuration and header after the in-place import, and the exception, are exactly what the import specification gives from the state before |
| Package.ImportFileMissing | audiencemanager/__init__.py:61-64 | an unresolvable path raises FileNotFoundError and changes nothing |
| Package.ImportConfig | audiencemanager/__init__.py:61-66 | `importConfigFile` on values: find, read and parse the file, then apply it; stated by ImportFileMissing, ImportResolvesRelative and ImportState |
| Package.ApplyConfig | audiencemanager/__init__.py:67-74 | the assignments in order, stopping at the first missing key; stated by ImportState, ImportStopsMidway and ImportKeepsDicts |
| Package.ClientIdFrom | audiencemanager/__init__.py:69-72 | the `client_id` choice; stated by ClientIdPrecedence |
| Package.CopyCredentials | audiencemanager/__init__.py:75-78 | the last four assignments; stated by CopyCredentialsState |
| Package.ImportResolvesRelative | audiencemanager/__init__.py:47-54 | `_find_path` resolves a missing path with a leading separator to `.`+path, and the import applies that file |
| Package.ClientIdPrecedence | audiencemanager/__init__.py:69-72 | `client_id` comes from `api_key` if present, else from `client_id`, else keeps its old value; no other key changes |
| Package.CopyCredentialsState | audiencemanager/__init__.py:75-78 | the last step succeeds exactly with tech_id, secret and pathToKey present; it copies them and sets `date_limit` to 0 |
| Package.ImportState | audiencemanager/__init__.py:67-78 | the import succeeds exactly when complete; then every config and header key is specified, and the rest keep their values |
| Package.ImportStopsMidway | audiencemanager/__init__.py:67-78 | a file without `tech_id` raises KeyError after org_id, client_id and Authorization were already replaced |
| Package.ImportKeepsDicts | audiencemanager/__init__.py:67-78 | complete or stopped midway, the import leaves the configuration and the header dicts without duplicate keys |
| Package.ImportedOrgIdDecidesConnect | audiencemanager/__init__.py:67 | after a complete import, the file's `org_id` decides the session's up-front check |
| Package.ConfigTemplateKeys | audiencemanager/__init__.py:22-30 | the template has exactly the five placeholder keys in order, plus `sandbox-name` exactly when `sandbox` is truthy |
| Package.ConfigTemplate | audiencemanager/__init__.py:22-30 | the template of `createConfigFile`; stated by ConfigTemplateKeys |
| Package.ConfigFileName | audiencemanager/__init__.py:31 | the file name of `createConfigFile`; stated by ConfigFileNameCases |
| Package.ConfigFileNameCases | audiencemanager/__init__.py:31 | the file name is the given name, or `config_aam`, followed by `.json` |
| Package.PackageTraitsParamsNoMetrics | audiencemanager/__init__.py:147-161 | this `getTraits` equals the class's with a falsy `includeMetrics`, so that parameter is never sent |
| Package.PackageTraitsParams | audiencemanager/__init__.py:147-161 | the query of this `getTraits`; stated by PackageTraitsParamsNoMetrics |
| Package.BulkIdStrings | audiencemanager/__init__.py:214-217 | the list check and `str` copy of these bulk deletes; stated by BulkIdStringsChecks |
| Package.PackageDeleteTraits | audiencemanager/__init__.py:198-205 | `deleteTraits` as written; stated by PackageDeleteTraitsAlwaysFails |
| Package.BulkIdStringsChecks | audiencemanager/__init__.py:214-217 | these bulk deletes accept exactly a list and send the `str` of each id; on text ids they send what the class's versions send |
| Package.PackageDeleteTraitsAlwaysFails | audiencemanager/__init__.py:198-205 | as written, `deleteTraits` always raises: an Exception without identifiers, AttributeError('delete') with one |

## Left out

- The HTTP calls of `getData`, `postData`, `patchData`, `putData` and `deleteData`, and the
  parsing of their replies, are left out because they are network I/O. Each builder's result is
  the payload or query it would send, and for the update methods, `createTrait` and the
  identifier-based paths also the path. The host of the bulk deletes is not modelled:
  audiencemanager.py:160 posts to a fixed `https://api.demdex.com/v1`, __init__.py:218 to the
  session's endpoint. Only the `postData` choice for a reply without JSON is modelled.
- RS256 signing (`jwt.encode`) and the token endpoint are function parameters. The model states
  what is signed and what is posted, not the cryptography.
- `time.time()` is left out; the two clock readings of construction are parameters, in integer
  milliseconds.
- `json.load` is a parameter, and the file system is a set of existing paths plus the text of
  the readable ones.
- pandas DataFrames, `save` files, `token.txt`, `print` and `verbose` output are left out as
  foreign libraries and output. So is the `json.dumps` and file write of `createConfigFile`;
  the template and the file name are modelled.
- `AudienceManager.__init__`: the model has no aliasing. The class shares one header dict with
  its connector, and the connector takes a `deepcopy` of its arguments.
- The module-global config is a single object with no concurrent access. Its `location` entry
  is given as a parameter.
- aam.py is left out: it cannot be imported. setup.py is only packaging.
- The other endpoint methods are left out. They call the session with a fixed or
  identifier-based path and no logic beyond the checks modelled here.
- `PyValues.PyRepr` does not escape quotes or backslashes inside strings.
- A float is carried as its text, so no float arithmetic is modelled.
- `Connector.ExpiryMillis`: a float `expires_in` is modelled as a TypeError, although Python
  would divide it. Ints and bools are modelled exactly.
- `AudienceManager.WithKwargsGet`: requires the keyword names to be distinct, as the keys of a
  Python `**kwargs` dict always are.
- `Connector.AdobeRequest.EnsureValid`: the refresh has no counterpart in the source, which
  calls an undefined `retrieveToken`. It repeats the exchange of construction with the current
  configuration and headers.

## Findings

| source | as written | input that shows it | evidently intended | confidence | as-written member | corrected member |
|---|---|---|---|---|---|---|
| audiencemanager/connector.py:123-124 | past the deadline, `_checkingDate` calls `self.retrieveToken()`, which the class does not define | any request made after `date_limit` raises AttributeError | obtain a new token and deadline | high, not executed | Connector.AdobeRequest.CheckingDate | Connector.AdobeRequest.EnsureValid |
| audiencemanager/connector.py:179 | `res.status_code >=200 & res.status_code <300` parses as `status >= (200 & status) < 300`, true for every non-negative status | status 404 with a non-JSON body gives `{'success': 'no json - status code : 404'}` | `200 <= status < 300` | high, not executed | Connector.NotFoundReportedAsSuccess | Connector.NoJsonReply |
| audiencemanager/audiencemanager.py:382-384 | the ACTIVE/INACTIVE test is nested inside `if status is None`, so it never holds | `getSegments(status="ACTIVE")` sends no `status` parameter | send `status` when it is ACTIVE or INACTIVE | high, not executed | AudienceManager.SegmentsNeverSendStatus | AudienceManager.SegmentsIntendedStatus |
| audiencemanager/audiencemanager.py:748 | `cutOff` is hard-coded to 0 in the parameters (also at line 805) | `getMostChangedTraits(cutOff=100)` sends `cutOff=0` | send the caller's `cutOff` | high, not executed | AudienceManager.CutOffIgnored | AudienceManager.CutOffSent |
| audiencemanager/audiencemanager.py:223 | the path literal holds a zero-width space (U+200B) before each `/` | `createTrait(...)` posts to `<endpoint>` + U+200B + `/traits` + U+200B + `/` | `/traits/` | high, not executed | AudienceManager.CreateTrait | AudienceManager.CreateTraitIntended |
| audiencemanager/__init__.py:204 | `deleteTraits` calls `self.connector.delete`, which `AdobeRequest` does not define | `deleteTraits(traitId="123")` raises AttributeError | call `deleteData`, as `deleteTrait` of audiencemanager.py does | high, not executed | Package.PackageDeleteTraitsAlwaysFails | AudienceManager.DeleteTraitPrefersTraitId |
