/**
 * The request builders and validators of `AudienceManager` (audiencemanager/audiencemanager.py):
 * the query parameters and payloads each method assembles before it calls the session, and the
 * exceptions it raises on missing or invalid arguments.  Arguments the caller leaves at None are
 * `Null`; keyword arguments are the `kwargs` dict, in the order given.
 */
module AudienceManager {
  import opened Wrappers
  import opened PyValues

  /** A request as a builder leaves it for the session: the path below the endpoint and the
      query parameters or payload. */
  datatype Request = Request(path: string, body: Fields)

  const DATA_SOURCE_SEPARATOR := "&dataSourceId="
  const TRAITS_PATH := "/traits/"
  const TRAIT_TYPES := ["RULE_BASED_TRAIT", "ON_BOARDED_TRAIT", "ALGO_TRAIT"]

  /** The messages of the exceptions the builders raise. */
  const MISSING_TRAIT_ARGUMENTS := "Require a name, a dataSourceId, a traitType and a folderId"
  const INVALID_TRAIT_TYPE := "traitType should be one of the following value [RULE_BASED_TRAIT, ON_BOARDED_TRAIT, ALGO_TRAIT]"
  const GET_TRAIT_NEEDS_ID := "Must provide either traitId or intCode"
  const DELETE_TRAIT_NEEDS_ID := "traitId or intCode must be specified"
  const DELETE_SEGMENT_NEEDS_ID := "Expecting a segment Id or an integration code"
  const MISSING_TRAIT_ID := "Require a traitId as parameter"
  const MISSING_FOLDER_NAME := "require a name for the folder"
  const MISSING_FOLDER_ID := "require folderId to be specified"
  const BULK_NEEDS_LIST := "Require a list of ids to be deleted in traitIds parameter"
  const DESTINATION_NEEDS_DICT := "Require a dictionary that contains the information to create the connection"
  const DESTINATION_NEEDS_NAME := "Requires a name for the connection"
  const MISSING_DESTINATION_ID := "destinationId is required "

  /** Default arguments: `ttl=120` of `createTrait`, `parentFolderId=0` of `createTraitFolder` and
      `updateTraitFolder`, `includeMetrics=True` of `getTraits` and `getSegments`. */
  const TTL_DEFAULT := Int(120)
  const PARENT_FOLDER_DEFAULT := Int(0)
  const INCLUDE_METRICS_DEFAULT := Bool(true)

  /** `x in ["RULE_BASED_TRAIT", "ON_BOARDED_TRAIT", "ALGO_TRAIT"]`: only a str can be equal. */
  predicate IsTraitType(x: Json)
  {
    x.Str? && x.s in TRAIT_TYPES
  }

  /** `if cond: p[k] = v`. */
  function PutIf(p: Fields, cond: bool, k: string, v: Json): Fields
  {
    if cond then Put(p, k, v) else p
  }

  lemma GetPutIf(p: Fields, cond: bool, k: string, v: Json, k': string)
    ensures Get(PutIf(p, cond, k, v), k') == if cond && k' == k then Some(v) else Get(p, k')
  {
    if cond {
      GetPut(p, k, v, k');
    }
  }

  /** `[str(x) for x in xs]`. */
  function StrAll(xs: seq<Json>): (r: seq<string>)
    ensures |r| == |xs| && forall i :: 0 <= i < |xs| ==> r[i] == PyStr(xs[i])
  {
    seq(|xs|, i requires 0 <= i < |xs| => PyStr(xs[i]))
  }

  // ---------------------------------------------------------------------------
  // getTraits

  /** Lines 87-92: a single data source id is sent as it is; any other list as the text of its
      ids joined by "&dataSourceId=". */
  function DataSourceIdValue(ids: seq<Json>): Json
  {
    if |ids| == 1 then ids[0] else Str(Join(DATA_SOURCE_SEPARATOR, StrAll(ids)))
  }

  /** Lines 76-92: the query parameters of `getTraits`. */
  function TraitsParams(folderId: Json, includeMetrics: Json, integrationCode: Json, dataSourceIds: Json,
                        includeDetails: Json): Fields
  {
    var p := PutIf([], Truthy(includeMetrics), "includeMetrics", includeMetrics);
    var p := PutIf(p, folderId != Null, "folderId", folderId);
    var p := PutIf(p, integrationCode != Null, "integrationCode", integrationCode);
    var p := PutIf(p, Truthy(includeDetails), "includeDetails", Bool(true));
    match dataSourceIds
    case List(ids) => Put(p, "dataSourceId", DataSourceIdValue(ids))
    case _ => p
  }

  // ---------------------------------------------------------------------------
  // getTrait, deleteTrait, deleteSegment

  /** Lines 113-124: the integration code wins over the trait id. */
  function GetTraitPath(traitId: Json, intCode: Json): Result<string, Error>
  {
    if traitId == Null && intCode == Null then Failure(Exception(GET_TRAIT_NEEDS_ID))
    else if intCode != Null then Success("/traits/ic:" + PyStr(intCode))
    else Success("/traits/" + PyStr(traitId))
  }

  /** Lines 134-140: the second assignment of `path` wins, so the trait id wins. */
  function DeleteTraitPath(traitId: Json, intCode: Json): Result<string, Error>
  {
    if traitId == Null && intCode == Null then Failure(Exception(DELETE_TRAIT_NEEDS_ID))
    else if traitId != Null then Success("/traits/" + PyStr(traitId))
    else Success("/traits/ic:" + PyStr(intCode))
  }

  /** Lines 431-442: the segment id wins over the integration code. */
  function DeleteSegmentPath(segId: Json, intCode: Json): Result<string, Error>
  {
    if segId == Null && intCode == Null then Failure(Exception(DELETE_SEGMENT_NEEDS_ID))
    else if segId != Null then Success("/segments/" + PyStr(segId))
    else Success("/segments/ic:" + PyStr(intCode))
  }

  // ---------------------------------------------------------------------------
  // Keyword arguments

  /** `for key in kwargs: obj[key] = str(kwargs[key])`, skipping the values whose `str` is "nan"
      when `dropNan` holds (the `type(v) is not None` half of that test is always true). */
  function WithKwargs(obj: Fields, kwargs: Fields, dropNan: bool): Fields
    decreases |kwargs|
  {
    if kwargs == [] then obj
    else
      var text := PyStr(kwargs[0].1);
      var obj' := if dropNan && text == "nan" then obj else Put(obj, kwargs[0].0, Str(text));
      WithKwargs(obj', kwargs[1..], dropNan)
  }

  /** The loop itself, over a local copy of the payload. */
  method AddKwargs(obj: Fields, kwargs: Fields, dropNan: bool) returns (r: Fields)
    ensures r == WithKwargs(obj, kwargs, dropNan)
  {
    r := obj;
    for i := 0 to |kwargs|
      invariant WithKwargs(obj, kwargs, dropNan) == WithKwargs(r, kwargs[i..], dropNan)
    {
      assert kwargs[i..][1..] == kwargs[i + 1..];
      var text := PyStr(kwargs[i].1);
      if !(dropNan && text == "nan") {
        r := Put(r, kwargs[i].0, Str(text));
      }
    }
    assert kwargs[|kwargs|..] == [];
  }

  // ---------------------------------------------------------------------------
  // createTrait, updateTrait

  /** Lines 217-234: the payload of `createTrait` (`ttl` is 120 unless the caller gives one). */
  function NewTrait(name: Json, traitType: Json, dataSourceId: Json, folderId: Json, traitRule: Json, ttl: Json,
                    kwargs: Fields): Result<Fields, Error>
  {
    if name == Null || dataSourceId == Null || folderId == Null || traitType == Null then
      Failure(Exception(MISSING_TRAIT_ARGUMENTS))
    else if !IsTraitType(traitType) then
      Failure(ValueError(INVALID_TRAIT_TYPE))
    else
      Success(WithKwargs(TraitBase(name, traitType, dataSourceId, folderId, traitRule, ttl), kwargs, true))
  }

  function TraitBase(name: Json, traitType: Json, dataSourceId: Json, folderId: Json, traitRule: Json, ttl: Json): Fields
  {
    [("name", name), ("traitType", traitType), ("dataSourceId", Str(PyStr(dataSourceId))),
     ("folderId", Str(PyStr(folderId))), ("traitRule", traitRule), ("ttl", Str(PyStr(ttl)))]
  }

  /** `createTrait` as written: the request it posts to the literal path of line 223, or the
      exception it raises.  The path is not a URL path: it starts with a zero-width space. */
  method CreateTrait(name: Json, traitType: Json, dataSourceId: Json, folderId: Json, traitRule: Json, ttl: Json,
                     kwargs: Fields) returns (r: Result<Request, Error>)
    ensures r.Failure? <==> NewTrait(name, traitType, dataSourceId, folderId, traitRule, ttl, kwargs).Failure?
    ensures r.Failure? ==> r.error == NewTrait(name, traitType, dataSourceId, folderId, traitRule, ttl, kwargs).error
    ensures r.Success? ==>
      && r.value.body == NewTrait(name, traitType, dataSourceId, folderId, traitRule, ttl, kwargs).value
      && r.value.path == CREATE_TRAIT_PATH_AS_WRITTEN
      && r.value.path != TRAITS_PATH && !UrlChar(r.value.path[0])
  {
    if name == Null || dataSourceId == Null || folderId == Null || traitType == Null {
      return Failure(Exception(MISSING_TRAIT_ARGUMENTS));
    }
    if !IsTraitType(traitType) {
      return Failure(ValueError(INVALID_TRAIT_TYPE));
    }
    var obj := AddKwargs(TraitBase(name, traitType, dataSourceId, folderId, traitRule, ttl), kwargs, true);
    assert CREATE_TRAIT_PATH_AS_WRITTEN[0] == '\U{200B}' && TRAITS_PATH[0] == '/';
    return Success(Request(CREATE_TRAIT_PATH_AS_WRITTEN, obj));
  }

  /** `createTrait` as evidently intended: the same checks and payload, posted to `/traits/`,
      a path made of URL characters only. */
  function CreateTraitIntended(name: Json, traitType: Json, dataSourceId: Json, folderId: Json, traitRule: Json,
                               ttl: Json, kwargs: Fields): (r: Result<Request, Error>)
    ensures r.Failure? <==> NewTrait(name, traitType, dataSourceId, folderId, traitRule, ttl, kwargs).Failure?
    ensures r.Failure? ==> r.error == NewTrait(name, traitType, dataSourceId, folderId, traitRule, ttl, kwargs).error
    ensures r.Success? ==>
      && r.value.body == NewTrait(name, traitType, dataSourceId, folderId, traitRule, ttl, kwargs).value
      && r.value.path == TRAITS_PATH
      && forall i :: 0 <= i < |r.value.path| ==> UrlChar(r.value.path[i])
  {
    match NewTrait(name, traitType, dataSourceId, folderId, traitRule, ttl, kwargs)
    case Failure(e) => Failure(e)
    case Success(obj) =>
      TraitsPathIsUrl();
      Success(Request(TRAITS_PATH, obj))
  }

  /** Lines 260-271: the request of `updateTrait`; only the trait id is checked, and the other
      arguments are sent as given (`str(None)` is "None"). */
  function TraitUpdate(name: Json, traitId: Json, traitType: Json, folderId: Json, dataSourceId: Json,
                       kwargs: Fields): Result<Request, Error>
  {
    if traitId == Null then Failure(Exception(MISSING_TRAIT_ID))
    else
      var base := [("name", name), ("traitType", traitType), ("dataSourceId", Str(PyStr(dataSourceId))),
                   ("folderId", Str(PyStr(folderId)))];
      Success(Request("/traits/" + PyStr(traitId), WithKwargs(base, kwargs, true)))
  }

  method UpdateTrait(name: Json, traitId: Json, traitType: Json, folderId: Json, dataSourceId: Json,
                     kwargs: Fields) returns (r: Result<Request, Error>)
    ensures r == TraitUpdate(name, traitId, traitType, folderId, dataSourceId, kwargs)
  {
    if traitId == Null {
      return Failure(Exception(MISSING_TRAIT_ID));
    }
    var base := [("name", name), ("traitType", traitType), ("dataSourceId", Str(PyStr(dataSourceId))),
                 ("folderId", Str(PyStr(folderId)))];
    var obj := AddKwargs(base, kwargs, true);
    return Success(Request("/traits/" + PyStr(traitId), obj));
  }

  // ---------------------------------------------------------------------------
  // createTraitFolder, updateTraitFolder

  /** Lines 312-318 (`parentFolderId` is 0 unless the caller gives one). */
  function NewTraitFolder(name: Json, parentFolderId: Json): Result<Fields, Error>
  {
    if name == Null then Failure(Exception(MISSING_FOLDER_NAME))
    else Success([("parentFolderId", Str(PyStr(parentFolderId))), ("name", name)])
  }

  /** Lines 345-354: every keyword argument is sent as its `str`, "nan" included. */
  function FolderUpdate(folderId: Json, name: Json, parentFolderId: Json, kwargs: Fields): Result<Request, Error>
  {
    if folderId == Null then Failure(Exception(MISSING_FOLDER_ID))
    else
      var base := [("parentFolderId", Str(PyStr(parentFolderId))), ("name", name)];
      Success(Request("/folders/traits/" + PyStr(folderId), WithKwargs(base, kwargs, false)))
  }

  method UpdateTraitFolder(folderId: Json, name: Json, parentFolderId: Json, kwargs: Fields)
    returns (r: Result<Request, Error>)
    ensures r == FolderUpdate(folderId, name, parentFolderId, kwargs)
  {
    if folderId == Null {
      return Failure(Exception(MISSING_FOLDER_ID));
    }
    var obj := AddKwargs([("parentFolderId", Str(PyStr(parentFolderId))), ("name", name)], kwargs, false);
    return Success(Request("/folders/traits/" + PyStr(folderId), obj));
  }

  // ---------------------------------------------------------------------------
  // getSegments

  /** Lines 374-390 as written: the `status` test sits inside `if status is None`, where it
      cannot hold; `dataSourceId` is accepted and never used. */
  function SegmentsParams(includeInUseStatus: Json, status: Json, containsTrait: Json, dataSourceId: Json,
                          mergeRuleDataSourceId: Json, includeMetrics: Json, includeTraitDataSourceIds: Json,
                          includeAddressableAudienceMetrics: Json): Fields
  {
    SegmentsQuery(status == Null && (status == Str("ACTIVE") || status == Str("INACTIVE")), includeInUseStatus,
                  status, containsTrait, mergeRuleDataSourceId, includeMetrics, includeTraitDataSourceIds,
                  includeAddressableAudienceMetrics)
  }

  /** The same parameters with the status test the method documents: ACTIVE or INACTIVE is sent. */
  function SegmentsParamsIntended(includeInUseStatus: Json, status: Json, containsTrait: Json,
                                  mergeRuleDataSourceId: Json, includeMetrics: Json, includeTraitDataSourceIds: Json,
                                  includeAddressableAudienceMetrics: Json): Fields
  {
    SegmentsQuery(status == Str("ACTIVE") || status == Str("INACTIVE"), includeInUseStatus, status, containsTrait,
                  mergeRuleDataSourceId, includeMetrics, includeTraitDataSourceIds, includeAddressableAudienceMetrics)
  }

  /** The assignments of lines 375-390, with the status test given as `sendStatus`. */
  function SegmentsQuery(sendStatus: bool, includeInUseStatus: Json, status: Json, containsTrait: Json,
                         mergeRuleDataSourceId: Json, includeMetrics: Json, includeTraitDataSourceIds: Json,
                         includeAddressableAudienceMetrics: Json): Fields
  {
    var p := PutIf([], Truthy(includeMetrics), "includeMetrics", Bool(true));
    var p := PutIf(p, Truthy(includeTraitDataSourceIds), "includeTraitDataSourceIds", Bool(true));
    var p := PutIf(p, Truthy(includeAddressableAudienceMetrics), "includeAddressableAudienceMetrics", Bool(true));
    var p := PutIf(p, sendStatus, "status", status);
    var p := PutIf(p, Truthy(includeInUseStatus), "includeInUseStatus", Bool(true));
    var p := PutIf(p, containsTrait != Null, "containsTrait", containsTrait);
    PutIf(p, mergeRuleDataSourceId != Null, "mergeRuleDataSourceId", mergeRuleDataSourceId)
  }

  // ---------------------------------------------------------------------------
  // getMostChangedTraits, getLargestTraits

  /** Lines 748-751 and 805-808 as written: `cutOff` is always 0. */
  function TraitReportParams(interval: Json, cutOff: Json, restrictType: Json): Fields
  {
    TraitReport(interval, Int(0), restrictType)
  }

  /** The same parameters with the caller's `cutOff`, as the methods document it. */
  function TraitReportParamsIntended(interval: Json, cutOff: Json, restrictType: Json): Fields
  {
    TraitReport(interval, cutOff, restrictType)
  }

  function TraitReport(interval: Json, cutOff: Json, restrictType: Json): Fields
  {
    PutIf([("interval", interval), ("cutOff", cutOff)], restrictType != Null && IsTraitType(restrictType),
          "restrictType", restrictType)
  }

  // ---------------------------------------------------------------------------
  // createDestination, updateDestination

  /** Lines 933-938: a dict with a `name` is posted unchanged. */
  function NewDestination(data: Json): Result<Fields, Error>
  {
    if !data.Dict? then Failure(Exception(DESTINATION_NEEDS_DICT))
    else if !HasKey(data.fields, "name") then Failure(ValueError(DESTINATION_NEEDS_NAME))
    else Success(data.fields)
  }

  /** Lines 948-955: the id is checked first, then the dict as on creation. */
  function DestinationUpdate(destinationId: Json, data: Json): Result<Request, Error>
  {
    if destinationId == Null then Failure(ValueError(MISSING_DESTINATION_ID))
    else
      var body :- NewDestination(data);
      Success(Request("/destinations/" + PyStr(destinationId), body))
  }

  // ---------------------------------------------------------------------------
  // deleteBulkTraits, deleteBulkSegments

  /** Lines 153-156 and 452-455: a list is sent as a copy of itself; anything else raises. */
  function BulkIds(ids: Json): Result<seq<Json>, Error>
  {
    match ids
    case List(items) => Success(items)
    case _ => Failure(Exception(BULK_NEEDS_LIST))
  }

  // ---------------------------------------------------------------------------
  // The path of createTrait

  /** Line 223 as written: the literal holds a zero-width space (U+200B) before each `/`. */
  const CREATE_TRAIT_PATH_AS_WRITTEN := "\U{200B}/traits\U{200B}/"

  /** A character that may appear in a URL path without encoding (RFC 3986, section 2). */
  predicate UrlChar(c: char)
  {
    || ('a' <= c <= 'z') || ('A' <= c <= 'Z') || ('0' <= c <= '9')
    || c == '-' || c == '.' || c == '_' || c == '~' || c == '/' || c == ':' || c == '%' || c == '&' || c == '='
    || c == '@' || c == '?' 
  }

  // ---------------------------------------------------------------------------
  // Lemmas

  /** The data source ids: one id is sent as it is, none is the empty text, several are the
      texts of the ids joined by the separator. */
  lemma DataSourceIdCases(ids: seq<Json>)
    ensures |ids| == 1 ==> DataSourceIdValue(ids) == ids[0]
    ensures ids == [] ==> DataSourceIdValue(ids) == Str("")
    ensures |ids| >= 2 ==>
      DataSourceIdValue(ids) == Str(PyStr(ids[0]) + DATA_SOURCE_SEPARATOR + Join(DATA_SOURCE_SEPARATOR, StrAll(ids[1..])))
  {
    if |ids| >= 2 {
      assert StrAll(ids)[1..] == StrAll(ids[1..]);
    }
  }

  /** What the joined text is for: placed after `dataSourceId=` it reads as one `dataSourceId=`
      parameter per id, separated by `&`. */
  lemma DataSourceIdQuery(ids: seq<Json>)
    requires |ids| >= 2
    ensures "dataSourceId=" + DataSourceIdValue(ids).s == Join("&", Prefixed("dataSourceId=", StrAll(ids)))
  {
    assert DATA_SOURCE_SEPARATOR == "&" + "dataSourceId=";
    JoinPrefixed("&", "dataSourceId=", StrAll(ids));
  }

  /** Each parameter of `getTraits` and when it is present: the flags only when truthy, the ids
      only when not None, the data source ids only for a list, and nothing else. */
  lemma {:induction false} TraitsParamsGet(folderId: Json, includeMetrics: Json, integrationCode: Json,
                                           dataSourceIds: Json, includeDetails: Json, k: string)
    ensures Get(TraitsParams(folderId, includeMetrics, integrationCode, dataSourceIds, includeDetails), k) ==
      if k == "includeMetrics" then (if Truthy(includeMetrics) then Some(includeMetrics) else None)
      else if k == "folderId" then (if folderId != Null then Some(folderId) else None)
      else if k == "integrationCode" then (if integrationCode != Null then Some(integrationCode) else None)
      else if k == "includeDetails" then (if Truthy(includeDetails) then Some(Bool(true)) else None)
      else if k == "dataSourceId" then
        (if dataSourceIds.List? then Some(DataSourceIdValue(dataSourceIds.items)) else None)
      else None
  {
    var p1 := PutIf([], Truthy(includeMetrics), "includeMetrics", includeMetrics);
    var p2 := PutIf(p1, folderId != Null, "folderId", folderId);
    var p3 := PutIf(p2, integrationCode != Null, "integrationCode", integrationCode);
    var p4 := PutIf(p3, Truthy(includeDetails), "includeDetails", Bool(true));
    GetPutIf([], Truthy(includeMetrics), "includeMetrics", includeMetrics, k);
    GetPutIf(p1, folderId != Null, "folderId", folderId, k);
    GetPutIf(p2, integrationCode != Null, "integrationCode", integrationCode, k);
    GetPutIf(p3, Truthy(includeDetails), "includeDetails", Bool(true), k);
    if dataSourceIds.List? {
      GetPut(p4, "dataSourceId", DataSourceIdValue(dataSourceIds.items), k);
    }
  }

  /** `getTrait` uses the integration code whenever there is one. */
  lemma GetTraitPrefersIntCode(traitId: Json, intCode: Json)
    requires intCode != Null
    ensures GetTraitPath(traitId, intCode) == GetTraitPath(Null, intCode) == Success("/traits/ic:" + PyStr(intCode))
  {
  }

  /** `deleteTrait` uses the trait id whenever there is one. */
  lemma DeleteTraitPrefersTraitId(traitId: Json, intCode: Json)
    requires traitId != Null
    ensures DeleteTraitPath(traitId, intCode) == DeleteTraitPath(traitId, Null) == Success("/traits/" + PyStr(traitId))
  {
  }

  /** `deleteSegment` uses the segment id whenever there is one. */
  lemma DeleteSegmentPrefersSegId(segId: Json, intCode: Json)
    requires segId != Null
    ensures DeleteSegmentPath(segId, intCode) == DeleteSegmentPath(segId, Null) == Success("/segments/" + PyStr(segId))
  {
  }

  /** Each of the three raises exactly when both identifiers are None. */
  lemma IdentifierRequired(a: Json, b: Json)
    ensures GetTraitPath(a, b).Failure? <==> a == Null && b == Null
    ensures DeleteTraitPath(a, b).Failure? <==> a == Null && b == Null
    ensures DeleteSegmentPath(a, b).Failure? <==> a == Null && b == Null
    ensures a == Null && b == Null ==>
      GetTraitPath(a, b).error.Exception? && DeleteTraitPath(a, b).error.Exception? && DeleteSegmentPath(a, b).error.Exception?
  {
  }

  /** With the same two identifiers, `getTrait` and `deleteTrait` address the same trait exactly
      when only one identifier is given. */
  lemma GetAndDeleteDisagree(traitId: Json, intCode: Json)
    requires traitId != Null || intCode != Null
    ensures GetTraitPath(traitId, intCode) == DeleteTraitPath(traitId, intCode) <==>
      traitId == Null || intCode == Null || "ic:" + PyStr(intCode) == PyStr(traitId)
  {
    if traitId != Null && intCode != Null {
      var x, y := PyStr(intCode), PyStr(traitId);
      assert GetTraitPath(traitId, intCode) == Success("/traits/ic:" + x);
      assert DeleteTraitPath(traitId, intCode) == Success("/traits/" + y);
      assert "/traits/ic:" + x == "/traits/" + ("ic:" + x);
      PrefixCancel("/traits/", "ic:" + x, y);
    }
  }

  /** Two texts with the same prefix are equal exactly when their rests are. */
  lemma PrefixCancel(p: string, x: string, y: string)
    ensures p + x == p + y <==> x == y
  {
    if p + x == p + y {
      assert x == (p + x)[|p|..];
      assert y == (p + y)[|p|..];
    }
  }

  lemma {:induction false} UniqueTail(kwargs: Fields)
    requires kwargs != [] && UniqueKeys(kwargs)
    ensures UniqueKeys(kwargs[1..]) && !HasKey(kwargs[1..], kwargs[0].0)
  {
    GetFindsKeys(kwargs[1..], kwargs[0].0);
    forall j | 0 <= j < |kwargs[1..]|
      ensures Keys(kwargs[1..])[j] != kwargs[0].0
    {
      assert kwargs[1..][j] == kwargs[j + 1];
    }
  }

  /** After the keyword loop, a keyword maps to its `str` (unless that is "nan" and such values
      are dropped, when the payload keeps what it had), and every other key is untouched. */
  lemma {:induction false} WithKwargsGet(obj: Fields, kwargs: Fields, dropNan: bool, k: string)
    requires UniqueKeys(kwargs)
    ensures Get(WithKwargs(obj, kwargs, dropNan), k) ==
      match Get(kwargs, k)
      case Some(v) => if dropNan && PyStr(v) == "nan" then Get(obj, k) else Some(Str(PyStr(v)))
      case None => Get(obj, k)
    decreases |kwargs|
  {
    if kwargs != [] {
      UniqueTail(kwargs);
      var text := PyStr(kwargs[0].1);
      var obj' := if dropNan && text == "nan" then obj else Put(obj, kwargs[0].0, Str(text));
      WithKwargsGet(obj', kwargs[1..], dropNan, k);
      if !(dropNan && text == "nan") {
        GetPut(obj, kwargs[0].0, Str(text), k);
      }
    }
  }

  /** The trait checks: the four required arguments first, then the trait type; the payload is
      built exactly when both pass. */
  lemma NewTraitChecks(name: Json, traitType: Json, dataSourceId: Json, folderId: Json, traitRule: Json, ttl: Json,
                       kwargs: Fields)
    ensures var r := NewTrait(name, traitType, dataSourceId, folderId, traitRule, ttl, kwargs);
      && (r.Success? <==> name != Null && dataSourceId != Null && folderId != Null && IsTraitType(traitType))
      && (name == Null || dataSourceId == Null || folderId == Null || traitType == Null ==> r.Failure? && r.error.Exception?)
      && (name != Null && dataSourceId != Null && folderId != Null && traitType != Null && !IsTraitType(traitType) ==>
            r.Failure? && r.error.ValueError?)
  {
  }

  /** The trait payload: the identifiers and `ttl` as text, the name, type and rule as given, and
      every keyword argument as text unless its text is "nan". */
  lemma {:induction false} NewTraitFields(name: Json, traitType: Json, dataSourceId: Json, folderId: Json,
                                          traitRule: Json, ttl: Json, kwargs: Fields, k: string)
    requires UniqueKeys(kwargs)
    requires NewTrait(name, traitType, dataSourceId, folderId, traitRule, ttl, kwargs).Success?
    ensures var obj := NewTrait(name, traitType, dataSourceId, folderId, traitRule, ttl, kwargs).value;
      var base := TraitBase(name, traitType, dataSourceId, folderId, traitRule, ttl);
      && (!HasKey(kwargs, k) ==> Get(obj, k) == Get(base, k))
      && (HasKey(kwargs, k) && PyStr(Get(kwargs, k).value) != "nan" ==> Get(obj, k) == Some(Str(PyStr(Get(kwargs, k).value))))
      && (HasKey(kwargs, k) && PyStr(Get(kwargs, k).value) == "nan" ==> Get(obj, k) == Get(base, k))
  {
    WithKwargsGet(TraitBase(name, traitType, dataSourceId, folderId, traitRule, ttl), kwargs, true, k);
  }

  /** The fixed entries of the trait payload. */
  lemma {:induction false} TraitBaseFields(name: Json, traitType: Json, dataSourceId: Json, folderId: Json,
                                           traitRule: Json, ttl: Json)
    ensures var b := TraitBase(name, traitType, dataSourceId, folderId, traitRule, ttl);
      && Get(b, "name") == Some(name) && Get(b, "traitType") == Some(traitType)
      && Get(b, "dataSourceId") == Some(Str(PyStr(dataSourceId)))
      && Get(b, "folderId") == Some(Str(PyStr(folderId)))
      && Get(b, "traitRule") == Some(traitRule)
      && Get(b, "ttl") == Some(Str(PyStr(ttl)))
      && UniqueKeys(b)
  {
    var b := TraitBase(name, traitType, dataSourceId, folderId, traitRule, ttl);
    TraitBaseKeys(b);
    GetAt(b, 2, "dataSourceId");
    GetAt(b, 3, "folderId");
    GetAt(b, 4, "traitRule");
    GetAt(b, 5, "ttl");
  }

  /** The six keys of the fixed payload are distinct. */
  lemma TraitBaseKeys(b: Fields)
    requires |b| == 6
    requires b[0].0 == "name" && b[1].0 == "traitType" && b[2].0 == "dataSourceId"
    requires b[3].0 == "folderId" && b[4].0 == "traitRule" && b[5].0 == "ttl"
    ensures UniqueKeys(b)
  {
  }

  /** A "nan" keyword (a float NaN, or the text "nan") never reaches the trait payload. */
  lemma NanKwargDropped(obj: Fields, kwargs: Fields, k: string)
    requires UniqueKeys(kwargs) && !HasKey(obj, k)
    requires Get(kwargs, k) == Some(Float("nan")) || Get(kwargs, k) == Some(Str("nan"))
    ensures !HasKey(WithKwargs(obj, kwargs, true), k)
    ensures Get(WithKwargs(obj, kwargs, false), k) == Some(Str("nan"))
  {
    WithKwargsGet(obj, kwargs, true, k);
    WithKwargsGet(obj, kwargs, false, k);
  }

  /** `updateTrait` checks only the trait id; the identifiers it is not given are sent as "None". */
  lemma {:induction false} TraitUpdateFields(name: Json, traitId: Json, traitType: Json, kwargs: Fields)
    requires UniqueKeys(kwargs) && !HasKey(kwargs, "dataSourceId") && !HasKey(kwargs, "folderId")
    ensures TraitUpdate(name, traitId, traitType, Null, Null, kwargs).Success? <==> traitId != Null
    ensures traitId != Null ==>
      var body := TraitUpdate(name, traitId, traitType, Null, Null, kwargs).value.body;
      Get(body, "dataSourceId") == Some(Str("None")) && Get(body, "folderId") == Some(Str("None"))
  {
    if traitId != Null {
      var base := [("name", name), ("traitType", traitType), ("dataSourceId", Str(PyStr(Null))),
                   ("folderId", Str(PyStr(Null)))];
      GetAt(base, 2, "dataSourceId");
      GetAt(base, 3, "folderId");
      WithKwargsGet(base, kwargs, true, "dataSourceId");
      WithKwargsGet(base, kwargs, true, "folderId");
    }
  }

  /** The `updateTrait` request: it is built exactly when there is a trait id, at
      `/traits/<traitId>`; each payload key holds the keyword's text, unless that text is "nan",
      and otherwise the name and type as given and the two ids as text. */
  lemma {:induction false} TraitUpdateGet(name: Json, traitId: Json, traitType: Json, folderId: Json,
                                          dataSourceId: Json, kwargs: Fields, k: string)
    requires UniqueKeys(kwargs)
    ensures var r := TraitUpdate(name, traitId, traitType, folderId, dataSourceId, kwargs);
      && (r.Success? <==> traitId != Null)
      && (traitId == Null ==> r.error == Exception(MISSING_TRAIT_ID))
      && (traitId != Null ==>
            var fixed := if k == "name" then Some(name)
                         else if k == "traitType" then Some(traitType)
                         else if k == "dataSourceId" then Some(Str(PyStr(dataSourceId)))
                         else if k == "folderId" then Some(Str(PyStr(folderId)))
                         else None;
            && r.value.path == "/traits/" + PyStr(traitId)
            && Get(r.value.body, k) ==
                 match Get(kwargs, k)
                 case Some(v) => if PyStr(v) == "nan" then fixed else Some(Str(PyStr(v)))
                 case None => fixed)
  {
    var base := [("name", name), ("traitType", traitType), ("dataSourceId", Str(PyStr(dataSourceId))),
                 ("folderId", Str(PyStr(folderId)))];
    WithKwargsGet(base, kwargs, true, k);
    UpdateBaseGet(base, k);
  }

  /** A lookup in the fixed part of the `updateTrait` payload. */
  lemma UpdateBaseGet(base: Fields, k: string)
    requires |base| == 4
    requires base[0].0 == "name" && base[1].0 == "traitType" && base[2].0 == "dataSourceId" && base[3].0 == "folderId"
    ensures Get(base, k) ==
      if k == "name" then Some(base[0].1) else if k == "traitType" then Some(base[1].1)
      else if k == "dataSourceId" then Some(base[2].1) else if k == "folderId" then Some(base[3].1)
      else None
  {
    if k == "traitType" {
      GetAt(base, 1, k);
    } else if k == "dataSourceId" {
      GetAt(base, 2, k);
    } else if k == "folderId" {
      GetAt(base, 3, k);
    } else if k != "name" {
      assert Get(base[3..], k) == None by { assert base[3..][1..] == []; }
      assert Get(base[1..], k) == Get(base[2..], k) == Get(base[3..], k) by {
        assert base[1..][1..] == base[2..] && base[2..][1..] == base[3..];
      }
    }
  }

  /** The `updateTraitFolder` request: a None folder id raises; otherwise the path is
      `/folders/traits/<folderId>` and each payload key holds the keyword's text, "nan" included,
      and otherwise the parent id as text and the name as given. */
  lemma {:induction false} FolderUpdateGet(folderId: Json, name: Json, parentFolderId: Json, kwargs: Fields, k: string)
    requires UniqueKeys(kwargs)
    ensures var r := FolderUpdate(folderId, name, parentFolderId, kwargs);
      && (r.Success? <==> folderId != Null)
      && (folderId == Null ==> r.error == Exception(MISSING_FOLDER_ID))
      && (folderId != Null ==>
            var fixed := if k == "parentFolderId" then Some(Str(PyStr(parentFolderId)))
                         else if k == "name" then Some(name)
                         else None;
            && r.value.path == "/folders/traits/" + PyStr(folderId)
            && Get(r.value.body, k) ==
                 match Get(kwargs, k)
                 case Some(v) => Some(Str(PyStr(v)))
                 case None => fixed)
  {
    var base := [("parentFolderId", Str(PyStr(parentFolderId))), ("name", name)];
    WithKwargsGet(base, kwargs, false, k);
    if k == "name" {
      GetAt(base, 1, k);
    } else if k != "parentFolderId" {
      assert Get(base[1..], k) == None by { assert base[1..][1..] == []; }
    }
  }

  /** A folder needs a name to be created, and its parent id is sent as text. */
  lemma NewTraitFolderFields(name: Json, parentFolderId: Json)
    ensures NewTraitFolder(name, parentFolderId).Success? <==> name != Null
    ensures name != Null ==>
      var obj := NewTraitFolder(name, parentFolderId).value;
      Get(obj, "parentFolderId") == Some(Str(PyStr(parentFolderId))) && Get(obj, "name") == Some(name) && |obj| == 2
  {
  }

  /** `updateTraitFolder` keeps "nan" values: each keyword is sent as its text. */
  lemma {:induction false} FolderUpdateKeepsEveryKwarg(folderId: Json, name: Json, parentFolderId: Json, kwargs: Fields,
                                                       k: string)
    requires folderId != Null && UniqueKeys(kwargs) && HasKey(kwargs, k)
    ensures FolderUpdate(folderId, name, parentFolderId, kwargs).Success?
    ensures Get(FolderUpdate(folderId, name, parentFolderId, kwargs).value.body, k) == Some(Str(PyStr(Get(kwargs, k).value)))
  {
    WithKwargsGet([("parentFolderId", Str(PyStr(parentFolderId))), ("name", name)], kwargs, false, k);
  }

  /** Each parameter of the segment query, for a given status test. */
  lemma {:induction false} SegmentsQueryGet(sendStatus: bool, includeInUseStatus: Json, status: Json, containsTrait: Json,
                                            mergeRuleDataSourceId: Json, includeMetrics: Json,
                                            includeTraitDataSourceIds: Json, includeAddressableAudienceMetrics: Json,
                                            k: string)
    ensures Get(SegmentsQuery(sendStatus, includeInUseStatus, status, containsTrait, mergeRuleDataSourceId,
                              includeMetrics, includeTraitDataSourceIds, includeAddressableAudienceMetrics), k) ==
      if k == "includeMetrics" then (if Truthy(includeMetrics) then Some(Bool(true)) else None)
      else if k == "includeTraitDataSourceIds" then (if Truthy(includeTraitDataSourceIds) then Some(Bool(true)) else None)
      else if k == "includeAddressableAudienceMetrics" then
        (if Truthy(includeAddressableAudienceMetrics) then Some(Bool(true)) else None)
      else if k == "status" then (if sendStatus then Some(status) else None)
      else if k == "includeInUseStatus" then (if Truthy(includeInUseStatus) then Some(Bool(true)) else None)
      else if k == "containsTrait" then (if containsTrait != Null then Some(containsTrait) else None)
      else if k == "mergeRuleDataSourceId" then
        (if mergeRuleDataSourceId != Null then Some(mergeRuleDataSourceId) else None)
      else None
  {
    var p1 := PutIf([], Truthy(includeMetrics), "includeMetrics", Bool(true));
    var p2 := PutIf(p1, Truthy(includeTraitDataSourceIds), "includeTraitDataSourceIds", Bool(true));
    var p3 := PutIf(p2, Truthy(includeAddressableAudienceMetrics), "includeAddressableAudienceMetrics", Bool(true));
    var p4 := PutIf(p3, sendStatus, "status", status);
    var p5 := PutIf(p4, Truthy(includeInUseStatus), "includeInUseStatus", Bool(true));
    var p6 := PutIf(p5, containsTrait != Null, "containsTrait", containsTrait);
    GetPutIf([], Truthy(includeMetrics), "includeMetrics", Bool(true), k);
    GetPutIf(p1, Truthy(includeTraitDataSourceIds), "includeTraitDataSourceIds", Bool(true), k);
    GetPutIf(p2, Truthy(includeAddressableAudienceMetrics), "includeAddressableAudienceMetrics", Bool(true), k);
    GetPutIf(p3, sendStatus, "status", status, k);
    GetPutIf(p4, Truthy(includeInUseStatus), "includeInUseStatus", Bool(true), k);
    GetPutIf(p5, containsTrait != Null, "containsTrait", containsTrait, k);
    GetPutIf(p6, mergeRuleDataSourceId != Null, "mergeRuleDataSourceId", mergeRuleDataSourceId, k);
  }

  /** As written, `getSegments` never sends a status and ignores `dataSourceId`. */
  lemma SegmentsNeverSendStatus(includeInUseStatus: Json, status: Json, containsTrait: Json, dataSourceId: Json,
                                mergeRuleDataSourceId: Json, includeMetrics: Json, includeTraitDataSourceIds: Json,
                                includeAddressableAudienceMetrics: Json, other: Json)
    ensures !HasKey(SegmentsParams(includeInUseStatus, status, containsTrait, dataSourceId, mergeRuleDataSourceId,
                                   includeMetrics, includeTraitDataSourceIds, includeAddressableAudienceMetrics), "status")
    ensures SegmentsParams(includeInUseStatus, status, containsTrait, dataSourceId, mergeRuleDataSourceId,
                           includeMetrics, includeTraitDataSourceIds, includeAddressableAudienceMetrics) ==
            SegmentsParams(includeInUseStatus, status, containsTrait, other, mergeRuleDataSourceId,
                           includeMetrics, includeTraitDataSourceIds, includeAddressableAudienceMetrics)
  {
    SegmentsQueryGet(false, includeInUseStatus, status, containsTrait, mergeRuleDataSourceId, includeMetrics,
                     includeTraitDataSourceIds, includeAddressableAudienceMetrics, "status");
  }

  /** With the intended test, the status is sent exactly when it is ACTIVE or INACTIVE, and the
      rest of the query is as written. */
  lemma SegmentsIntendedStatus(includeInUseStatus: Json, status: Json, containsTrait: Json, dataSourceId: Json,
                               mergeRuleDataSourceId: Json, includeMetrics: Json, includeTraitDataSourceIds: Json,
                               includeAddressableAudienceMetrics: Json, k: string)
    ensures var p := SegmentsParamsIntended(includeInUseStatus, status, containsTrait, mergeRuleDataSourceId,
                                            includeMetrics, includeTraitDataSourceIds, includeAddressableAudienceMetrics);
      (HasKey(p, "status") <==> status == Str("ACTIVE") || status == Str("INACTIVE"))
      && (HasKey(p, "status") ==> Get(p, "status") == Some(status))
    ensures k != "status" ==>
      Get(SegmentsParamsIntended(includeInUseStatus, status, containsTrait, mergeRuleDataSourceId, includeMetrics,
                                 includeTraitDataSourceIds, includeAddressableAudienceMetrics), k) ==
      Get(SegmentsParams(includeInUseStatus, status, containsTrait, dataSourceId, mergeRuleDataSourceId, includeMetrics,
                         includeTraitDataSourceIds, includeAddressableAudienceMetrics), k)
  {
    var sendStatus := status == Str("ACTIVE") || status == Str("INACTIVE");
    SegmentsQueryGet(sendStatus, includeInUseStatus, status, containsTrait, mergeRuleDataSourceId, includeMetrics,
                     includeTraitDataSourceIds, includeAddressableAudienceMetrics, "status");
    SegmentsQueryGet(sendStatus, includeInUseStatus, status, containsTrait, mergeRuleDataSourceId, includeMetrics,
                     includeTraitDataSourceIds, includeAddressableAudienceMetrics, k);
    SegmentsQueryGet(false, includeInUseStatus, status, containsTrait, mergeRuleDataSourceId, includeMetrics,
                     includeTraitDataSourceIds, includeAddressableAudienceMetrics, k);
  }

  /** The report parameters: the interval, a `cutOff`, and `restrictType` only for one of the
      three trait types. */
  lemma {:induction false} TraitReportGet(interval: Json, cutOff: Json, restrictType: Json)
    ensures var p := TraitReport(interval, cutOff, restrictType);
      && Get(p, "interval") == Some(interval) && Get(p, "cutOff") == Some(cutOff)
      && (HasKey(p, "restrictType") <==> IsTraitType(restrictType))
      && (HasKey(p, "restrictType") ==> Get(p, "restrictType") == Some(restrictType))
  {
    var base := [("interval", interval), ("cutOff", cutOff)];
    var cond := restrictType != Null && IsTraitType(restrictType);
    GetPutIf(base, cond, "restrictType", restrictType, "interval");
    GetPutIf(base, cond, "restrictType", restrictType, "cutOff");
    GetPutIf(base, cond, "restrictType", restrictType, "restrictType");
    assert Get(base[1..], "restrictType") == None;
  }

  /** As written the caller's `cutOff` is never sent: the parameters are those of a 0 cut-off. */
  lemma CutOffIgnored(interval: Json, cutOff: Json, restrictType: Json)
    ensures TraitReportParams(interval, cutOff, restrictType) == TraitReportParamsIntended(interval, Int(0), restrictType)
    ensures Get(TraitReportParams(interval, cutOff, restrictType), "cutOff") == Some(Int(0))
  {
    TraitReportGet(interval, Int(0), restrictType);
  }

  /** With the intended builder the caller's `cutOff` is sent. */
  lemma CutOffSent(interval: Json, cutOff: Json, restrictType: Json)
    ensures Get(TraitReportParamsIntended(interval, cutOff, restrictType), "cutOff") == Some(cutOff)
  {
    TraitReportGet(interval, cutOff, restrictType);
  }

  /** A destination is accepted exactly as a dict with a name, and then posted unchanged. */
  lemma DestinationChecks(data: Json)
    ensures NewDestination(data).Success? <==> data.Dict? && HasKey(data.fields, "name")
    ensures NewDestination(data).Success? ==> NewDestination(data).value == data.fields
    ensures !data.Dict? ==> NewDestination(data).error.Exception?
    ensures data.Dict? && !HasKey(data.fields, "name") ==> NewDestination(data).error == ValueError(DESTINATION_NEEDS_NAME)
  {
  }

  /** An update checks the id before the dict, and then behaves as creation does. */
  lemma DestinationUpdateChecks(destinationId: Json, data: Json)
    ensures destinationId == Null ==> DestinationUpdate(destinationId, data) == Failure(ValueError(MISSING_DESTINATION_ID))
    ensures destinationId != Null ==>
      (DestinationUpdate(destinationId, data).Success? <==> NewDestination(data).Success?)
      && (DestinationUpdate(destinationId, data).Success? ==>
            DestinationUpdate(destinationId, data).value.body == data.fields)
  {
  }

  /** A trait created without a `ttl` expires after "120" days.  (`ttl` is a named parameter, so
      Python's `**kwargs` never holds it: the second requires always holds.) */
  lemma DefaultTtlSent(name: Json, traitType: Json, dataSourceId: Json, folderId: Json, traitRule: Json,
                       kwargs: Fields)
    requires UniqueKeys(kwargs) && !HasKey(kwargs, "ttl")
    requires NewTrait(name, traitType, dataSourceId, folderId, traitRule, TTL_DEFAULT, kwargs).Success?
    ensures Get(NewTrait(name, traitType, dataSourceId, folderId, traitRule, TTL_DEFAULT, kwargs).value, "ttl") ==
      Some(Str("120"))
  {
    NewTraitFields(name, traitType, dataSourceId, folderId, traitRule, TTL_DEFAULT, kwargs, "ttl");
    TraitBaseFields(name, traitType, dataSourceId, folderId, traitRule, TTL_DEFAULT);
    assert NatToDecimal(12) == "12";
    assert PyStr(TTL_DEFAULT) == "120";
  }

  /** A folder created or updated without a parent is attached to the root folder "0".
      (`parentFolderId` is a named parameter, so `**kwargs` never holds it.) */
  lemma {:induction false} DefaultParentFolderSent(name: Json, folderId: Json, kwargs: Fields)
    requires UniqueKeys(kwargs) && !HasKey(kwargs, "parentFolderId")
    ensures name != Null ==> Get(NewTraitFolder(name, PARENT_FOLDER_DEFAULT).value, "parentFolderId") == Some(Str("0"))
    ensures folderId != Null ==>
      Get(FolderUpdate(folderId, name, PARENT_FOLDER_DEFAULT, kwargs).value.body, "parentFolderId") == Some(Str("0"))
  {
    assert PyStr(PARENT_FOLDER_DEFAULT) == "0";
    WithKwargsGet([("parentFolderId", Str("0")), ("name", name)], kwargs, false, "parentFolderId");
  }

  /** Without an `includeMetrics` argument, both trait and segment listings ask for metrics. */
  lemma DefaultMetricsSent(folderId: Json, integrationCode: Json, dataSourceIds: Json, includeDetails: Json,
                           includeInUseStatus: Json, status: Json, containsTrait: Json, dataSourceId: Json,
                           mergeRuleDataSourceId: Json, includeTraitDataSourceIds: Json,
                           includeAddressableAudienceMetrics: Json)
    ensures Get(TraitsParams(folderId, INCLUDE_METRICS_DEFAULT, integrationCode, dataSourceIds, includeDetails),
                "includeMetrics") == Some(Bool(true))
    ensures Get(SegmentsParams(includeInUseStatus, status, containsTrait, dataSourceId, mergeRuleDataSourceId,
                               INCLUDE_METRICS_DEFAULT, includeTraitDataSourceIds, includeAddressableAudienceMetrics),
                "includeMetrics") == Some(Bool(true))
  {
    TraitsParamsGet(folderId, INCLUDE_METRICS_DEFAULT, integrationCode, dataSourceIds, includeDetails, "includeMetrics");
    SegmentsQueryGet(status == Null && (status == Str("ACTIVE") || status == Str("INACTIVE")), includeInUseStatus,
                     status, containsTrait, mergeRuleDataSourceId, INCLUDE_METRICS_DEFAULT, includeTraitDataSourceIds,
                     includeAddressableAudienceMetrics, "includeMetrics");
  }

  /** The bulk deletes accept exactly a list and send its elements in order. */
  lemma BulkIdsChecks(ids: Json)
    ensures BulkIds(ids).Success? <==> ids.List?
    ensures BulkIds(ids).Success? ==> BulkIds(ids).value == ids.items
  {
  }

  /** `/traits/` is made of URL characters only. */
  lemma TraitsPathIsUrl()
    ensures forall i :: 0 <= i < |TRAITS_PATH| ==> UrlChar(TRAITS_PATH[i])
  {
    forall i | 0 <= i < |TRAITS_PATH|
      ensures UrlChar(TRAITS_PATH[i])
    {
      assert TRAITS_PATH[i] == '/' || 'a' <= TRAITS_PATH[i] <= 'z';
    }
  }
}
