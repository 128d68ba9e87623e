/**
 * The Doc Scan check response mapper: the record built from the decoded JSON
 * description of one check of a session, and the seven check kinds that share
 * its shape.
 */
module CheckResponses {
  import opened Wrappers
  import opened JsonValues

  /** The class that was instantiated: the base class or one of its seven empty subclasses. */
  datatype CheckKind =
    | AnyCheck
    | Authenticity
    | FaceMatch
    | Liveness
    | TextData
    | IdDocumentComparison
    | SupplementaryDocumentTextData
    | RequestedThirdPartyIdentity

  /** The report built from the raw `report` value; its own fields are not part of this model. */
  datatype ReportResponse = ReportResponse(raw: Json)

  /** One generated media item, built from one raw element; its own fields are not part of this model. */
  datatype GeneratedMedia = GeneratedMedia(raw: Json)

  /** What the ISO 8601 date parser does with a value: return a timestamp, or raise its ParseError. */
  datatype DateOutcome<T> = Parsed(timestamp: T) | ParseError(message: string)

  /**
   * A check response. `id`, `state`, `checkType` and `resourcesUsed` hold the
   * raw values, `JNull` standing for Python's None; `T` is the timestamp type
   * the date parser produces.
   */
  datatype CheckResponse<T> = CheckResponse(
    kind: CheckKind,
    id: Json,
    state: Json,
    checkType: Json,
    resourcesUsed: Json,
    report: Option<ReportResponse>,
    generatedMedia: seq<GeneratedMedia>,
    created: Option<T>,
    lastUpdated: Option<T>)

  /** The keys the mapper reads; every other key of the input is ignored. */
  const InspectedKeys: set<string> :=
    {"id", "state", "type", "resources_used", "report", "generated_media", "created", "last_updated"}

  /**
   * Parses a date that may be absent: None stays None, a ParseError is
   * swallowed into None, and a parsed timestamp is returned unchanged.
   */
  function ParseDate<T>(date: Json, parse: Json -> DateOutcome<T>): (r: Option<T>)
    ensures date.JNull? ==> r.None?
    ensures r.Some? <==> !date.JNull? && parse(date).Parsed?
    ensures r.Some? ==> parse(date) == Parsed(r.value)
  {
    if date.JNull? then None
    else
      match parse(date)
      case Parsed(t) => Some(t)
      case ParseError(_) => None
  }

  /**
   * Builds the response of the given kind from `data` (None meaning no data).
   * It fails only where Python's list comprehension over `generated_media`
   * raises a TypeError: when that key holds null, a boolean or a number.
   */
  function FromData<T>(kind: CheckKind, data: Option<Dict>, parse: Json -> DateOutcome<T>)
    : (r: Result<CheckResponse<T>, TypeError>)
    ensures var d := if data.Some? then data.value else [];
      && (r.Failure? <==> Get(d, "generated_media").Some? && Iterate(Get(d, "generated_media").value).Failure?)
      && (r.Failure? ==> r.error == NotIterable(Get(d, "generated_media").value))
    ensures r.Success? ==>
      var d := if data.Some? then data.value else [];
      var c := r.value;
      && c.kind == kind
      && (Get(d, "id").None? ==> c.id == JNull)
      && (Get(d, "id").Some? ==> c.id == Get(d, "id").value)
      && (Get(d, "state").None? ==> c.state == JNull)
      && (Get(d, "state").Some? ==> c.state == Get(d, "state").value)
      && (Get(d, "type").None? ==> c.checkType == JNull)
      && (Get(d, "type").Some? ==> c.checkType == Get(d, "type").value)
      && (Get(d, "resources_used").None? ==> c.resourcesUsed == JArray([]))
      && (Get(d, "resources_used").Some? ==> c.resourcesUsed == Get(d, "resources_used").value)
      && (c.report.None? <==> Get(d, "report") == None || Get(d, "report") == Some(JNull))
      && (c.report.Some? ==> Get(d, "report") == Some(c.report.value.raw))
      && (Get(d, "generated_media").None? ==> c.generatedMedia == [])
      && (Get(d, "generated_media").Some? ==>
            var raw := Iterate(Get(d, "generated_media").value).value;
            |c.generatedMedia| == |raw| &&
            forall i :: 0 <= i < |raw| ==> c.generatedMedia[i] == GeneratedMedia(raw[i]))
      && c.created == ParseDate(GetOr(d, "created", JNull), parse)
      && c.lastUpdated == ParseDate(GetOr(d, "last_updated", JNull), parse)
  {
    var d := if data.Some? then data.value else [];
    match Iterate(GetOr(d, "generated_media", JArray([])))
    case Failure(e) => Failure(e)
    case Success(raw) =>
      var report := GetOr(d, "report", JNull);
      Success(CheckResponse(
        kind,
        GetOr(d, "id", JNull),
        GetOr(d, "state", JNull),
        GetOr(d, "type", JNull),
        GetOr(d, "resources_used", JArray([])),
        if report != JNull then Some(ReportResponse(report)) else None,
        seq(|raw|, i requires 0 <= i < |raw| => GeneratedMedia(raw[i])),
        ParseDate(GetOr(d, "created", JNull), parse),
        ParseDate(GetOr(d, "last_updated", JNull), parse)))
  }

  /** The response every field of which is at its default. */
  function Defaults<T>(kind: CheckKind): (r: CheckResponse<T>) {
    CheckResponse(kind, JNull, JNull, JNull, JArray([]), None, [], None, None)
  }

  /** No data and an empty dict both give a response with every field at its default. */
  lemma EmptyDataGivesDefaults<T>(kind: CheckKind, parse: Json -> DateOutcome<T>)
    ensures FromData(kind, None, parse) == Success(Defaults(kind))
    ensures FromData(kind, Some([]), parse) == Success(Defaults(kind))
  {
  }

  /** Two inputs that agree on the inspected keys give the same response. */
  lemma OnlyInspectedKeysMatter<T>(kind: CheckKind, d1: Dict, d2: Dict, parse: Json -> DateOutcome<T>)
    requires forall k :: k in InspectedKeys ==> Get(d1, k) == Get(d2, k)
    ensures FromData(kind, Some(d1), parse) == FromData(kind, Some(d2), parse)
  {
  }

  /** A member under an unknown key, inserted anywhere in the input, changes nothing. */
  lemma UnknownMemberIgnored<T>(kind: CheckKind, front: Dict, m: Member, back: Dict, parse: Json -> DateOutcome<T>)
    requires m.key !in InspectedKeys
    ensures FromData(kind, Some(front + [m] + back), parse) == FromData(kind, Some(front + back), parse)
  {
    forall k | k in InspectedKeys
      ensures Get(front + [m] + back, k) == Get(front + back, k)
    {
      GetSkipsOtherMember(front, m, back, k);
    }
    OnlyInspectedKeysMatter(kind, front + [m] + back, front + back, parse);
  }

  /** `created` is read from the "created" key alone, and `last_updated` from "last_updated" alone. */
  lemma DatesReadOwnKeyOnly<T>(kind: CheckKind, d1: Dict, d2: Dict, parse: Json -> DateOutcome<T>)
    requires FromData(kind, Some(d1), parse).Success? && FromData(kind, Some(d2), parse).Success?
    ensures Get(d1, "created") == Get(d2, "created") ==>
      FromData(kind, Some(d1), parse).value.created == FromData(kind, Some(d2), parse).value.created
    ensures Get(d1, "last_updated") == Get(d2, "last_updated") ==>
      FromData(kind, Some(d1), parse).value.lastUpdated == FromData(kind, Some(d2), parse).value.lastUpdated
  {
  }

  /** The seven subclasses build exactly the fields the base class builds, and fail on the same inputs. */
  lemma KindsAgree<T>(k1: CheckKind, k2: CheckKind, data: Option<Dict>, parse: Json -> DateOutcome<T>)
    ensures FromData(k1, data, parse).Failure? == FromData(k2, data, parse).Failure?
    ensures FromData(k1, data, parse).Success? ==>
      FromData(k1, data, parse).value.(kind := k2) == FromData(k2, data, parse).value
  {
  }

  /** A `generated_media` list gives one media item per element, in the same order. */
  lemma MediaKeepsOrder<T>(kind: CheckKind, d: Dict, items: seq<Json>, parse: Json -> DateOutcome<T>)
    requires Get(d, "generated_media") == Some(JArray(items))
    ensures FromData(kind, Some(d), parse).Success?
    ensures var media := FromData(kind, Some(d), parse).value.generatedMedia;
      |media| == |items| && forall i :: 0 <= i < |items| ==> media[i] == GeneratedMedia(items[i])
  {
  }

  /** A `created` string the parser rejects leaves `created` absent and the construction succeeds. */
  lemma MalformedCreatedIsAbsent<T>(kind: CheckKind, s: string, parse: Json -> DateOutcome<T>)
    requires parse(JString(s)).ParseError?
    ensures FromData(kind, Some([Member("created", JString(s))]), parse) == Success(Defaults(kind))
  {
  }

  /**
   * The check described by id "abc123", state "COMPLETED", type
   * "ID_DOCUMENT_AUTHENTICITY", one resource and a creation date: every other
   * field keeps its default and `created` is what the parser returns.
   */
  lemma AuthenticityScenario<T>(parse: Json -> DateOutcome<T>, t: T)
    requires parse(JString("2021-06-01T10:00:00Z")) == Parsed(t)
    ensures FromData(Authenticity, Some([
        Member("id", JString("abc123")),
        Member("state", JString("COMPLETED")),
        Member("type", JString("ID_DOCUMENT_AUTHENTICITY")),
        Member("resources_used", JArray([JString("res1")])),
        Member("created", JString("2021-06-01T10:00:00Z"))]), parse)
      == Success(CheckResponse(
        Authenticity, JString("abc123"), JString("COMPLETED"), JString("ID_DOCUMENT_AUTHENTICITY"),
        JArray([JString("res1")]), None, [], Some(t), None))
  {
  }

  /** A `generated_media` key holding null raises, where a null `report` is read as absent. */
  lemma NullMediaRaises<T>(kind: CheckKind, parse: Json -> DateOutcome<T>)
    ensures FromData(kind, Some([Member("generated_media", JNull)]), parse) == Failure(NotIterable(JNull))
    ensures FromData(kind, Some([Member("report", JNull)]), parse) == Success(Defaults(kind))
  {
    assert Get([Member("generated_media", JNull)], "generated_media") == Some(JNull);
  }
}
