/**
 The SObject layer of the go-force client (force/sobjects.go): the description
 cache with its derived "all fields" projection, and the path, guard and query
 construction of the create/read/update/delete operations by record id and by
 external id.

 The client is the class `API`. It holds the catalog of describable types
 (`apiSObjects`, loaded elsewhere and only read here), the cache of type
 descriptions (`apiSObjectDescriptions`), and a ghost log of the HTTP calls it
 has made. The HTTP verbs are methods of `API` whose reply the model leaves
 arbitrary. Every operation is a method taking a possibly-null client because
 the source checks for a nil receiver.
 */
module SObjects {
  import opened Wrappers
  import opened Strings

  type NonEmptyString = s: string | |s| > 0 witness "?"

  // Keys of the catalog's URL map and the row-template placeholder. They are
  // defined outside force/sobjects.go; the model only relies on their being
  // non-empty.
  const IdKey: NonEmptyString
  const RowTemplateKey: NonEmptyString
  const SObjectKey: NonEmptyString
  const SObjectDescribeKey: NonEmptyString

  /** The field type that a flat SELECT cannot retrieve. */
  const LocationType := "location"

  /** The field values of a record, keyed by their serialisation tags. */
  type Values = map<string, string>

  /** A record: the two accessors every SObject provides, and its field values. */
  datatype SObject = SObject(apiName: string, externalIDAPIName: string, values: Values)

  /** A catalog entry: the named URLs of one type (list, row template, describe, ...). */
  datatype SObjectMetaData = SObjectMetaData(name: string, urls: map<string, string>)

  datatype Field = Field(name: string, fieldType: string)

  datatype SObjectDescription = SObjectDescription(name: string, fields: seq<Field>, allFields: string)

  /** The envelope returned by insert and upsert. */
  datatype SObjectResponse = SObjectResponse(id: string, errors: seq<string>, success: bool)

  datatype Error =
    | ClientIsNil                       // "client is nil"
    | MissingAPIName                    // "missing APIName"
    | NoMetadata(apiName: string)       // "unable to find metadata for object: ..."
    | MissingAPISObj(apiName: string)   // "missing apiSObj: ..."
    | Transport(message: string)        // whatever the HTTP layer returned

  datatype Result<T> = Ok(value: T) | Err(error: Error)

  datatype Outcome = Pass | Fail(error: Error)

  /** Query parameters, as `url.Values` holds them. */
  type Query = map<string, seq<string>>

  datatype Verb = GET | POST | PATCH | DELETE

  datatype Request = Request(verb: Verb, path: string, query: Query, body: Option<SObject>)

  /** What the HTTP layer answered, decoded into the value the caller passed. */
  datatype Reply =
    | Described(description: Result<SObjectDescription>)
    | Decoded(record: Result<Values>)
    | Responded(response: Result<SObjectResponse>)
    | Completed(outcome: Outcome)

  datatype Exchange = Exchange(request: Request, reply: Reply)

  // ---------------------------------------------------------------------------
  // The "all fields" projection

  /**
   The projection as the describe loop builds it: the names of all fields whose
   type is not "location", each written after ", " unless it is the field at
   position 0 of the full list. Defined on prefixes, as the loop extends it.
   */
  function AllFieldsOf(fields: seq<Field>): (allFields: string)
    decreases |fields|
    ensures KeptNames(fields) == [] ==> allFields == ""
    ensures |fields| > 0 && fields[0].fieldType != LocationType ==> fields[0].name <= allFields
    ensures |fields| > 0 && fields[0].fieldType == LocationType && KeptNames(fields) != [] ==> ", " <= allFields
  {
    if |fields| == 0 then ""
    else
      var index := |fields| - 1;
      var before := AllFieldsOf(fields[..index]);
      if fields[index].fieldType == LocationType then before
      else before + (if index > 0 then ", " else "") + fields[index].name
  }

  /** The names of the fields a flat query can select, in declaration order. */
  function KeptNames(fields: seq<Field>): (names: seq<string>)
    decreases |fields|
  {
    if |fields| == 0 then []
    else
      var index := |fields| - 1;
      KeptNames(fields[..index])
        + (if fields[index].fieldType != LocationType then [fields[index].name] else [])
  }

  /** The as-written projection starts with ", ": field 0 is skipped and a later one is kept. */
  predicate LeadingSeparator(fields: seq<Field>) {
    |fields| > 0 && fields[0].fieldType == LocationType && KeptNames(fields) != []
  }

  /**
   The projection the comment at force/sobjects.go:59-60 describes, a comma-separated
   list of field names for SELECT queries: the kept names, no separator ahead of the first.
   */
  function IntendedAllFields(fields: seq<Field>): (allFields: string) {
    Join(KeptNames(fields), ", ")
  }

  /** A name is kept exactly when some non-location field carries it. */
  lemma {:induction false} KeptNamesMembers(fields: seq<Field>, n: string)
    ensures n in KeptNames(fields) <==>
      exists i :: 0 <= i < |fields| && fields[i].name == n && fields[i].fieldType != LocationType
    decreases |fields|
  {
    if |fields| > 0 {
      var index := |fields| - 1;
      var init := fields[..index];
      KeptNamesMembers(init, n);
      if n in KeptNames(init) {
        var i :| 0 <= i < |init| && init[i].name == n && init[i].fieldType != LocationType;
        assert fields[i] == init[i];
      }
      if exists i :: 0 <= i < |fields| && fields[i].name == n && fields[i].fieldType != LocationType {
        var i :| 0 <= i < |fields| && fields[i].name == n && fields[i].fieldType != LocationType;
        if i < index {
          assert init[i] == fields[i];
        }
      }
    }
  }

  /** When field 0 is kept, its name is the first kept name. */
  lemma {:induction false} KeptNamesFirst(fields: seq<Field>)
    requires |fields| > 0 && fields[0].fieldType != LocationType
    ensures KeptNames(fields) != [] && KeptNames(fields)[0] == fields[0].name
    decreases |fields|
  {
    if |fields| > 1 {
      var init := fields[..|fields| - 1];
      assert init[0] == fields[0];
      KeptNamesFirst(init);
    }
  }

  /**
   The as-written projection is the kept names joined with ", ", preceded by one
   extra ", " exactly when field 0 is a location field and some later field is kept.
   */
  lemma {:induction false} AllFieldsShape(fields: seq<Field>)
    ensures AllFieldsOf(fields) == (if LeadingSeparator(fields) then ", " else "") + Join(KeptNames(fields), ", ")
    decreases |fields|
  {
    if |fields| > 0 {
      var init := fields[..|fields| - 1];
      AllFieldsShape(init);
      if fields[|fields| - 1].fieldType != LocationType {
        AllFieldsShapeKept(fields);
      } else {
        assert KeptNames(fields) == KeptNames(init);
        assert AllFieldsOf(fields) == AllFieldsOf(init);
        if |init| > 0 {
          assert init[0] == fields[0];
        }
      }
    }
  }

  /** One step of `AllFieldsShape`: the last field is kept and the shape holds before it. */
  lemma {:induction false} AllFieldsShapeKept(fields: seq<Field>)
    requires |fields| > 0 && fields[|fields| - 1].fieldType != LocationType
    requires var init := fields[..|fields| - 1];
      AllFieldsOf(init) == (if LeadingSeparator(init) then ", " else "") + Join(KeptNames(init), ", ")
    ensures AllFieldsOf(fields) == (if LeadingSeparator(fields) then ", " else "") + Join(KeptNames(fields), ", ")
  {
    if KeptNames(fields[..|fields| - 1]) == [] {
      FirstKeptName(fields);
    } else {
      LaterKeptName(fields);
    }
  }

  /** The last field is kept after others: it is appended with ", ", as `Join` appends it. */
  lemma {:induction false} LaterKeptName(fields: seq<Field>)
    requires |fields| > 0 && fields[|fields| - 1].fieldType != LocationType
    requires KeptNames(fields[..|fields| - 1]) != []
    requires var init := fields[..|fields| - 1];
      AllFieldsOf(init) == (if LeadingSeparator(init) then ", " else "") + Join(KeptNames(init), ", ")
    ensures AllFieldsOf(fields) == (if LeadingSeparator(fields) then ", " else "") + Join(KeptNames(fields), ", ")
  {
    var index := |fields| - 1;
    var init := fields[..index];
    var f := fields[index];
    var lead := if LeadingSeparator(init) then ", " else "";
    assert init[0] == fields[0];
    assert LeadingSeparator(fields) == LeadingSeparator(init);
    assert KeptNames(fields) == KeptNames(init) + [f.name];
    JoinAppend(KeptNames(init), f.name, ", ");
    assert AllFieldsOf(fields) == lead + Join(KeptNames(init), ", ") + ", " + f.name;
  }

  /** The last field is the first one kept: the projection is its name, after ", " unless it is field 0. */
  lemma {:induction false} FirstKeptName(fields: seq<Field>)
    requires |fields| > 0 && fields[|fields| - 1].fieldType != LocationType
    requires KeptNames(fields[..|fields| - 1]) == []
    ensures AllFieldsOf(fields) == (if LeadingSeparator(fields) then ", " else "") + Join(KeptNames(fields), ", ")
  {
    var index := |fields| - 1;
    var init := fields[..index];
    var f := fields[index];
    assert KeptNames(fields) == [f.name];
    assert AllFieldsOf(init) == "";
    if index > 0 {
      assert init[0] == fields[0];
      if init[0].fieldType != LocationType {
        KeptNamesFirst(init);
      }
    }
  }

  /**
   Read back as a ", "-separated list, the as-written projection is exactly the
   kept names in order, after one empty entry when it has a leading separator.
   */
  lemma AllFieldsNames(fields: seq<Field>)
    requires KeptNames(fields) != []
    requires FreeOf(KeptNames(fields), ',')
    ensures Split(AllFieldsOf(fields), ", ") ==
      (if LeadingSeparator(fields) then [""] else []) + KeptNames(fields)
  {
    AllFieldsShape(fields);
    var joined := Join(KeptNames(fields), ", ");
    SplitJoin(KeptNames(fields), ", ");
    if LeadingSeparator(fields) {
      var all := AllFieldsOf(fields);
      assert all == "" + ", " + joined;
      IndexAfterPrefix("", ", ", joined);
      assert all[..0] == "" && all[2..] == joined;
    } else {
      assert AllFieldsOf(fields) == joined;
    }
  }

  /** The as-written projection equals the intended one exactly when there is no leading separator. */
  lemma AllFieldsMatchesIntended(fields: seq<Field>)
    ensures AllFieldsOf(fields) == IntendedAllFields(fields) <==> !LeadingSeparator(fields)
  {
    AllFieldsShape(fields);
  }

  /** A concrete input on which the as-written projection starts with ", ". */
  lemma LeadingSeparatorExample()
    ensures AllFieldsOf([Field("Geo__c", LocationType), Field("Id", "id")]) == ", Id"
    ensures IntendedAllFields([Field("Geo__c", LocationType), Field("Id", "id")]) == "Id"
  {
    var fields := [Field("Geo__c", LocationType), Field("Id", "id")];
    assert fields[..1] == [Field("Geo__c", LocationType)];
    assert fields[..1][..0] == [];
    assert AllFieldsOf(fields[..1]) == "";
    assert KeptNames(fields[..1]) == [];
    assert KeptNames(fields) == ["Id"];
  }

  /** The intended projection reads back as exactly the kept names. */
  lemma IntendedAllFieldsNames(fields: seq<Field>)
    requires KeptNames(fields) != []
    requires FreeOf(KeptNames(fields), ',')
    ensures Split(IntendedAllFields(fields), ", ") == KeptNames(fields)
  {
    SplitJoin(KeptNames(fields), ", ");
  }

  /** The describe loop: one pass over the fields, appending to a buffer. */
  method BuildAllFields(fields: seq<Field>) returns (allFields: string)
    ensures allFields == AllFieldsOf(fields)
  {
    var length := |fields|;
    allFields := "";
    for index := 0 to length
      invariant allFields == AllFieldsOf(fields[..index])
    {
      var field := fields[index];
      assert fields[..index + 1][..index] == fields[..index];
      if field.fieldType != LocationType {
        if index > 0 && index < length {
          allFields := allFields + ", ";
        }
        allFields := allFields + field.name;
      }
    }
    assert fields[..length] == fields;
  }

  /** A cached description is consistent with its fields. */
  ghost predicate Projected(d: SObjectDescription) {
    |d.fields| > 0 ==> d.allFields == AllFieldsOf(d.fields)
  }

  // ---------------------------------------------------------------------------
  // Paths and query parameters

  /** `URLs[key]`: a missing key reads as the empty string. */
  function Url(meta: SObjectMetaData, key: string): (url: string)
    ensures key !in meta.urls ==> url == ""
    ensures url != "" ==> key in meta.urls && meta.urls[key] == url
  {
    if key in meta.urls then meta.urls[key] else ""
  }

  /** The row path: the first placeholder of the row template replaced by `id`. */
  function RowPath(meta: SObjectMetaData, id: string): (path: string)
    ensures (forall k: nat :: !OccursAt(Url(meta, RowTemplateKey), IdKey, k)) ==>
      path == Url(meta, RowTemplateKey)
  {
    ReplaceFirst(Url(meta, RowTemplateKey), IdKey, id)
  }

  /**
   A template whose first placeholder follows `prefix` yields `prefix + id + suffix`,
   whatever `id` and `suffix` contain, placeholders included.
   */
  lemma RowPathSubstitutes(meta: SObjectMetaData, id: string, prefix: string, suffix: string)
    requires Url(meta, RowTemplateKey) == prefix + IdKey + suffix
    requires forall k: nat :: k < |prefix| ==> !OccursAt(prefix + IdKey + suffix, IdKey, k)
    ensures RowPath(meta, id) == prefix + id + suffix
  {
    var template := prefix + IdKey + suffix;
    assert template[|prefix|..|prefix| + |IdKey|] == IdKey;
    assert OccursAt(template, IdKey, |prefix|);
    assert Index(template, IdKey) == Some(|prefix|);
    assert template[..|prefix|] == prefix;
    assert template[|prefix| + |IdKey|..] == suffix;
  }

  /** Later placeholders of the row template are left in the path. */
  lemma RowPathKeepsLaterPlaceholders(meta: SObjectMetaData, id: string, j: nat)
    requires Index(Url(meta, RowTemplateKey), IdKey).Some?
    requires j >= Index(Url(meta, RowTemplateKey), IdKey).value + |IdKey|
    requires OccursAt(Url(meta, RowTemplateKey), IdKey, j)
    ensures OccursAt(RowPath(meta, id), IdKey, j - |IdKey| + |id|)
  {
  }

  /** The list endpoint, also the insert path. */
  function ListPath(meta: SObjectMetaData): (path: string)
    ensures SObjectKey !in meta.urls ==> path == ""
    ensures path != "" ==> SObjectKey in meta.urls && meta.urls[SObjectKey] == path
  {
    Url(meta, SObjectKey)
  }

  /** `list/externalIdField/id`. */
  function ExternalIDPath(meta: SObjectMetaData, externalName: string, id: string): (path: string)
    ensures |path| == |ListPath(meta)| + |externalName| + |id| + 2
    ensures path[..|ListPath(meta)| + 1] == ListPath(meta) + "/"
    ensures path[|path| - |id| - 1..] == "/" + id
  {
    ListPath(meta) + "/" + externalName + "/" + id
  }

  /**
   The external-id path is the list endpoint, then "/", then a remainder that
   reads back as the external-id field name and the id when neither holds "/".
   */
  lemma ExternalIDPathParts(meta: SObjectMetaData, externalName: string, id: string)
    requires '/' !in externalName && '/' !in id
    ensures ExternalIDPath(meta, externalName, id)[..|ListPath(meta)| + 1] == ListPath(meta) + "/"
    ensures Split(ExternalIDPath(meta, externalName, id)[|ListPath(meta)| + 1..], "/") == [externalName, id]
  {
    var path := ExternalIDPath(meta, externalName, id);
    assert Join([externalName, id], "/") == externalName + "/" + id;
    assert path[|ListPath(meta)| + 1..] == externalName + "/" + id;
    SplitJoin([externalName, id], "/");
  }

  /** The `fields` parameter: present only for a non-empty list, holding one comma-joined value. */
  function FieldsQuery(fields: seq<string>): (q: Query)
    ensures q.Keys <= {"fields"}
    ensures "fields" in q <==> |fields| > 0
    ensures "fields" in q ==> |q["fields"]| == 1
  {
    if |fields| > 0 then map["fields" := [Join(fields, ",")]] else map[]
  }

  /** The `fields` value reads back as the list it was built from. */
  lemma FieldsQueryRoundTrip(fields: seq<string>)
    requires |fields| > 0 && FreeOf(fields, ',')
    ensures Split(FieldsQuery(fields)["fields"][0], ",") == fields
  {
    SplitJoin(fields, ",");
  }

  // ---------------------------------------------------------------------------
  // The client

  class API {
    var apiSObjects: map<string, SObjectMetaData>
    var apiSObjectDescriptions: map<string, SObjectDescription>
    /** Every HTTP call made through this client, with its reply. */
    ghost var exchanges: seq<Exchange>

    /** Every cached description belongs to a catalogued type and carries its projection. */
    ghost predicate Valid()
      reads this
    {
      && apiSObjectDescriptions.Keys <= apiSObjects.Keys
      && forall name :: name in apiSObjectDescriptions ==> Projected(apiSObjectDescriptions[name])
    }

    /** A client over a loaded catalog, with an empty description cache. */
    constructor (catalog: map<string, SObjectMetaData>)
      ensures apiSObjects == catalog && apiSObjectDescriptions == map[] && exchanges == []
      ensures Valid()
    {
      apiSObjects := catalog;
      apiSObjectDescriptions := map[];
      exchanges := [];
    }

    // The HTTP verbs. Transport, authentication and decoding are not modelled:
    // each call is logged and its reply is left arbitrary, except that a
    // failure is a transport error.

    /** `Get` decoding into a description. */
    method GetDescription(path: string) returns (r: Result<SObjectDescription>)
      modifies this
      ensures apiSObjects == old(apiSObjects) && apiSObjectDescriptions == old(apiSObjectDescriptions)
      ensures exchanges == old(exchanges) + [Exchange(Request(GET, path, map[], None), Described(r))]
      ensures r.Err? ==> r.error.Transport?
    {
      var failed: bool := *;
      var message: string := *;
      var decoded: SObjectDescription := *;
      r := if failed then Err(Transport(message)) else Ok(decoded);
      exchanges := exchanges + [Exchange(Request(GET, path, map[], None), Described(r))];
    }

    /** `Get` decoding into the caller's record. */
    method Get(path: string, query: Query) returns (r: Result<Values>)
      modifies this
      ensures apiSObjects == old(apiSObjects) && apiSObjectDescriptions == old(apiSObjectDescriptions)
      ensures exchanges == old(exchanges) + [Exchange(Request(GET, path, query, None), Decoded(r))]
      ensures r.Err? ==> r.error.Transport?
    {
      var failed: bool := *;
      var message: string := *;
      var decoded: Values := *;
      r := if failed then Err(Transport(message)) else Ok(decoded);
      exchanges := exchanges + [Exchange(Request(GET, path, query, None), Decoded(r))];
    }

    /** `Post` of a record, decoding the envelope. */
    method Post(path: string, body: SObject) returns (r: Result<SObjectResponse>)
      modifies this
      ensures apiSObjects == old(apiSObjects) && apiSObjectDescriptions == old(apiSObjectDescriptions)
      ensures exchanges == old(exchanges) + [Exchange(Request(POST, path, map[], Some(body)), Responded(r))]
      ensures r.Err? ==> r.error.Transport?
    {
      var failed: bool := *;
      var message: string := *;
      var decoded: SObjectResponse := *;
      r := if failed then Err(Transport(message)) else Ok(decoded);
      exchanges := exchanges + [Exchange(Request(POST, path, map[], Some(body)), Responded(r))];
    }

    /** `Patch` of a record with no response value. */
    method Patch(path: string, body: SObject) returns (r: Outcome)
      modifies this
      ensures apiSObjects == old(apiSObjects) && apiSObjectDescriptions == old(apiSObjectDescriptions)
      ensures exchanges == old(exchanges) + [Exchange(Request(PATCH, path, map[], Some(body)), Completed(r))]
      ensures r.Fail? ==> r.error.Transport?
    {
      var failed: bool := *;
      var message: string := *;
      r := if failed then Fail(Transport(message)) else Pass;
      exchanges := exchanges + [Exchange(Request(PATCH, path, map[], Some(body)), Completed(r))];
    }

    /** `Patch` of a record, decoding the envelope. */
    method PatchForResponse(path: string, body: SObject) returns (r: Result<SObjectResponse>)
      modifies this
      ensures apiSObjects == old(apiSObjects) && apiSObjectDescriptions == old(apiSObjectDescriptions)
      ensures exchanges == old(exchanges) + [Exchange(Request(PATCH, path, map[], Some(body)), Responded(r))]
      ensures r.Err? ==> r.error.Transport?
    {
      var failed: bool := *;
      var message: string := *;
      var decoded: SObjectResponse := *;
      r := if failed then Err(Transport(message)) else Ok(decoded);
      exchanges := exchanges + [Exchange(Request(PATCH, path, map[], Some(body)), Responded(r))];
    }

    /** `Delete`, with no response value. */
    method Delete(path: string) returns (r: Outcome)
      modifies this
      ensures apiSObjects == old(apiSObjects) && apiSObjectDescriptions == old(apiSObjectDescriptions)
      ensures exchanges == old(exchanges) + [Exchange(Request(DELETE, path, map[], None), Completed(r))]
      ensures r.Fail? ==> r.error.Transport?
    {
      var failed: bool := *;
      var message: string := *;
      r := if failed then Fail(Transport(message)) else Pass;
      exchanges := exchanges + [Exchange(Request(DELETE, path, map[], None), Completed(r))];
    }
  }

  // ---------------------------------------------------------------------------
  // Describe

  /**
   A cached description is returned as it is. On a miss the type must be in the
   catalog (which is not refreshed); its description is fetched, its projection
   is built when it has fields, and the result is cached under the type name.
   */
  method DescribeSObject(client: API?, obj: SObject) returns (r: Result<SObjectDescription>)
    modifies client
    ensures client == null ==> r == Err(ClientIsNil)
    ensures client != null ==> client.apiSObjects == old(client.apiSObjects)
    ensures client != null && old(client.Valid()) ==> client.Valid()
    ensures client != null && obj.apiName == "" ==>
      r == Err(MissingAPIName) && unchanged(client)
    ensures client != null && obj.apiName != "" && obj.apiName in old(client.apiSObjectDescriptions) ==>
      r == Ok(old(client.apiSObjectDescriptions)[obj.apiName]) && unchanged(client)
      && (old(client.Valid()) ==> Projected(r.value))
    ensures (client != null && obj.apiName != "" && obj.apiName !in old(client.apiSObjectDescriptions)
             && obj.apiName !in client.apiSObjects) ==>
      r == Err(NoMetadata(obj.apiName)) && unchanged(client)
    ensures (client != null && obj.apiName != "" && obj.apiName !in old(client.apiSObjectDescriptions)
             && obj.apiName in client.apiSObjects) ==>
      var n := |old(client.exchanges)|;
      && |client.exchanges| == n + 1
      && client.exchanges[..n] == old(client.exchanges)
      && client.exchanges[n].request ==
           Request(GET, Url(client.apiSObjects[obj.apiName], SObjectDescribeKey), map[], None)
      && client.exchanges[n].reply.Described?
      && var fetched := client.exchanges[n].reply.description;
      && (fetched.Err? ==>
            fetched.error.Transport? && r == fetched && client.apiSObjectDescriptions == old(client.apiSObjectDescriptions))
      && (fetched.Ok? ==>
            && r.Ok?
            && r.value.name == fetched.value.name
            && r.value.fields == fetched.value.fields
            && r.value.allFields ==
                 (if |fetched.value.fields| > 0 then AllFieldsOf(fetched.value.fields)
                  else fetched.value.allFields)
            && client.apiSObjectDescriptions ==
                 old(client.apiSObjectDescriptions)[obj.apiName := r.value])
  {
    if client == null {
      return Err(ClientIsNil);
    }
    if obj.apiName == "" {
      return Err(MissingAPIName);
    }
    if obj.apiName in client.apiSObjectDescriptions {
      return Ok(client.apiSObjectDescriptions[obj.apiName]);
    }
    if obj.apiName !in client.apiSObjects {
      return Err(NoMetadata(obj.apiName));
    }
    var uri := Url(client.apiSObjects[obj.apiName], SObjectDescribeKey);
    var fetched := client.GetDescription(uri);
    if fetched.Err? {
      return fetched;
    }
    var resp := fetched.value;
    if |resp.fields| > 0 {
      var allFields := BuildAllFields(resp.fields);
      resp := resp.(allFields := allFields);
    }
    client.apiSObjectDescriptions := client.apiSObjectDescriptions[obj.apiName := resp];
    r := Ok(resp);
  }

  /**
   Two describes in a row: once the first has succeeded, the second returns the
   same description and makes no HTTP call; `between` is the call log after the first.
   */
  method DescribeTwice(client: API, obj: SObject)
    returns (first: Result<SObjectDescription>, second: Result<SObjectDescription>, ghost between: seq<Exchange>)
    modifies client
    ensures first.Ok? ==> second == first
    ensures |between| <= |old(client.exchanges)| + 1
    ensures |old(client.exchanges)| <= |between| && between[..|old(client.exchanges)|] == old(client.exchanges)
    ensures first.Ok? ==> client.exchanges == between
  {
    first := DescribeSObject(client, obj);
    between := client.exchanges;
    second := DescribeSObject(client, obj);
  }

  // ---------------------------------------------------------------------------
  // Create, read, update, delete

  /**
   The checks every operation runs before any HTTP call, in order: a nil client,
   an empty type name, a type missing from the catalog. On success, the type's
   catalog entry.
   */
  function Resolve(client: API?, apiName: string): (r: Result<SObjectMetaData>)
    reads client
    ensures r.Ok? <==> client != null && apiName != "" && apiName in client.apiSObjects
    ensures r.Ok? ==> r.value == client.apiSObjects[apiName]
  {
    if client == null then Err(ClientIsNil)
    else if apiName == "" then Err(MissingAPIName)
    else if apiName !in client.apiSObjects then Err(MissingAPISObj(apiName))
    else Ok(client.apiSObjects[apiName])
  }

  /** A nil client wins over every other check, and an empty name over an unknown type. */
  lemma GuardOrder(client: API?, apiName: string)
    ensures client == null ==> Resolve(client, apiName) == Err(ClientIsNil)
    ensures client != null && apiName == "" ==> Resolve(client, apiName) == Err(MissingAPIName)
    ensures Resolve(client, apiName).Err? && client != null && apiName != "" ==>
      Resolve(client, apiName) == Err(MissingAPISObj(apiName))
  {
  }

  /** Reads a record by id into the caller's value, optionally restricted to `fields`. */
  method GetSObject(client: API?, id: string, fields: seq<string>, out: SObject) returns (r: Result<Values>)
    modifies client
    ensures old(Resolve(client, out.apiName)).Err? ==>
      r == Err(old(Resolve(client, out.apiName)).error) && (client != null ==> unchanged(client))
    ensures old(Resolve(client, out.apiName)).Ok? ==>
      && client != null
      && client.apiSObjects == old(client.apiSObjects)
      && client.apiSObjectDescriptions == old(client.apiSObjectDescriptions)
      && client.exchanges == old(client.exchanges) + [Exchange(
           Request(GET, RowPath(old(Resolve(client, out.apiName)).value, id), FieldsQuery(fields), None),
           Decoded(r))]
      && (r.Err? ==> r.error.Transport?)
  {
    var meta := Resolve(client, out.apiName);
    if meta.Err? {
      return Err(meta.error);
    }
    var uri := RowPath(meta.value, id);
    r := client.Get(uri, FieldsQuery(fields));
  }

  /** Creates a record by posting it to the type's list endpoint. */
  method InsertSObject(client: API?, obj: SObject) returns (r: Result<SObjectResponse>)
    modifies client
    ensures old(Resolve(client, obj.apiName)).Err? ==>
      r == Err(old(Resolve(client, obj.apiName)).error) && (client != null ==> unchanged(client))
    ensures old(Resolve(client, obj.apiName)).Ok? ==>
      && client != null
      && client.apiSObjects == old(client.apiSObjects)
      && client.apiSObjectDescriptions == old(client.apiSObjectDescriptions)
      && client.exchanges == old(client.exchanges) + [Exchange(
           Request(POST, ListPath(old(Resolve(client, obj.apiName)).value), map[], Some(obj)),
           Responded(r))]
      && (r.Err? ==> r.error.Transport?)
  {
    var meta := Resolve(client, obj.apiName);
    if meta.Err? {
      return Err(meta.error);
    }
    r := client.Post(ListPath(meta.value), obj);
  }

  /** Updates the record with the given id. */
  method UpdateSObject(client: API?, id: string, obj: SObject) returns (r: Outcome)
    modifies client
    ensures old(Resolve(client, obj.apiName)).Err? ==>
      r == Fail(old(Resolve(client, obj.apiName)).error) && (client != null ==> unchanged(client))
    ensures old(Resolve(client, obj.apiName)).Ok? ==>
      && client != null
      && client.apiSObjects == old(client.apiSObjects)
      && client.apiSObjectDescriptions == old(client.apiSObjectDescriptions)
      && client.exchanges == old(client.exchanges) + [Exchange(
           Request(PATCH, RowPath(old(Resolve(client, obj.apiName)).value, id), map[], Some(obj)),
           Completed(r))]
      && (r.Fail? ==> r.error.Transport?)
  {
    var meta := Resolve(client, obj.apiName);
    if meta.Err? {
      return Fail(meta.error);
    }
    r := client.Patch(RowPath(meta.value, id), obj);
  }

  /** Deletes the record with the given id. */
  method DeleteSObject(client: API?, id: string, obj: SObject) returns (r: Outcome)
    modifies client
    ensures old(Resolve(client, obj.apiName)).Err? ==>
      r == Fail(old(Resolve(client, obj.apiName)).error) && (client != null ==> unchanged(client))
    ensures old(Resolve(client, obj.apiName)).Ok? ==>
      && client != null
      && client.apiSObjects == old(client.apiSObjects)
      && client.apiSObjectDescriptions == old(client.apiSObjectDescriptions)
      && client.exchanges == old(client.exchanges) + [Exchange(
           Request(DELETE, RowPath(old(Resolve(client, obj.apiName)).value, id), map[], None),
           Completed(r))]
      && (r.Fail? ==> r.error.Transport?)
  {
    var meta := Resolve(client, obj.apiName);
    if meta.Err? {
      return Fail(meta.error);
    }
    r := client.Delete(RowPath(meta.value, id));
  }

  /** Reads a record by the value of its external-id field. */
  method GetSObjectByExternalID(client: API?, id: string, fields: seq<string>, out: SObject) returns (r: Result<Values>)
    modifies client
    ensures old(Resolve(client, out.apiName)).Err? ==>
      r == Err(old(Resolve(client, out.apiName)).error) && (client != null ==> unchanged(client))
    ensures old(Resolve(client, out.apiName)).Ok? ==>
      && client != null
      && client.apiSObjects == old(client.apiSObjects)
      && client.apiSObjectDescriptions == old(client.apiSObjectDescriptions)
      && client.exchanges == old(client.exchanges) + [Exchange(
           Request(GET, ExternalIDPath(old(Resolve(client, out.apiName)).value, out.externalIDAPIName, id),
                   FieldsQuery(fields), None),
           Decoded(r))]
      && (r.Err? ==> r.error.Transport?)
  {
    var meta := Resolve(client, out.apiName);
    if meta.Err? {
      return Err(meta.error);
    }
    var uri := ExternalIDPath(meta.value, out.externalIDAPIName, id);
    r := client.Get(uri, FieldsQuery(fields));
  }

  /** Creates or updates the record whose external-id field holds `id`. */
  method UpsertSObjectByExternalID(client: API?, id: string, obj: SObject) returns (r: Result<SObjectResponse>)
    modifies client
    ensures old(Resolve(client, obj.apiName)).Err? ==>
      r == Err(old(Resolve(client, obj.apiName)).error) && (client != null ==> unchanged(client))
    ensures old(Resolve(client, obj.apiName)).Ok? ==>
      && client != null
      && client.apiSObjects == old(client.apiSObjects)
      && client.apiSObjectDescriptions == old(client.apiSObjectDescriptions)
      && client.exchanges == old(client.exchanges) + [Exchange(
           Request(PATCH, ExternalIDPath(old(Resolve(client, obj.apiName)).value, obj.externalIDAPIName, id),
                   map[], Some(obj)),
           Responded(r))]
      && (r.Err? ==> r.error.Transport?)
  {
    var meta := Resolve(client, obj.apiName);
    if meta.Err? {
      return Err(meta.error);
    }
    r := client.PatchForResponse(ExternalIDPath(meta.value, obj.externalIDAPIName, id), obj);
  }

  /** Deletes the record whose external-id field holds `id`. */
  method DeleteSObjectByExternalID(client: API?, id: string, obj: SObject) returns (r: Outcome)
    modifies client
    ensures old(Resolve(client, obj.apiName)).Err? ==>
      r == Fail(old(Resolve(client, obj.apiName)).error) && (client != null ==> unchanged(client))
    ensures old(Resolve(client, obj.apiName)).Ok? ==>
      && client != null
      && client.apiSObjects == old(client.apiSObjects)
      && client.apiSObjectDescriptions == old(client.apiSObjectDescriptions)
      && client.exchanges == old(client.exchanges) + [Exchange(
           Request(DELETE, ExternalIDPath(old(Resolve(client, obj.apiName)).value, obj.externalIDAPIName, id),
                   map[], None),
           Completed(r))]
      && (r.Fail? ==> r.error.Transport?)
  {
    var meta := Resolve(client, obj.apiName);
    if meta.Err? {
      return Fail(meta.error);
    }
    r := client.Delete(ExternalIDPath(meta.value, obj.externalIDAPIName, id));
  }
}
