# go-force SObjects, modelled in Dafny

This project models the SObject layer of the go-force client for the Salesforce REST API, found in `force/sobjects.go`. It covers two parts.

- **Description cache.** `DescribeSObject` returns a cached type description when one exists. On a miss it looks the type up in the already-loaded catalog (`apiSObjects`). It then fetches the describe endpoint, builds the comma-separated `AllFields` projection used for `SELECT *`-style queries, and stores the result in `apiSObjectDescriptions`.
- **CRUD dispatch.** `GetSObject`, `InsertSObject`, `UpdateSObject`, `DeleteSObject`, `GetSObjectByExternalID`, `UpsertSObjectByExternalID` and `DeleteSObjectByExternalID` each run the same three checks in the same order: nil client, empty `APIName`, type missing from the catalog. Each then builds a path and makes one HTTP call:
  - the row template with its first `idKey` placeholder replaced by the id; or
  - `list/externalIdField/id` for the external-id operations.

  The get operations also send an optional comma-joined `fields` parameter.

Files:

- `wrappers.dfy`: `Option`.
- `strings.dfy` (module `Strings`): the string operations the paths use.
  - `Index` is the leftmost-occurrence search.
  - `ReplaceFirst` is `strings.Replace` with n = 1.
  - `Join` is `strings.Join`.
  - `Split` is the inverse of `Join`. Only the round-trip lemmas use it.
- `sobjects.dfy` (module `SObjects`) holds the rest:
  - the records, the catalog entries and the descriptions;
  - the projection as the loop builds it (`AllFieldsOf`), with lemmas about it;
  - the path and query builders;
  - the guard `Resolve`;
  - the class `API`, whose fields are the two maps plus a ghost log of HTTP exchanges;
  - the eight operations.

The operations are module-level methods that take an `API?`, because the Go methods check for a nil receiver. The HTTP verbs are methods of `API`. Each one appends the request and its reply to the log, and the reply is arbitrary except that a failure is a transport error. "Calls no HTTP verb" therefore means that the log is unchanged.

Two behaviours of the code worth stating up front:

- A type missing from the catalog fails at once. Neither `DescribeSObject` nor the CRUD operations refresh the catalog (force/sobjects.go:45-49, 91-94).
- The comment at force/sobjects.go:59-60 calls the projection a comma-separated string of all field names for `SELECT *` queries. The loop writes `", "` before every kept field except the one at position 0 of the full list. So when field 0 is a `location` field and a later field is kept, the projection starts with `", "`, which such a query cannot use (see Findings).

## Model

| member | source | states |
|---|---|---|
| `Strings.IndexFrom` | force/sobjects.go:95 | the result is the leftmost occurrence of the pattern at or after the start index, or none when there is no such occurrence |
| `Strings.Index` | force/sobjects.go:139 | `strings.Index`: the result is the leftmost occurrence with none before it, none exactly when the pattern never occurs, and 0 for the empty pattern |
| `Strings.ReplaceFirst` | force/sobjects.go:158 | replace with n = 1: with no occurrence the string is unchanged; otherwise only the leftmost occurrence is replaced, the text before it holds no occurrence and is kept, and the text after it is kept whatever the replacement holds |
| `Strings.LaterOccurrencesSurvive` | force/sobjects.go:95 | every occurrence after the first survives the replacement, shifted by the change in length |
| `Strings.Join` | force/sobjects.go:99 | `strings.Join`: no parts give the empty string, and otherwise the result starts with the first part |
| `Strings.SplitJoin` | force/sobjects.go:99 | splitting a join at its separator gives back the parts, when no part contains the separator's first character |
| `SObjects.AllFieldsOf` | force/sobjects.go:64-72 | the projection as the loop builds it: empty when no field is kept; it starts with the name of field 0 when that field is kept, and with ", " when field 0 is a `location` field and a later field is kept |
| `SObjects.KeptNamesMembers` | force/sobjects.go:64-72 | a name is among the kept names if and only if some field of a type other than `location` carries it |
| `SObjects.AllFieldsShape` | force/sobjects.go:64-72 | the projection is the kept names, in order, joined with ", ". One extra leading ", " appears exactly when field 0 is a `location` field and a later field is kept |
| `SObjects.AllFieldsNames` | force/sobjects.go:61-75 | read back as a ", "-separated list, the projection is exactly the kept names in declaration order, preceded by one empty entry when there is a leading separator |
| `SObjects.AllFieldsMatchesIntended` | force/sobjects.go:66-70 | the projection as written equals the intended join if and only if there is no leading separator |
| `SObjects.LeadingSeparatorExample` | force/sobjects.go:67 | for fields [Geo__c: location, Id: id] the projection is ", Id", while the intended one is "Id" |
| `SObjects.IntendedAllFieldsNames` | force/sobjects.go:59-60 | the intended projection reads back as exactly the kept names |
| `SObjects.BuildAllFields` | force/sobjects.go:63-74 | the loop over the fields, with the separator guard `index > 0 && index < length`, produces the projection `AllFieldsOf` |
| `SObjects.Url` | force/sobjects.go:51 | a catalog URL lookup: a missing key reads as the empty string, and a non-empty result is the URL stored under the key |
| `SObjects.RowPath` | force/sobjects.go:139-140 | a row template without the id placeholder is used unchanged as the path |
| `SObjects.RowPathSubstitutes` | force/sobjects.go:95-96 | a template whose first placeholder follows `prefix` gives `prefix + id + suffix`, for any id and suffix, even ones that contain the placeholder |
| `SObjects.RowPathKeepsLaterPlaceholders` | force/sobjects.go:158-159 | placeholders after the first one stay in the row path |
| `SObjects.ListPath` | force/sobjects.go:119 | the list URL of the type: empty when the catalog entry has no list URL, and a non-empty list path is the URL stored under the list key |
| `SObjects.ExternalIDPath` | force/sobjects.go:177-178 | `list/externalIdField/id`: it starts with the list URL and "/", ends with "/" and the id, and is two characters longer than its three parts |
| `SObjects.ExternalIDPathParts` | force/sobjects.go:177-178 | the external-id path is the list URL, "/", then a remainder that splits into the external-id field name and the id when neither holds "/" |
| `SObjects.FieldsQuery` | force/sobjects.go:97-100 | the query has only the key `fields`, present if and only if the list is non-empty, with exactly one value |
| `SObjects.FieldsQueryRoundTrip` | force/sobjects.go:180-183 | the `fields` value splits at "," back into the requested names, when no name contains "," |
| `SObjects.API.GetDescription` | force/sobjects.go:54 | logs a GET of the describe path with no parameters; a failure is a transport error; both maps are unchanged |
| `SObjects.API.Get` | force/sobjects.go:102 | logs a GET of the path with its query; a failure is a transport error; both maps are unchanged |
| `SObjects.API.Post` | force/sobjects.go:122 | logs a POST of the record; a failure is a transport error; both maps are unchanged |
| `SObjects.API.Patch` | force/sobjects.go:141 | logs a PATCH of the record with no response value; a failure is a transport error; both maps are unchanged |
| `SObjects.API.PatchForResponse` | force/sobjects.go:206 | logs a PATCH of the record that decodes an envelope; a failure is a transport error; both maps are unchanged |
| `SObjects.API.Delete` | force/sobjects.go:160 | logs a DELETE of the path; a failure is a transport error; both maps are unchanged |
| `SObjects.DescribeSObject` | force/sobjects.go:34-81 | nil client or empty name gives an error with nothing changed. A cache hit returns the stored description with no HTTP call and nothing changed; under the cache invariant `Valid`, that description carries the projection of its fields. A catalog miss gives `NoMetadata` with no call. Otherwise there is exactly one GET of the describe URL: on failure the transport error is returned as it is and the cache is unchanged; on success the fetched description gets the projection when it has fields (otherwise its decoded `AllFields` is kept) and is stored under the type name, with every other key unchanged. The catalog is never changed, and the cache invariant `Valid` is preserved |
| `SObjects.DescribeTwice` | force/sobjects.go:42-43 | after a successful describe, a second describe of the same type returns the same description and makes no HTTP call; the first keeps the earlier call log as a prefix and adds at most one call to it |
| `SObjects.Resolve` | force/sobjects.go:85-94 | the guard succeeds if and only if the client is non-nil, the name is non-empty and the type is in the catalog, yielding its catalog entry |
| `SObjects.GuardOrder` | force/sobjects.go:109-118 | the guard reports a nil client first, then an empty name, then an unknown type |
| `SObjects.GetSObject` | force/sobjects.go:84-105 | on a failed guard, returns its error with no call and no state change; otherwise exactly one GET of the row path with the `fields` query, the maps are unchanged, and a failure is the transport error |
| `SObjects.InsertSObject` | force/sobjects.go:108-125 | on a failed guard, returns its error with no call and no state change; otherwise exactly one POST of the record to the list URL, returning the envelope or the transport error |
| `SObjects.UpdateSObject` | force/sobjects.go:128-144 | on a failed guard, returns its error with no call and no state change; otherwise exactly one PATCH of the record to the row path, and a failure is the transport error |
| `SObjects.DeleteSObject` | force/sobjects.go:147-163 | on a failed guard, returns its error with no call and no state change; otherwise exactly one DELETE of the row path, and a failure is the transport error |
| `SObjects.GetSObjectByExternalID` | force/sobjects.go:166-188 | on a failed guard, returns its error with no call and no state change; otherwise exactly one GET of `list/externalIdField/id` with the `fields` query, and a failure is the transport error |
| `SObjects.UpsertSObjectByExternalID` | force/sobjects.go:191-209 | on a failed guard, returns its error with no call and no state change; otherwise exactly one PATCH of the record to `list/externalIdField/id`, returning the envelope or the transport error |
| `SObjects.DeleteSObjectByExternalID` | force/sobjects.go:212-229 | on a failed guard, returns its error with no call and no state change; otherwise exactly one DELETE of `list/externalIdField/id`, and a failure is the transport error |

## Findings

| source | as written | input that shows it | evidently intended | confidence | as-written member | corrected member |
|---|---|---|---|---|---|---|
| force/sobjects.go:67 | the separator is written when the field's position in the full list is above 0 | fields [Geo__c: location, Id: id] give ", Id" | a separator only between two written names, giving "Id" | high; not executed | `SObjects.LeadingSeparatorExample` | `SObjects.IntendedAllFieldsNames` |

`AllFieldsMatchesIntended` shows that the two projections differ exactly on these inputs. `DescribeSObject` and `BuildAllFields` model the code, so they keep the as-written projection. `IntendedAllFields` is the corrected definition.

## Left out

- The catalog fetch (`DescribeSObjects`, `getAPISObjects`, force/sobjects.go:25-31) is left out. It is I/O whose code is not part of this model. The catalog is the constructor's argument and is never changed.
- HTTP transport, authentication and base URL are left out. The verbs log the call and return an arbitrary reply. Wire behaviour and remote state (for example, a record that cannot be read after it is deleted) are not modelled.
- JSON and `force:` tag (de)serialisation is left out (force/sobjects.go:18-22), as is encoding `url.Values` as a query string. Records carry their field values as a map, and a successful reply is the already-decoded value.
- GetSObject and GetSObjectByExternalID return the decoded field values instead of decoding into the caller's `out` in place. A decode that merges into existing fields is not captured.
- DescribeSObject, InsertSObject and UpsertSObjectByExternalID return only the error when the HTTP call fails. Go also returns a non-nil, possibly partly decoded response pointer in that case.
- DescribeSObject returns the cached description as a value. Go returns the cached pointer itself, so aliasing (a caller changing a shared cached description) is not captured.
- Strings.Join: its own contract states only the empty case and that the result starts with the first part. The full layout of parts and separators is stated by `JoinAppend` and by the round trip `SplitJoin`; a suffix clause on `Join` itself made the proofs that unfold it too costly.
- The values of `idKey`, `rowTemplateKey`, `sObjectKey` and `sObjectDescribeKey` are defined outside force/sobjects.go. They are arbitrary non-empty constants here.
- Descriptions keep only name, fields and `AllFields`. Fields keep only name and type. Catalog entries keep only name and URLs. API errors in the envelope are plain strings. Nothing else in these records affects the modelled logic.
- A nil `apiSObjectDescriptions` map (a panic on store in Go) is not modelled; the class always holds a map.
- Concurrent use of the two unsynchronised maps is left out; the model is single-threaded.
- Go strings are byte sequences. Here they are character sequences, which gives the same results for the ASCII names and paths involved.
- force/sobjects_test.go and force/query_test.go exercise a live server and are not modelled.
