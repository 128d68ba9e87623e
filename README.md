# Doc Scan session layer: check responses and session specifications

A Dafny model of two small parts of the Yoti Python SDK's Doc Scan session layer:

- **The check response mapper** (`check_response.dfy`, module `CheckResponses`). It turns the
  decoded JSON description of one check into a record with nine fields: `id`, `state`, `type`,
  `resources_used`, `report`, `generated_media`, `created` and `last_updated`, plus the check
  kind. Missing keys take defaults. The report and each media item are wrapped. Dates go through
  an ISO 8601 parser whose `ParseError` is swallowed. The seven subclasses
  (Authenticity, FaceMatch, Liveness, TextData, IDDocumentComparison,
  SupplementaryDocumentTextData, RequestedThirdPartyIdentity) are a `CheckKind` tag on one
  record, and `KindsAgree` proves they build identical fields.
- **The session specification and its builder** (`session_spec.dfy`, module `SessionSpecs`).
  `SessionSpec` is a class whose seven fields are `const`. `SessionSpecBuilder` is a class with
  five mutable scalar fields and two lists. Python lists are mutable objects shared by
  reference, and `build` passes the builder's own lists to the new spec. The model therefore
  keeps each list as a heap object (`ListRef`). An append through the builder after `Build`
  is visible through the built spec (`CheckAddedAfterBuildIsShared`).

Supporting modules:

- `wrappers.dfy`: `Option`, for Python's `None`, and `Result`, for a raised exception.
- `json.dfy`: decoded JSON values, dict lookup with and without a default, and Python's
  iteration over a decoded value.

How Python is represented:

- Python's `None` inside decoded data is `JNull`. `data.get("id", None)` gives `None` both
  when the key is missing and when it holds null. The model's `id`, `state`, `checkType` and
  `resourcesUsed` are raw `Json` values, so those two cases merge exactly as they do in Python.
- A dict is its list of members in insertion order, because Python iterates a dict in that
  order.
- The ISO 8601 parser is a parameter `parse: Json -> DateOutcome<T>`, and `T` is the
  timestamp type it produces.

The mapper is not total: when `generated_media` is present but holds null, a boolean or a
number, the list comprehension at `check_response.py:34-36` raises `TypeError`. `FromData`
therefore returns a `Result`. `NullMediaRaises` shows the null case next to the null `report`, which is
read as absent.

## Model

| member | source | states |
|---|---|---|
| `JsonValues.GetFindsMember` | yoti_python_sdk/doc_scan/session/retrieve/check_response.py:24-27 | `dict.get(key)` is None exactly when no member has that key; otherwise the result is the value of a member under that key |
| `JsonValues.GetOr` | yoti_python_sdk/doc_scan/session/retrieve/check_response.py:24-27 | `dict.get(key, default)` yields the default when no member has the key, and otherwise a value stored under that key |
| `JsonValues.GetSkipsOtherMember` | yoti_python_sdk/doc_scan/session/retrieve/check_response.py:24-39 | a member under a different key, inserted anywhere in a dict, never changes a lookup |
| `JsonValues.Iterate` | yoti_python_sdk/doc_scan/session/retrieve/check_response.py:34-36 | iterating a decoded value raises TypeError exactly for null, booleans and numbers; a list yields its elements, a string its characters and a dict its keys, in order |
| `CheckResponses.ParseDate` | yoti_python_sdk/doc_scan/session/retrieve/check_response.py:41-58 | None gives None; the result is present exactly when the parser succeeds, and it is then the parser's timestamp unchanged; a ParseError becomes None |
| `CheckResponses.FromData` | yoti_python_sdk/doc_scan/session/retrieve/check_response.py:16-39 | fails exactly when `generated_media` is present and not iterable. Otherwise: `id`, `state` and `type` are the raw values or None; `resources_used` is the raw value or `[]`; `report` is absent exactly when the key is missing or null, and otherwise wraps the raw value; `generated_media` has one item per iterated element, in order; the dates are `ParseDate` of their own keys |
| `CheckResponses.EmptyDataGivesDefaults` | yoti_python_sdk/doc_scan/session/retrieve/check_response.py:21-39 | no data, and an empty dict, both give every field at its default: None, `[]` or absent |
| `CheckResponses.OnlyInspectedKeysMatter` | yoti_python_sdk/doc_scan/session/retrieve/check_response.py:24-39 | two inputs that agree on the eight keys the mapper reads give the same outcome |
| `CheckResponses.UnknownMemberIgnored` | yoti_python_sdk/doc_scan/session/retrieve/check_response.py:24-39 | adding a member under any other key, anywhere in the input, leaves the outcome unchanged |
| `CheckResponses.DatesReadOwnKeyOnly` | yoti_python_sdk/doc_scan/session/retrieve/check_response.py:38-39 | `created` depends only on the "created" key, and `last_updated` only on "last_updated" |
| `CheckResponses.MediaKeepsOrder` | yoti_python_sdk/doc_scan/session/retrieve/check_response.py:34-36 | a list of N raw media gives N items, and item i wraps raw element i |
| `CheckResponses.MalformedCreatedIsAbsent` | yoti_python_sdk/doc_scan/session/retrieve/check_response.py:38-58 | a `created` string the parser rejects leaves `created` absent, and construction still succeeds |
| `CheckResponses.AuthenticityScenario` | yoti_python_sdk/doc_scan/session/retrieve/check_response.py:16-39 | the five-key example input yields its three strings, its resource list and the parsed `created`; every other field is at its default |
| `CheckResponses.NullMediaRaises` | yoti_python_sdk/doc_scan/session/retrieve/check_response.py:29-36 | a null `generated_media` raises TypeError, while a null `report` is read as absent |
| `CheckResponses.KindsAgree` | yoti_python_sdk/doc_scan/session/retrieve/check_response.py:141-194 | all eight check classes fail on the same inputs and otherwise build identical fields, apart from the kind tag |
| `SessionSpecs.SessionSpec.constructor` | yoti_python_sdk/doc_scan/session/create/session_spec.py:12-121 | each scalar accessor returns its argument unchanged; a None check or task list becomes a fresh empty list, and two None lists become two distinct objects; a given list is kept as the same object |
| `SessionSpecs.SessionSpec.ToJson` | yoti_python_sdk/doc_scan/session/create/session_spec.py:123-132 | exactly seven keys, each holding the matching accessor's value; the lists are the spec's own list objects |
| `SessionSpecs.SessionSpecBuilder.constructor` | yoti_python_sdk/doc_scan/session/create/session_spec.py:140-147 | a new builder has all five scalar fields None and two new, distinct, empty lists |
| `SessionSpecs.SessionSpecBuilder.WithClientSessionTokenTtl` | yoti_python_sdk/doc_scan/session/create/session_spec.py:149-159 | sets only the client session token TTL, leaves every other value unchanged, and returns the same builder |
| `SessionSpecs.SessionSpecBuilder.WithResourcesTtl` | yoti_python_sdk/doc_scan/session/create/session_spec.py:161-171 | sets only the resources TTL, leaves every other value unchanged, and returns the same builder |
| `SessionSpecs.SessionSpecBuilder.WithUserTrackingId` | yoti_python_sdk/doc_scan/session/create/session_spec.py:173-183 | sets only the user tracking ID, leaves every other value unchanged, and returns the same builder |
| `SessionSpecs.SessionSpecBuilder.WithNotifications` | yoti_python_sdk/doc_scan/session/create/session_spec.py:185-195 | sets only the notification config, leaves every other value unchanged, and returns the same builder |
| `SessionSpecs.SessionSpecBuilder.WithRequestedCheck` | yoti_python_sdk/doc_scan/session/create/session_spec.py:197-207 | appends the check at the end of the check list in place; earlier checks keep their order; tasks and scalars are unchanged; returns the same builder |
| `SessionSpecs.SessionSpecBuilder.WithRequestedTask` | yoti_python_sdk/doc_scan/session/create/session_spec.py:209-219 | appends the task at the end of the task list in place; the check list and the scalars are unchanged; returns the same builder |
| `SessionSpecs.SessionSpecBuilder.WithSdkConfig` | yoti_python_sdk/doc_scan/session/create/session_spec.py:221-231 | sets only the SDK config, leaves every other value unchanged, and returns the same builder |
| `SessionSpecs.SessionSpecBuilder.Build` | yoti_python_sdk/doc_scan/session/create/session_spec.py:233-248 | a new spec whose seven values equal the builder's current ones, holding the builder's own two list objects |
| `SessionSpecs.CheckAddedAfterBuildIsShared` | yoti_python_sdk/doc_scan/session/create/session_spec.py:197-248 | a check appended through the builder after `Build` appears in the spec that was already built |
| `SessionSpecs.LastWriteWins` | yoti_python_sdk/doc_scan/session/create/session_spec.py:149-159 | after two writes to the token TTL, the built spec holds the second value and defaults everywhere else |

## Left out

- The internals of the `iso8601` library's `parse_date` are not part of this model. The
  parser is the parameter `parse`, which either returns a timestamp or fails with a
  `ParseError`. If the parser raised some other exception, Python would propagate it; the
  model does not cover that case.
- `datetime` and time zones: a timestamp is the type parameter `T`.
- `ReportResponse` and `GeneratedMedia` are not part of this model. Both are total
  constructors, and the model keeps only the raw value each was given.
- Serialising the nested objects of a spec (`YotiSerializable`, `NotificationConfig`,
  `SdkConfig`, `RequestedCheck`, `RequestedTask`) is not part of this model. Those four are
  opaque types, and `ToJson` returns the dict before serialisation.
- `ToJson` returns a Dafny map, which has no key order. The dict literal's insertion order is
  not modelled, and it has no meaning in JSON.
- Python accepts a value of any type in the spec's constructor and the builder's setters. The
  model types the TTLs as optional integers and the tracking ID as an optional string, as the
  docstrings document them.
- Python raises `AttributeError` if `data` is neither a dict nor None. The model's input type
  rules that case out.
- JSON numbers are `real` values, which the mapper only carries. Python's float rounding is
  not modelled.
- A member list that repeats a key is not a Python dict. For such a list, `Get` returns the
  first member, and the model makes no claim about matching Python.
- Python accessors and docstrings: the fields of the Dafny datatype and the `const` fields of
  the class play the accessors' role.
