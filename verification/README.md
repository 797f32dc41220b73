# Dynamic lead fields, modelled in Dafny

This project models the `dynamicLeadFields` Lightning web component. The component shows
the "partner fields" of a sales lead. The wire service delivers a key→value map of
fields. The component turns every entry into a render record `{label, value, isText,
isNumber, isDate}`. It shows the first four records and keeps the rest in an expandable
"extra" section.

- `Wrappers.dfy`: `Option`, for a value that may be `undefined`.
- `PartnerFields.dfy`: the pure part. A field value (`Value`: a string or an opaque
  non-string) and the two parse helpers `isNumber`/`isDate` (`Parsers`). The record built
  for one entry (`ToRecord`). The transform of the whole map (`Transform`). Lemmas on
  order, on labels and values being copied, and on how the three flags relate.
- `LeadFieldsComponent.dfy`: the stateful part. `View` is the five component fields as
  one value. `InitializeVisibility`, `Toggle` and `Wired` say what each handler does to
  it. The class `DynamicLeadFields` has the same fields, and its methods assign them as
  the component does. Each method's postcondition ties the new state to the matching
  function of the old state. The lemmas state the head/overflow split, what a toggle
  changes, and what a data or error arrival leaves behind.

The field map is a sequence of `(key, value)` pairs in `Object.entries` order. The
component never orders the entries itself, so the model takes that order as given.

`isNumber` and `isDate` depend on `parseFloat`, `isFinite` and `Date.parse`. These are
kept uninterpreted: a `Parsers` value carries one predicate on values (numeric) and one
on strings (date parses). The only thing the model fixes is the `typeof value ===
'string'` guard of `isDate`, so a non-string is never a date. Nothing makes the number
and date flags exclude each other. A value both parsers accept, such as a bare year
`"2023"`, gets both flags and is then not text (`NumberAndDateOverlap`).

Two behaviours of the component follow from the code and are proved as lemmas:
- Data arriving while `isExpanded` is set re-splits the fields but leaves `isExpanded`
  set. `visibleFields` then holds only the head while `isExpanded` is set. The next
  toggle clears `isExpanded` and leaves `visibleFields` as it is
  (`RefreshWhileExpanded`).
- An error arriving without data empties `partnerFields` but leaves `visibleFields` and
  `extraFields` as they were. The next toggle empties `visibleFields`; `extraFields`
  stays as it was until the next data arrival (`ErrorKeepsShownFields`).

The component keeps every map entry and uses the key as the label. It has no phone
reformatting and no dependency groups.

## Model

| member | source | states |
|---|---|---|
| `PartnerFields.Parsers.IsNumber` | force-app/main/default/lwc/dynamicLeadFields/dynamicLeadFields.js:66-68 | the uninterpreted numeric parser decides, for strings and non-strings alike; nothing else is fixed |
| `PartnerFields.Parsers.IsDate` | force-app/main/default/lwc/dynamicLeadFields/dynamicLeadFields.js:71-74 | only a string can be a date; for a string, the date parser decides |
| `PartnerFields.ToRecord` | force-app/main/default/lwc/dynamicLeadFields/dynamicLeadFields.js:55-61 | label is the key and value the entry's value; isText holds iff the value is a string with neither other flag; isText excludes isNumber and isDate; a non-string is neither text nor a date |
| `PartnerFields.Transform` | force-app/main/default/lwc/dynamicLeadFields/dynamicLeadFields.js:53-62 | exactly one record per map entry |
| `PartnerFields.TransformAt` | force-app/main/default/lwc/dynamicLeadFields/dynamicLeadFields.js:54-61 | the i-th record is the record of the i-th entry: entry order kept, label and value copied |
| `PartnerFields.TransformAppend` | force-app/main/default/lwc/dynamicLeadFields/dynamicLeadFields.js:54 | transforming a concatenation concatenates the transforms: no sorting, merging or dropping |
| `PartnerFields.TransformFlags` | force-app/main/default/lwc/dynamicLeadFields/dynamicLeadFields.js:58-60 | every produced record has isText exclusive of the other flags, and non-strings neither text nor date |
| `PartnerFields.TransformLabelsDistinct` | force-app/main/default/lwc/dynamicLeadFields/dynamicLeadFields.js:54-56 | distinct keys give records with distinct labels |
| `PartnerFields.NumberAndDateOverlap` | force-app/main/default/lwc/dynamicLeadFields/dynamicLeadFields.js:58-60 | a value both parsers accept is flagged as number and as date, is a string, and is not text |
| `LeadFieldsComponent.Head` | force-app/main/default/lwc/dynamicLeadFields/dynamicLeadFields.js:26 | `slice(0, 4)` is a prefix of length min(4, n) |
| `LeadFieldsComponent.Tail` | force-app/main/default/lwc/dynamicLeadFields/dynamicLeadFields.js:27 | `slice(4)` is what follows the head; it is non-empty iff there are more than 4 fields |
| `LeadFieldsComponent.Initial` | force-app/main/default/lwc/dynamicLeadFields/dynamicLeadFields.js:6-10 | the component starts with no fields, collapsed, without error |
| `LeadFieldsComponent.InitializeVisibility` | force-app/main/default/lwc/dynamicLeadFields/dynamicLeadFields.js:25-28 | visible ++ extra == partnerFields, visible has min(4, n) records; partnerFields, isExpanded and error untouched |
| `LeadFieldsComponent.Toggle` | force-app/main/default/lwc/dynamicLeadFields/dynamicLeadFields.js:31-45 | isExpanded negated; visible is all fields when expanded, the head when collapsed; partnerFields, extraFields and error untouched |
| `LeadFieldsComponent.Wired` | force-app/main/default/lwc/dynamicLeadFields/dynamicLeadFields.js:14-23 | on data: error cleared, fields = transform of data.fields, split into head and overflow; on error alone: no fields and error stored; neither: no change; isExpanded never changed |
| `LeadFieldsComponent.ToggleTwice` | force-app/main/default/lwc/dynamicLeadFields/dynamicLeadFields.js:34-44 | two toggles restore isExpanded; a toggle leaves the shown fields agreeing with the flag; two toggles restore the whole state iff it already agreed |
| `LeadFieldsComponent.ToggleAfterSplit` | force-app/main/default/lwc/dynamicLeadFields/dynamicLeadFields.js:38-44 | after a split, expanding shows head then overflow; collapsing shows the head, which with the overflow makes up all fields |
| `LeadFieldsComponent.HasMoreIffExtra` | force-app/main/default/lwc/dynamicLeadFields/dynamicLeadFields.js:85-87 | after a split, hasMoreFields holds iff the overflow is non-empty |
| `LeadFieldsComponent.WiredDataInOrder` | force-app/main/default/lwc/dynamicLeadFields/dynamicLeadFields.js:15-18 | after data, visible holds the first entries and extra the ones from the fifth on, in entry order with labels and values copied; hasMoreFields iff extra non-empty |
| `LeadFieldsComponent.RefreshWhileExpanded` | force-app/main/default/lwc/dynamicLeadFields/dynamicLeadFields.js:15-18 | data with more than 4 fields arriving while expanded leaves isExpanded set with only the head in visibleFields; the next toggle clears isExpanded and keeps visibleFields |
| `LeadFieldsComponent.ErrorKeepsShownFields` | force-app/main/default/lwc/dynamicLeadFields/dynamicLeadFields.js:19-22 | an error alone empties partnerFields and stores the error but keeps visibleFields and extraFields; the next toggle empties visibleFields and still keeps extraFields |
| `LeadFieldsComponent.TestScenarios` | force-app/main/default/lwc/dynamicLeadFields/__tests__/dynamicLeadFields.test.js:25-67 | a two-entry map shows baujahr then personenzahl with nothing to expand; a failed fetch leaves no fields and the error |
| `LeadFieldsComponent.DynamicLeadFields.constructor` | force-app/main/default/lwc/dynamicLeadFields/dynamicLeadFields.js:6-10 | the new component's state is `Initial()` |
| `LeadFieldsComponent.DynamicLeadFields.WiredPartnerFields` | force-app/main/default/lwc/dynamicLeadFields/dynamicLeadFields.js:14-23 | the new state is `Wired` of the old state and the arrival; isExpanded unchanged |
| `LeadFieldsComponent.DynamicLeadFields.InitializeFieldVisibility` | force-app/main/default/lwc/dynamicLeadFields/dynamicLeadFields.js:25-28 | the new state is `InitializeVisibility` of the old; visible ++ extra == partnerFields and at most 4 visible |
| `LeadFieldsComponent.DynamicLeadFields.ToggleExtraFields` | force-app/main/default/lwc/dynamicLeadFields/dynamicLeadFields.js:31-45 | the new state is `Toggle` of the old; flag negated; partnerFields, extraFields and error unchanged |
| `LeadFieldsComponent.DynamicLeadFields.HasMoreFields` | force-app/main/default/lwc/dynamicLeadFields/dynamicLeadFields.js:85-87 | equals `HasMore` of the current state; true iff the fields overflow the head; when extraFields is the overflow, iff extraFields is non-empty |

## Left out

- The Apex call `getPartnerFields` and the `@wire` plumbing: a data or error arrival is a method argument. An absent or falsy `data`/`error` is `None`.
- `data.fields` that is not an object: `Object.entries` would throw on `undefined` or `null`. The model's payload always carries an entry sequence.
- The internals of `parseFloat`, `isFinite` and `Date.parse` (floating point and library date parsing): uninterpreted predicates in `Parsers`.
- Non-string values are opaque tokens. Their JavaScript type matters only to the numeric parser, which is uninterpreted.
- `console.log` calls and `signalDuplicate`, which only logs.
- The CSS-class getters `arrowClasses` and `computedSectionClass`, which are presentation only.
- The `recordId` property: it only parameterises the wire call.
- Shared record objects: `slice` and the spread `[...this.partnerFields]` give fresh array copies, but the record objects inside them are shared by reference. Sequence values do not capture that sharing. The component never mutates the records.
- The `oppRabatt` and `opportunityFlowTrigger` components: record-update forms and remote workflow calls with no logic of their own.
