/** The stateful half of the lead-field component: which fields are shown, whether the
    extra section is expanded, and how a data or error arrival from the wire service
    changes that. */
module LeadFieldsComponent {
  import opened Wrappers
  import opened PartnerFields

  /** How many fields the collapsed section shows (`slice(0, 4)`). */
  const VisibleCount: nat := 4

  /** `fields.slice(0, 4)`: the leading fields, at most four of them. */
  function Head(fields: seq<FieldRecord>): (r: seq<FieldRecord>)
    ensures |r| == if |fields| < VisibleCount then |fields| else VisibleCount
    ensures r <= fields
  {
    if |fields| <= VisibleCount then fields else fields[..VisibleCount]
  }

  /** `fields.slice(4)`: the overflow after the leading fields. */
  function Tail(fields: seq<FieldRecord>): (r: seq<FieldRecord>)
    ensures Head(fields) + r == fields
    ensures r != [] <==> |fields| > VisibleCount
  {
    if |fields| <= VisibleCount then [] else fields[VisibleCount..]
  }

  /** The error handed over by the wire service. */
  datatype FetchError = FetchError(message: string)

  /** The payload of a successful fetch; `fields` is the field map, in
      `Object.entries` order. */
  datatype Payload = Payload(fields: seq<Entry>)

  /** The component's fields at one moment: `partnerFields`, `visibleFields`,
      `extraFields`, `isExpanded` and `error` (`None` for `undefined`). */
  datatype View = View(
    partnerFields: seq<FieldRecord>,
    visibleFields: seq<FieldRecord>,
    extraFields: seq<FieldRecord>,
    isExpanded: bool,
    error: Option<FetchError>)

  /** The field initialisers: no fields, collapsed, no error. */
  function Initial(): (r: View)
    ensures r.partnerFields == r.visibleFields == r.extraFields == []
    ensures !r.isExpanded && r.error == None
  {
    View([], [], [], false, None)
  }

  /** `initializeFieldVisibility`: split the fields into the shown head and the overflow. */
  function InitializeVisibility(v: View): (r: View)
    ensures r.visibleFields + r.extraFields == r.partnerFields
    ensures |r.visibleFields| == if |r.partnerFields| < VisibleCount then |r.partnerFields| else VisibleCount
    ensures r.partnerFields == v.partnerFields && r.isExpanded == v.isExpanded && r.error == v.error
  {
    v.(visibleFields := Head(v.partnerFields), extraFields := Tail(v.partnerFields))
  }

  /** `toggleExtraFields`: flip the expanded flag and show everything or only the head. */
  function Toggle(v: View): (r: View)
    ensures r.isExpanded == !v.isExpanded
    ensures r.partnerFields == v.partnerFields && r.extraFields == v.extraFields && r.error == v.error
    ensures r.isExpanded ==> r.visibleFields == r.partnerFields
    ensures !r.isExpanded ==> r.visibleFields == Head(r.partnerFields)
  {
    var expanded := !v.isExpanded;
    v.(isExpanded := expanded, visibleFields := if expanded then v.partnerFields else Head(v.partnerFields))
  }

  /** `hasMoreFields`: there are more fields than the collapsed section shows. */
  predicate HasMore(v: View) {
    |v.partnerFields| > VisibleCount
  }

  /** `wiredPartnerFields`: data wins over an error; with neither, nothing changes. */
  function Wired(p: Parsers, v: View, error: Option<FetchError>, data: Option<Payload>): (r: View)
    ensures r.isExpanded == v.isExpanded
    ensures data.Some? ==>
      && r.error == None
      && r.partnerFields == Transform(p, data.value.fields)
      && r.visibleFields == Head(r.partnerFields)
      && r.extraFields == Tail(r.partnerFields)
    ensures data.None? && error.Some? ==>
      r == v.(partnerFields := [], error := error)
    ensures data.None? && error.None? ==> r == v
  {
    match data
    case Some(d) => InitializeVisibility(v.(error := None, partnerFields := Transform(p, d.fields)))
    case None => if error.Some? then v.(partnerFields := [], error := error) else v
  }

  /** The shown fields agree with the expanded flag: all of them when expanded, the head
      when collapsed. */
  predicate ShowsPerFlag(v: View) {
    v.visibleFields == if v.isExpanded then v.partnerFields else Head(v.partnerFields)
  }

  /** Toggling twice restores the flag, and the whole state when the shown fields agreed
      with the flag. */
  lemma ToggleTwice(v: View)
    ensures Toggle(Toggle(v)).isExpanded == v.isExpanded
    ensures ShowsPerFlag(Toggle(v))
    ensures ShowsPerFlag(v) <==> Toggle(Toggle(v)) == v
  {
  }

  /** After a split, expanding shows the head followed by the overflow, and collapsing
      shows exactly what `initializeFieldVisibility` showed. */
  lemma ToggleAfterSplit(v: View)
    requires v.extraFields == Tail(v.partnerFields)
    ensures Toggle(v).isExpanded ==>
      Toggle(v).visibleFields == Head(v.partnerFields) + Toggle(v).extraFields
    ensures !Toggle(v).isExpanded ==>
      Toggle(v).visibleFields + Toggle(v).extraFields == Toggle(v).partnerFields
  {
  }

  /** Right after a split, there are more fields exactly when the overflow is non-empty. */
  lemma HasMoreIffExtra(v: View)
    requires v.extraFields == Tail(v.partnerFields)
    ensures HasMore(v) <==> v.extraFields != []
  {
  }

  /** After data arrives, the shown fields are the first (at most four) map entries and
      the overflow the rest, both in entry order with labels and values copied. */
  lemma {:induction false} WiredDataInOrder(p: Parsers, v: View, error: Option<FetchError>, d: Payload)
    ensures var r := Wired(p, v, error, Some(d));
      && |r.visibleFields| + |r.extraFields| == |d.fields|
      && (forall i :: 0 <= i < |r.visibleFields| ==>
            r.visibleFields[i].fieldLabel == d.fields[i].0 && r.visibleFields[i].value == d.fields[i].1)
      && (forall j :: 0 <= j < |r.extraFields| ==>
            r.extraFields[j].fieldLabel == d.fields[VisibleCount + j].0
            && r.extraFields[j].value == d.fields[VisibleCount + j].1)
      && (HasMore(r) <==> r.extraFields != [])
  {
    var r := Wired(p, v, error, Some(d));
    var all := Transform(p, d.fields);
    assert r.visibleFields + r.extraFields == all;
    forall i | 0 <= i < |r.visibleFields|
      ensures r.visibleFields[i].fieldLabel == d.fields[i].0 && r.visibleFields[i].value == d.fields[i].1
    {
      assert r.visibleFields[i] == all[i];
      TransformAt(p, d.fields, i);
    }
    forall j | 0 <= j < |r.extraFields|
      ensures r.extraFields[j].fieldLabel == d.fields[VisibleCount + j].0
      ensures r.extraFields[j].value == d.fields[VisibleCount + j].1
    {
      assert |r.visibleFields| == VisibleCount;
      assert r.extraFields[j] == all[VisibleCount + j];
      TransformAt(p, d.fields, VisibleCount + j);
    }
  }

  /** Data arriving while `isExpanded` is set re-splits the fields but keeps the flag:
      `visibleFields` then holds only the head although `isExpanded` is set, and the next
      toggle clears the flag and leaves `visibleFields` as it is. */
  lemma RefreshWhileExpanded(p: Parsers, v: View, error: Option<FetchError>, d: Payload)
    requires v.isExpanded && |d.fields| > VisibleCount
    ensures var r := Wired(p, v, error, Some(d));
      r.isExpanded && r.visibleFields != r.partnerFields && !ShowsPerFlag(r)
      && !Toggle(r).isExpanded && Toggle(r).visibleFields == r.visibleFields
  {
  }

  /** An error with no data empties `partnerFields` but leaves `visibleFields` and
      `extraFields` as they were; the next toggle empties `visibleFields`, while
      `extraFields` stays as it was until the next data arrival. */
  lemma ErrorKeepsShownFields(p: Parsers, v: View, e: FetchError)
    ensures var r := Wired(p, v, Some(e), None);
      && r.partnerFields == [] && r.error == Some(e) && !HasMore(r)
      && r.visibleFields == v.visibleFields && r.extraFields == v.extraFields
      && Toggle(r).visibleFields == [] && Toggle(r).extraFields == v.extraFields
  {
  }

  /** The component in the browser: the `View` fields plus the two parsers standing in
      for the `isNumber` and `isDate` helpers. */
  class DynamicLeadFields {
    const parsers: Parsers
    var partnerFields: seq<FieldRecord>
    var visibleFields: seq<FieldRecord>
    var extraFields: seq<FieldRecord>
    var isExpanded: bool
    var error: Option<FetchError>

    /** The current state as a value. */
    function Snapshot(): (v: View)
      reads this
    {
      View(partnerFields, visibleFields, extraFields, isExpanded, error)
    }

    constructor (parsers: Parsers)
      ensures this.parsers == parsers && Snapshot() == Initial()
    {
      this.parsers := parsers;
      partnerFields := [];
      visibleFields := [];
      extraFields := [];
      isExpanded := false;
      error := None;
    }

    /** `wiredPartnerFields({error, data})`; an absent (falsy) argument is `None`. */
    method WiredPartnerFields(error: Option<FetchError>, data: Option<Payload>)
      modifies this
      ensures Snapshot() == Wired(parsers, old(Snapshot()), error, data)
      ensures isExpanded == old(isExpanded)
    {
      if data.Some? {
        this.error := None;
        partnerFields := Transform(parsers, data.value.fields);
        InitializeFieldVisibility();
      } else if error.Some? {
        partnerFields := [];
        this.error := error;
      }
    }

    /** `initializeFieldVisibility()`. */
    method InitializeFieldVisibility()
      modifies this
      ensures Snapshot() == InitializeVisibility(old(Snapshot()))
      ensures visibleFields + extraFields == partnerFields && |visibleFields| <= VisibleCount
    {
      visibleFields := Head(partnerFields);
      extraFields := Tail(partnerFields);
    }

    /** `toggleExtraFields()`. */
    method ToggleExtraFields()
      modifies this
      ensures Snapshot() == Toggle(old(Snapshot()))
      ensures isExpanded == !old(isExpanded)
      ensures unchanged(this`partnerFields, this`extraFields, this`error)
    {
      isExpanded := !isExpanded;
      if isExpanded {
        visibleFields := partnerFields;
      } else {
        visibleFields := Head(partnerFields);
      }
    }

    /** `get hasMoreFields()`: true exactly when the fields overflow the collapsed head. */
    function HasMoreFields(): (r: bool)
      reads this
      ensures r == HasMore(Snapshot())
      ensures r <==> Tail(partnerFields) != []
      ensures extraFields == Tail(partnerFields) ==> (r <==> extraFields != [])
    {
      |partnerFields| > VisibleCount
    }
  }

  /** The two scenarios exercised by the component's tests: a two-field map is shown in
      map order with nothing to expand, and a failed fetch leaves no fields and the
      error's message. */
  lemma TestScenarios(p: Parsers)
    ensures var d := Payload([("baujahr", Str("2023")), ("personenzahl", Str("2"))]);
      var r := Wired(p, Initial(), None, Some(d));
      && |r.visibleFields| == 2
      && r.visibleFields[0].fieldLabel == "baujahr" && r.visibleFields[0].value == Str("2023")
      && r.visibleFields[1].fieldLabel == "personenzahl" && r.visibleFields[1].value == Str("2")
      && r.extraFields == [] && !HasMore(r) && r.error == None
    ensures var e := FetchError("An error occurred while fetching partner fields.");
      var r := Wired(p, Initial(), Some(e), None);
      r.partnerFields == [] && r.visibleFields == [] && r.error == Some(e)
  {
    var d := Payload([("baujahr", Str("2023")), ("personenzahl", Str("2"))]);
    WiredDataInOrder(p, Initial(), None, d);
  }
}
