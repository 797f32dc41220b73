/** The pure half of the lead-field component: classifying one value (`isNumber`,
    `isDate`) and turning the partner-field map into render records
    (`transformPartnerFields`). */
module PartnerFields {

  /** A JavaScript value found in the field map. Apart from the numeric parser, the
      component only asks whether a value is a string; every other value (number,
      boolean, null, object) is an opaque token. */
  datatype Value = Str(text: string) | Other(token: int)

  /** The library parsers the component leans on, left uninterpreted.
      `numeric(v)` stands for `!isNaN(parseFloat(v)) && isFinite(v)`, which JavaScript
      evaluates on any value; `dateParses(s)` stands for `!isNaN(Date.parse(s))` on a
      string `s`. */
  datatype Parsers = Parsers(numeric: Value -> bool, dateParses: string -> bool) {

    /** `isNumber`: whatever the numeric parser says, for strings and non-strings alike. */
    function IsNumber(v: Value): (r: bool)
      ensures r <==> numeric(v)
    {
      numeric(v)
    }

    /** `isDate`: the `typeof value === 'string'` guard comes first, so only a string can
        be a date. */
    function IsDate(v: Value): (r: bool)
      ensures r ==> v.Str?
      ensures v.Str? ==> (r <==> dateParses(v.text))
    {
      match v
      case Str(s) => dateParses(s)
      case Other(_) => false
    }
  }

  /** One render record `{label, value, isText, isNumber, isDate}` (`label` is a reserved
      word here, hence `fieldLabel`). */
  datatype FieldRecord = FieldRecord(fieldLabel: string, value: Value, isText: bool, isNumber: bool, isDate: bool)

  /** An entry of the field map, as `Object.entries` yields it: `[key, value]`. */
  type Entry = (string, Value)

  /** The record built for one map entry. */
  function ToRecord(p: Parsers, key: string, value: Value): (r: FieldRecord)
    ensures r.fieldLabel == key && r.value == value
    ensures r.isNumber == p.IsNumber(value) && r.isDate == p.IsDate(value)
    ensures r.isText <==> value.Str? && !r.isNumber && !r.isDate
    ensures r.isText ==> !r.isNumber && !r.isDate
    ensures !value.Str? ==> !r.isText && !r.isDate
  {
    var isNumber := p.IsNumber(value);
    var isDate := p.IsDate(value);
    FieldRecord(key, value, value.Str? && !isNumber && !isDate, isNumber, isDate)
  }

  /** `transformPartnerFields`: `Object.entries(fields).map(...)`, one record per entry. */
  function Transform(p: Parsers, entries: seq<Entry>): (r: seq<FieldRecord>)
    ensures |r| == |entries|
  {
    if entries == [] then []
    else [ToRecord(p, entries[0].0, entries[0].1)] + Transform(p, entries[1..])
  }

  /** The text flag rules out both other flags, and a non-string is neither text nor a date. */
  predicate FlagsAgree(rec: FieldRecord) {
    && (rec.isText ==> !rec.isNumber && !rec.isDate)
    && (!rec.value.Str? ==> !rec.isText && !rec.isDate)
  }

  /** The i-th record is built from the i-th entry: labels and values are copied, in entry
      order. */
  lemma {:induction false} TransformAt(p: Parsers, entries: seq<Entry>, i: nat)
    requires i < |entries|
    ensures Transform(p, entries)[i] == ToRecord(p, entries[i].0, entries[i].1)
    ensures Transform(p, entries)[i].fieldLabel == entries[i].0
    ensures Transform(p, entries)[i].value == entries[i].1
  {
    if i > 0 {
      TransformAt(p, entries[1..], i - 1);
    }
  }

  /** The transform distributes over concatenation: nothing is reordered, merged or
      dropped across a split of the map. */
  lemma {:induction false} TransformAppend(p: Parsers, a: seq<Entry>, b: seq<Entry>)
    ensures Transform(p, a + b) == Transform(p, a) + Transform(p, b)
  {
    if a == [] {
      assert a + b == b;
    } else {
      assert (a + b)[1..] == a[1..] + b;
      TransformAppend(p, a[1..], b);
    }
  }

  /** Every record the transform yields has consistent flags. */
  lemma {:induction false} TransformFlags(p: Parsers, entries: seq<Entry>)
    ensures forall rec :: rec in Transform(p, entries) ==> FlagsAgree(rec)
  {
    var r := Transform(p, entries);
    forall rec | rec in r
      ensures FlagsAgree(rec)
    {
      var i :| 0 <= i < |r| && r[i] == rec;
      TransformAt(p, entries, i);
    }
  }

  /** Distinct keys (as every JavaScript object has) give records with distinct labels:
      each record stands for exactly one entry. */
  lemma TransformLabelsDistinct(p: Parsers, entries: seq<Entry>)
    requires forall i, j :: 0 <= i < j < |entries| ==> entries[i].0 != entries[j].0
    ensures forall i, j :: 0 <= i < j < |entries| ==>
      Transform(p, entries)[i].fieldLabel != Transform(p, entries)[j].fieldLabel
  {
    forall i, j | 0 <= i < j < |entries|
      ensures Transform(p, entries)[i].fieldLabel != Transform(p, entries)[j].fieldLabel
    {
      TransformAt(p, entries, i);
      TransformAt(p, entries, j);
    }
  }

  /** The number and date flags are not exclusive: a value both parsers accept (a bare
      year such as "2023" passes `parseFloat` and `Date.parse`) gets both flags, and then
      it is not text. */
  lemma NumberAndDateOverlap(p: Parsers, key: string, v: Value)
    requires p.IsNumber(v) && p.IsDate(v)
    ensures var rec := ToRecord(p, key, v);
      rec.isNumber && rec.isDate && !rec.isText && rec.value.Str?
  {
  }
}
