/**
 * The lead entry form (src/components/LeadInputForm.tsx): the record being
 * edited, the expanded/collapsed state of its sections, the coercion every
 * edit goes through, and what each checkbox shows.
 */
module LeadInputForm {
  import opened Wrappers
  import opened Text
  import opened Records

  /** The fields whose input is read as a number (`parseFloat(value) || 0`). */
  const NumericFields: seq<string> := [
    "TotalVisits", "Total Time Spent on Website", "Page Views Per Visit",
    "Asymmetrique Activity Score", "Asymmetrique Profile Score"]

  /** The yes/no flags, edited through checkboxes and stored as "Yes" or "No". */
  const YesNoFields: seq<string> := [
    "Do Not Email", "Do Not Call", "Search", "Magazine", "Newspaper Article",
    "X Education Forums", "Newspaper", "Digital Advertisement", "Through Recommendations",
    "Receive More Updates About Our Courses", "Update me on Supply Chain Content",
    "Get updates on DM Content", "I agree to pay the amount through cheque",
    "A free copy of Mastering The Interview"]

  /** The record the form starts with, in declaration order. */
  const InitialFormData: Record := [
    Entry("Lead Origin", Str("")),
    Entry("Lead Source", Str("")),
    Entry("Do Not Email", Str("No")),
    Entry("Do Not Call", Str("No")),
    Entry("Converted", Num(0.0)),
    Entry("TotalVisits", Num(0.0)),
    Entry("Total Time Spent on Website", Num(0.0)),
    Entry("Page Views Per Visit", Num(0.0)),
    Entry("Last Activity", Str("")),
    Entry("Country", Str("")),
    Entry("Specialization", Str("Select")),
    Entry("How did you hear about X Education", Str("Select")),
    Entry("What is your current occupation", Str("Unemployed")),
    Entry("What matters most to you in choosing a course", Str("Better Career Prospects")),
    Entry("Search", Str("No")),
    Entry("Magazine", Str("No")),
    Entry("Newspaper Article", Str("No")),
    Entry("X Education Forums", Str("No")),
    Entry("Newspaper", Str("No")),
    Entry("Digital Advertisement", Str("No")),
    Entry("Through Recommendations", Str("No")),
    Entry("Receive More Updates About Our Courses", Str("No")),
    Entry("Tags", Str("")),
    Entry("Lead Quality", Str("Low in Relevance")),
    Entry("Update me on Supply Chain Content", Str("No")),
    Entry("Get updates on DM Content", Str("No")),
    Entry("Lead Profile", Str("Select")),
    Entry("City", Str("Select")),
    Entry("Asymmetrique Activity Index", Str("02.Medium")),
    Entry("Asymmetrique Profile Index", Str("02.Medium")),
    Entry("Asymmetrique Activity Score", Num(15.0)),
    Entry("Asymmetrique Profile Score", Num(15.0)),
    Entry("I agree to pay the amount through cheque", Str("No")),
    Entry("A free copy of Mastering The Interview", Str("No")),
    Entry("Last Notable Activity", Str("Modified"))]

  /** The nine collapsible sections of the form. */
  const SectionNames: seq<string> := [
    "basic", "contact", "activity", "location", "education",
    "survey", "marketing", "analytics", "additional"]

  /** All sections start expanded. */
  function InitialSections(): (m: map<string, bool>)
    ensures m.Keys == set s | s in SectionNames
    ensures forall s :: s in m ==> m[s]
  {
    map s | s in SectionNames :: true
  }

  /** `parseFloat(value) || 0`: the number read from the value, 0 when none can be read. */
  function ParsedOrZero(value: Value): real
  {
    match value
    case Num(n) => n
    case Str(s) => (match ParseFloat(s) case Some(x) => x case None => 0.0)
    case Bool(_) => 0.0
  }

  /**
   * The value handleInputChange stores: a boolean becomes 1/0 for
   * "Converted" and "Yes"/"No" elsewhere; a numeric field stores the number
   * read from the raw input, or 0; anything else is stored as given.
   */
  function ProcessedValue(field: string, value: Value): (r: Value)
    ensures field in NumericFields ==> r == Num(ParsedOrZero(value))
    ensures field == "Converted" && value.Bool? ==> r == Num(if value.b then 1.0 else 0.0)
    ensures field !in NumericFields && field != "Converted" && value.Bool? ==>
      r == Str(if value.b then "Yes" else "No")
    ensures field !in NumericFields && !value.Bool? ==> r == value
  {
    var coerced :=
      if value.Bool? then
        (if field == "Converted" then Num(if value.b then 1.0 else 0.0) else Str(if value.b then "Yes" else "No"))
      else value;
    if field in NumericFields then Num(ParsedOrZero(value)) else coerced
  }

  /** What a checkbox shows: `=== 1` for "Converted", `=== 'Yes'` for the others. */
  function IsChecked(formData: Record, field: string): bool
  {
    if field == "Converted" then Lookup(formData, field) == Some(Num(1.0))
    else Lookup(formData, field) == Some(Str("Yes"))
  }

  /** `!prev[section]` written back: an unknown section reads as collapsed and so becomes expanded. */
  function Toggled(sections: map<string, bool>, section: string): (m: map<string, bool>)
    ensures m.Keys == sections.Keys + {section}
    ensures m[section] == !(section in sections && sections[section])
    ensures forall s :: s in sections && s != section ==> m[s] == sections[s]
  {
    sections[section := !(section in sections && sections[section])]
  }

  /** The state of one form. */
  class FormState {
    var formData: Record
    var expandedSections: map<string, bool>

    constructor ()
      ensures formData == InitialFormData
      ensures expandedSections == InitialSections()
    {
      formData := InitialFormData;
      expandedSections := InitialSections();
    }

    /** handleInputChange: coerces the value and stores it under `field` alone. */
    method HandleInputChange(field: string, value: Value)
      modifies this`formData
      ensures formData == Put(old(formData), field, ProcessedValue(field, value))
      ensures Lookup(formData, field) == Some(ProcessedValue(field, value))
      ensures forall k :: k != field ==> Lookup(formData, k) == Lookup(old(formData), k)
    {
      var processedValue := value;
      if value.Bool? {
        if field == "Converted" {
          processedValue := Num(if value.b then 1.0 else 0.0);
        } else {
          processedValue := Str(if value.b then "Yes" else "No");
        }
      }
      if field in NumericFields {
        processedValue := Num(ParsedOrZero(value));
      }
      PutThenLookup(formData, field, processedValue);
      forall k | k != field
        ensures Lookup(Put(formData, field, processedValue), k) == Lookup(formData, k)
      {
        PutKeepsOthers(formData, field, processedValue, k);
      }
      formData := Put(formData, field, processedValue);
    }

    /** toggleSection: flips `section` and leaves every other section as it was. */
    method ToggleSection(section: string)
      modifies this`expandedSections
      ensures expandedSections == Toggled(old(expandedSections), section)
    {
      expandedSections := Toggled(expandedSections, section);
    }

    /** handleSubmit hands the current record to the submit callback. */
    function Submitted(): Record
      reads this
    {
      formData
    }
  }

  /** After a checkbox edit the checkbox shows the value it was given. */
  lemma CheckboxRoundTrip(formData: Record, field: string, checked: bool)
    requires field !in NumericFields
    ensures IsChecked(Put(formData, field, ProcessedValue(field, Bool(checked))), field) == checked
  {
    PutThenLookup(formData, field, ProcessedValue(field, Bool(checked)));
  }

  /** A number typed into a numeric field is stored as that number. */
  lemma NumericFieldReadsNumber(field: string, n: nat)
    requires field in NumericFields
    ensures ProcessedValue(field, Str(NatToString(n))) == Num(n as real)
  {
    NatToStringParses(n, "");
    assert NatToString(n) + "" == NatToString(n);
  }

  /** A decimal typed into a numeric field, such as a page-views average, is stored as its value. */
  lemma NumericFieldReadsDecimal(field: string, m: nat, d: string)
    requires field in NumericFields
    requires |d| > 0 && AllDigits(d)
    ensures ProcessedValue(field, Str(NatToString(m) + "." + d)) ==
      Num(m as real + DigitsValue(d) as real / Pow10(|d|) as real)
  {
    DecimalParses(m, d);
  }

  /** Toggling a known section twice restores the sections. */
  lemma ToggleTwice(sections: map<string, bool>, section: string)
    requires section in sections
    ensures Toggled(Toggled(sections, section), section) == sections
  {
  }

  /** Where each yes/no flag sits in the initial record, in the order of YesNoFields. */
  const FlagPositions: seq<nat> := [2, 3, 14, 15, 16, 17, 18, 19, 20, 21, 24, 25, 32, 33]

  lemma KeysDistinctLow()
    ensures forall i, j :: 0 <= i < j < 18 ==> InitialFormData[i].key != InitialFormData[j].key
  {
  }

  lemma KeysDistinctMiddle()
    ensures forall i, j :: 0 <= i < j && 18 <= j < 27 ==> InitialFormData[i].key != InitialFormData[j].key
  {
  }

  lemma KeysDistinctHigh()
    ensures forall i, j :: 0 <= i < j && 27 <= j < 35 ==> InitialFormData[i].key != InitialFormData[j].key
  {
  }

  /** The initial record names every attribute once. */
  lemma InitialKeysDistinct()
    ensures DistinctKeys(InitialFormData)
  {
    KeysDistinctLow();
    KeysDistinctMiddle();
    KeysDistinctHigh();
  }

  lemma FlagPositionsMatch()
    ensures forall m :: 0 <= m < |YesNoFields| ==>
      FlagPositions[m] < |InitialFormData| && InitialFormData[FlagPositions[m]] == Entry(YesNoFields[m], Str("No"))
  {
  }

  lemma FlagsAtStart()
    ensures forall f :: f in YesNoFields ==> Lookup(InitialFormData, f) == Some(Str("No"))
  {
    InitialKeysDistinct();
    FlagPositionsMatch();
    forall f | f in YesNoFields
      ensures Lookup(InitialFormData, f) == Some(Str("No"))
    {
      var m :| 0 <= m < |YesNoFields| && YesNoFields[m] == f;
      LookupDistinct(InitialFormData, FlagPositions[m]);
    }
  }

  lemma ConvertedAtStart()
    ensures Lookup(InitialFormData, "Converted") == Some(Num(0.0))
  {
    InitialKeysDistinct();
    assert InitialFormData[4] == Entry("Converted", Num(0.0));
    LookupDistinct(InitialFormData, 4);
  }

  /** The form starts with every yes/no flag at "No" and "Converted" at 0, so no checkbox is ticked. */
  lemma InitialFlagsUnticked()
    ensures forall f :: f in YesNoFields ==> Lookup(InitialFormData, f) == Some(Str("No"))
    ensures Lookup(InitialFormData, "Converted") == Some(Num(0.0))
    ensures forall f :: f in YesNoFields || f == "Converted" ==> !IsChecked(InitialFormData, f)
  {
    FlagsAtStart();
    ConvertedAtStart();
  }

  /** The first four attribute names of a fresh form are the two origin fields and the two contact flags. */
  lemma InitialFirstKeys()
    ensures FirstKeys(InitialFormData, 4) == ["Lead Origin", "Lead Source", "Do Not Email", "Do Not Call"]
  {
    var ks := FirstKeys(InitialFormData, 4);
    assert InitialFormData[..4] == [Entry("Lead Origin", Str("")), Entry("Lead Source", Str("")), Entry("Do Not Email", Str("No")), Entry("Do Not Call", Str("No"))];
    assert ks == Keys(InitialFormData[..4]);
  }

  /** Edits to existing fields never reorder the record, so the first four names stay as they were. */
  lemma EditKeepsFirstKeys(formData: Record, field: string, value: Value)
    requires field in Keys(formData)
    ensures FirstKeys(Put(formData, field, ProcessedValue(field, value)), 4) == FirstKeys(formData, 4)
  {
    PutKeys(formData, field, ProcessedValue(field, value));
  }
}
