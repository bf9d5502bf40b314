/** `DataAttributeForm`: the editor state of one data attribute being created
    or edited. The pure functions below say what each user action does to
    the form's values and what the form derives from them (validity, whether
    an option can be added, whether it can be submitted, the button label);
    the `Draft` class holds the values and changes them in place. */
module DataAttributeForm {
  import opened AttributeTypes

  /** The configured limits of `DataAttributeValidation`. */
  datatype Limits = Limits(maxNameLength: nat, maxDescriptionLength: nat, maxOptions: nat)

  /** The form's values (`FormData`). The name is absent until the user types
      one when a new attribute is created. */
  datatype FormData = FormData(
    name: Option<string>,
    description: Option<string>,
    dataType: DataType,
    options: Option<OptionsPayload>,
    pinned: bool)

  /** The entry a new option starts with. */
  const EmptyOption := OptionEntry("")

  // ---------------------------------------------------------------------------
  // Seeding

  /** The default values: copied from the attribute being edited, with
      `String`, `false` and absence as the fallbacks; all defaults when a new
      attribute is created. */
  function Seed(existing: Option<Attribute>): FormData {
    match existing
    case None => FormData(None, None, String, None, false)
    case Some(a) => FormData(a.name, a.description, a.dataType.GetOr(String), a.options, a.pinned.GetOr(false))
  }

  /** A new attribute starts as a text attribute without name, description or
      options, not pinned. */
  lemma CreateSeedDefaults()
    ensures Seed(None) == FormData(None, None, String, None, false)
  {
  }

  /** Editing copies every field that is present and takes the creation
      default for every field that is missing. */
  lemma EditSeedCopiesOrFallsBack(a: Attribute)
    ensures Seed(Some(a)).name == a.name && Seed(Some(a)).description == a.description
    ensures Seed(Some(a)).options == a.options
    ensures Seed(Some(a)).dataType == if a.dataType.Some? then a.dataType.value else Seed(None).dataType
    ensures Seed(Some(a)).pinned == if a.pinned.Some? then a.pinned.value else Seed(None).pinned
    ensures a == Attribute(None, None, None, None, None) ==> Seed(Some(a)) == Seed(None)
  {
  }

  // ---------------------------------------------------------------------------
  // Data type and options

  /** The option entries as the form reads them: none when the payload is absent. */
  function CurrentOptions(f: FormData): seq<OptionEntry> {
    match f.options
    case Some(payload) => payload.options
    case None => []
  }

  function OptionCount(f: FormData): nat {
    |CurrentOptions(f)|
  }

  /** Choosing a data type in the selector. Choosing `List` also resets the
      options to one empty entry; any other choice leaves them in place. */
  function WithDataType(f: FormData, value: DataType): FormData {
    var chosen := f.(dataType := value);
    if value == List then chosen.(options := Some(OptionsPayload([EmptyOption]))) else chosen
  }

  /** Choosing `List` always yields exactly one empty option, whatever the
      previous type and options were, and changes nothing else. */
  lemma ChoosingListResetsOptions(f: FormData)
    ensures WithDataType(f, List).options == Some(OptionsPayload([OptionEntry("")]))
    ensures CurrentOptions(WithDataType(f, List)) == [OptionEntry("")]
    ensures WithDataType(f, List).dataType == List
    ensures WithDataType(f, List).name == f.name && WithDataType(f, List).description == f.description
    ensures WithDataType(f, List).pinned == f.pinned
  {
  }

  /** Choosing any other type changes the data type and nothing else. */
  lemma ChoosingOtherTypeChangesOnlyType(f: FormData, value: DataType)
    requires value != List
    ensures WithDataType(f, value).dataType == value
    ensures WithDataType(f, value).options == f.options
    ensures WithDataType(f, value).name == f.name && WithDataType(f, value).description == f.description
    ensures WithDataType(f, value).pinned == f.pinned
  {
  }

  /** Typing into the option input at `index`: the entries are copied and the
      one at `index` is replaced. */
  function WithOptionValue(f: FormData, index: nat, value: string): (r: FormData)
    requires index < OptionCount(f)
    ensures OptionCount(r) == OptionCount(f)
    ensures CurrentOptions(r)[index] == OptionEntry(value)
    ensures forall j :: 0 <= j < OptionCount(f) && j != index ==> CurrentOptions(r)[j] == CurrentOptions(f)[j]
    ensures r.name == f.name && r.description == f.description && r.dataType == f.dataType && r.pinned == f.pinned
  {
    f.(options := Some(OptionsPayload(CurrentOptions(f)[index := OptionEntry(value)])))
  }

  /** Writing an entry's own value back leaves the form as it was. */
  lemma RewritingOptionIsNoOp(f: FormData, index: nat)
    requires index < OptionCount(f)
    ensures WithOptionValue(f, index, CurrentOptions(f)[index].value) == f
  {
    var r := WithOptionValue(f, index, CurrentOptions(f)[index].value);
    assert CurrentOptions(r) == CurrentOptions(f);
  }

  /** The `+` button's click: one more empty entry after the existing ones. */
  function WithOptionAppended(f: FormData): (r: FormData)
    ensures OptionCount(r) == OptionCount(f) + 1
    ensures CurrentOptions(r)[..OptionCount(f)] == CurrentOptions(f)
    ensures CurrentOptions(r)[OptionCount(f)] == EmptyOption
    ensures f.options.None? ==> CurrentOptions(r) == [EmptyOption]
    ensures r.name == f.name && r.description == f.description && r.dataType == f.dataType && r.pinned == f.pinned
  {
    f.(options := Some(OptionsPayload(CurrentOptions(f) + [EmptyOption])))
  }

  /** The `+` button is disabled once the option count reaches the maximum. */
  predicate AppendDisabled(f: FormData, limits: Limits) {
    OptionCount(f) >= limits.maxOptions
  }

  /** A click on the `+` button; a disabled button ignores it. */
  function AfterAppendClick(f: FormData, limits: Limits): FormData {
    if AppendDisabled(f, limits) then f else WithOptionAppended(f)
  }

  /** Appending is possible exactly while the count is below the maximum. */
  lemma AppendEnabledIffBelowMax(f: FormData, limits: Limits)
    ensures !AppendDisabled(f, limits) <==> OptionCount(f) < limits.maxOptions
    ensures OptionCount(f) < limits.maxOptions ==> AfterAppendClick(f, limits) == WithOptionAppended(f)
    ensures OptionCount(f) >= limits.maxOptions ==> AfterAppendClick(f, limits) == f
  {
  }

  /** The form after `n` clicks on the `+` button. */
  function AfterAppendClicks(f: FormData, limits: Limits, n: nat): FormData
    decreases n
  {
    if n == 0 then f else AfterAppendClicks(AfterAppendClick(f, limits), limits, n - 1)
  }

  function Min(a: int, b: int): int {
    if a <= b then a else b
  }

  /** From a count within the maximum, any number of clicks never goes past
      the maximum, adds one entry per enabled click, and never drops or
      changes an existing entry. */
  lemma {:induction false} AppendClicksStayWithinMax(f: FormData, limits: Limits, n: nat)
    requires OptionCount(f) <= limits.maxOptions
    ensures OptionCount(AfterAppendClicks(f, limits, n)) == Min(OptionCount(f) + n, limits.maxOptions)
    ensures OptionCount(AfterAppendClicks(f, limits, n)) <= limits.maxOptions
    ensures CurrentOptions(f) <= CurrentOptions(AfterAppendClicks(f, limits, n))
    decreases n
  {
    if n > 0 {
      var g := AfterAppendClick(f, limits);
      AppendClicksStayWithinMax(g, limits, n - 1);
      if !AppendDisabled(f, limits) {
        assert CurrentOptions(f) <= CurrentOptions(g);
      }
    }
  }

  // ---------------------------------------------------------------------------
  // Validity and submission

  /** `name` is required and at most `maxNameLength` characters long. */
  predicate NameValid(name: Option<string>, limits: Limits) {
    name.Some? && name.value != "" && |name.value| <= limits.maxNameLength
  }

  /** `description` is optional and at most `maxDescriptionLength` characters long. */
  predicate DescriptionValid(description: Option<string>, limits: Limits) {
    description.Some? ==> |description.value| <= limits.maxDescriptionLength
  }

  /** Only the name and the description carry validation rules. */
  predicate IsValid(f: FormData, limits: Limits) {
    NameValid(f.name, limits) && DescriptionValid(f.description, limits)
  }

  /** When each field is invalid. */
  lemma ValidityRules(f: FormData, limits: Limits)
    ensures !NameValid(f.name, limits) <==> f.name == None || f.name == Some("") || |f.name.value| > limits.maxNameLength
    ensures !DescriptionValid(f.description, limits) <==> f.description.Some? && |f.description.value| > limits.maxDescriptionLength
    ensures DescriptionValid(None, limits) && DescriptionValid(Some(""), limits)
    ensures IsValid(f, limits) ==> f.name.Some? && 0 < |f.name.value| <= limits.maxNameLength
  {
  }

  /** The data type, the options and the pinned flag do not affect validity. */
  lemma ValidityIgnoresTypeOptionsAndPinned(f: FormData, limits: Limits, dataType: DataType, options: Option<OptionsPayload>, pinned: bool)
    ensures IsValid(f.(dataType := dataType, options := options, pinned := pinned), limits) == IsValid(f, limits)
  {
  }

  /** A new attribute cannot be submitted before it has a name. */
  lemma CreateSeedIsInvalid(limits: Limits)
    ensures !IsValid(Seed(None), limits)
    ensures !NameValid(Seed(None).name, limits)
  {
  }

  /** The submit button is disabled while a submission is in flight or the
      form is invalid. */
  predicate SubmitDisabled(isSubmitting: bool, isValid: bool) {
    isSubmitting || !isValid
  }

  lemma SubmitEnabledIff(f: FormData, limits: Limits, isSubmitting: bool)
    ensures !SubmitDisabled(isSubmitting, IsValid(f, limits)) <==> IsValid(f, limits) && !isSubmitting
  {
  }

  /** The submit button's label: a translation key, followed by an ellipsis
      while a submission is in flight. */
  datatype SubmitLabel = SubmitLabel(key: string, inProgress: bool)

  /** "Saving…"/"Save" when editing, "Creating…"/"Create" when creating. */
  function ButtonLabel(editing: bool, isSubmitting: bool): (shown: SubmitLabel)
    ensures shown.inProgress == isSubmitting
    ensures shown.key in {"Save", "Saving"} <==> editing
    ensures shown.key in {"Saving", "Creating"} <==> isSubmitting
    ensures !editing && !isSubmitting ==> shown.key == "Create"
  {
    if editing then
      if isSubmitting then SubmitLabel("Saving", true) else SubmitLabel("Save", false)
    else
      if isSubmitting then SubmitLabel("Creating", true) else SubmitLabel("Create", false)
  }

  /** The text shown, given the translation function `t`. */
  function RenderLabel(shown: SubmitLabel, t: string -> string): string {
    if shown.inProgress then t(shown.key) + "\U{2026}" else t(shown.key)
  }

  /** The four labels are distinct, so the label tells the mode and the
      submission state apart. */
  lemma ButtonLabelDeterminesState(editing: bool, isSubmitting: bool, editing': bool, isSubmitting': bool)
    requires ButtonLabel(editing, isSubmitting) == ButtonLabel(editing', isSubmitting')
    ensures editing == editing' && isSubmitting == isSubmitting'
  {
  }

  lemma RenderedLabels(t: string -> string)
    ensures RenderLabel(ButtonLabel(true, true), t) == t("Saving") + "\U{2026}"
    ensures RenderLabel(ButtonLabel(true, false), t) == t("Save")
    ensures RenderLabel(ButtonLabel(false, true), t) == t("Creating") + "\U{2026}"
    ensures RenderLabel(ButtonLabel(false, false), t) == t("Create")
  {
  }

  // ---------------------------------------------------------------------------
  // The editor state

  /** The values of one edit session, changed in place by the user's actions. */
  class Draft {
    var name: Option<string>
    var description: Option<string>
    var dataType: DataType
    var options: Option<OptionsPayload>
    var pinned: bool
    /** Whether an existing attribute is being edited. */
    const editing: bool

    function Snapshot(): FormData
      reads this
    {
      FormData(name, description, dataType, options, pinned)
    }

    constructor (existing: Option<Attribute>)
      ensures Snapshot() == Seed(existing)
      ensures editing == existing.Some?
    {
      var seed := Seed(existing);
      name := seed.name;
      description := seed.description;
      dataType := seed.dataType;
      options := seed.options;
      pinned := seed.pinned;
      editing := existing.Some?;
    }

    method ChooseDataType(value: DataType)
      modifies this
      ensures Snapshot() == WithDataType(old(Snapshot()), value)
    {
      dataType := value;
      if value == List {
        options := Some(OptionsPayload([EmptyOption]));
      }
    }

    method EditOption(index: nat, value: string)
      requires index < OptionCount(Snapshot())
      modifies this
      ensures Snapshot() == WithOptionValue(old(Snapshot()), index, value)
    {
      var newOptions := CurrentOptions(Snapshot());
      newOptions := newOptions[index := OptionEntry(value)];
      options := Some(OptionsPayload(newOptions));
    }

    method ClickAddOption(limits: Limits)
      modifies this
      ensures Snapshot() == AfterAppendClick(old(Snapshot()), limits)
    {
      if !AppendDisabled(Snapshot(), limits) {
        options := Some(OptionsPayload(CurrentOptions(Snapshot()) + [EmptyOption]));
      }
    }

    method ChangeName(value: string)
      modifies this
      ensures Snapshot() == old(Snapshot()).(name := Some(value))
    {
      name := Some(value);
    }

    method ChangeDescription(value: string)
      modifies this
      ensures Snapshot() == old(Snapshot()).(description := Some(value))
    {
      description := Some(value);
    }

    method ChangePinned(value: bool)
      modifies this
      ensures Snapshot() == old(Snapshot()).(pinned := value)
    {
      pinned := value;
    }
  }

  /** A session as a user goes through it: create, choose `List`, add options
      up to a maximum of three, name the attribute. */
  method ListScenario(limits: Limits)
    requires limits.maxOptions == 3 && limits.maxNameLength >= 8
  {
    var draft := new Draft(None);
    assert !IsValid(draft.Snapshot(), limits);
    draft.ChooseDataType(List);
    assert CurrentOptions(draft.Snapshot()) == [EmptyOption];
    draft.ClickAddOption(limits);
    draft.ClickAddOption(limits);
    assert OptionCount(draft.Snapshot()) == 3;
    assert AppendDisabled(draft.Snapshot(), limits);
    draft.ClickAddOption(limits);
    assert OptionCount(draft.Snapshot()) == 3;
    draft.EditOption(1, "High");
    assert CurrentOptions(draft.Snapshot()) == [EmptyOption, OptionEntry("High"), EmptyOption];
    draft.ChangeName("Priority");
    assert IsValid(draft.Snapshot(), limits);
    assert !SubmitDisabled(false, IsValid(draft.Snapshot(), limits));
    assert SubmitDisabled(true, IsValid(draft.Snapshot(), limits));
    assert ButtonLabel(draft.editing, true) == SubmitLabel("Creating", true);
  }
}
