# Data attribute editor: verified model

This project models two pieces of logic behind Outline's data attribute form.
A data attribute is a typed metadata field that users define and attach to documents.

- **The type catalog** (`DataAttributesHelper`, file `catalog.dfy`). It has three
  total lookups over the data-type enum `Boolean | Number | String | List`:
  - the display name, as a translation key passed to an abstract translator;
  - the display icon: a keyword match from the icon library wins, then the
    per-type default, then `null`;
  - the input-validation pattern: `^-?\d+(\.\d+)?$` for `Number`, nothing for
    the other types.
  `Unrecognised(raw)` stands for any value outside the enum. It is what the
  `default` branches of the source's `switch` statements handle.
- **The numeric pattern** (`NumericPattern`, file `numeric_pattern.dfy`).
  `Matches` is a six-state scanner that recognises the pattern.
  `NumericLiteral` reads the pattern piece by piece: an optional minus sign,
  a digit run, and optionally a point and another digit run.
  `MatchesIffNumericLiteral` proves the two agree on every string.
- **The form** (`DataAttributeForm`, file `form.dfy`). Pure functions on the
  form's values (`FormData`) say:
  - how the form is seeded;
  - what choosing a data type does (choosing `List` resets the options to one
    empty entry);
  - what editing option `i` and clicking the `+` button do;
  - when the name and the description are valid;
  - when the submit button is enabled and which label it shows.
  The `Draft` class holds the values of one edit session. Its methods change
  them in place, and each method's `ensures` ties the new state to the pure
  function of the old state. `ListScenario` is a client session written
  against those contracts alone.
- Shared values (`DataType`, `OptionEntry`, `OptionsPayload`, the persisted
  `Attribute`, `Option`) are in `AttributeTypes`, file `types.dfy`.

The limits `maxNameLength`, `maxDescriptionLength` and `maxOptions` are
configured elsewhere. Here they are a `Limits` parameter. Translation is an
abstract function `t`. The icon library's keyword lookup is an abstract
function `find`. Whether a submission is in flight is an input boolean.

Choosing a type other than `List` leaves the options in place. The model
follows the code and states no invariant tying the options to the type.

## Model

| member | source | states |
|---|---|---|
| NumericPattern.MatchesIffNumericLiteral | app/utils/DataAttributesHelper.tsx:69 | the scanner accepts a string exactly when it is an optional `-`, one or more ASCII digits, and optionally `.` plus one or more digits, anchored at both ends |
| NumericPattern.NumericLiteralExamples | app/utils/DataAttributesHelper.tsx:69 | "10", "-3", "4.5", "12.5", "-0.25" match; "", "-", "1.", ".5", "+1", "abc", "1.2.3", "--1", " 1" do not |
| DataAttributesHelper.GetName | app/utils/DataAttributesHelper.tsx:14-27 | a value outside the enum gets the empty string, whatever the translator |
| DataAttributesHelper.NameKeys | app/utils/DataAttributesHelper.tsx:14-27 | Boolean, Number, String and List are shown under the keys "Boolean", "Number", "Text" and "List" |
| DataAttributesHelper.NamesDistinguishMembers | app/utils/DataAttributesHelper.tsx:14-27 | with an injective translator, two enum members with the same name are the same member |
| DataAttributesHelper.DefaultIcon | app/utils/DataAttributesHelper.tsx:47-58 | a default icon exists exactly for the four enum members, and it is never a library icon |
| DataAttributesHelper.GetIcon | app/utils/DataAttributesHelper.tsx:36-59 | the result is `null` exactly when the type is outside the enum and no keyword match exists; it is a library icon exactly when the keyword is truthy and the lookup finds it |
| DataAttributesHelper.KeywordMatchTakesPrecedence | app/utils/DataAttributesHelper.tsx:41-45 | a non-empty keyword that the lookup finds gives that library icon for every data type |
| DataAttributesHelper.FalsyKeywordSkipsLookup | app/utils/DataAttributesHelper.tsx:41 | an absent or empty keyword gives the same icon whatever the lookup does, and that icon is the per-type default |
| DataAttributesHelper.FallbackIcons | app/utils/DataAttributesHelper.tsx:47-58 | with no keyword match: Boolean gives Done, Number gives Hashtag, String gives CaseSensitive, List gives TableOfContents, anything else gives `null` |
| DataAttributesHelper.DefaultIconsDistinguishMembers | app/utils/DataAttributesHelper.tsx:47-58 | two enum members with the same default icon are the same member |
| DataAttributesHelper.GetValidationRegex | app/utils/DataAttributesHelper.tsx:66-73 | a pattern is returned exactly when the attribute's data type is Number |
| DataAttributesHelper.NumberRegexAcceptsNumericLiterals | app/utils/DataAttributesHelper.tsx:66-69 | a Number attribute's pattern accepts a string exactly when it is a numeric literal |
| DataAttributesHelper.NumberRegexExamples | app/utils/DataAttributesHelper.tsx:69 | a Number attribute's pattern accepts "10", "-3", "4.5", "12.5" and rejects "", "-", "1.", ".5", "+1", "abc" |
| DataAttributeForm.CreateSeedDefaults | app/components/DataAttribute/DataAttributeForm.tsx:48-54 | a new attribute starts without name, description or options, as type String, not pinned |
| DataAttributeForm.EditSeedCopiesOrFallsBack | app/components/DataAttribute/DataAttributeForm.tsx:48-54 | editing copies each present field and takes the creation default for each missing one; an attribute with every field missing seeds like a new one |
| DataAttributeForm.ChoosingListResetsOptions | app/components/DataAttribute/DataAttributeForm.tsx:71-82 | choosing List sets the options to exactly one empty entry, whatever came before, and keeps name, description and pinned |
| DataAttributeForm.ChoosingOtherTypeChangesOnlyType | app/components/DataAttribute/DataAttributeForm.tsx:71-74 | choosing any other type changes the data type only; options, name, description and pinned stay |
| DataAttributeForm.WithOptionValue | app/components/DataAttribute/DataAttributeForm.tsx:100-102 | editing option `i` keeps the count, sets entry `i`, keeps every other entry in place, and changes no other field |
| DataAttributeForm.RewritingOptionIsNoOp | app/components/DataAttribute/DataAttributeForm.tsx:100-102 | writing an entry's own value back leaves the form unchanged |
| DataAttributeForm.WithOptionAppended | app/components/DataAttribute/DataAttributeForm.tsx:121-128 | appending adds one empty entry after the unchanged existing ones; absent options become a single empty entry; no other field changes |
| DataAttributeForm.AppendEnabledIffBelowMax | app/components/DataAttribute/DataAttributeForm.tsx:116-128 | the `+` button is enabled exactly while the count is below `maxOptions`; an enabled click appends and a disabled one changes nothing |
| DataAttributeForm.AppendClicksStayWithinMax | app/components/DataAttribute/DataAttributeForm.tsx:116-128 | from a count of at most `maxOptions`, `n` clicks give a count of min(count + n, `maxOptions`) and keep the earlier entries as a prefix |
| DataAttributeForm.ValidityRules | app/components/DataAttribute/DataAttributeForm.tsx:137-156 | the name is invalid exactly when it is missing, empty or longer than `maxNameLength`; the description is invalid exactly when it is longer than `maxDescriptionLength`, so an absent or empty one is valid; a valid form has a non-empty name within `maxNameLength` |
| DataAttributeForm.ValidityIgnoresTypeOptionsAndPinned | app/components/DataAttribute/DataAttributeForm.tsx:137-162 | changing the data type, the options or the pinned flag never changes validity |
| DataAttributeForm.CreateSeedIsInvalid | app/components/DataAttribute/DataAttributeForm.tsx:140-143 | a new attribute's seed is invalid for any limits, because its name is missing |
| DataAttributeForm.SubmitEnabledIff | app/components/DataAttribute/DataAttributeForm.tsx:166 | submit is enabled exactly when the form is valid and no submission is in flight |
| DataAttributeForm.ButtonLabel | app/components/DataAttribute/DataAttributeForm.tsx:168-174 | the label shows progress exactly while submitting; its key is Save or Saving exactly in edit mode, and Saving or Creating exactly while submitting |
| DataAttributeForm.ButtonLabelDeterminesState | app/components/DataAttribute/DataAttributeForm.tsx:168-174 | the four labels are distinct, so the label determines the mode and the in-flight flag |
| DataAttributeForm.RenderedLabels | app/components/DataAttribute/DataAttributeForm.tsx:168-174 | the shown texts are t("Saving") + "…", t("Save"), t("Creating") + "…" and t("Create") |
| DataAttributeForm.Draft.constructor | app/components/DataAttribute/DataAttributeForm.tsx:46-54 | a new draft holds the seed of the given attribute (or of none), and records whether it edits |
| DataAttributeForm.Draft.ChooseDataType | app/components/DataAttribute/DataAttributeForm.tsx:71-82 | the draft's new values are those of choosing the type on its old values |
| DataAttributeForm.Draft.EditOption | app/components/DataAttribute/DataAttributeForm.tsx:99-103 | the draft's new values are its old values with option `index` replaced |
| DataAttributeForm.Draft.ClickAddOption | app/components/DataAttribute/DataAttributeForm.tsx:115-129 | the draft's new values are its old values after one click on the `+` button, which is ignored when disabled |
| DataAttributeForm.Draft.ChangeName | app/components/DataAttribute/DataAttributeForm.tsx:137-147 | only the name changes, to the typed text |
| DataAttributeForm.Draft.ChangeDescription | app/components/DataAttribute/DataAttributeForm.tsx:148-156 | only the description changes, to the typed text |
| DataAttributeForm.Draft.ChangePinned | app/components/DataAttribute/DataAttributeForm.tsx:157-162 | only the pinned flag changes |

Functions that only compute (`Seed`, `WithDataType`, `AppendDisabled`, `AfterAppendClick`, `NameValid`, `DescriptionValid`, `IsValid`, `SubmitDisabled`, `RenderLabel`, `Truthy`, `NumericPattern.Matches`) have no rows of their own: the rows above name the lemmas that state their properties, citing the same source lines.

## Left out

- Rendering, layout, JSX, the mobx observer and the react-hook-form plumbing (`register`, `Controller`, `watch`) are not modelled. Only the state changes and the derived values they encode are.
- The focus effect (app/components/DataAttribute/DataAttributeForm.tsx:56-58) is left out. It only affects timing and the UI.
- The submit handler (line 63) is left out. Handing the values to the persistence callback is asynchronous and external. `isSubmitting` is an input.
- Translation is an abstract function `t`. Labels and names are translation keys passed to it.
- Icon components, their props and `IconLibrary.getComponent` are left out. A library match is an abstract reference `R` wrapped as `LibraryIcon`.
- The type selector's list of choices (lines 86-89) is rendering and is left out. `GetName` is what it shows for each choice.
- The values of `maxNameLength`, `maxDescriptionLength` and `maxOptions` are not part of this model. They are the fields of a `Limits` parameter.
- Lengths are counted in Unicode characters. JavaScript counts UTF-16 code units, so the two differ for characters outside the Basic Multilingual Plane.
- The options payload is modelled as a present-or-absent list. The inner `options?.options` case, where a payload exists without a list, is treated as absent.
- When react-hook-form revalidates (`mode: "all"`) is left out. Validity is a function of the current values.
- DataAttributeForm.Draft.EditOption: requires the index to be below the current option count. The source only attaches the handler to rendered entries, so it never writes past the end of the list.
- The option inputs and the `+` button are shown only while the data type is `List` (line 93). `DataAttributeForm.Draft.EditOption` and `DataAttributeForm.Draft.ClickAddOption` accept any data type; every property proved about them holds for all types.
- No check that a List attribute has non-empty options. The form leaves that to the persistence layer, and so does the model.
- DataAttributesHelper.GetIcon: treats every lookup result as a match. The source tests the result for truthiness, and the lookup's result type is not part of this model.
