/** `DataAttributesHelper`: the per-data-type lookups used by the attribute
    editor and by anything that renders an attribute. Each is a total
    function over `DataType`: the display name, the display icon and the
    input-validation pattern. */
module DataAttributesHelper {
  import opened AttributeTypes
  import NumericPattern

  // ---------------------------------------------------------------------------
  // Display name

  /** `getName`: the translated display name; `t` is the translation function.
      A value outside the enum gets the empty string, untranslated. */
  function GetName(dataType: DataType, t: string -> string): (name: string)
    ensures !dataType.IsMember() ==> name == ""
  {
    match dataType
    case Boolean => t("Boolean")
    case Number => t("Number")
    case String => t("Text")
    case List => t("List")
    case Unrecognised(_) => ""
  }

  /** Each member of the enum is shown under its own translation key. */
  lemma NameKeys(t: string -> string)
    ensures GetName(Boolean, t) == t("Boolean")
    ensures GetName(Number, t) == t("Number")
    ensures GetName(String, t) == t("Text")
    ensures GetName(List, t) == t("List")
    ensures forall raw :: GetName(Unrecognised(raw), t) == ""
  {
  }

  /** With a translation that keeps distinct keys apart, distinct members of
      the enum get distinct names, so the type selector never shows two
      entries under one label. */
  lemma NamesDistinguishMembers(t: string -> string, a: DataType, b: DataType)
    requires forall x, y :: t(x) == t(y) ==> x == y
    requires a.IsMember() && b.IsMember()
    requires GetName(a, t) == GetName(b, t)
    ensures a == b
  {
  }

  // ---------------------------------------------------------------------------
  // Display icon

  /** The icons the catalog can return: the four per-type defaults, or the
      component the icon library gives for a keyword match of type `R`. */
  datatype Icon<R> = DoneIcon | HashtagIcon | CaseSensitiveIcon | TableOfContentsIcon | LibraryIcon(ref: R)

  /** A JavaScript string is falsy when it is `undefined` or empty. */
  predicate Truthy(keyword: Option<string>) {
    keyword.Some? && keyword.value != ""
  }

  /** The per-type default icon; `None` is `null`. */
  function DefaultIcon<R>(dataType: DataType): (icon: Option<Icon<R>>)
    ensures icon.Some? <==> dataType.IsMember()
    ensures icon.Some? ==> !icon.value.LibraryIcon?
  {
    match dataType
    case Boolean => Some(DoneIcon)
    case Number => Some(HashtagIcon)
    case String => Some(CaseSensitiveIcon)
    case List => Some(TableOfContentsIcon)
    case Unrecognised(_) => None
  }

  /** `getIcon`: the keyword is looked up in the icon library, through `find`,
      only when it is truthy; a match wins over the data type; otherwise the
      per-type default, or `null` for a value outside the enum. */
  function GetIcon<R>(dataType: DataType, keyword: Option<string>, find: string -> Option<R>): (icon: Option<Icon<R>>)
    ensures icon.None? <==> !dataType.IsMember() && (Truthy(keyword) ==> find(keyword.value).None?)
    ensures (icon.Some? && icon.value.LibraryIcon?) <==> Truthy(keyword) && find(keyword.value).Some?
  {
    var found := if Truthy(keyword) then find(keyword.value) else None;
    if found.Some? then Some(LibraryIcon(found.value)) else DefaultIcon(dataType)
  }

  /** A keyword match takes precedence over every data type's own icon. */
  lemma KeywordMatchTakesPrecedence<R>(dataType: DataType, keyword: string, find: string -> Option<R>)
    requires keyword != "" && find(keyword).Some?
    ensures GetIcon(dataType, Some(keyword), find) == Some(LibraryIcon(find(keyword).value))
  {
  }

  /** An absent or empty keyword is never looked up: the result does not
      depend on the lookup at all and is the per-type default. */
  lemma FalsyKeywordSkipsLookup<R>(dataType: DataType, keyword: Option<string>, find: string -> Option<R>, other: string -> Option<R>)
    requires !Truthy(keyword)
    ensures GetIcon(dataType, keyword, find) == GetIcon(dataType, keyword, other) == DefaultIcon(dataType)
  {
  }

  /** Without a match the per-type default is returned. */
  lemma FallbackIcons<R>(dataType: DataType, keyword: Option<string>, find: string -> Option<R>)
    requires Truthy(keyword) ==> find(keyword.value).None?
    ensures dataType == Boolean ==> GetIcon(dataType, keyword, find) == Some(DoneIcon)
    ensures dataType == Number ==> GetIcon(dataType, keyword, find) == Some(HashtagIcon)
    ensures dataType == String ==> GetIcon(dataType, keyword, find) == Some(CaseSensitiveIcon)
    ensures dataType == List ==> GetIcon(dataType, keyword, find) == Some(TableOfContentsIcon)
    ensures !dataType.IsMember() ==> GetIcon(dataType, keyword, find) == None
  {
  }

  /** The per-type defaults are pairwise distinct, so without a keyword match
      the icon identifies the member of the enum. */
  lemma DefaultIconsDistinguishMembers<R>(a: DataType, b: DataType)
    requires a.IsMember() && DefaultIcon<R>(a) == DefaultIcon<R>(b)
    ensures a == b
  {
  }

  // ---------------------------------------------------------------------------
  // Validation pattern

  /** The patterns the catalog can return: only the numeric literal. */
  datatype Regex = NumericLiteralRegex

  /** The pattern's `test` on a whole input string. */
  predicate Test(regex: Regex, s: string) {
    match regex
    case NumericLiteralRegex => NumericPattern.Matches(s)
  }

  /** `getValidationRegex`: a pattern for a number attribute, `undefined` for
      any other data type (or a record without one). */
  function GetValidationRegex(attribute: Attribute): (regex: Option<Regex>)
    ensures regex.Some? <==> attribute.dataType == Some(Number)
  {
    match attribute.dataType
    case Some(Number) => Some(NumericLiteralRegex)
    case _ => None
  }

  /** The number pattern accepts a string exactly when it is an optional minus
      sign, one or more digits, and optionally a point and one or more digits. */
  lemma NumberRegexAcceptsNumericLiterals(attribute: Attribute, s: string)
    requires attribute.dataType == Some(Number)
    ensures GetValidationRegex(attribute).Some?
    ensures Test(GetValidationRegex(attribute).value, s) <==> NumericPattern.NumericLiteral(s)
  {
    NumericPattern.MatchesIffNumericLiteral(s);
  }

  /** Inputs a number attribute's pattern accepts and rejects. */
  lemma NumberRegexExamples(attribute: Attribute)
    requires attribute.dataType == Some(Number)
    ensures var regex := GetValidationRegex(attribute).value;
      && Test(regex, "10") && Test(regex, "-3") && Test(regex, "4.5") && Test(regex, "12.5")
      && !Test(regex, "") && !Test(regex, "-") && !Test(regex, "1.") && !Test(regex, ".5")
      && !Test(regex, "+1") && !Test(regex, "abc")
  {
  }
}
