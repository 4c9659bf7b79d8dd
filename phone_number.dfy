/**
 * The phone number element: a region picker next to a number text field.
 * Region metadata, its locale-sorted order, flag emoji, localized region
 * names and the E.164 formatting library are inputs of this model.
 */
module PhoneNumber {
  import opened Common
  import TextField

  /** Metadata of one dialling region, as the phone number library gives it. */
  datatype Metadata = Metadata(regionCode: string, prefix: string)

  datatype RegionInfo = RegionInfo(
    flagEmoji: Option<string>,
    name: string,
    labelName: string,
    metadata: Option<Metadata>)
  {
    function RegionCode(): Option<string> {
      match metadata
      case Some(m) => Some(m.regionCode)
      case None => None
    }
  }

  datatype DropdownItem = DropdownItem(pickerDisplayName: string, labelDisplayName: string, accessibilityLabel: string)

  /** A number parsed from an E.164 string: its region and its national number. */
  datatype E164Number = E164Number(countryCode: string, number: string)

  /** A number the library built from the typed text and the selected region:
      its E.164 rendering and the region's dialling prefix. */
  datatype FormattedNumber = FormattedNumber(e164: string, prefix: string)

  const GlobeEmoji: string := "\U{1F310}"

  /** The entry for one region: its flag, its localized name (the region code
      when the locale has none), the flag or else the code as the label, and
      the metadata itself. */
  function RegionInfoFor(m: Metadata, flagEmoji: string -> Option<string>, localizedName: string -> Option<string>): (r: RegionInfo)
    ensures r.RegionCode() == Some(m.regionCode) && r.flagEmoji == flagEmoji(m.regionCode)
    ensures localizedName(m.regionCode).None? ==> r.name == m.regionCode
    ensures localizedName(m.regionCode).Some? ==> r.name == localizedName(m.regionCode).value
    ensures r.labelName == (if r.flagEmoji.Some? then r.flagEmoji.value else m.regionCode)
  {
    var flag := flagEmoji(m.regionCode);
    RegionInfo(flag, localizedName(m.regionCode).GetOr(m.regionCode), flag.GetOr(m.regionCode), Some(m))
  }

  /** The region list: one entry per metadata record, in the given (locale
      sorted) order, followed by exactly one "Other" entry without metadata. */
  function SortedRegionInfo(
    sortedMetadata: seq<Metadata>,
    flagEmoji: string -> Option<string>,
    localizedName: string -> Option<string>,
    otherName: string): (r: seq<RegionInfo>)
    ensures |r| == |sortedMetadata| + 1
    ensures r[|r| - 1] == RegionInfo(Some(GlobeEmoji), otherName, GlobeEmoji, None)
    ensures forall i :: 0 <= i < |sortedMetadata| ==>
              r[i].metadata == Some(sortedMetadata[i])
              && r[i].flagEmoji == flagEmoji(sortedMetadata[i].regionCode)
              && r[i].name == localizedName(sortedMetadata[i].regionCode).GetOr(sortedMetadata[i].regionCode)
              && r[i].labelName == flagEmoji(sortedMetadata[i].regionCode).GetOr(sortedMetadata[i].regionCode)
    ensures forall i :: 0 <= i < |r| ==> (r[i].RegionCode().None? <==> i == |r| - 1)
  {
    var listed := seq(|sortedMetadata|, i requires 0 <= i < |sortedMetadata| =>
                        RegionInfoFor(sortedMetadata[i], flagEmoji, localizedName));
    listed + [RegionInfo(Some(GlobeEmoji), otherName, GlobeEmoji, None)]
  }

  /** The first entry whose region code equals `code` (optionals compare equal
      when both are absent). */
  function FirstIndexOfRegion(regions: seq<RegionInfo>, code: Option<string>): (r: Option<nat>)
    ensures r.Some? ==> r.value < |regions| && regions[r.value].RegionCode() == code
    ensures r.Some? ==> forall j :: 0 <= j < r.value ==> regions[j].RegionCode() != code
    ensures r.None? ==> forall j :: 0 <= j < |regions| ==> regions[j].RegionCode() != code
  {
    if regions == [] then None
    else if regions[0].RegionCode() == code then Some(0)
    else
      match FirstIndexOfRegion(regions[1..], code)
      case Some(k) => Some(k + 1)
      case None => None
  }

  /** The region selected before any default value is looked at: the first
      entry for `defaultCountry`, or for the locale's region when there is no
      default country, and the first entry when nothing matches. */
  function InitialRegionIndex(regions: seq<RegionInfo>, defaultCountry: Option<string>, localeRegion: Option<string>): (r: nat)
    requires regions != []
    ensures r < |regions|
    ensures var wanted := if defaultCountry.Some? then defaultCountry else localeRegion;
            (exists j :: 0 <= j < |regions| && regions[j].RegionCode() == wanted) ==>
              regions[r].RegionCode() == wanted && forall j :: 0 <= j < r ==> regions[j].RegionCode() != wanted
    ensures var wanted := if defaultCountry.Some? then defaultCountry else localeRegion;
            (forall j :: 0 <= j < |regions| ==> regions[j].RegionCode() != wanted) ==> r == 0
  {
    FirstIndexOfRegion(regions, if defaultCountry.Some? then defaultCountry else localeRegion).GetOr(0)
  }

  /** With neither a default country nor a locale region, the absent region
      code matches the "Other" entry, which is last. */
  lemma NoCountryNoLocaleSelectsOther(
    sortedMetadata: seq<Metadata>,
    flagEmoji: string -> Option<string>,
    localizedName: string -> Option<string>,
    otherName: string)
    ensures var regions := SortedRegionInfo(sortedMetadata, flagEmoji, localizedName, otherName);
            InitialRegionIndex(regions, None, None) == |regions| - 1
  {
    var regions := SortedRegionInfo(sortedMetadata, flagEmoji, localizedName, otherName);
    assert regions[|regions| - 1].RegionCode() == None;
  }

  /** The picker text: flag, a space and the name when there is a flag. */
  function PickerDisplayName(info: RegionInfo): (r: string)
    ensures info.flagEmoji.None? ==> r == info.name
    ensures info.flagEmoji.Some? ==>
              var flag := info.flagEmoji.value;
              |r| == |flag| + 1 + |info.name| && r[..|flag|] == flag && r[|flag|] == ' ' && r[|flag| + 1..] == info.name
  {
    match info.flagEmoji
    case Some(flag) => flag + " " + info.name
    case None => info.name
  }

  function SortedPickerValues(regions: seq<RegionInfo>): (r: seq<DropdownItem>)
    ensures |r| == |regions|
    ensures forall i :: 0 <= i < |r| ==>
              r[i].labelDisplayName == regions[i].labelName && r[i].accessibilityLabel == regions[i].name
    ensures forall i :: 0 <= i < |r| ==>
              var shown := r[i].pickerDisplayName;
              |regions[i].name| <= |shown| && shown[|shown| - |regions[i].name|..] == regions[i].name
              && (regions[i].flagEmoji.Some? ==> regions[i].flagEmoji.value + " " <= shown)
              && (regions[i].flagEmoji.Some? ==> |shown| == |regions[i].flagEmoji.value| + 1 + |regions[i].name|)
              && (regions[i].flagEmoji.None? ==> shown == regions[i].name)
  {
    seq(|regions|, i requires 0 <= i < |regions| =>
      DropdownItem(PickerDisplayName(regions[i]), regions[i].labelName, regions[i].name))
  }

  /** The phone number text the element reports: nothing when the user has
      entered nothing (the E.164 text is empty or only the prefix), the E.164
      text otherwise, and the raw text when no number could be built but the
      field still validates. */
  function PhoneNumberTextOf(formatted: Option<FormattedNumber>, numberIsValid: bool, rawText: string): (r: Option<string>)
    ensures formatted.Some? ==>
              (r.None? <==> formatted.value.e164 == formatted.value.prefix || formatted.value.e164 == "")
    ensures formatted.Some? && r.Some? ==> r.value == formatted.value.e164
    ensures formatted.None? ==> (r.Some? <==> numberIsValid) && (r.Some? ==> r.value == rawText)
  {
    match formatted
    case Some(n) => if n.e164 == n.prefix || n.e164 == "" then None else Some(n.e164)
    case None => if numberIsValid then Some(rawText) else None
  }

  /** A reported number built by the library is never empty and never just
      the dialling prefix. */
  lemma PhoneNumberTextNeverBare(formatted: FormattedNumber, numberIsValid: bool, rawText: string)
    ensures var r := PhoneNumberTextOf(Some(formatted), numberIsValid, rawText);
            r.Some? ==> r.value != "" && r.value != formatted.prefix
  {
  }

  class PhoneNumberElement {
    const sortedRegionInfo: seq<RegionInfo>
    const numberElement: TextField.TextFieldElement
    /** The number field's configuration for a region code. */
    const phoneConfiguration: Option<string> -> TextField.Configuration
    /** The library's `PhoneNumber(number:countryCode:)` rendered as E.164. */
    const format: (string, Option<string>) -> Option<FormattedNumber>
    var selectedRegionIndex: nat
    var regionPrefixLabel: Option<string>

    ghost predicate Valid()
      reads this, numberElement
    {
      && selectedRegionIndex < |sortedRegionInfo|
      && sortedRegionInfo[|sortedRegionInfo| - 1].RegionCode().None?
      && numberElement.configuration == phoneConfiguration(sortedRegionInfo[selectedRegionIndex].RegionCode())
      && numberElement.Valid()
      && regionPrefixLabel == SelectedPrefix()
    }

    function SelectedRegionCode(): Option<string>
      reads this
      requires selectedRegionIndex < |sortedRegionInfo|
    {
      sortedRegionInfo[selectedRegionIndex].RegionCode()
    }

    function SelectedPrefix(): Option<string>
      reads this
      requires selectedRegionIndex < |sortedRegionInfo|
    {
      match sortedRegionInfo[selectedRegionIndex].metadata
      case Some(m) => Some(m.prefix)
      case None => None
    }

    /** Selects the initial region, then applies the default value: an E.164
        number of a listed region selects that region and fills in its national
        number; anything else becomes the text as it is. Assignments made here
        do not run the selection's observer, so the text is not cleared. */
    constructor (
      defaultValue: Option<string>,
      defaultCountry: Option<string>,
      localeRegion: Option<string>,
      sortedMetadata: seq<Metadata>,
      flagEmoji: string -> Option<string>,
      localizedName: string -> Option<string>,
      otherName: string,
      phoneConfiguration: Option<string> -> TextField.Configuration,
      fromE164: string -> Option<E164Number>,
      format: (string, Option<string>) -> Option<FormattedNumber>)
      ensures Valid() && fresh(numberElement)
      ensures sortedRegionInfo == SortedRegionInfo(sortedMetadata, flagEmoji, localizedName, otherName)
      ensures defaultValue.None? ==>
                selectedRegionIndex == InitialRegionIndex(sortedRegionInfo, defaultCountry, localeRegion)
                && numberElement.text == TextField.Sanitize(numberElement.configuration, numberElement.configuration.defaultValue.GetOr(""))
      ensures defaultValue.Some? ==>
                var parsed := fromE164(defaultValue.value);
                var found := if parsed.Some? then FirstIndexOfRegion(sortedRegionInfo, Some(parsed.value.countryCode)) else None;
                if found.Some? then
                  selectedRegionIndex == found.value
                  && numberElement.text == TextField.Sanitize(numberElement.configuration, parsed.value.number)
                else
                  selectedRegionIndex == InitialRegionIndex(sortedRegionInfo, defaultCountry, localeRegion)
                  && numberElement.text == TextField.Sanitize(numberElement.configuration, defaultValue.value)
    {
      var regions := SortedRegionInfo(sortedMetadata, flagEmoji, localizedName, otherName);
      var index := InitialRegionIndex(regions, defaultCountry, localeRegion);
      var numberText: Option<string> := None;
      if defaultValue.Some? {
        var parsed := fromE164(defaultValue.value);
        var found := if parsed.Some? then FirstIndexOfRegion(regions, Some(parsed.value.countryCode)) else None;
        if found.Some? {
          index := found.value;
          numberText := Some(parsed.value.number);
        } else {
          numberText := defaultValue;
        }
      }
      this.sortedRegionInfo := regions;
      this.phoneConfiguration := phoneConfiguration;
      this.format := format;
      selectedRegionIndex := index;
      regionPrefixLabel := match regions[index].metadata case Some(m) => Some(m.prefix) case None => None;
      numberElement := new TextField.TextFieldElement(phoneConfiguration(regions[index].RegionCode()));
      new;
      if numberText.Some? {
        numberElement.SetText(numberText.value);
      }
    }

    /** The user picks a region: the selection's observer updates the prefix
        label and replaces the number field's configuration, which clears it. */
    method SelectRegion(index: nat)
      requires Valid() && index < |sortedRegionInfo|
      modifies this, numberElement`configuration, numberElement`text
      ensures Valid()
      ensures selectedRegionIndex == index
      ensures regionPrefixLabel == SelectedPrefix()
      ensures numberElement.configuration == phoneConfiguration(sortedRegionInfo[index].RegionCode())
      ensures numberElement.text == ""
      ensures numberElement.isOptional == old(numberElement.isOptional)
      ensures numberElement.isEditing == old(numberElement.isEditing)
    {
      selectedRegionIndex := index;
      UpdateUI();
    }

    method UpdateUI()
      requires selectedRegionIndex < |sortedRegionInfo|
      requires sortedRegionInfo[|sortedRegionInfo| - 1].RegionCode().None?
      modifies this`regionPrefixLabel, numberElement`configuration, numberElement`text
      ensures Valid()
      ensures regionPrefixLabel == SelectedPrefix()
      ensures numberElement.configuration == phoneConfiguration(SelectedRegionCode())
      ensures numberElement.text == ""
      ensures numberElement.isOptional == old(numberElement.isOptional)
      ensures numberElement.isEditing == old(numberElement.isEditing)
    {
      regionPrefixLabel := SelectedPrefix();
      numberElement.SetConfiguration(phoneConfiguration(SelectedRegionCode()));
    }

    method ResetNumber()
      requires Valid()
      modifies numberElement`text
      ensures Valid()
      ensures numberElement.text == ""
      ensures numberElement.configuration == old(numberElement.configuration)
      ensures numberElement.isOptional == old(numberElement.isOptional)
      ensures numberElement.isEditing == old(numberElement.isEditing)
    {
      numberElement.SetText("");
      TextField.SanitizeEmpty(numberElement.configuration);
    }

    /** The reported number: absent when nothing was entered, the E.164 text
        of a number the library could build, else the raw text when valid. */
    function PhoneNumberText(): (r: Option<string>)
      reads this, numberElement
      requires Valid()
      ensures var formatted := format(numberElement.text, SelectedRegionCode());
              && (formatted.Some? ==> (r.None? <==> formatted.value.e164 == formatted.value.prefix || formatted.value.e164 == ""))
              && (formatted.Some? && r.Some? ==> r.value == formatted.value.e164)
              && (formatted.None? ==> (r.Some? <==> numberElement.CurrentValidationState().Valid?))
              && (formatted.None? && r.Some? ==> r.value == numberElement.text)
    {
      PhoneNumberTextOf(
        format(numberElement.text, SelectedRegionCode()),
        numberElement.CurrentValidationState().Valid?,
        numberElement.text)
    }
  }
}
