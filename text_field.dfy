/**
 * A generic text field element of the payment form UI. What a particular
 * field accepts, how long it may grow and how it validates comes from its
 * configuration; the element keeps the current text sanitised against that
 * configuration and derives its placeholder, validation and error text.
 */
module TextField {
  import opened Common

  /** The error of an invalid text. Whether it is shown depends on whether the
      user is still typing; the two flags tabulate that decision. */
  datatype ValidationError = ValidationError(
    localizedDescription: string,
    showWhileEditing: bool,
    showWhenNotEditing: bool)
  {
    function ShouldDisplay(isUserEditing: bool): bool {
      if isUserEditing then showWhileEditing else showWhenNotEditing
    }
  }

  datatype ValidationState = Valid | Invalid(error: ValidationError)

  /** The parts of a field configuration the element consults. The length limit
      may depend on the text itself (a card number's limit depends on its brand). */
  datatype Configuration = Configuration(
    fieldLabel: string,
    accessibilityLabel: string,
    placeholderShouldFloat: bool,
    defaultValue: Option<string>,
    disallowedCharacters: set<char>,
    maxLength: string -> nat,
    validate: (string, bool) -> ValidationState)

  /** A localized format with a single `%@` slot, split around that slot. */
  datatype FormatTemplate = FormatTemplate(before: string, after: string) {
    function Format(argument: string): string {
      before + argument + after
    }
  }

  datatype ViewModel = ViewModel(
    floatingPlaceholder: Option<string>,
    staticPlaceholder: Option<string>,
    accessibilityLabel: string,
    validationState: ValidationState)

  ghost predicate Avoids(s: string, chars: set<char>) {
    forall i :: 0 <= i < |s| ==> s[i] !in chars
  }

  /** Removes every character of `chars` from `s`, keeping the others in order. */
  function RemoveCharacters(s: string, chars: set<char>): (r: string)
    ensures Avoids(r, chars)
    ensures forall c :: multiset(r)[c] == if c in chars then 0 else multiset(s)[c]
  {
    if s == [] then []
    else
      var rest := RemoveCharacters(s[1..], chars);
      assert s == [s[0]] + s[1..];
      if s[0] in chars then rest else [s[0]] + rest
  }

  /** Removing characters distributes over concatenation: together with the
      single-character cases this pins the function down completely. */
  lemma {:induction false} RemoveCharactersAppend(a: string, b: string, chars: set<char>)
    ensures RemoveCharacters(a + b, chars) == RemoveCharacters(a, chars) + RemoveCharacters(b, chars)
  {
    if a == [] {
      assert a + b == b;
    } else {
      assert (a + b)[0] == a[0] && (a + b)[1..] == a[1..] + b;
      RemoveCharactersAppend(a[1..], b, chars);
    }
  }

  /** A text that already avoids `chars` is left as it is. */
  lemma {:induction false} RemoveCharactersKeepsClean(s: string, chars: set<char>)
    requires Avoids(s, chars)
    ensures RemoveCharacters(s, chars) == s
  {
    if s != [] {
      RemoveCharactersKeepsClean(s[1..], chars);
    }
  }

  /** The text the element stores for `text`: disallowed characters removed,
      then cut to the configuration's limit for the filtered text. */
  function Sanitize(config: Configuration, text: string): (r: string)
    ensures Avoids(r, config.disallowedCharacters)
    ensures r <= RemoveCharacters(text, config.disallowedCharacters)
    ensures |r| <= config.maxLength(RemoveCharacters(text, config.disallowedCharacters))
    ensures |r| < |RemoveCharacters(text, config.disallowedCharacters)| ==>
              |r| == config.maxLength(RemoveCharacters(text, config.disallowedCharacters))
  {
    var filtered := RemoveCharacters(text, config.disallowedCharacters);
    filtered[..Min(|filtered|, config.maxLength(filtered))]
  }

  lemma SanitizeEmpty(config: Configuration)
    ensures Sanitize(config, "") == ""
  {
  }

  /** Sanitising a sanitised text changes nothing exactly when the limit for
      that text admits its whole length. */
  lemma SanitizeFixpoint(config: Configuration, text: string)
    ensures var s := Sanitize(config, text);
            Sanitize(config, s) == s <==> |s| <= config.maxLength(s)
  {
    var s := Sanitize(config, text);
    RemoveCharactersKeepsClean(s, config.disallowedCharacters);
  }

  /** The placeholder: the plain label for a required field, the "optional"
      format of the label otherwise. */
  function Placeholder(config: Configuration, isOptional: bool, optionalFormat: FormatTemplate): (r: string)
    ensures !isOptional ==> r == config.fieldLabel
    ensures isOptional ==>
              |r| == |optionalFormat.before| + |config.fieldLabel| + |optionalFormat.after|
              && r[|optionalFormat.before|..|optionalFormat.before| + |config.fieldLabel|] == config.fieldLabel
    ensures isOptional ==>
              r[..|optionalFormat.before|] == optionalFormat.before
              && r[|optionalFormat.before| + |config.fieldLabel|..] == optionalFormat.after
  {
    if !isOptional then config.fieldLabel else optionalFormat.Format(config.fieldLabel)
  }

  /** The error text shown under a field, if any. */
  function ErrorTextFor(state: ValidationState, isEditing: bool): (r: Option<string>)
    ensures r.Some? <==> state.Invalid? && state.error.ShouldDisplay(isEditing)
    ensures r.Some? ==> r.value == state.error.localizedDescription
  {
    match state
    case Invalid(error) => if error.ShouldDisplay(isEditing) then Some(error.localizedDescription) else None
    case Valid => None
  }

  class TextFieldElement {
    var configuration: Configuration
    var text: string
    var isEditing: bool
    var isOptional: bool

    /** The stored text never holds a character the configuration disallows. */
    ghost predicate Valid()
      reads this
    {
      Avoids(text, configuration.disallowedCharacters)
    }

    constructor (configuration: Configuration)
      ensures Valid()
      ensures this.configuration == configuration
      ensures text == Sanitize(configuration, configuration.defaultValue.GetOr(""))
      ensures !isEditing && !isOptional
    {
      this.configuration := configuration;
      text := Sanitize(configuration, configuration.defaultValue.GetOr(""));
      isEditing := false;
      isOptional := false;
    }

    /** Manually sets the text; the element keeps the sanitised form. */
    method SetText(newText: string)
      modifies this`text
      ensures Valid()
      ensures text == Sanitize(configuration, newText)
    {
      text := Sanitize(configuration, newText);
    }

    /** Assigning a configuration resets the text to the sanitised empty text. */
    method SetConfiguration(newConfiguration: Configuration)
      modifies this`configuration, this`text
      ensures Valid()
      ensures configuration == newConfiguration && text == ""
    {
      configuration := newConfiguration;
      SetText("");
      SanitizeEmpty(configuration);
    }

    method SetOptional(optional: bool)
      modifies this`isOptional
      ensures isOptional == optional
    {
      isOptional := optional;
    }

    /** The configuration's verdict on the current text and optional flag. */
    function CurrentValidationState(): (r: ValidationState)
      reads this
      ensures r == configuration.validate(text, isOptional)
    {
      configuration.validate(text, isOptional)
    }

    /** The part of the view model this element derives itself. */
    function CurrentViewModel(optionalFormat: FormatTemplate): (vm: ViewModel)
      reads this
      ensures vm.floatingPlaceholder.Some? != vm.staticPlaceholder.Some?
      ensures vm.floatingPlaceholder.Some? <==> configuration.placeholderShouldFloat
      ensures var p := if vm.floatingPlaceholder.Some? then vm.floatingPlaceholder.value else vm.staticPlaceholder.value;
              p == (if isOptional then optionalFormat.Format(configuration.fieldLabel) else configuration.fieldLabel)
      ensures vm.accessibilityLabel == configuration.accessibilityLabel
      ensures vm.validationState == configuration.validate(text, isOptional)
    {
      var placeholder := Placeholder(configuration, isOptional, optionalFormat);
      ViewModel(
        if configuration.placeholderShouldFloat then Some(placeholder) else None,
        if configuration.placeholderShouldFloat then None else Some(placeholder),
        configuration.accessibilityLabel,
        CurrentValidationState())
    }

    function ErrorText(): (r: Option<string>)
      reads this
      ensures r.Some? <==>
                configuration.validate(text, isOptional).Invalid?
                && configuration.validate(text, isOptional).error.ShouldDisplay(isEditing)
      ensures r.Some? ==> r.value == configuration.validate(text, isOptional).error.localizedDescription
    {
      ErrorTextFor(CurrentValidationState(), isEditing)
    }

    /** The view reports new text. The stored text takes the sanitised view text;
        the element asks to move to the next field only when the text changed,
        reached its limit and is valid. `viewIsEditing` is the view's editing
        flag as read at the end (after the view ended editing, when it did). */
    method TextFieldViewDidUpdate(viewText: string, viewIsEditing: bool) returns (advanced: bool)
      modifies this`text, this`isEditing
      ensures Valid()
      ensures text == Sanitize(configuration, viewText)
      ensures advanced <==>
                text != old(text)
                && |text| == configuration.maxLength(text)
                && configuration.validate(text, isOptional).Valid?
      ensures isEditing == viewIsEditing
    {
      var newText := Sanitize(configuration, viewText);
      advanced := false;
      if text != newText {
        text := newText;
        if |text| == configuration.maxLength(text) && CurrentValidationState().Valid? {
          advanced := true;
        }
      }
      isEditing := viewIsEditing;
    }
  }
}
