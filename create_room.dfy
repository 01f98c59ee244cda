/**
 * The form for a new room (`CreateRoomView`): the room-type dropdown and the
 * validation of the room name, which decides whether "Continue" is enabled.
 */
module CreateRoom {
  import opened Wrappers
  import opened RoomTypes

  /** The dropdown's height when open and when closed. */
  const OpenHeight: int := 200
  const ClosedHeight: int := 50
  /** The dropdown label's text before a type is chosen. */
  const Placeholder: string := "Select Room Type"
  /** The shortest name that enables "Continue", and the longest name the field accepts. */
  const MinNameLength: nat := 5
  const MaxNameLength: nat := 20

  /** `s` with `length` characters at `location` replaced by `replacement`. */
  function ReplaceRange(s: string, location: nat, length: nat, replacement: string): (r: string)
    requires location + length <= |s|
    ensures |r| == |s| - length + |replacement|
    ensures r[..location] == s[..location]
    ensures r[location..location + |replacement|] == replacement
    ensures r[location + |replacement|..] == s[location + length..]
  {
    s[..location] + replacement + s[location + length..]
  }

  /** The text an edit proposes: the field's text, or "" when it is nil, with the range replaced. */
  function ProposedText(text: Option<string>, location: nat, length: nat, replacement: string): string
    requires location + length <= |text.GetOr("")|
  {
    ReplaceRange(text.GetOr(""), location, length, replacement)
  }

  /** What the text-field delegate decides for one edit. */
  datatype EditOutcome = EditOutcome(accepted: bool, enabled: bool)

  /**
   * `textField(_:shouldChangeCharactersIn:replacementString:)` as written:
   * both the button and the answer are computed from the proposed text,
   * whether or not the edit is accepted.
   */
  function AsWrittenEdit(text: Option<string>, location: nat, length: nat, replacement: string): (o: EditOutcome)
    requires location + length <= |text.GetOr("")|
    ensures o.accepted <==> |ProposedText(text, location, length, replacement)| <= MaxNameLength
    ensures o.enabled <==> |ProposedText(text, location, length, replacement)| >= MinNameLength
  {
    var proposed := ProposedText(text, location, length, replacement);
    EditOutcome(|proposed| <= MaxNameLength, |proposed| >= MinNameLength)
  }

  /** The field's text once the edit has been accepted or refused. */
  function TextAfter(text: Option<string>, location: nat, length: nat, replacement: string, accepted: bool): string
    requires location + length <= |text.GetOr("")|
  {
    if accepted then ProposedText(text, location, length, replacement) else text.GetOr("")
  }

  /** The button is enabled exactly when the name in the field is long enough, and the name is never too long. */
  predicate NameInSync(text: string, enabled: bool) {
    (enabled <==> |text| >= MinNameLength) && |text| <= MaxNameLength
  }

  /**
   * As written, a refused edit can still enable the button: with "abc" in
   * the field, pasting 18 characters proposes 21, which is refused, yet the
   * button is enabled while the field keeps a 3-character name.
   */
  lemma RefusedEditEnablesShortName()
    ensures var text, replacement := Some("abc"), "defghijklmnopqrstu";
      var o := AsWrittenEdit(text, 3, 0, replacement);
      NameInSync("abc", false) && !o.accepted && o.enabled &&
      !NameInSync(TextAfter(text, 3, 0, replacement, o.accepted), o.enabled)
  {
    var replacement := "defghijklmnopqrstu";
    assert |ProposedText(Some("abc"), 3, 0, replacement)| == 21;
  }

  /** The evidently intended delegate: the button follows the text the field will hold after the edit. */
  function IntendedEdit(text: Option<string>, location: nat, length: nat, replacement: string): EditOutcome
    requires location + length <= |text.GetOr("")|
  {
    var proposed := ProposedText(text, location, length, replacement);
    var accepted := |proposed| <= MaxNameLength;
    EditOutcome(accepted, |TextAfter(text, location, length, replacement, accepted)| >= MinNameLength)
  }

  /**
   * The intended delegate keeps the button in step with the name: from a
   * field where they agree, every edit leads to a field where they agree,
   * and it accepts and refuses exactly the edits the written code does.
   */
  lemma IntendedEditKeepsNameInSync(text: string, enabled: bool, location: nat, length: nat, replacement: string)
    requires location + length <= |text|
    requires NameInSync(text, enabled)
    ensures var o := IntendedEdit(Some(text), location, length, replacement);
      NameInSync(TextAfter(Some(text), location, length, replacement, o.accepted), o.enabled) &&
      o.accepted == AsWrittenEdit(Some(text), location, length, replacement).accepted
  {
  }

  class CreateRoomView {
    var isDropDownOpen: bool
    /** The height constraint of the dropdown table. */
    var tableHeight: int
    var dropdownLabelHidden: bool
    var tableHidden: bool
    var selectedType: Option<RoomType>
    /** The dropdown label's text; nil once the type is set to nil. */
    var dropdownLabelText: Option<string>
    /** The room-name field's text. */
    var text: Option<string>
    /** `continueButton.isEnabled`. */
    var continueEnabled: bool

    /** The dropdown's views follow `isDropDownOpen`, and the label shows the chosen type. */
    predicate Valid()
      reads this
    {
      tableHeight == (if isDropDownOpen then OpenHeight else ClosedHeight) &&
      dropdownLabelHidden == isDropDownOpen && tableHidden == !isDropDownOpen &&
      (selectedType.Some? ==> dropdownLabelText == Some(selectedType.value.RawValue()))
    }

    /** `setupViews` and `setupConstraints`: a closed dropdown showing the placeholder, an empty name, "Continue" disabled. */
    constructor ()
      ensures Valid()
      ensures !isDropDownOpen && selectedType == None && dropdownLabelText == Some(Placeholder)
      ensures text == Some("") && !continueEnabled
    {
      isDropDownOpen := false;
      tableHeight := ClosedHeight;
      dropdownLabelHidden := false;
      tableHidden := true;
      selectedType := None;
      dropdownLabelText := Some(Placeholder);
      text := Some("");
      continueEnabled := false;
    }

    /** Setting `isDropDownOpen` (its `didSet`): open shows the 200-point table and hides the label; closed, the reverse at 50. */
    method SetDropDownOpen(open: bool)
      requires Valid()
      modifies this`isDropDownOpen, this`tableHeight, this`dropdownLabelHidden, this`tableHidden
      ensures Valid() && isDropDownOpen == open
      ensures tableHeight == (if open then 200 else 50) && dropdownLabelHidden == open && tableHidden == !open
    {
      isDropDownOpen := open;
      tableHeight := if open then OpenHeight else ClosedHeight;
      dropdownLabelHidden := open;
      tableHidden := !open;
    }

    /** Setting `selectedType` (its `didSet`): the label shows the raw value, or nil. */
    method SetSelectedType(t: Option<RoomType>)
      requires Valid()
      modifies this`selectedType, this`dropdownLabelText
      ensures Valid() && selectedType == t
      ensures dropdownLabelText == if t.Some? then Some(t.value.RawValue()) else None
    {
      selectedType := t;
      dropdownLabelText := if t.Some? then Some(t.value.RawValue()) else None;
    }

    /** `dropdownLabelTapped()`: toggles the dropdown. */
    method DropdownLabelTapped()
      requires Valid()
      modifies this`isDropDownOpen, this`tableHeight, this`dropdownLabelHidden, this`tableHidden
      ensures Valid() && isDropDownOpen == !old(isDropDownOpen)
    {
      SetDropDownOpen(!isDropDownOpen);
    }

    /** `tableView(_:numberOfRowsInSection:)`: one row per room type. */
    function NumberOfRows(): (n: nat)
      ensures n == 7
      ensures n <= |AllCases| && forall t: RoomType :: t in AllCases[..n]
    {
      forall t: RoomType ensures t in AllCases {
        AllCasesComplete(t);
      }
      assert AllCases[..|AllCases|] == AllCases;
      |AllCases|
    }

    /** `tableView(_:didSelectRowAt:)`: selects the row's room type, shows its raw value and toggles the dropdown. */
    method DidSelectRowAt(row: nat)
      requires Valid() && row < |AllCases|
      modifies this`selectedType, this`dropdownLabelText, this`isDropDownOpen, this`tableHeight,
        this`dropdownLabelHidden, this`tableHidden
      ensures Valid()
      ensures selectedType == Some(AllCases[row]) && dropdownLabelText == Some(AllCases[row].RawValue())
      ensures isDropDownOpen == !old(isDropDownOpen)
    {
      SetSelectedType(Some(AllCases[row]));
      SetDropDownOpen(!isDropDownOpen);
    }

    /**
     * `textField(_:shouldChangeCharactersIn:replacementString:)`: enables
     * "Continue" when the proposed name has at least 5 characters, disables
     * it otherwise, and accepts the edit when the proposed name has at most 20.
     */
    method ShouldChangeCharactersIn(location: nat, length: nat, replacement: string) returns (accept: bool)
      requires location + length <= |text.GetOr("")|
      modifies this`continueEnabled
      ensures accept == AsWrittenEdit(text, location, length, replacement).accepted
      ensures continueEnabled == AsWrittenEdit(text, location, length, replacement).enabled
    {
      var current := if text.Some? then text.value else "";
      var proposed := current[..location] + replacement + current[location + length..];
      if |proposed| >= MinNameLength {
        continueEnabled := true;
      } else {
        continueEnabled := false;
      }
      accept := |proposed| <= MaxNameLength;
    }

    /** An edit of the name field as UIKit applies it: ask the delegate, and replace the text only when it accepts. */
    method EditName(location: nat, length: nat, replacement: string)
      requires location + length <= |text.GetOr("")|
      modifies this`continueEnabled, this`text
      ensures var o := AsWrittenEdit(old(text), location, length, replacement);
        text == Some(TextAfter(old(text), location, length, replacement, o.accepted)) && continueEnabled == o.enabled
    {
      var accept := ShouldChangeCharactersIn(location, length, replacement);
      text := Some(TextAfter(text, location, length, replacement, accept));
    }
  }
}
