/** The manual key-entry screen (EnterKeyActivity): a key field, an account-name field,
    an account-type choice and a status line, driven by the Submit, Clear and Cancel
    buttons and by edits of the key field. Saving the secret and closing the screen are
    recorded as a log of save calls and a `finished` flag. */
module EnterKeyScreen {
  import opened KeyNormalisation
  import opened KeyValidation

  datatype Option<+T> = None | Some(value: T)

  /** One call of AuthenticatorActivity.saveSecret: account name, secret, issuer
      (None for the null the screen passes) and the selected account-type position. */
  datatype SaveCall = SaveCall(accountName: string, secret: string, issuer: Option<string>, typeIndex: int)

  /** The buttons the screen listens to. */
  datatype Button = SubmitButton | ClearButton | CancelButton

  /** Everything on the screen that its handlers read or change. */
  datatype Screen = Screen(
    keyText: string,
    accountName: string,
    typeIndex: int,
    statusText: string,
    statusColour: Colour,
    finished: bool,
    saves: seq<SaveCall>)

  /** The save a successful submit of `s` makes: the secret it carries is already in
      normal form, whatever was typed. */
  function SaveOf(s: Screen): (call: SaveCall)
    ensures EnteredKey(call.secret) == call.secret
    ensures '0' !in call.secret && '1' !in call.secret
  {
    SaveCall(s.accountName, EnteredKey(s.keyText), None, s.typeIndex)
  }

  /** What the screen keeps true: every saved secret is in normal form, passes submit
      validation and carries no issuer, and once anything is saved the screen is finished. */
  predicate SavesAccepted(c: Collaborators, s: Screen) {
    && (forall i :: 0 <= i < |s.saves| ==>
          && Validation(c, s.saves[i].secret, true).acceptable
          && '0' !in s.saves[i].secret && '1' !in s.saves[i].secret
          && s.saves[i].issuer == None)
    && (s.saves != [] ==> s.finished)
  }

  /** The screen after `s` has shown the status `v`. */
  function Shown(s: Screen, v: Status): Screen {
    s.(statusText := v.text, statusColour := v.colour)
  }

  /** onClick: Submit validates (submitting) and, when the key is acceptable, saves and
      finishes; Clear empties the status, the account name and the key; Cancel finishes.
      A click never loses a save and adds at most one; a finished screen stays finished. */
  function Clicked(c: Collaborators, s: Screen, b: Button): (t: Screen)
    ensures |s.saves| <= |t.saves| <= |s.saves| + 1 && t.saves[..|s.saves|] == s.saves
    ensures s.finished ==> t.finished
    ensures t.typeIndex == s.typeIndex
  {
    match b
    case SubmitButton =>
      var v := Validation(c, s.keyText, true);
      if v.acceptable then Shown(s, v).(saves := s.saves + [SaveOf(s)], finished := true)
      else Shown(s, v)
    case ClearButton => s.(statusText := "", accountName := "", keyText := "")
    case CancelButton => s.(finished := true)
  }

  /** afterTextChanged: live validation (not submitting) of the current key text. */
  function TextChanged(c: Collaborators, s: Screen): (t: Screen)
    ensures t.statusColour != LayoutDefault
  {
    Shown(s, Validation(c, s.keyText, false))
  }

  /** Submit saves exactly one call and finishes if and only if submit validation accepts
      the key; otherwise nothing is saved and the screen stays as open as it was. Either way
      the status shows that validation and the fields are untouched. */
  lemma SubmitSavesIffAcceptable(c: Collaborators, s: Screen)
    ensures var t, v := Clicked(c, s, SubmitButton), Validation(c, s.keyText, true);
      && t.statusText == v.text && t.statusColour == v.colour
      && t.keyText == s.keyText && t.accountName == s.accountName && t.typeIndex == s.typeIndex
      && (v.acceptable ==>
            t.saves == s.saves + [SaveCall(s.accountName, EnteredKey(s.keyText), None, s.typeIndex)]
            && t.finished)
      && (!v.acceptable ==> t.saves == s.saves && t.finished == s.finished)
  {
  }

  /** Clear empties the status text, the account name and the key field whatever they held,
      and neither saves nor finishes. */
  lemma ClearEmptiesFields(c: Collaborators, s: Screen)
    ensures var t := Clicked(c, s, ClearButton);
      && t.statusText == "" && t.accountName == "" && t.keyText == ""
      && t.statusColour == s.statusColour && t.typeIndex == s.typeIndex
      && t.saves == s.saves && t.finished == s.finished
  {
  }

  /** Cancel finishes without saving and changes nothing else. */
  lemma CancelFinishesWithoutSaving(c: Collaborators, s: Screen)
    ensures var t := Clicked(c, s, CancelButton);
      t.finished && t.saves == s.saves && t == s.(finished := true)
  {
  }

  /** Typing re-validates with submitting = false: the status shows that validation and
      nothing else changes. */
  lemma TextChangeRevalidates(c: Collaborators, s: Screen)
    ensures var t, v := TextChanged(c, s), Validation(c, s.keyText, false);
      && t.statusText == v.text && t.statusColour == v.colour
      && t == s.(statusText := t.statusText, statusColour := t.statusColour)
  {
  }

  /** A green status while typing promises the submit: pressing Submit then saves the
      normalised key and finishes, and shows the same status. */
  lemma GreenWhileTypingThenSubmitSaves(c: Collaborators, s: Screen)
    requires TextChanged(c, s).statusColour == Green
    ensures var t := Clicked(c, TextChanged(c, s), SubmitButton);
      && t.saves == s.saves + [SaveOf(s)]
      && t.finished
      && t.statusText == TextChanged(c, s).statusText
  {
  }

  /** Every handler keeps the screen's invariant. */
  lemma ClickedKeepsSavesAccepted(c: Collaborators, s: Screen, b: Button)
    requires SavesAccepted(c, s)
    ensures SavesAccepted(c, Clicked(c, s, b))
  {
  }

  lemma TextChangedKeepsSavesAccepted(c: Collaborators, s: Screen)
    requires SavesAccepted(c, s)
    ensures SavesAccepted(c, TextChanged(c, s))
  {
  }

  /** The screen itself. Its fields are the ones the handlers read and write; the
      collaborators are fixed when it is created. */
  class EnterKeyActivity {
    const collaborators: Collaborators
    var keyText: string          // mKeyEntryField
    var accountName: string      // mAccountName
    var typeIndex: int           // mType's selected position
    var statusText: string       // mStatusText's text
    var statusColour: Colour     // mStatusText's colour
    var finished: bool           // finish() has been called
    var saves: seq<SaveCall>     // calls of AuthenticatorActivity.saveSecret

    function State(): Screen
      reads this
    {
      Screen(keyText, accountName, typeIndex, statusText, statusColour, finished, saves)
    }

    ghost predicate Valid()
      reads this
    {
      SavesAccepted(collaborators, State())
    }

    /** A freshly shown screen: empty fields, the first account type, nothing saved. */
    constructor (c: Collaborators)
      ensures Valid() && collaborators == c
      ensures State() == Screen("", "", 0, "", LayoutDefault, false, [])
    {
      collaborators := c;
      keyText, accountName, typeIndex := "", "", 0;
      statusText, statusColour := "", LayoutDefault;
      finished, saves := false, [];
    }

    /** getEnteredKey: the key field's text in normal form; the function EnteredKey
        defines that form and carries its properties. */
    method GetEnteredKey() returns (key: string)
      ensures key == EnteredKey(keyText)
      ensures '0' !in key && '1' !in key
    {
      key := EnteredKey(keyText);
    }

    /** validateKeyAndUpdateStatus: shows the validation of the current key and answers
        whether it is acceptable. */
    method ValidateKeyAndUpdateStatus(submitting: bool) returns (ok: bool)
      requires Valid()
      modifies this`statusText, this`statusColour
      ensures Valid()
      ensures var v := Validation(collaborators, keyText, submitting);
        ok == v.acceptable && State() == Shown(old(State()), v)
    {
      var key := GetEnteredKey();
      match collaborators.decode(key)
      case Err(message) =>
        statusText, statusColour := message, Red;
        ok := false;
      case Ok(decoded) =>
        if |decoded| < MIN_KEY_BYTES {
          statusText := if submitting then TOO_SHORT_MESSAGE else "";
          statusColour := Red;
          ok := false;
        } else {
          match collaborators.checkCode(key)
          case Ok(code) =>
            statusText, statusColour := CHECK_CODE_LABEL + code, Green;
            ok := true;
          case Err(_) =>
            statusText, statusColour := UNEXPECTED_PROBLEM_MESSAGE, Red;
            ok := false;
        }
    }

    /** onClick for the three buttons. */
    method OnClick(b: Button)
      requires Valid()
      modifies this
      ensures Valid()
      ensures State() == Clicked(collaborators, old(State()), b)
    {
      ClickedKeepsSavesAccepted(collaborators, State(), b);
      match b
      case SubmitButton =>
        var ok := ValidateKeyAndUpdateStatus(true);
        if ok {
          var key := GetEnteredKey();
          saves := saves + [SaveCall(accountName, key, None, typeIndex)];
          finished := true;
        }
      case ClearButton =>
        statusText := "";
        accountName := "";
        keyText := "";
      case CancelButton =>
        finished := true;
    }

    /** afterTextChanged: re-validates without submitting; the answer is discarded. */
    method AfterTextChanged()
      requires Valid()
      modifies this`statusText, this`statusColour
      ensures Valid()
      ensures State() == TextChanged(collaborators, old(State()))
    {
      var _ := ValidateKeyAndUpdateStatus(false);
    }

    /** The user replaces the key field's text; the framework then calls afterTextChanged. */
    method EditKey(text: string)
      requires Valid()
      modifies this`keyText, this`statusText, this`statusColour
      ensures Valid()
      ensures State() == TextChanged(collaborators, old(State()).(keyText := text))
    {
      keyText := text;
      AfterTextChanged();
    }

    /** The user replaces the account name; no handler runs. */
    method EditAccountName(name: string)
      requires Valid()
      modifies this`accountName
      ensures Valid()
      ensures State() == old(State()).(accountName := name)
    {
      accountName := name;
    }

    /** The user picks another account type; no handler runs. */
    method SelectType(index: int)
      requires Valid()
      modifies this`typeIndex
      ensures Valid()
      ensures State() == old(State()).(typeIndex := index)
    {
      typeIndex := index;
    }
  }
}
