# Manual key entry of Google Authenticator for Android, in Dafny

This project models the decision core of `EnterKeyActivity`. That is the Android screen where
a user types a base32 shared secret for a one-time-password account, names the account,
picks an account type, and sees a live integrity check value while typing.

- `key_normalisation.dfy` (module `KeyNormalisation`) models `getEnteredKey`. Every `'1'`
  in the typed text becomes `'I'` and every `'0'` becomes `'O'`. These are two passes of
  `replaceAll` with one-character literal patterns, written as `ReplaceAll`. They are
  proved equal to a per-character reference map `NormalChar`.
- `key_validation.dfy` (module `KeyValidation`) models `validateKeyAndUpdateStatus` as the
  pure decision function `Validation`. It takes the normalised key to one of four outcomes:
  - a decoding error
  - a key shorter than `MIN_KEY_BYTES` (10) bytes
  - a check-code failure
  - success

  Each outcome fixes the status text, the status colour (`Red`/`Green`) and the
  "acceptable" answer. The base32 decoder (`Base32String.decode`, section 6 of RFC 4648)
  and the check-code routine (`CheckCodeActivity.getCheckCode`) are not part of this model.
  Both are collaborators passed in as total functions that return a value or an error
  (`Collaborators`). So the check code is deterministic for a given normalised key.
- `enter_key_screen.dfy` (module `EnterKeyScreen`) models the screen's state:
  - The class `EnterKeyActivity` holds the fields the handlers read and write: key text,
    account name, selected type position, status text, status colour, a `finished` flag
    and a log of `saveSecret` calls.
  - Its methods (`ValidateKeyAndUpdateStatus`, `OnClick`, `AfterTextChanged`) update
    these fields in place. Each method is proved equal to a pure transition function on
    the `Screen` value (`Shown`, `Clicked`, `TextChanged`).
  - The lemmas state what Submit, Clear, Cancel and typing do, and the invariant
    `SavesAccepted`: every saved secret is in normal form, passes submit validation and
    has no issuer, and the screen is finished once anything is saved.

## Model

| member | source | states |
|---|---|---|
| `KeyNormalisation.ReplaceAll` | mobile/android/src/com/google/android/apps/authenticator/EnterKeyActivity.java:83 | keeps the length; every position becomes `to` if it held `from` and is otherwise unchanged; no `from` is left when `from != to` |
| `KeyNormalisation.EnteredKey` | mobile/android/src/com/google/android/apps/authenticator/EnterKeyActivity.java:81-84 | keeps the length; each position is mapped on its own by the reference map (`'1'`→`'I'`, `'0'`→`'O'`, anything else unchanged); the result contains no `'0'` and no `'1'` |
| `KeyNormalisation.EnteredKeyIdempotent` | mobile/android/src/com/google/android/apps/authenticator/EnterKeyActivity.java:83 | normalising twice equals normalising once |
| `KeyNormalisation.EnteredKeyFixesDigitFree` | mobile/android/src/com/google/android/apps/authenticator/EnterKeyActivity.java:83 | normalisation leaves a text unchanged if and only if it contains no `'0'` and no `'1'` |
| `KeyNormalisation.EnteredKeyAppend` | mobile/android/src/com/google/android/apps/authenticator/EnterKeyActivity.java:83 | normalising a concatenation is concatenating the normalised parts (positions are independent) |
| `KeyNormalisation.EnteredKeyExample` | mobile/android/src/com/google/android/apps/authenticator/EnterKeyActivity.java:78-84 | `"10O1"` is entered as `"IOOI"` |
| `KeyValidation.Validation` | mobile/android/src/com/google/android/apps/authenticator/EnterKeyActivity.java:89-115 | every validation colours the status (never the layout default); it is green exactly when the key is acceptable |
| `KeyValidation.DecodingErrorShowsMessage` | mobile/android/src/com/google/android/apps/authenticator/EnterKeyActivity.java:106-109 | a decoding error shows the decoder's own message in red and answers false |
| `KeyValidation.TooShortKeyRejected` | mobile/android/src/com/google/android/apps/authenticator/EnterKeyActivity.java:93-98 | a key that decodes to fewer than 10 bytes answers false in red; the text is `"Key value is too short"` when submitting and `""` otherwise |
| `KeyValidation.CheckCodeShown` | mobile/android/src/com/google/android/apps/authenticator/EnterKeyActivity.java:99-104 | a key that decodes to at least 10 bytes and has a check code answers true, in green, with text `"Integrity check value: "` followed by the code |
| `KeyValidation.SecurityFailureRejected` | mobile/android/src/com/google/android/apps/authenticator/EnterKeyActivity.java:110-113 | a check-code failure after a long-enough decode shows `"Unexpected problem"` in red and answers false |
| `KeyValidation.AcceptableIff` | mobile/android/src/com/google/android/apps/authenticator/EnterKeyActivity.java:89-115 | both directions: acceptable if and only if the normalised key decodes, to at least 10 bytes, and its check code is computed |
| `KeyValidation.ValidationOfNormalForm` | mobile/android/src/com/google/android/apps/authenticator/EnterKeyActivity.java:90-92 | validation sees only the normal form: validating the normalised text gives the same status as validating the typed text |
| `KeyValidation.SubmittingOnlyChangesTooShortText` | mobile/android/src/com/google/android/apps/authenticator/EnterKeyActivity.java:93-98 | live and submit validation agree on colour and answer; their texts differ only for a short key, where live shows `""` and submit shows the "too short" message |
| `EnterKeyScreen.SaveOf` | mobile/android/src/com/google/android/apps/authenticator/EnterKeyActivity.java:120-124 | the secret a save carries is already in normal form: normalising it again changes nothing, and it contains no `'0'` and no `'1'` |
| `EnterKeyScreen.Clicked` | mobile/android/src/com/google/android/apps/authenticator/EnterKeyActivity.java:117-134 | a click never removes a save and adds at most one; a finished screen stays finished; the type selection is never changed |
| `EnterKeyScreen.TextChanged` | mobile/android/src/com/google/android/apps/authenticator/EnterKeyActivity.java:139-141 | after typing, the status is always coloured red or green |
| `EnterKeyScreen.SubmitSavesIffAcceptable` | mobile/android/src/com/google/android/apps/authenticator/EnterKeyActivity.java:117-126 | Submit shows submit validation. If it accepts, exactly one save of (account name, normalised key, no issuer, type position) is appended and the screen finishes. Otherwise nothing is saved and `finished` is unchanged. The fields are untouched either way |
| `EnterKeyScreen.ClearEmptiesFields` | mobile/android/src/com/google/android/apps/authenticator/EnterKeyActivity.java:127-130 | Clear empties the status text, account name and key field whatever they held; it neither saves nor finishes, and the colour and type are kept |
| `EnterKeyScreen.CancelFinishesWithoutSaving` | mobile/android/src/com/google/android/apps/authenticator/EnterKeyActivity.java:131-133 | Cancel finishes, saves nothing and changes nothing else |
| `EnterKeyScreen.TextChangeRevalidates` | mobile/android/src/com/google/android/apps/authenticator/EnterKeyActivity.java:139-141 | typing shows validation with `submitting = false` and changes nothing else |
| `EnterKeyScreen.GreenWhileTypingThenSubmitSaves` | mobile/android/src/com/google/android/apps/authenticator/EnterKeyActivity.java:117-141 | a green status while typing means a following Submit saves the normalised key, finishes and keeps the same status text |
| `EnterKeyScreen.ClickedKeepsSavesAccepted` | mobile/android/src/com/google/android/apps/authenticator/EnterKeyActivity.java:117-134 | every click keeps the invariant: saved secrets are normalised, pass submit validation and have no issuer, and the screen is finished once anything is saved |
| `EnterKeyScreen.TextChangedKeepsSavesAccepted` | mobile/android/src/com/google/android/apps/authenticator/EnterKeyActivity.java:139-141 | typing keeps the same invariant |
| `EnterKeyScreen.EnterKeyActivity.constructor` | mobile/android/src/com/google/android/apps/authenticator/EnterKeyActivity.java:44-76 | a new screen has empty fields, the first type position, an uncoloured empty status, nothing saved and is not finished |
| `EnterKeyScreen.EnterKeyActivity.GetEnteredKey` | mobile/android/src/com/google/android/apps/authenticator/EnterKeyActivity.java:81-84 | returns the key field's normal form, which has no `'0'` or `'1'` |
| `EnterKeyScreen.EnterKeyActivity.ValidateKeyAndUpdateStatus` | mobile/android/src/com/google/android/apps/authenticator/EnterKeyActivity.java:89-115 | answers the decision table's "acceptable", sets the status text and colour to its status, changes nothing else and keeps the invariant |
| `EnterKeyScreen.EnterKeyActivity.OnClick` | mobile/android/src/com/google/android/apps/authenticator/EnterKeyActivity.java:117-134 | the new state is `Clicked` of the old state, and the invariant is kept |
| `EnterKeyScreen.EnterKeyActivity.AfterTextChanged` | mobile/android/src/com/google/android/apps/authenticator/EnterKeyActivity.java:139-141 | the new state is `TextChanged` of the old state, and the invariant is kept |
| `EnterKeyScreen.EnterKeyActivity.EditKey` | mobile/android/src/com/google/android/apps/authenticator/EnterKeyActivity.java:75 | an edit of the key field replaces its text and then runs the text-changed handler |
| `EnterKeyScreen.EnterKeyActivity.EditAccountName` | mobile/android/src/com/google/android/apps/authenticator/EnterKeyActivity.java:34-75 | an edit of the account name fires no handler, since only the key field has a listener, and changes only that field |
| `EnterKeyScreen.EnterKeyActivity.SelectType` | mobile/android/src/com/google/android/apps/authenticator/EnterKeyActivity.java:35-75 | choosing an account type fires no handler, since the type choice has no listener, and changes only the selected position |

## Left out

- View wiring in `onCreate` (layout inflation, view lookup, the type spinner's adapter, listener registration) is framework glue. The constructor stands for its outcome, and the layout's initial status text is taken to be empty.
- The version label is left out. It is read from the package manager, with `"Unknown"` as the fallback when the lookup fails, and no handler uses it.
- The internals of `Base32String.decode` and `CheckCodeActivity.getCheckCode` are not part of this model. Both are abstract (uninterpreted) total functions that may fail, held as function values in `Collaborators`. So the model makes no claim about which texts decode (for example, that a character outside the base32 alphabet is a decoding error), and none about how the check code is computed.
- The decoder's exception message is a string. A `null` message and runtime exceptions other than the two caught kinds are not modelled.
- `AuthenticatorActivity.saveSecret` persistence and `finish()` navigation are recorded only as the save log and the `finished` flag. After finishing, the model still accepts events, as the source does not guard against them.
- `beforeTextChanged` and `onTextChanged` do nothing and are not modelled.
- Clearing the key field makes the framework call `afterTextChanged` again. `OnClick(ClearButton)` does not do this itself; a caller models it by calling `AfterTextChanged` next. The result then depends on how the unseen decoder handles `""`.
- Colours are the enumeration `LayoutDefault`/`Red`/`Green`, not `android.graphics.Color` integers.
- `replaceAll` takes a regular expression. The patterns here are the plain characters `"1"` and `"0"`, and the replacements contain no `$` or `\`, so the model uses plain character substitution.
