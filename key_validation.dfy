/** The decision EnterKeyActivity.validateKeyAndUpdateStatus makes about a typed key:
    decode the normalised key from base32 (the alphabet of section 6 of RFC 4648),
    insist on at least MIN_KEY_BYTES bytes, compute the integrity check code, and
    turn the outcome into a status text, a status colour and an "acceptable" answer.
    The base32 decoder and the check-code routine are collaborators whose code is
    not part of this model; they are parameters, each able to fail. */
module KeyValidation {
  import opened KeyNormalisation

  newtype byte = x: int | 0 <= x < 256

  datatype Result<+R, +E> = Ok(value: R) | Err(error: E)

  /** The check-code routine's failure (a security-layer exception); its message is never shown. */
  datatype SecurityFailure = SecurityFailure

  /** Base32String.decode: the decoded bytes, or the DecodingException's message. */
  type Decoder = string -> Result<seq<byte>, string>

  /** CheckCodeActivity.getCheckCode: the check code of a key, or a security failure. */
  type CheckCoder = string -> Result<string, SecurityFailure>

  datatype Collaborators = Collaborators(decode: Decoder, checkCode: CheckCoder)

  /** Colour of the status text; LayoutDefault is whatever the layout gives it before any validation. */
  datatype Colour = LayoutDefault | Red | Green

  /** What one validation shows and answers. */
  datatype Status = Status(text: string, colour: Colour, acceptable: bool)

  const MIN_KEY_BYTES: nat := 10
  const TOO_SHORT_MESSAGE := "Key value is too short"
  const CHECK_CODE_LABEL := "Integrity check value: "
  const UNEXPECTED_PROBLEM_MESSAGE := "Unexpected problem"

  /** Validation of the typed text; `submitting` tells an explicit submit from live typing.
      Every validation colours the status, green exactly when the key is acceptable. */
  function Validation(c: Collaborators, typed: string, submitting: bool): (v: Status)
    ensures v.acceptable <==> v.colour == Green
    ensures v.colour != LayoutDefault
  {
    var key := EnteredKey(typed);
    match c.decode(key)
    case Err(message) => Status(message, Red, false)
    case Ok(decoded) =>
      if |decoded| < MIN_KEY_BYTES then
        Status(if submitting then TOO_SHORT_MESSAGE else "", Red, false)
      else
        match c.checkCode(key)
        case Ok(code) => Status(CHECK_CODE_LABEL + code, Green, true)
        case Err(_) => Status(UNEXPECTED_PROBLEM_MESSAGE, Red, false)
  }

  /** A decoding error shows the decoder's own message in red and rejects the key. */
  lemma DecodingErrorShowsMessage(c: Collaborators, typed: string, submitting: bool, message: string)
    requires c.decode(EnteredKey(typed)) == Err(message)
    ensures Validation(c, typed, submitting) == Status(message, Red, false)
  {
  }

  /** A key decoding to fewer than MIN_KEY_BYTES bytes is rejected in red; the "too short"
      message appears only on submit, live typing shows an empty status. The check code
      is not consulted. */
  lemma TooShortKeyRejected(c: Collaborators, typed: string, submitting: bool)
    requires c.decode(EnteredKey(typed)).Ok?
    requires |c.decode(EnteredKey(typed)).value| < MIN_KEY_BYTES
    ensures Validation(c, typed, submitting)
         == Status(if submitting then "Key value is too short" else "", Red, false)
  {
  }

  /** A key of at least MIN_KEY_BYTES bytes whose check code is computed is accepted,
      showing the check code in green, whether or not the user is submitting. */
  lemma CheckCodeShown(c: Collaborators, typed: string, submitting: bool, code: string)
    requires c.decode(EnteredKey(typed)).Ok?
    requires |c.decode(EnteredKey(typed)).value| >= MIN_KEY_BYTES
    requires c.checkCode(EnteredKey(typed)) == Ok(code)
    ensures Validation(c, typed, submitting) == Status("Integrity check value: " + code, Green, true)
  {
  }

  /** A failure of the check-code routine shows "Unexpected problem" in red and rejects the key. */
  lemma SecurityFailureRejected(c: Collaborators, typed: string, submitting: bool)
    requires c.decode(EnteredKey(typed)).Ok?
    requires |c.decode(EnteredKey(typed)).value| >= MIN_KEY_BYTES
    requires c.checkCode(EnteredKey(typed)).Err?
    ensures Validation(c, typed, submitting) == Status("Unexpected problem", Red, false)
  {
  }

  /** Both directions: a key is acceptable exactly when its normal form decodes, to at
      least MIN_KEY_BYTES bytes, and has a check code. */
  lemma AcceptableIff(c: Collaborators, typed: string, submitting: bool)
    ensures Validation(c, typed, submitting).acceptable
        <==> && c.decode(EnteredKey(typed)).Ok?
             && |c.decode(EnteredKey(typed)).value| >= MIN_KEY_BYTES
             && c.checkCode(EnteredKey(typed)).Ok?
  {
  }

  /** Validation depends only on the normal form of the text: typing '1' or 'I',
      '0' or 'O' makes no difference. */
  lemma ValidationOfNormalForm(c: Collaborators, typed: string, submitting: bool)
    ensures Validation(c, EnteredKey(typed), submitting) == Validation(c, typed, submitting)
  {
    EnteredKeyIdempotent(typed);
  }

  /** The submitting flag decides nothing but the text of the "too short" case: the colour
      and the answer are the same, and the texts differ only for a key decoding short. */
  lemma SubmittingOnlyChangesTooShortText(c: Collaborators, typed: string)
    ensures var live, submit := Validation(c, typed, false), Validation(c, typed, true);
      && live.colour == submit.colour
      && live.acceptable == submit.acceptable
      && (live.text != submit.text ==>
            && c.decode(EnteredKey(typed)).Ok?
            && |c.decode(EnteredKey(typed)).value| < MIN_KEY_BYTES
            && live.text == ""
            && submit.text == "Key value is too short")
  {
  }
}
