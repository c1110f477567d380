/** Normalisation of a hand-typed key (EnterKeyActivity.getEnteredKey): the digits
    '1' and '0', which base32 does not use and which look like the letters 'I' and
    'O', are replaced by those letters before the key is decoded or saved. */
module KeyNormalisation {

  /** What one character becomes when every `from` is replaced by `to`. */
  function Substitute(c: char, from: char, to: char): char {
    if c == from then to else c
  }

  /** `s` with every occurrence of the one-character literal `from` replaced by `to`
      (String.replaceAll with a pattern that is a plain character). */
  function ReplaceAll(s: string, from: char, to: char): (r: string)
    ensures |r| == |s|
    ensures forall i :: 0 <= i < |s| ==> r[i] == Substitute(s[i], from, to)
    ensures from != to ==> from !in r
  {
    if s == [] then [] else [Substitute(s[0], from, to)] + ReplaceAll(s[1..], from, to)
  }

  /** The reference definition: the normal form of a single typed character. */
  function NormalChar(c: char): char {
    if c == '1' then 'I' else if c == '0' then 'O' else c
  }

  /** The key as the screen uses it: the typed text after replacing '1' by 'I',
      then '0' by 'O'. Each position is mapped on its own, and no '0' or '1' is left. */
  function EnteredKey(typed: string): (key: string)
    ensures |key| == |typed|
    ensures forall i :: 0 <= i < |typed| ==> key[i] == NormalChar(typed[i])
    ensures '0' !in key && '1' !in key
  {
    ReplaceAll(ReplaceAll(typed, '1', 'I'), '0', 'O')
  }

  /** Normalising twice is normalising once. */
  lemma EnteredKeyIdempotent(typed: string)
    ensures EnteredKey(EnteredKey(typed)) == EnteredKey(typed)
  {
  }

  /** Normalisation leaves a text unchanged exactly when it holds no '0' and no '1'. */
  lemma EnteredKeyFixesDigitFree(s: string)
    ensures EnteredKey(s) == s <==> '0' !in s && '1' !in s
  {
  }

  /** Typing more text normalises the new text independently of what came before. */
  lemma EnteredKeyAppend(a: string, b: string)
    ensures EnteredKey(a + b) == EnteredKey(a) + EnteredKey(b)
  {
  }

  /** A worked example: "10O1" is entered as "IOOI". */
  lemma EnteredKeyExample()
    ensures EnteredKey("10O1") == "IOOI"
  {
  }
}
