/** The interactive validation demo of pages/11_Day11.py: nothing is shown
    for an empty text, a warning below 3 characters, an error above 200,
    and otherwise a success message with the length. The text area itself
    accepts at most 200 characters. */
module InputCheck {
  const MinLength: nat := 3
  const MaxLength: nat := 200

  datatype Feedback = NoFeedback | TooShort | TooLong | Valid(characters: nat)

  function Check(input: string): (f: Feedback)
    ensures f.NoFeedback? <==> input == ""
    ensures f.TooShort? <==> 0 < |input| < MinLength
    ensures f.TooLong? <==> |input| > MaxLength
    ensures f.Valid? <==> MinLength <= |input| <= MaxLength
    ensures f.Valid? ==> f.characters == |input|
  {
    if input == "" then NoFeedback
    else if |input| < MinLength then TooShort
    else if |input| > MaxLength then TooLong
    else Valid(|input|)
  }

  /** `max_chars=200`: the text area hands the script at most 200 characters. */
  function TextArea(typed: string): (input: string)
    ensures |input| <= MaxLength && |input| <= |typed|
    ensures input == typed[..|input|]
    ensures |typed| <= MaxLength ==> input == typed
  {
    if |typed| <= MaxLength then typed else typed[..MaxLength]
  }

  /** The "too long" branch cannot be reached through the text area. */
  lemma TooLongUnreachable(typed: string)
    ensures !Check(TextArea(typed)).TooLong?
    ensures typed != [] ==> Check(TextArea(typed)).TooShort? || Check(TextArea(typed)).Valid?
  {
  }
}
