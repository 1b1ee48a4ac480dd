/** getDuration and getPause: the character-to-milliseconds tables of the
    tune notation (a digit gives a note length, punctuation a pause). */
module Tunes {
  import opened Words

  const CHAR_0: u8 := 0x30  // '0'
  const CHAR_9: u8 := 0x39  // '9'
  const CHAR_PLUS: u8 := 0x2B  // '+'
  const CHAR_COMMA: u8 := 0x2C  // ','
  const CHAR_DOT: u8 := 0x2E  // '.'
  const CHAR_UNDERSCORE: u8 := 0x5F  // '_'

  predicate IsDigit(ch: u8)
  {
    CHAR_0 <= ch <= CHAR_9
  }

  /** Note length in ms: 200 ms per unit of a digit, 400 ms for anything else. */
  function GetDuration(ch: u8): (ms: u32)
    ensures ms % 200 == 0 && ms <= 1800
    ensures IsDigit(ch) ==> ms / 200 == ch - CHAR_0
    ensures !IsDigit(ch) ==> ms == 400
  {
    if ch < CHAR_0 || ch > CHAR_9 then 400
    else (ch - CHAR_0) * 200
  }

  /** Pause length in ms: '+' none, '.' 20, '_' 30, ',' and every other
      character 5. */
  function GetPause(ch: u8): (ms: u32)
    ensures ms == 0 || ms == 5 || ms == 20 || ms == 30
    ensures ms == 0 <==> ch == CHAR_PLUS
    ensures ms == 20 <==> ch == CHAR_DOT
    ensures ms == 30 <==> ch == CHAR_UNDERSCORE
    ensures ch == CHAR_COMMA ==> ms == 5
  {
    match ch
    case 0x2B => 0
    case 0x2C => 5
    case 0x2E => 20
    case 0x5F => 30
    case _ => 5
  }

  /** The durations of the ten digits are pairwise different, so a note
      length determines its digit; every non-digit sounds as long as '2'. */
  lemma DurationDeterminesDigit(a: u8, b: u8)
    requires IsDigit(a) && IsDigit(b)
    ensures GetDuration(a) == GetDuration(b) <==> a == b
    ensures forall c: u8 :: !IsDigit(c) ==> GetDuration(c) == GetDuration(CHAR_0 + 2)
  {
  }
}
