/** CardBuilder.from_string of pokeher/theaigame.py: the two-character card format. */
module TheAiGame {
  import opened Wrappers
  import opened Cards

  /** Why parsing a card string fails, and which Python exception it would raise. */
  datatype ParseError =
    | WrongLength              // `assert len(string) == 2`
    | NotAnInteger             // int(value) raises ValueError
    | CardRejected(e: CardError) // the Card constructor's assertions

  /** VALUE_MAP: the face letters. */
  function FaceValue(ch: char): Option<int>
  {
    match ch
    case 'T' => Some(10)
    case 'J' => Some(JACK)
    case 'Q' => Some(QUEEN)
    case 'K' => Some(KING)
    case 'A' => Some(ACE)
    case _ => None
  }

  /** SUIT_MAP: the suit letters. */
  function SuitOf(ch: char): Option<Suit>
  {
    match ch
    case 'c' => Some(Suit(CLUBS))
    case 'd' => Some(Suit(DIAMONDS))
    case 'h' => Some(Suit(HEARTS))
    case 's' => Some(Suit(SPADES))
    case _ => None
  }

  /** int() of a one-character string: a decimal digit, anything else is a ValueError. */
  function DigitValue(ch: char): Option<int>
  {
    if '0' <= ch <= '9' then Some(ch as int - '0' as int) else None
  }

  /**
   * from_string: the first character is a face letter or a digit, the second a
   * suit letter; Card(mapped_value, mapped_suit) then checks the range and the suit.
   */
  function FromString(s: string): (r: Result<Card, ParseError>)
    ensures |s| != 2 ==> r == Failure(WrongLength)
    ensures r.Success? ==> SuitOf(s[1]) == Some(r.value.suit)
    ensures r.Success? ==> FaceValue(s[0]) == Some(r.value.value) || DigitValue(s[0]) == Some(r.value.value)
  {
    if |s| != 2 then Failure(WrongLength)
    else
      var mapped :=
        if FaceValue(s[0]).Some? then Some(FaceValue(s[0]).value) else DigitValue(s[0]);
      if mapped.None? then Failure(NotAnInteger)
      else
        match NewCard(mapped.value, SuitOf(s[1]))
        case Success(c) => Success(c)
        case Failure(e) => Failure(CardRejected(e))
  }

  /** The character for a card value: a digit for 2 .. 9, then T, J, Q, K, A. */
  function ValueChar(v: Value): char
  {
    if v <= 9 then ('0' as int + v) as char
    else if v == 10 then 'T'
    else if v == JACK then 'J'
    else if v == QUEEN then 'Q'
    else if v == KING then 'K'
    else 'A'
  }

  /** The character for a suit code. */
  function SuitChar(s: SuitCode): char
  {
    if s == CLUBS then 'c' else if s == DIAMONDS then 'd' else if s == HEARTS then 'h' else 's'
  }

  /** The two-character text of a card in the game's wire format. */
  function CardText(c: Card): string
  {
    [ValueChar(c.value), SuitChar(c.suit.suit)]
  }

  /** Every card's text parses back to that card. */
  lemma ParseCardText(c: Card)
    ensures FromString(CardText(c)) == Success(c)
  {
    var s := CardText(c);
    if c.value <= 9 {
      assert FaceValue(s[0]).None?;
      assert DigitValue(s[0]) == Some(c.value as int);
    }
  }

  /** A string is accepted only as the text of the card it yields, so the format has one spelling per card. */
  lemma ParsedStringIsCardText(s: string, c: Card)
    requires FromString(s) == Success(c)
    ensures s == CardText(c)
  {
    assert s[1] == SuitChar(c.suit.suit);
    if FaceValue(s[0]).None? {
      assert DigitValue(s[0]) == Some(c.value as int);
      assert s[0] == ('0' as int + c.value) as char;
    }
    assert s == [s[0], s[1]];
  }

  /** Exactly the strings "<value><suit>" with value in 2-9, T, J, Q, K, A and suit in c, d, h, s parse. */
  lemma AcceptedStrings(s: string)
    ensures FromString(s).Success? <==>
      |s| == 2 && s[0] in "23456789TJQKA" && s[1] in "cdhs"
  {
    if |s| == 2 && s[0] in "23456789TJQKA" && s[1] in "cdhs" {
      assert FaceValue(s[0]).Some? || DigitValue(s[0]).Some?;
    }
    if FromString(s).Success? {
      assert s[1] in "cdhs";
      if FaceValue(s[0]).None? {
        assert '2' <= s[0] <= '9';
      }
    }
  }

  /** Wrong characters fail at the step Python fails at: int() first, then the Card assertions. */
  lemma RejectionReasons()
    ensures FromString("Xs") == Failure(NotAnInteger)
    ensures FromString("1h") == Failure(CardRejected(ValueTooLow))
    ensures FromString("Ax") == Failure(CardRejected(NotASuit))
    ensures FromString("10h") == Failure(WrongLength)
  {
  }
}
