/** The chat overlay: a transcript that only grows, an input field, and
    the out-of-range warning. */
module Chat {
  import opened Types
  import opened Text

  /** The partner's canned first line. */
  const Greeting: string := "Hey! I'm nearby at the park."

  /** How long before opening the window the greeting is dated, in ms. */
  const GreetingAgeMs: int := 50000

  /** The transcript a chat with `partner` opens with. */
  function OpeningTranscript(partner: User, now: int): (t: seq<Message>)
    ensures |t| == 1 && t[0].senderId == partner.id
    ensures t[0].text == Greeting && t[0].timestamp < now
  {
    [Message("1", partner.id, Greeting, now - GreetingAgeMs)]
  }

  /** `user.distance! > 1000`: the warning shows strictly beyond 1000 m,
      and never for a partner without a distance. */
  function OutOfRange(partner: User): (b: bool)
    ensures b <==> BeyondRange(partner.distance)
  {
    match partner.distance
    case Some(d) => d > RangeMeters
    case None => false
  }

  /** The send button is disabled when `inputText.trim()` is empty. */
  predicate SendDisabled(inputText: string)
  {
    Blank(inputText)
  }

  /** The transcript after `handleSend`, with `id` and `now` read from the
      clock. */
  function AfterSend(messages: seq<Message>, inputText: string, id: string, now: int): (r: seq<Message>)
    ensures SendDisabled(inputText) ==> r == messages
    ensures !SendDisabled(inputText) ==>
              |r| == |messages| + 1 && r[..|messages|] == messages
              && r[|messages|] == Message(id, MeId, inputText, now)
  {
    if SendDisabled(inputText) then messages else messages + [Message(id, MeId, inputText, now)]
  }

  /** Sending never loses or rewrites a message: the old transcript is a
      prefix of the new one, which grows by at most one. */
  lemma SendOnlyAppends(messages: seq<Message>, inputText: string, id: string, now: int)
    ensures var r := AfterSend(messages, inputText, id, now);
            messages <= r && |r| <= |messages| + 1
  {
  }

  /** The button is disabled exactly when pressing it would leave the
      transcript as it is, and that happens exactly for whitespace-only input. */
  lemma {:induction false} DisabledIffNoEffect(messages: seq<Message>, inputText: string, id: string, now: int)
    ensures SendDisabled(inputText) <==> AfterSend(messages, inputText, id, now) == messages
    ensures SendDisabled(inputText) <==> AllWhitespace(inputText)
  {
    BlankIffAllWhitespace(inputText);
    if !SendDisabled(inputText) {
      assert |AfterSend(messages, inputText, id, now)| == |messages| + 1;
    }
  }

  class ChatWindow {
    const partner: User
    var messages: seq<Message>
    var inputText: string
    var isOutOfRange: bool

    /** Opening the window: the greeting, an empty input, no warning yet. */
    constructor (user: User, now: int)
      ensures partner == user && messages == OpeningTranscript(user, now)
      ensures inputText == "" && !isOutOfRange
    {
      partner := user;
      messages := OpeningTranscript(user, now);
      inputText := "";
      isOutOfRange := false;
    }

    /** The effect on `user.distance`. */
    method CheckRange()
      modifies this`isOutOfRange
      ensures isOutOfRange == OutOfRange(partner)
    {
      isOutOfRange := OutOfRange(partner);
    }

    /** Typing in the input field. */
    method EditInput(text: string)
      modifies this`inputText
      ensures inputText == text
    {
      inputText := text;
    }

    /** `handleSend` (the button, or Enter in the field). On blank input
        nothing changes; otherwise one message from `me` holding the
        untrimmed input is appended and the input is cleared. */
    method HandleSend(id: string, now: int)
      modifies this`messages, this`inputText
      ensures messages == AfterSend(old(messages), old(inputText), id, now)
      ensures inputText == if SendDisabled(old(inputText)) then old(inputText) else ""
    {
      if Blank(inputText) {
        return;
      }
      var newMessage := Message(id, MeId, inputText, now);
      messages := messages + [newMessage];
      inputText := "";
    }
  }
}
