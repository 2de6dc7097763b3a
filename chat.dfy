/**
 * The assistant's chat panel: a transcript of messages and an input field.
 * Submitting trims the input, ignores it when nothing is left, and otherwise
 * appends the user's message, clears the field and schedules the reply; the
 * reply is revealed one character per timer tick in a new assistant message.
 *
 * Each timer callback is an explicit method here: `Submit` is the form's
 * submit handler, `Deliver` the callback it schedules, and the reveal's
 * self-rescheduling tick is the loop of `TypingSim`.
 */
module Chat {
  import opened Wrappers
  import opened JsText
  import Responder

  /** Who wrote a message: the `user` or `assistant` class of its element. */
  datatype Role = User | Assistant

  /** One message element: its role and its text content. */
  datatype Message = Message(role: Role, text: string)

  /** The frames a reveal of `text` shows, in order: every prefix of `text`,
      from the empty one to `text` itself. */
  function RevealFrames(text: string): (fs: seq<string>)
    ensures |fs| == |text| + 1
    ensures forall n | 0 <= n < |fs| :: fs[n] == text[..n]
  {
    if text == "" then [""]
    else
      var fs := RevealFrames(text[..|text| - 1]);
      assert forall n | 0 <= n < |fs| :: text[..|text| - 1][..n] == text[..n];
      fs + [text]
  }

  /** The reveal starts from the empty text and ends with the whole text,
      and each frame extends the one before by one character. */
  lemma RevealGrows(text: string)
    ensures RevealFrames(text)[0] == "" && RevealFrames(text)[|text|] == text
    ensures forall n | 0 < n <= |text| ::
      |RevealFrames(text)[n]| == |RevealFrames(text)[n - 1]| + 1 && RevealFrames(text)[n - 1] <= RevealFrames(text)[n]
  {
  }

  class ChatPanel {
    /** The message elements, oldest first. */
    var transcript: seq<Message>
    /** The prompt field's value. */
    var input: string
    /** The function the panel asks for replies. */
    const answer: Option<string> -> string

    /** The panel as the page delivers it, holding the messages
        `transcript` and the field value `input`, and replying with
        `Responder.Answer`. */
    constructor(transcript: seq<Message>, input: string)
      ensures this.transcript == transcript && this.input == input
      ensures answer == Responder.Answer
    {
      this.transcript := transcript;
      this.input := input;
      answer := Responder.Answer;
    }

    /** The user types into the prompt field. */
    method Type(value: string)
      modifies this
      ensures input == value && transcript == old(transcript)
    {
      input := value;
    }

    /** `addMessage(text, who)`: one more message at the end. */
    method AddMessage(text: string, who: Role)
      modifies this
      ensures transcript == old(transcript) + [Message(who, text)]
      ensures input == old(input)
    {
      transcript := transcript + [Message(who, text)];
    }

    /** The submit handler. With nothing left of the input once trimmed,
        nothing changes and nothing is scheduled; otherwise exactly one user
        message holding the trimmed text is appended, the field is cleared,
        and the reply to that text is scheduled. */
    method Submit() returns (scheduled: Option<string>)
      modifies this
      ensures var q := Trim(old(input));
        if q == "" then
          transcript == old(transcript) && input == old(input) && scheduled == None
        else
          transcript == old(transcript) + [Message(User, q)] && input == "" && scheduled == Some(q)
    {
      var q := Trim(input);
      if q == "" {
        return None;
      }
      AddMessage(q, User);
      input := "";
      scheduled := Some(q);
    }

    /** `typingSim(text)`: an empty assistant message is appended, then each
        tick overwrites it with `text.slice(0, i++)` and reschedules itself
        while `i <= text.length`. The frames shown are those of
        `RevealFrames`, and the message ends holding the whole text. */
    method TypingSim(text: string) returns (frames: seq<string>)
      modifies this
      ensures frames == RevealFrames(text)
      ensures transcript == old(transcript) + [Message(Assistant, text)]
      ensures input == old(input)
    {
      AddMessage("", Assistant);
      var i := 0;
      frames := [];
      var again := true;
      while again
        invariant 0 <= i <= |text| + 1
        invariant again <==> i <= |text|
        invariant |frames| == i
        invariant forall n | 0 <= n < i :: frames[n] == text[..n]
        invariant transcript == old(transcript) + [Message(Assistant, if i == 0 then "" else text[..i - 1])]
        invariant input == old(input)
        decreases |text| + 1 - i
      {
        var shown := SliceTo(text, i);
        i := i + 1;
        transcript := transcript[..|transcript| - 1] + [Message(Assistant, shown)];
        frames := frames + [shown];
        again := i <= |text|;
      }
    }

    /** The callback `Submit` schedules: the reply to `q`, revealed. */
    method Deliver(q: string) returns (frames: seq<string>)
      modifies this
      ensures transcript == old(transcript) + [Message(Assistant, answer(Some(q)))]
      ensures frames == RevealFrames(answer(Some(q)))
      ensures input == old(input)
    {
      var a := answer(Some(q));
      frames := TypingSim(a);
    }

    /** A submit followed by the callback it scheduled: a non-blank input
        adds the user's trimmed message and then the assistant's reply to
        it; a blank one changes nothing. */
    method Exchange()
      modifies this
      ensures var q := Trim(old(input));
        if q == "" then
          transcript == old(transcript) && input == old(input)
        else
          transcript == old(transcript) + [Message(User, q), Message(Assistant, answer(Some(q)))]
          && input == ""
    {
      var scheduled := Submit();
      if scheduled.Some? {
        var _ := Deliver(scheduled.value);
      }
    }
  }
}
