/**
 * The assistant's message log (components/Chatbot.tsx): seeded once when the
 * session starts, appended to by each send, with the reply streamed into an
 * empty placeholder that is overwritten as chunks arrive.
 */
module Chat {
  import opened Wrappers
  import opened Text
  import opened Types

  const Greeting := "¡Hola! Soy tu asistente virtual. ¿Cómo puedo ayudarte hoy con tu mascota?"
  const Unavailable := "Lo siento, el asistente virtual no está disponible en este momento."
  const Apology := "Lo siento, ocurrió un error. Por favor, intenta de nuevo."

  /** The running text after the given chunks: `currentText += chunk.text`, a chunk without text adding "undefined". */
  function Concat(chunks: seq<Option<string>>): string {
    if chunks == [] then "" else Concat(chunks[..|chunks| - 1]) + JsText(chunks[|chunks| - 1])
  }

  /** The running text of a stream split in two is the text of the first part followed by that of the second. */
  lemma {:induction false} ConcatAppend(a: seq<Option<string>>, b: seq<Option<string>>)
    ensures Concat(a + b) == Concat(a) + Concat(b)
    decreases |b|
  {
    if b != [] {
      var last := b[|b| - 1];
      var init := b[..|b| - 1];
      assert (a + b)[..|a + b| - 1] == a + init;
      ConcatAppend(a, init);
    } else {
      assert a + b == a;
    }
  }

  /** Every chunk's text appears, unbroken, in the running text. */
  lemma {:induction false} ConcatContainsEachChunk(chunks: seq<Option<string>>, k: nat)
    requires k < |chunks|
    ensures Contains(Concat(chunks), JsText(chunks[k]))
  {
    var before := chunks[..k];
    var after := chunks[k + 1..];
    assert chunks == before + [chunks[k]] + after;
    ConcatAppend(before + [chunks[k]], after);
    ConcatAppend(before, [chunks[k]]);
    assert Concat([chunks[k]]) == Concat([]) + JsText(chunks[k]);
    var whole := Concat(before) + JsText(chunks[k]) + Concat(after);
    assert whole[|Concat(before)|..|Concat(before)| + |JsText(chunks[k])|] == JsText(chunks[k]);
    assert MatchesAt(whole, JsText(chunks[k]), |Concat(before)|);
  }

  lemma ConcatStep(chunks: seq<Option<string>>, i: nat)
    requires i < |chunks|
    ensures Concat(chunks[..i + 1]) == Concat(chunks[..i]) + JsText(chunks[i])
  {
    assert chunks[..i + 1][..i] == chunks[..i];
  }

  /** The stream call: it threw before streaming, or it yielded some chunks and then ended or threw. */
  datatype StreamReply = StreamRefused | Streamed(chunks: seq<Option<string>>, failsAfter: bool)

  /** The model messages a send that passed the guard leaves after the user's message. */
  function ReplyMessages(reply: StreamReply): (r: seq<ChatMessage>)
    ensures 1 <= |r| <= 2
    ensures forall i :: 0 <= i < |r| ==> r[i].role == FromModel
    ensures reply.StreamRefused? ==> r == [ChatMessage(FromModel, Apology)]
    ensures reply.Streamed? ==> r[0].text == Concat(reply.chunks)
    ensures |r| == 2 <==> reply.Streamed? && reply.failsAfter
    ensures |r| == 2 ==> r[1] == ChatMessage(FromModel, Apology)
  {
    match reply
    case StreamRefused => [ChatMessage(FromModel, Apology)]
    case Streamed(chunks, failsAfter) =>
      [ChatMessage(FromModel, Concat(chunks))] + if failsAfter then [ChatMessage(FromModel, Apology)] else []
  }

  /** The send guard: some non-blank input, a live session and no send in flight. */
  predicate CanSend(input: string, sessionReady: bool, isLoading: bool) {
    !AllSpace(input) && sessionReady && !isLoading
  }

  /** The guard is the source's `inputValue.trim()` test: input passes exactly when its trim is non-empty. */
  lemma CanSendIsTrimTest(input: string, sessionReady: bool, isLoading: bool)
    ensures CanSend(input, sessionReady, isLoading) <==> Trim(input) != "" && sessionReady && !isLoading
  {
    TrimEmptyIffAllSpace(input);
  }

  class Chatbot {
    var isOpen: bool
    /** Whether the chat session was created (`chat !== null`). */
    var sessionReady: bool
    var messages: seq<ChatMessage>
    var inputValue: string
    var isLoading: bool

    /** `initChat`: a live session seeds the greeting; a failed one seeds the unavailability notice and stays null. */
    constructor (initSucceeds: bool)
      ensures sessionReady == initSucceeds
      ensures messages == [ChatMessage(FromModel, if initSucceeds then Greeting else Unavailable)]
      ensures !isOpen && inputValue == "" && !isLoading
    {
      isOpen := false;
      sessionReady := initSucceeds;
      messages := [ChatMessage(FromModel, if initSucceeds then Greeting else Unavailable)];
      inputValue := "";
      isLoading := false;
    }

    method SetOpen(open: bool)
      modifies this
      ensures isOpen == open
      ensures sessionReady == old(sessionReady) && messages == old(messages)
      ensures inputValue == old(inputValue) && isLoading == old(isLoading)
    {
      isOpen := open;
    }

    method SetInput(text: string)
      modifies this
      ensures inputValue == text
      ensures isOpen == old(isOpen) && sessionReady == old(sessionReady)
      ensures messages == old(messages) && isLoading == old(isLoading)
    {
      inputValue := text;
    }

    /** The reply part of a send: the apology when the stream could not start; otherwise
        an empty model placeholder overwritten with the running text after each chunk,
        followed by the apology when the stream broke off. */
    method AppendReply(reply: StreamReply)
      modifies this
      ensures messages == old(messages) + ReplyMessages(reply)
      ensures isOpen == old(isOpen) && sessionReady == old(sessionReady)
      ensures inputValue == old(inputValue) && isLoading == old(isLoading)
    {
      ghost var before := messages;
      match reply {
        case StreamRefused =>
          messages := messages + [ChatMessage(FromModel, Apology)];
        case Streamed(chunks, failsAfter) =>
          var currentText := "";
          messages := messages + [ChatMessage(FromModel, "")];
          var i := 0;
          while i < |chunks|
            invariant 0 <= i <= |chunks|
            invariant currentText == Concat(chunks[..i])
            invariant messages == before + [ChatMessage(FromModel, currentText)]
            invariant isOpen == old(isOpen) && sessionReady == old(sessionReady)
            invariant inputValue == old(inputValue) && isLoading == old(isLoading)
          {
            ConcatStep(chunks, i);
            currentText := currentText + JsText(chunks[i]);
            messages := messages[..|messages| - 1] + [ChatMessage(FromModel, currentText)];
            i := i + 1;
          }
          assert chunks[..i] == chunks;
          if failsAfter {
            messages := messages + [ChatMessage(FromModel, Apology)];
          }
      }
    }

    /**
     * `handleSendMessage`: a guarded send appends the untrimmed input as a user
     * message, clears the input, streams the reply into a placeholder and ends
     * with loading off; a send the guard refuses changes nothing.
     */
    method HandleSendMessage(reply: StreamReply) returns (sent: Option<string>)
      modifies this
      ensures !CanSend(old(inputValue), old(sessionReady), old(isLoading)) ==>
        sent.None? && messages == old(messages) && inputValue == old(inputValue) && isLoading == old(isLoading)
      ensures CanSend(old(inputValue), old(sessionReady), old(isLoading)) ==>
        sent == Some(old(inputValue)) && inputValue == "" && !isLoading &&
        messages == old(messages) + [ChatMessage(FromUser, old(inputValue))] + ReplyMessages(reply)
      ensures isOpen == old(isOpen) && sessionReady == old(sessionReady)
    {
      var allowed := CanSend(inputValue, sessionReady, isLoading);
      if !allowed {
        return None;
      }
      var message := inputValue;
      var withUser := messages + [ChatMessage(FromUser, message)];
      messages := withUser;
      inputValue := "";
      isLoading := true;
      sent := Some(message);
      AppendReply(reply);
      assert messages == withUser + ReplyMessages(reply);
      isLoading := false;
    }
  }
}
