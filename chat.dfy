/** The chat panel: a transcript of user and model entries, the message being typed, and a
    "thinking" flag that blocks a second send while a reply streams in. Sending is split into
    the synchronous part (the user's entry is appended and the flag raised) and the arrival of
    the reply, whose text chunks are appended to one model entry in order. */
module ChatPanel {
  import opened Types
  import opened Text

  datatype Role = User | Model

  datatype ChatEntry = ChatEntry(role: Role, text: string)

  /** What the chat session does with a message: the request is refused outright, or a stream
      delivers `chunks` and then either ends or breaks off with an error. */
  datatype StreamOutcome =
    | Refused
    | Streamed(chunks: seq<string>, interrupted: bool)

  /** The model entry shown when the session fails. */
  const ConnectionError := "I'm having trouble connecting. Please try again."

  /** The chunks joined in arrival order. */
  function Concat(chunks: seq<string>): string
  {
    if chunks == [] then "" else Concat(chunks[..|chunks| - 1]) + chunks[|chunks| - 1]
  }

  /** Joining is compatible with splitting the stream anywhere. */
  lemma {:induction false} ConcatAppend(a: seq<string>, b: seq<string>)
    ensures Concat(a + b) == Concat(a) + Concat(b)
    decreases |b|
  {
    if b == [] {
      assert a + b == a;
    } else {
      var b' := b[..|b| - 1];
      assert (a + b)[..|a + b| - 1] == a + b';
      ConcatAppend(a, b');
    }
  }

  /** While a reply streams in, the text shown so far is a prefix of the final reply. */
  lemma StreamedPrefix(chunks: seq<string>, i: nat)
    requires i <= |chunks|
    ensures Concat(chunks[..i]) <= Concat(chunks)
  {
    assert chunks == chunks[..i] + chunks[i..];
    ConcatAppend(chunks[..i], chunks[i..]);
  }

  class Chat {
    var history: seq<ChatEntry>
    var message: string
    var isThinking: bool
    /** Whether a chat session was created at generation (Chat was among the chosen modules). */
    const hasSession: bool

    /** While a reply is awaited the transcript ends with the user's entry; otherwise it is empty
        or ends with a model entry. */
    ghost predicate Valid()
      reads this
    {
      if isThinking then |history| > 0 && history[|history| - 1].role == User
      else history == [] || history[|history| - 1].role == Model
    }

    constructor (hasSession: bool)
      ensures Valid() && this.hasSession == hasSession
      ensures history == [] && message == "" && !isThinking
    {
      this.hasSession := hasSession;
      history := [];
      message := "";
      isThinking := false;
    }

    /** Typing in the message box, which is disabled while a reply is awaited. */
    method Edit(text: string)
      requires !isThinking
      modifies this`message
      ensures message == text
    {
      message := text;
    }

    /** Whether a send goes ahead: the message is not blank, a session exists and no reply is awaited.
        The Send button is enabled under the same test, less the session check. */
    predicate CanSend()
      reads this
      ensures CanSend() <==> Trim(message) != "" && hasSession && !isThinking
    {
      TrimEmptyIffBlank(message);
      !IsBlank(message) && hasSession && !isThinking
    }

    /** The synchronous part of sending: the message is appended as a user entry, the box is
        cleared, and the flag is raised. A blank message, a missing session or a reply still
        streaming makes it do nothing. Returns the message passed to the session, if any. */
    method BeginSend() returns (sent: Option<string>)
      requires Valid()
      modifies this`history, this`message, this`isThinking
      ensures Valid()
      ensures !old(CanSend()) ==> sent.None? && unchanged(this)
      ensures old(CanSend()) ==>
                && sent == Some(old(message))
                && history == old(history) + [ChatEntry(User, old(message))]
                && message == "" && isThinking
    {
      TrimEmptyIffBlank(message);
      if Trim(message) == "" || !hasSession || isThinking {
        return None;
      }
      var userMessage := message;
      history := history + [ChatEntry(User, userMessage)];
      message := "";
      isThinking := true;
      sent := Some(userMessage);
    }

    /** The reply arrives: a streamed reply opens one empty model entry and appends each chunk
        to it in order; a refused request, or a stream that breaks off, adds the connection-error
        entry. The flag is lowered in every case. */
    method ReceiveReply(outcome: StreamOutcome)
      requires Valid() && isThinking
      modifies this`history, this`isThinking
      ensures Valid() && !isThinking
      ensures outcome.Refused? ==> history == old(history) + [ChatEntry(Model, ConnectionError)]
      ensures outcome.Streamed? && !outcome.interrupted ==>
                history == old(history) + [ChatEntry(Model, Concat(outcome.chunks))]
      ensures outcome.Streamed? && outcome.interrupted ==>
                history == old(history) + [ChatEntry(Model, Concat(outcome.chunks)), ChatEntry(Model, ConnectionError)]
    {
      if outcome.Streamed? {
        var chunks := outcome.chunks;
        history := history + [ChatEntry(Model, "")];
        var i := 0;
        while i < |chunks|
          invariant 0 <= i <= |chunks|
          invariant history == old(history) + [ChatEntry(Model, Concat(chunks[..i]))]
        {
          assert chunks[..i + 1][..i] == chunks[..i];
          var last := history[|history| - 1];
          history := history[|history| - 1 := last.(text := last.text + chunks[i])];
          i := i + 1;
        }
        assert chunks[..|chunks|] == chunks;
      }
      if outcome.Refused? || outcome.interrupted {
        history := history + [ChatEntry(Model, ConnectionError)];
      }
      isThinking := false;
    }
  }
}
