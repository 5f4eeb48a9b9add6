/**
 * Recovering a finished turn's words after a crash (agent/recovered-text.ts): one session
 * file holds the answers of many turns, and only this turn's own may be delivered.
 */
module Recovery {

  import opened Common
  import opened Stores
  import opened Text

  datatype SessionMessage = SessionMessage(assistant: bool, trace: Option<TurnId>, content: string)

  predicate AnswerOf(m: SessionMessage, id: TurnId) {
    m.assistant && m.trace == Some(id) && !Blank(m.content)
  }

  /** Nobody else's words are this turn's answer: not the owner's, not another turn's, not a blank. */
  lemma AnswersAreItsOwn(m: SessionMessage, id: TurnId)
    ensures AnswerOf(m, id) <==> m.assistant && m.trace.Some? && m.trace.value == id && exists i :: 0 <= i < |m.content| && !IsSpace(m.content[i])
  {
  }

  const MARKER: string := "[MUFFIN_PROVIDER_ERROR_REPLY_V1]\n"

  predicate StartsWith(s: string, prefix: string) { |prefix| <= |s| && s[..|prefix|] == prefix }

  /** The last durable message: its author, and its first text block if it has one. */
  datatype LastMessage = LastMessage(assistant: bool, first: Option<string>)

  /** Only an explicitly marked terminal reply, never a partial assistant round. */
  function ProviderFailure(last: Option<LastMessage>): (text: Option<string>)
    ensures text.Some? ==> !Blank(text.value)
  {
    if last.Some? && last.value.assistant && last.value.first.Some? && StartsWith(last.value.first.value, MARKER)
       && !Blank(last.value.first.value[|MARKER|..])
    then Some(Trim(last.value.first.value[|MARKER|..])) else None
  }

  /** The marked reply of an assistant's last message. */
  function Marked(rest: string): Option<LastMessage> {
    Some(LastMessage(true, Some("[MUFFIN_PROVIDER_ERROR_REPLY_V1]\n" + rest)))
  }

  /** Recovered are exactly the marked replies that say something, without their marker. */
  lemma OnlyMarkedReplies(last: Option<LastMessage>)
    ensures ProviderFailure(last).Some? <==> exists rest :: last == Marked(rest) && !Blank(rest)
    ensures forall rest | last == Marked(rest) && !Blank(rest) :: TrimOf(rest, ProviderFailure(last).value)
  {
    assert MARKER == "[MUFFIN_PROVIDER_ERROR_REPLY_V1]\n";
    if ProviderFailure(last).Some? {
      var first := last.value.first.value;
      assert first == MARKER + first[|MARKER|..];
      assert last == Marked(first[|MARKER|..]);
    }
    forall rest | last == Marked(rest) && !Blank(rest) ensures ProviderFailure(last).Some? && TrimOf(rest, ProviderFailure(last).value) {
      assert (MARKER + rest)[|MARKER|..] == rest && (MARKER + rest)[..|MARKER|] == MARKER;
    }
  }

  const NOT_RECOVERED: string := "Il testo originale non e stato recuperato"

  /** The latest answer of this turn, wherever the other turns' messages stand. */
  ghost predicate Latest(messages: seq<SessionMessage>, id: TurnId, text: string) {
    exists i | 0 <= i < |messages| ::
      && AnswerOf(messages[i], id) && messages[i].content == text
      && forall j | i < j < |messages| :: !AnswerOf(messages[j], id)
  }

  ghost predicate HasAnswer(messages: seq<SessionMessage>, id: TurnId) {
    exists i | 0 <= i < |messages| :: AnswerOf(messages[i], id)
  }

  method RecoveredText(messages: seq<SessionMessage>, id: TurnId, outcome: Option<Outcome>, last: Option<LastMessage>)
    returns (text: string)
    ensures !Blank(text)
    ensures outcome == Some(Answered) && HasAnswer(messages, id) ==> Latest(messages, id, text)
    ensures outcome == Some(Error) && ProviderFailure(last).Some? ==> Some(text) == ProviderFailure(last)
    ensures !(outcome == Some(Answered) && HasAnswer(messages, id)) && !(outcome == Some(Error) && ProviderFailure(last).Some?)
            ==> text == NOT_RECOVERED
  {
    if outcome == Some(Answered) {
      var i := |messages|;
      while i > 0
        invariant 0 <= i <= |messages|
        invariant forall j | i <= j < |messages| :: !AnswerOf(messages[j], id)
      {
        i := i - 1;
        if AnswerOf(messages[i], id) {
          return messages[i].content;
        }
      }
    }
    if outcome == Some(Error) && ProviderFailure(last).Some? {
      return ProviderFailure(last).value;
    }
    text := NOT_RECOVERED;
    assert text[0] == 'I';
  }

  /** Messages of other turns never change what is recovered for this one. */
  lemma {:induction false} OthersDoNotMatter(messages: seq<SessionMessage>, id: TurnId, text: string)
    ensures Latest(messages, id, text) <==> Latest(Own(messages, id), id, text)
    decreases |messages|
  {
    if messages != [] {
      var front, m := messages[..|messages| - 1], messages[|messages| - 1];
      OthersDoNotMatter(front, id, text);
      LatestSnoc(front, m, id, text);
      LatestSnoc(Own(front, id), m, id, text);
      assert front + [m] == messages;
      assert Own(messages, id) == if m.trace == Some(id) then Own(front, id) + [m] else Own(front, id);
    }
  }

  function Own(messages: seq<SessionMessage>, id: TurnId): seq<SessionMessage> {
    if messages == [] then []
    else
      var m := messages[|messages| - 1];
      Own(messages[..|messages| - 1], id) + if m.trace == Some(id) then [m] else []
  }

  lemma LatestSnoc(front: seq<SessionMessage>, m: SessionMessage, id: TurnId, text: string)
    ensures Latest(front + [m], id, text) <==> if AnswerOf(m, id) then text == m.content else Latest(front, id, text)
  {
    var all := front + [m];
    assert all[|front|] == m;
    if AnswerOf(m, id) {
      if Latest(all, id, text) {
        var i :| 0 <= i < |all| && AnswerOf(all[i], id) && all[i].content == text
                 && forall j | i < j < |all| :: !AnswerOf(all[j], id);
        assert i == |front|;
      }
    } else {
      if Latest(front, id, text) {
        var i :| 0 <= i < |front| && AnswerOf(front[i], id) && front[i].content == text
                 && forall j | i < j < |front| :: !AnswerOf(front[j], id);
        assert all[i] == front[i];
        assert forall j | i < j < |front| :: all[j] == front[j];
      }
      if Latest(all, id, text) {
        var i :| 0 <= i < |all| && AnswerOf(all[i], id) && all[i].content == text
                 && forall j | i < j < |all| :: !AnswerOf(all[j], id);
        assert front[i] == all[i];
        assert forall j | i < j < |front| :: front[j] == all[j];
      }
    }
  }
}
