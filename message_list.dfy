/**
 * The message list: a spinner while loading, otherwise one bubble per
 * stored message in stored order, and a placeholder assistant bubble that
 * carries the live buffer while the reply to a user message streams in.
 */
module MessageList {
  import opened Wrappers
  import opened Types
  import MessageBubble

  /** The properties one bubble is rendered with. */
  datatype BubbleProps = BubbleProps(message: Message, isStreaming: bool, streamingContent: Option<string>)

  datatype ListView = Spinner | Thread(bubbles: seq<BubbleProps>)

  /** The placeholder bubble's message; `now` stands for its creation time. */
  function Placeholder(now: string): Message
  {
    Message("streaming", "", AssistantRole, [], None, None, None, None, None, None, now)
  }

  /** The placeholder appears while streaming when the last stored message is the user's. */
  predicate ShowsPlaceholder(messages: seq<Message>, isStreaming: bool)
  {
    isStreaming && |messages| > 0 && messages[|messages| - 1].role == UserRole
  }

  /** The bubble for the message at `index`. */
  function BubbleAt(messages: seq<Message>, index: nat, isStreaming: bool, streamingContent: string): BubbleProps
    requires index < |messages|
  {
    var last := index == |messages| - 1;
    BubbleProps(messages[index],
                isStreaming && last && messages[index].role == AssistantRole,
                if isStreaming && last then Some(streamingContent) else None)
  }

  /** What the list renders. */
  function Render(messages: seq<Message>, isStreaming: bool, streamingContent: string, isLoading: bool, now: string): ListView
  {
    if isLoading then Spinner
    else
      Thread(seq(|messages|, i requires 0 <= i < |messages| => BubbleAt(messages, i, isStreaming, streamingContent))
             + (if ShowsPlaceholder(messages, isStreaming)
                then [BubbleProps(Placeholder(now), true, Some(streamingContent))] else []))
  }

  /**
   * While loading only the spinner shows. Otherwise there is one bubble per
   * stored message, in stored order, followed by the placeholder exactly when
   * it is due.
   */
  lemma RenderShape(messages: seq<Message>, isStreaming: bool, streamingContent: string, isLoading: bool, now: string)
    ensures isLoading <==> Render(messages, isStreaming, streamingContent, isLoading, now) == Spinner
    ensures !isLoading ==>
              var bs := Render(messages, isStreaming, streamingContent, isLoading, now).bubbles;
              && |bs| == |messages| + (if ShowsPlaceholder(messages, isStreaming) then 1 else 0)
              && (forall i :: 0 <= i < |messages| ==> bs[i].message == messages[i])
              && (ShowsPlaceholder(messages, isStreaming) ==>
                    bs[|messages|] == BubbleProps(Placeholder(now), true, Some(streamingContent)))
  {
  }

  /**
   * A stored message is rendered streaming iff streaming is on, it is the
   * last message and it is the assistant's.
   */
  lemma StreamingBubbleRule(messages: seq<Message>, isStreaming: bool, streamingContent: string, now: string, i: nat)
    requires i < |messages|
    ensures Render(messages, isStreaming, streamingContent, false, now).bubbles[i].isStreaming
            <==> isStreaming && i == |messages| - 1 && messages[i].role == AssistantRole
  {
  }

  /** At most one bubble is in streaming mode, and none when streaming is off, when also no placeholder shows. */
  lemma AtMostOneStreaming(messages: seq<Message>, isStreaming: bool, streamingContent: string, now: string)
    ensures var bs := Render(messages, isStreaming, streamingContent, false, now).bubbles;
            forall i, j :: 0 <= i < |bs| && 0 <= j < |bs| && bs[i].isStreaming && bs[j].isStreaming ==> i == j
    ensures !isStreaming ==>
              var bs := Render(messages, isStreaming, streamingContent, false, now).bubbles;
              |bs| == |messages| && forall i :: 0 <= i < |bs| ==> !bs[i].isStreaming
  {
    var bs := Render(messages, isStreaming, streamingContent, false, now).bubbles;
    forall i | 0 <= i < |bs| && bs[i].isStreaming
      ensures (i == |messages| - 1 && messages[i].role == AssistantRole) || (i == |messages| && ShowsPlaceholder(messages, isStreaming))
    {
    }
  }

  /**
   * While streaming, some bubble is marked streaming (the one that shows a
   * non-empty live buffer) exactly when the last message is the user's or
   * the assistant's; none is when there is no message or the last is a
   * system message.
   */
  lemma LiveBufferPlacement(messages: seq<Message>, streamingContent: string, now: string)
    ensures var bs := Render(messages, true, streamingContent, false, now).bubbles;
            (exists i :: 0 <= i < |bs| && bs[i].isStreaming)
            <==> |messages| > 0 && messages[|messages| - 1].role != SystemRole
  {
    var bs := Render(messages, true, streamingContent, false, now).bubbles;
    if |messages| > 0 {
      var last := messages[|messages| - 1];
      if last.role == AssistantRole {
        assert bs[|messages| - 1].isStreaming;
      } else if last.role == UserRole {
        assert bs[|messages|].isStreaming;
      }
    }
  }

  /**
   * The live buffer is shown, in place of its text, by the streaming bubble
   * once it is non-empty; the last user message keeps its own text.
   */
  lemma LastUserMessageKeepsText(messages: seq<Message>, streamingContent: string, now: string)
    requires ShowsPlaceholder(messages, true)
    ensures var bs := Render(messages, true, streamingContent, false, now).bubbles;
            var b := bs[|messages| - 1];
            && MessageBubble.ShownText(b.message, b.isStreaming, b.streamingContent)
               == MessageBubble.CopyText(messages[|messages| - 1].content)
            && var p := bs[|messages|];
            streamingContent != "" ==> MessageBubble.ShownText(p.message, p.isStreaming, p.streamingContent) == streamingContent
  {
    var bs := Render(messages, true, streamingContent, false, now).bubbles;
    var n := |messages|;
    assert bs[n - 1] == BubbleAt(messages, n - 1, true, streamingContent);
    assert !bs[n - 1].isStreaming;
    assert bs[n] == BubbleProps(Placeholder(now), true, Some(streamingContent));
  }
}
