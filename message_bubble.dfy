/**
 * What one message bubble shows: the text taken from the text parts, the
 * media items, the live buffer while streaming, the audio duration label,
 * and when the action row and the metadata line appear.
 */
module MessageBubble {
  import opened Wrappers
  import opened Types
  import opened Strings
  import Seqs

  /** The `text` of a part; an absent text joins as the empty string. */
  function PartText(c: MessageContent): string
  {
    if c.text.Some? then c.text.value else ""
  }

  /** `c.type === 'text'`. */
  predicate IsTextPart(c: MessageContent)
  {
    c.kind == Text
  }

  /** The texts of the text parts, in order: one text for each part the text filter keeps. */
  function TextParts(content: seq<MessageContent>): (r: seq<string>)
    ensures |r| == |Seqs.Filter(content, IsTextPart)|
    ensures forall i :: 0 <= i < |r| ==> r[i] == PartText(Seqs.Filter(content, IsTextPart)[i])
  {
    if content == [] then []
    else (if content[0].kind == Text then [PartText(content[0])] else []) + TextParts(content[1..])
  }

  /** The text copied, and shown when no live buffer replaces it: the text parts joined with newlines. */
  function CopyText(content: seq<MessageContent>): string
  {
    Join(TextParts(content), "\n")
  }

  /** The media items: the parts that are not text, in order. */
  function MediaItems(content: seq<MessageContent>): (r: seq<MessageContent>)
    ensures forall i :: 0 <= i < |r| ==> r[i].kind != Text && r[i] in content
    ensures forall i :: 0 <= i < |content| && content[i].kind != Text ==> content[i] in r
  {
    Seqs.Filter(content, (c: MessageContent) => c.kind != Text)
  }

  /** Every part is either a text or a media item: the two lists together are as long as the content. */
  lemma {:induction false} TextAndMediaPartition(content: seq<MessageContent>)
    ensures |TextParts(content)| + |MediaItems(content)| == |content|
  {
    if content != [] {
      TextAndMediaPartition(content[1..]);
    }
  }

  /**
   * When no text contains a newline, the copied text splits back into the
   * texts of the text parts.
   */
  lemma CopyTextSplits(content: seq<MessageContent>)
    requires TextParts(content) != []
    requires forall k :: 0 <= k < |TextParts(content)| ==> '\n' !in TextParts(content)[k]
    ensures Split(CopyText(content), '\n') == TextParts(content)
  {
    SplitJoin(TextParts(content), '\n');
  }

  /** `isStreaming ? streamingContent : null`. */
  function DisplayContent(isStreaming: bool, streamingContent: Option<string>): Option<string>
  {
    if isStreaming then streamingContent else None
  }

  /** The live buffer, when it replaces the message's own text. */
  predicate ShowsLiveBuffer(isStreaming: bool, streamingContent: Option<string>)
  {
    var d := DisplayContent(isStreaming, streamingContent);
    d.Some? && d.value != ""
  }

  /** `displayContent || joined text`: the live buffer only while streaming and non-empty. */
  function ShownText(message: Message, isStreaming: bool, streamingContent: Option<string>): (t: string)
    ensures isStreaming && streamingContent.Some? && streamingContent.value != "" ==> t == streamingContent.value
    ensures !(isStreaming && streamingContent.Some? && streamingContent.value != "") ==> t == CopyText(message.content)
  {
    if ShowsLiveBuffer(isStreaming, streamingContent) then DisplayContent(isStreaming, streamingContent).value
    else CopyText(message.content)
  }

  predicate HasTextPart(content: seq<MessageContent>)
  {
    exists i :: 0 <= i < |content| && content[i].kind == Text
  }

  /** The text bubble: a text part exists, or a non-empty live buffer is shown. */
  predicate ShowsTextBubble(message: Message, isStreaming: bool, streamingContent: Option<string>)
  {
    HasTextPart(message.content) || ShowsLiveBuffer(isStreaming, streamingContent)
  }

  /** A message has a text part exactly when it has text to join. */
  lemma {:induction false} HasTextPartIff(content: seq<MessageContent>)
    ensures HasTextPart(content) <==> TextParts(content) != []
  {
    if content != [] {
      HasTextPartIff(content[1..]);
      if HasTextPart(content[1..]) {
        var i :| 0 <= i < |content[1..]| && content[1..][i].kind == Text;
        assert content[i + 1].kind == Text;
      }
      if HasTextPart(content) && content[0].kind != Text {
        var i :| 0 <= i < |content| && content[i].kind == Text;
        assert content[1..][i - 1].kind == Text;
      }
    }
  }

  /** The text bubble shows exactly when there are text parts to join or a non-empty live buffer. */
  lemma TextBubbleIff(message: Message, isStreaming: bool, streamingContent: Option<string>)
    ensures ShowsTextBubble(message, isStreaming, streamingContent)
            <==> TextParts(message.content) != [] || ShowsLiveBuffer(isStreaming, streamingContent)
  {
    HasTextPartIff(message.content);
  }

  /** The copy, regenerate and rating actions: assistant and system messages, once not streaming. */
  predicate ShowsActions(message: Message, isStreaming: bool)
  {
    message.role != UserRole && !isStreaming
  }

  /** The pulsing cursor after the text: inside the text bubble, while streaming. */
  predicate ShowsCursor(message: Message, isStreaming: bool, streamingContent: Option<string>)
  {
    ShowsTextBubble(message, isStreaming, streamingContent) && isStreaming
  }

  /**
   * The actions never appear beside the cursor, and a text bubble not from
   * the user always ends in one of the two.
   */
  lemma ActionsOrCursor(message: Message, isStreaming: bool, streamingContent: Option<string>)
    ensures !(ShowsActions(message, isStreaming) && ShowsCursor(message, isStreaming, streamingContent))
    ensures message.role != UserRole && ShowsTextBubble(message, isStreaming, streamingContent) ==>
              ShowsActions(message, isStreaming) || ShowsCursor(message, isStreaming, streamingContent)
    ensures message.role == UserRole ==> !ShowsActions(message, isStreaming)
  {
  }

  /** The metadata line: messages not from the user that name a model (an empty name is falsy). */
  predicate ShowsMetadata(message: Message)
  {
    message.role != UserRole && message.modelUsed.Some? && message.modelUsed.value != ""
  }

  /**
   * What `{count && (...)}` renders: nothing for an absent count; for a zero
   * count the falsy `0` itself, which React prints as a bare "0" with no
   * separator and no unit; otherwise the separator and the count.
   */
  datatype CountView = NoCount | StrayZero | Count(value: int)

  function CountShown(v: Option<int>): (view: CountView)
    ensures view.NoCount? <==> v.None?
    ensures view.StrayZero? <==> v == Some(0)
    ensures view.Count? <==> v.Some? && v.value != 0
    ensures view.Count? ==> view.value == v.value
  {
    if v.None? then NoCount
    else if v.value == 0 then StrayZero
    else Count(v.value)
  }

  /** The metadata line: the model's name, then what the output token count and the latency render as. */
  datatype MetadataView = MetadataView(model: string, tokens: CountView, latency: CountView)

  function Metadata(message: Message): (line: Option<MetadataView>)
    ensures line.Some? <==> ShowsMetadata(message)
    ensures line.Some? ==> line.value.model == message.modelUsed.value && line.value.model != ""
  {
    if ShowsMetadata(message) then
      Some(MetadataView(message.modelUsed.value, CountShown(message.tokensOutput), CountShown(message.latencyMs)))
    else None
  }

  /**
   * A count appears on the metadata line exactly when the line is shown and
   * the count is present and non-zero; a zero count leaves a stray "0".
   * A user message never has a metadata line, whatever it carries.
   */
  lemma MetadataCounts(message: Message)
    ensures message.role == UserRole ==> Metadata(message).None?
    ensures var line := Metadata(message);
            (line.Some? && line.value.tokens.Count?) <==>
              ShowsMetadata(message) && message.tokensOutput.Some? && message.tokensOutput.value != 0
    ensures var line := Metadata(message);
            (line.Some? && line.value.latency.Count?) <==>
              ShowsMetadata(message) && message.latencyMs.Some? && message.latencyMs.value != 0
    ensures var line := Metadata(message);
            ShowsMetadata(message) && message.tokensOutput == Some(0) ==> line.Some? && line.value.tokens == StrayZero
    ensures var line := Metadata(message);
            ShowsMetadata(message) && message.latencyMs == Some(0) ==> line.Some? && line.value.latency == StrayZero
  {
  }

  /** The audio duration label: minutes, a colon and two-digit seconds; `--:--` for an absent or zero duration. */
  function DurationLabel(duration: Option<nat>): string
  {
    if duration.Some? && duration.value != 0 then
      NatToString(duration.value / 60) + ":" + PadStart(NatToString(duration.value % 60), 2, '0')
    else "--:--"
  }

  /** Seconds below a minute pad to exactly two digits that read back as the seconds. */
  lemma {:induction false} PaddedSecondsReadBack(n: nat)
    requires n < 60
    ensures var seconds := PadStart(NatToString(n), 2, '0');
            |seconds| == 2 && AllDigits(seconds) && ParseNat(seconds) == n
  {
    var s := NatToString(n);
    ParseNatToString(n);
    if n < 10 {
      assert PadStart(s, 2, '0') == "0" + s;
      ParseNatLeadingZero(s);
    } else {
      assert |s| == 2 by {
        assert n / 10 < 10;
        assert s == NatToString(n / 10) + [DigitChar(n % 10)];
      }
    }
  }

  /**
   * A duration label splits at its colon into whole minutes and exactly two
   * seconds digits, which read back as the duration.
   */
  lemma {:induction false} DurationLabelReadsBack(d: nat)
    requires d > 0
    ensures var minutes := NatToString(d / 60);
            var seconds := PadStart(NatToString(d % 60), 2, '0');
            && DurationLabel(Some(d)) == minutes + ":" + seconds
            && |seconds| == 2 && AllDigits(seconds)
            && ParseNat(minutes) * 60 + ParseNat(seconds) == d
  {
    ParseNatToString(d / 60);
    PaddedSecondsReadBack(d % 60);
  }

  /** An absent or zero duration is shown as `--:--`. */
  lemma NoDurationLabel(duration: Option<nat>)
    requires duration.None? || duration.value == 0
    ensures DurationLabel(duration) == "--:--"
  {
  }
}
