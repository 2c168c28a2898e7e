/**
 The handler for the "agent speech interrupted" event: the message being
 spoken when the user barged in gets a fixed marker appended to its text,
 so the conversation history records that it was cut short.
 */
module Interruption {
  import opened Wrappers

  datatype ChatRole = System | User | Assistant

  /** One message of the conversation history. */
  datatype ChatMessage = ChatMessage(role: ChatRole, text: string)

  const InterruptedMarker: string := "... (user interrupted you)"

  /** The handler: appends the marker to the in-flight message's text. */
  function MarkInterrupted(msg: ChatMessage): (r: ChatMessage)
    ensures r.role == msg.role
    ensures msg.text <= r.text
    ensures |r.text| == |msg.text| + |InterruptedMarker|
    ensures r.text[|msg.text|..] == InterruptedMarker
  {
    msg.(text := msg.text + InterruptedMarker)
  }

  /** Recovers the text a message had before the marker was appended, if it carries one. */
  function StripMarker(text: string): (r: Option<string>)
    ensures r.Some? <==> |InterruptedMarker| <= |text| && text[|text| - |InterruptedMarker|..] == InterruptedMarker
    ensures r.Some? ==> r.value + InterruptedMarker == text
  {
    var n := |text| - |InterruptedMarker|;
    if 0 <= n && text[n..] == InterruptedMarker then
      assert text[..n] + text[n..] == text;
      Some(text[..n])
    else None
  }

  /** The marked text yields the message's original text back. */
  lemma MarkStripRoundTrip(msg: ChatMessage)
    ensures StripMarker(MarkInterrupted(msg).text) == Some(msg.text)
  {
    var marked := MarkInterrupted(msg).text;
    assert marked[..|msg.text|] == msg.text;
  }
}
