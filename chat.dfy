/**
 * Chat messages as the host hands them to the plugin: a channel (the host's
 * XivChatType, an unsigned 16-bit enumeration) and rich text made of payloads.
 */
module Chat {

  /** An unsigned 16-bit value, the width of XivChatType and of the colour keys. */
  newtype u16 = x: int | 0 <= x < 0x1_0000

  /** A chat channel, by its XivChatType value. */
  type ChatType = u16

  /**
   * The XivChatType values the model refers to by name. XivChatType.None (0) is
   * called AnyChannel here: in an alert's channel list it stands for every channel.
   */
  const AnyChannel: ChatType := 0
  const Debug: ChatType := 1
  const Urgent: ChatType := 2
  const Say: ChatType := 10
  const Shout: ChatType := 11
  const Party: ChatType := 14
  const Alliance: ChatType := 15
  const FreeCompany: ChatType := 24
  const Yell: ChatType := 30
  const CrossParty: ChatType := 32

  /**
   * One element of rich text. `Foreground(0)` and `Glow(0)` are the "colour off"
   * payloads (UIForegroundOff and UIGlowOff are those payloads with key 0).
   * `Other` stands for every payload kind the engine never looks into
   * (player links, icons, item links ...); it is only ever copied.
   */
  datatype Payload =
    | Text(text: string)
    | Foreground(color: u16)
    | Glow(color: u16)
    | Other(kind: nat)

  /** The concatenation of all text runs, in order: what a reader sees of the message. */
  function TextOf(ps: seq<Payload>): string
  {
    if ps == [] then ""
    else (if ps[0].Text? then ps[0].text else "") + TextOf(ps[1..])
  }

  lemma {:induction false} TextOfAppend(a: seq<Payload>, b: seq<Payload>)
    ensures TextOf(a + b) == TextOf(a) + TextOf(b)
  {
    if a == [] {
      assert a + b == b;
    } else {
      assert (a + b)[1..] == a[1..] + b;
      TextOfAppend(a[1..], b);
    }
  }

  /** True when no payload of `ps` is an empty text run. */
  predicate NoEmptyText(ps: seq<Payload>)
  {
    forall i :: 0 <= i < |ps| && ps[i].Text? ==> |ps[i].text| > 0
  }
}
