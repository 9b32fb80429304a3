/**
 * The alert composer: template buttons fill in the message, channel buttons
 * toggle membership in the list of delivery channels, and a voice preview
 * appears while `Voice` is among them. `ToggleChannel` is the pure list
 * update; `Composer` is the screen's state.
 */
module MessageCenter {

  import opened Lists
  import opened Option

  datatype Template = Template(id: int, name: string, kind: string, content: string, category: string, usage: int)

  /** The three channel buttons, and the channel selection the screen starts with. */
  const ChannelButtons: seq<string> := ["SMS", "Voice", "USSD"]
  const InitialChannels: seq<string> := ["SMS"]

  /** Every occurrence of `channel` removed, the rest in order. */
  function Without(xs: seq<string>, channel: string): seq<string> {
    Filter(xs, c => c != channel)
  }

  /**
   * `toggleChannel`: a channel already in the list is removed (every
   * occurrence of it); an absent one is appended at the end.
   */
  function ToggleChannel(prev: seq<string>, channel: string): (r: seq<string>)
    ensures channel in prev ==> channel !in r && IsSubsequence(r, prev)
    ensures channel !in prev ==> r == prev + [channel]
  {
    if channel in prev then
      FilterIsSubsequence(prev, c => c != channel);
      Without(prev, channel)
    else prev + [channel]
  }

  /** Toggling flips the membership of `channel` and of no other channel. */
  lemma ToggleFlipsMembership(prev: seq<string>, channel: string)
    ensures Elements(ToggleChannel(prev, channel))
            == if channel in prev then Elements(prev) - {channel} else Elements(prev) + {channel}
  {
  }

  /** Removal keeps every other channel exactly as often as before. */
  lemma ToggleKeepsOtherChannels(prev: seq<string>, channel: string, other: string)
    requires other != channel
    ensures multiset(ToggleChannel(prev, channel))[other] == multiset(prev)[other]
  {
    if channel in prev {
      FilterMultiplicity(prev, c => c != channel, other);
    }
  }

  /** A duplicate-free channel list stays duplicate-free under toggling. */
  lemma ToggleKeepsNoDuplicates(prev: seq<string>, channel: string)
    requires NoDuplicates(prev)
    ensures NoDuplicates(ToggleChannel(prev, channel))
  {
    if channel in prev {
      FilterKeepsNoDuplicates(prev, c => c != channel);
    } else {
      var r := prev + [channel];
      forall i, j | 0 <= i < j < |r|
        ensures r[i] != r[j]
      {
        if j == |prev| {
          assert r[i] == prev[i];
        }
      }
    }
  }

  /** Toggling one of the buttons' channels keeps the selection within the buttons' channels. */
  lemma ToggleStaysWithinButtons(prev: seq<string>, channel: string)
    requires forall i :: 0 <= i < |prev| ==> prev[i] in ChannelButtons
    requires channel in ChannelButtons
    ensures forall c :: c in ToggleChannel(prev, channel) ==> c in ChannelButtons
  {
    ToggleFlipsMembership(prev, channel);
    forall c | c in ToggleChannel(prev, channel)
      ensures c in ChannelButtons
    {
      assert c in Elements(ToggleChannel(prev, channel));
    }
  }

  /**
   * The voice preview (shown while `Voice` is selected) flips when the
   * `Voice` button is pressed and stays as it was for any other button.
   */
  lemma VoicePreviewFollowsVoiceButton(prev: seq<string>, channel: string)
    ensures "Voice" in ToggleChannel(prev, channel)
            <==> if channel == "Voice" then "Voice" !in prev else "Voice" in prev
  {
    ToggleFlipsMembership(prev, channel);
    assert "Voice" in ToggleChannel(prev, channel) <==> "Voice" in Elements(ToggleChannel(prev, channel));
  }

  /** Toggling an absent channel twice gives back the original list. */
  lemma ToggleTwiceRestoresAbsent(prev: seq<string>, channel: string)
    requires channel !in prev
    ensures ToggleChannel(ToggleChannel(prev, channel), channel) == prev
  {
    assert channel in prev + [channel];
    FilterKeepsAll(prev, c => c != channel);
    assert Filter([channel], c => c != channel) == [];
    FilterAppend(prev, [channel], c => c != channel);
  }

  /** Toggling a present channel twice moves it to the end: the same channels, possibly reordered. */
  lemma ToggleTwiceRestoresElements(prev: seq<string>, channel: string)
    ensures Elements(ToggleChannel(ToggleChannel(prev, channel), channel)) == Elements(prev)
  {
    ToggleFlipsMembership(prev, channel);
    ToggleFlipsMembership(ToggleChannel(prev, channel), channel);
  }

  /** The composer's state. */
  class Composer {
    var selectedTemplate: Option<Template>
    var customMessage: string
    var selectedChannels: seq<string>
    var targetLocation: string
    var recipientCount: int

    /** The channel list is used as a set of the buttons' channels: no channel twice. */
    ghost predicate Valid()
      reads this
    {
      && NoDuplicates(selectedChannels)
      && forall i :: 0 <= i < |selectedChannels| ==> selectedChannels[i] in ChannelButtons
    }

    constructor ()
      ensures Valid()
      ensures selectedTemplate == None && customMessage == "" && selectedChannels == InitialChannels
      ensures targetLocation == "" && recipientCount == 0
      ensures !ShowsVoicePreview()
    {
      selectedTemplate := None;
      customMessage := "";
      selectedChannels := InitialChannels;
      targetLocation := "";
      recipientCount := 0;
    }

    /** The voice preview card is shown while `Voice` is selected. */
    predicate ShowsVoicePreview()
      reads this
    {
      "Voice" in selectedChannels
    }

    /** A channel button is highlighted while its channel is selected. */
    predicate ChannelButtonActive(channel: string)
      reads this
    {
      channel in selectedChannels
    }

    /** A template button is highlighted while the selected template has its id. */
    predicate TemplateButtonActive(t: Template)
      reads this
    {
      selectedTemplate.Some? && selectedTemplate.value.id == t.id
    }

    /** A channel button. */
    method PressChannel(channel: string)
      requires Valid()
      requires channel in ChannelButtons
      modifies this
      ensures Valid()
      ensures selectedChannels == ToggleChannel(old(selectedChannels), channel)
      ensures ChannelButtonActive(channel) <==> !old(ChannelButtonActive(channel))
      ensures ShowsVoicePreview() <==> if channel == "Voice" then !old(ShowsVoicePreview()) else old(ShowsVoicePreview())
      ensures selectedTemplate == old(selectedTemplate) && customMessage == old(customMessage)
      ensures targetLocation == old(targetLocation) && recipientCount == old(recipientCount)
    {
      ToggleKeepsNoDuplicates(selectedChannels, channel);
      ToggleStaysWithinButtons(selectedChannels, channel);
      ToggleFlipsMembership(selectedChannels, channel);
      VoicePreviewFollowsVoiceButton(selectedChannels, channel);
      selectedChannels := ToggleChannel(selectedChannels, channel);
      assert channel in selectedChannels <==> channel in Elements(selectedChannels);
    }

    /** A quick-template button or a popular-template card: both set the template and its text. */
    method ChooseTemplate(t: Template)
      requires Valid()
      modifies this
      ensures Valid()
      ensures selectedTemplate == Some(t) && customMessage == t.content
      ensures TemplateButtonActive(t)
      ensures selectedChannels == old(selectedChannels)
      ensures targetLocation == old(targetLocation) && recipientCount == old(recipientCount)
    {
      selectedTemplate := Some(t);
      customMessage := t.content;
    }

    /** Typing in the message box; the selected template stays as it was. */
    method EditMessage(text: string)
      requires Valid()
      modifies this
      ensures Valid()
      ensures customMessage == text
      ensures selectedTemplate == old(selectedTemplate) && selectedChannels == old(selectedChannels)
      ensures targetLocation == old(targetLocation) && recipientCount == old(recipientCount)
    {
      customMessage := text;
    }

    /** Typing in the target-location box. */
    method EditTargetLocation(location: string)
      requires Valid()
      modifies this
      ensures Valid()
      ensures targetLocation == location
      ensures selectedTemplate == old(selectedTemplate) && customMessage == old(customMessage)
      ensures selectedChannels == old(selectedChannels) && recipientCount == old(recipientCount)
    {
      targetLocation := location;
    }
  }
}
