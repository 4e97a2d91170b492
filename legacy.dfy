/**
 * The earlier plugin: an alert that holds its compiled regex and its audio handles
 * itself, the Plugin with its list of watched channels and its message handler, and
 * the list actions of its configuration window.
 */
module Legacy {
  import opened Wrappers
  import opened Chat
  import opened Matching
  import opened Splice
  import opened Alerts
  import opened Watcher
  import opened LegacySplice
  import ListOps
  import Channels

  /** The regex Update keeps: whatever the engine compiles, empty-matching patterns included. */
  function LegacyRegex(isRegex: bool, content: string, ignoreCase: bool, platform: Platform): Option<Regex>
  {
    if isRegex then platform.compile(content, ignoreCase) else None
  }

  /**
   * The earlier Update accepts every regex the later cache accepts, and more: the two
   * differ only on a compiled pattern that matches the empty input.
   */
  lemma LegacyRegexAdmitsMore(isRegex: bool, content: string, ignoreCase: bool, platform: Platform)
    ensures AcceptedRegex(isRegex, content, ignoreCase, platform).Some? ==>
      LegacyRegex(isRegex, content, ignoreCase, platform) == AcceptedRegex(isRegex, content, ignoreCase, platform)
    ensures LegacyRegex(isRegex, content, ignoreCase, platform) != AcceptedRegex(isRegex, content, ignoreCase, platform) <==>
      LegacyRegex(isRegex, content, ignoreCase, platform).Some? &&
      LegacyRegex(isRegex, content, ignoreCase, platform).value.find("", 0).Some?
  {
  }

  class LegacyAlert {
    var channels: seq<ChatType>
    var name: string
    var content: string
    var enabled: bool
    var isRegex: bool
    var ignoreCase: bool
    var customSound: bool
    var senderAlert: bool
    var includeHidden: bool
    var highlight: bool
    var highlightForeground: u32
    var highlightGlow: u32
    var playSound: bool
    var soundEffect: SoundId
    var soundPath: string
    var compiledRegex: Option<Regex>
    var audioFile: Option<AudioFile>
    var audioEvent: Option<AudioEvent>
    /** The number of audio handles this alert has created: the serial of the next one. */
    var created: nat
    /** The serials of the handles created and not yet disposed. */
    ghost var live: set<nat>

    /** The handles the alert currently holds. */
    ghost function Held(): set<nat>
      reads this
    {
      (if audioFile.Some? then {audioFile.value.serial} else {}) +
      (if audioEvent.Some? then {audioEvent.value.serial} else {})
    }

    ghost predicate Valid()
      reads this
    {
      (audioEvent.Some? ==> audioFile.Some? && audioEvent.value.file == audioFile.value) &&
      Held() <= live &&
      (forall n | n in live :: n < created)
    }

    /** No handle is open that the alert no longer holds. */
    ghost predicate NoLeak()
      reads this
    {
      live == Held()
    }

    /** A new alert with the source's field defaults. */
    constructor ()
      ensures channels == [] && name == "New Alert" && content == "" && soundPath == ""
      ensures enabled && !isRegex && ignoreCase && !customSound && !senderAlert && !includeHidden
      ensures highlight && highlightForeground == 500 && highlightGlow == 0
      ensures !playSound && soundEffect == Sound02
      ensures compiledRegex.None? && audioFile.None? && audioEvent.None?
      ensures Valid() && NoLeak()
    {
      channels, name, content, soundPath := [], "New Alert", "", "";
      enabled, isRegex, ignoreCase, customSound := true, false, true, false;
      senderAlert, includeHidden, highlight := false, false, true;
      highlightForeground, highlightGlow := 500, 0;
      playSound, soundEffect := false, Sound02;
      compiledRegex, audioFile, audioEvent, created := None, None, None, 0;
      live := {};
    }

    /** Both audio handles are present. */
    predicate SoundReady()
      reads this
    {
      audioFile.Some? && audioEvent.Some?
    }

    /** The alert holds the regex its settings compile to. */
    ghost predicate RegexCurrent(platform: Platform)
      reads this
    {
      compiledRegex == LegacyRegex(isRegex, content, ignoreCase, platform)
    }

    /** Disposes both audio handles and forgets them. */
    method Dispose()
      requires Valid()
      modifies this`audioFile, this`audioEvent, this`live
      ensures Valid()
      ensures audioFile.None? && audioEvent.None?
      ensures live == old(live) - old(Held())
      ensures old(NoLeak()) ==> NoLeak() && live == {}
    {
      live := live - Held();
      audioEvent := None;
      audioFile := None;
    }

    /**
     * The guarded part of Update: opens the sound file and an output device over it.
     * When opening throws, the catch disposes the handles held; when Init throws, it
     * disposes the two fresh ones. Handles held on entry are overwritten, not
     * disposed, when the file opens.
     */
    method OpenAudio(platform: Platform)
      requires Valid()
      modifies this`audioFile, this`audioEvent, this`created, this`live
      ensures Valid()
      ensures SoundReady() == (platform.canOpen(soundPath) && platform.canInit(soundPath))
      ensures SoundReady() ==>
        audioFile == Some(AudioFile(old(created), soundPath)) &&
        audioEvent == Some(AudioEvent(old(created) + 1, audioFile.value))
      ensures !SoundReady() ==> audioFile.None? && audioEvent.None?
      ensures created == if platform.canOpen(soundPath) then old(created) + 2 else old(created)
      ensures platform.canOpen(soundPath) ==> live == old(live) + Held()
      ensures !platform.canOpen(soundPath) ==> live == old(live) - old(Held())
    {
      if !platform.canOpen(soundPath) {
        // new AudioFileReader threw before the field was assigned
        Dispose();
        return;
      }
      audioFile := Some(AudioFile(created, soundPath));
      live := live + {created};
      created := created + 1;
      audioEvent := Some(AudioEvent(created, audioFile.value));
      live := live + {created};
      created := created + 1;
      if !platform.canInit(soundPath) {
        // the device was created but Init threw
        Dispose();
      }
    }

    /**
     * Update as written: recompiles the regex and reloads the custom sound. When the
     * held file already has the alert's path and the file opens again, the old
     * handles are overwritten without being disposed.
     */
    method Update(platform: Platform)
      requires Valid()
      modifies this`compiledRegex, this`audioFile, this`audioEvent, this`created, this`live
      ensures Valid() && RegexCurrent(platform)
      ensures playSound && customSound ==>
        SoundReady() == (platform.canOpen(soundPath) && platform.canInit(soundPath))
      ensures !(playSound && customSound) ==> !SoundReady() && live == old(live) - old(Held())
      ensures SoundReady() ==> audioFile.value.fileName == soundPath && audioEvent.value.file == audioFile.value
      ensures (old(NoLeak()) &&
               !(old(audioFile).Some? && old(audioFile).value.fileName == soundPath &&
                 playSound && customSound && platform.canOpen(soundPath))) ==> NoLeak()
      ensures old(audioFile).Some? && old(audioFile).value.fileName == soundPath &&
              playSound && customSound && platform.canOpen(soundPath) ==>
        old(Held()) <= live && old(Held()) !! Held()
    {
      compiledRegex := None;
      if isRegex {
        // new Regex(...) either compiles or throws, which leaves the field null
        compiledRegex := platform.compile(content, ignoreCase);
      }
      if playSound && customSound {
        if audioFile.None? || audioFile.value.fileName != soundPath {
          Dispose();
        }
        OpenAudio(platform);
      } else {
        Dispose();
      }
    }

    /** The sound StartSound starts, if any. */
    function SoundOf(): Option<SoundEvent>
      reads this
    {
      if !playSound then None
      else if customSound then (if audioEvent.None? then None else Some(Replay(audioEvent.value.file)))
      else Some(GameSound(soundEffect))
    }

    /** Plays the alert's sound: the loaded custom file when there is an output device, or the game sound. */
    method StartSound() returns (started: bool, event: Option<SoundEvent>)
      requires Valid()
      ensures started <==> playSound && (customSound ==> audioEvent.Some?)
      ensures started && customSound ==> event == Some(Replay(audioFile.value))
      ensures started && !customSound ==> event == Some(GameSound(soundEffect))
      ensures !started ==> event.None?
      ensures event == SoundOf()
    {
      if !playSound {
        return false, None;
      }
      if customSound {
        if !playSound || audioEvent.None? {
          return false, None;
        }
        // Stop, rewind the file, Play
        return true, Some(Replay(audioFile.value));
      }
      return true, Some(GameSound(soundEffect));
    }

    /**
     * What HandleMessage searches with: nothing for a regex alert whose regex did not
     * compile or for an alert without content, the regex or the literal content otherwise.
     */
    function SearchPattern(): (r: Option<Pattern>)
      reads this
      ensures r.Some? <==> |content| > 0 && (isRegex ==> compiledRegex.Some?)
      ensures r.Some? && isRegex ==> r.value == Compiled(compiledRegex.value)
      ensures r.Some? && !isRegex ==> r.value == Literal(content, ignoreCase) && |r.value.content| > 0
    {
      if isRegex && compiledRegex.None? then None
      else if |content| == 0 then None
      else if isRegex then Some(Compiled(compiledRegex.value))
      else Some(Literal(content, ignoreCase))
    }

    function Style(): LegacyStyle
      reads this
    {
      LegacyStyle(highlight, highlightForeground, highlightGlow)
    }
  }

  /** What the message handler needs to know of one earlier alert. */
  datatype LegacyView = LegacyView(
    enabled: bool,
    includeHidden: bool,
    channels: seq<ChatType>,
    senderAlert: bool,
    pattern: Option<Pattern>,
    style: LegacyStyle,
    sound: Option<SoundEvent>)

  function LegacyViewOf(a: LegacyAlert): LegacyView
    reads a
  {
    LegacyView(a.enabled, a.includeHidden, a.channels, a.senderAlert, a.SearchPattern(), a.Style(), a.SoundOf())
  }

  function LegacyViews(alerts: seq<LegacyAlert>): (vs: seq<LegacyView>)
    reads alerts
    ensures |vs| == |alerts|
    ensures forall i :: 0 <= i < |alerts| ==> vs[i] == LegacyViewOf(alerts[i])
  {
    if alerts == [] then [] else [LegacyViewOf(alerts[0])] + LegacyViews(alerts[1..])
  }

  /** `vs` holds the view of each alert, in order. */
  ghost predicate ViewsOf(alerts: seq<LegacyAlert>, vs: seq<LegacyView>)
    reads alerts
  {
    |vs| == |alerts| && forall k :: 0 <= k < |alerts| ==> vs[k] == LegacyViewOf(alerts[k])
  }

  /** The filter of the alert loop, with the two checks that skip an alert that cannot search. */
  predicate LegacyApplies(v: LegacyView, t: ChatType, preFilter: bool)
  {
    v.enabled && v.includeHidden == preFilter && (AnyChannel in v.channels || t in v.channels) &&
    v.pattern.Some?
  }

  /** The payloads an alert searches: the sender's for a sender alert, the message's otherwise. */
  function LegacyTarget(v: LegacyView, st: MsgState): seq<Payload>
  {
    if v.senderAlert then st.sender else st.message
  }

  /**
   * One alert's effect: nothing unless it applies and one of the runs it searches
   * has a hit; then the message is replaced by the rewritten list (unless it is a
   * sender alert, whose rewrite is dropped) and the first sound of the message starts.
   */
  function LegacyStep(v: LegacyView, t: ChatType, preFilter: bool, st: MsgState): MsgState
  {
    if !LegacyApplies(v, t, preFilter) then st
    else
      var ps := LegacyTarget(v, st);
      if !LegacyMatchTo(v.pattern.value, ps, |ps|) then st
      else
        var st1 := if v.senderAlert then st else st.(message := LegacyAllTo(v.pattern.value, v.style, ps, |ps|));
        if st.soundPlayed then st1
        else st1.(soundPlayed := v.sound.Some?, sounds := st.sounds + (if v.sound.Some? then [v.sound.value] else []))
  }

  function LegacyPipelineTo(vs: seq<LegacyView>, n: nat, t: ChatType, preFilter: bool, st: MsgState): MsgState
    requires n <= |vs|
  {
    if n == 0 then st else LegacyStep(vs[n - 1], t, preFilter, LegacyPipelineTo(vs, n - 1, t, preFilter, st))
  }

  function LegacyPipeline(vs: seq<LegacyView>, t: ChatType, preFilter: bool, st: MsgState): MsgState
  {
    LegacyPipelineTo(vs, |vs|, t, preFilter, st)
  }

  /** The earlier handler never changes the sender. */
  lemma {:induction false} LegacySenderKept(vs: seq<LegacyView>, n: nat, t: ChatType, preFilter: bool, st: MsgState)
    requires n <= |vs|
    ensures LegacyPipelineTo(vs, n, t, preFilter, st).sender == st.sender
  {
    if n > 0 {
      LegacySenderKept(vs, n - 1, t, preFilter, st);
    }
  }

  /** One alert keeps the text of the message. */
  lemma LegacyStepKeepsText(v: LegacyView, t: ChatType, preFilter: bool, st: MsgState)
    ensures TextOf(LegacyStep(v, t, preFilter, st).message) == TextOf(st.message)
  {
    if LegacyApplies(v, t, preFilter) && !v.senderAlert {
      var ps := st.message;
      LegacyAllText(v.pattern.value, v.style, ps, |ps|);
      assert ps[..|ps|] == ps;
    }
  }

  /** The message reads the same after all alerts: only colour switches are added and runs split. */
  lemma {:induction false} LegacyKeepsText(vs: seq<LegacyView>, n: nat, t: ChatType, preFilter: bool, st: MsgState)
    requires n <= |vs|
    ensures TextOf(LegacyPipelineTo(vs, n, t, preFilter, st).message) == TextOf(st.message)
  {
    if n > 0 {
      LegacyKeepsText(vs, n - 1, t, preFilter, st);
      LegacyStepKeepsText(vs[n - 1], t, preFilter, LegacyPipelineTo(vs, n - 1, t, preFilter, st));
    }
  }

  /** At most one sound per message; a sound was started exactly when one is recorded. */
  lemma {:induction false} LegacySoundAtMostOnce(vs: seq<LegacyView>, n: nat, t: ChatType, preFilter: bool,
                                                 sender: seq<Payload>, message: seq<Payload>)
    requires n <= |vs|
    ensures |LegacyPipelineTo(vs, n, t, preFilter, Start(sender, message)).sounds| <= 1
    ensures LegacyPipelineTo(vs, n, t, preFilter, Start(sender, message)).soundPlayed <==>
            |LegacyPipelineTo(vs, n, t, preFilter, Start(sender, message)).sounds| == 1
  {
    if n > 0 {
      LegacySoundAtMostOnce(vs, n - 1, t, preFilter, sender, message);
    }
  }

  /** An alert none of whose searched runs has a hit leaves the message state alone. */
  lemma LegacyStepNeedsHit(v: LegacyView, t: ChatType, preFilter: bool, st: MsgState)
    requires LegacyApplies(v, t, preFilter)
    requires forall i :: 0 <= i < |LegacyTarget(v, st)| ==> !RunHit(v.pattern.value, LegacyTarget(v, st)[i])
    ensures LegacyStep(v, t, preFilter, st) == st
  {
    var ps := LegacyTarget(v, st);
    LegacyMatchExists(v.pattern.value, ps, |ps|);
  }

  /** Alerts that do not apply to a message leave it exactly as it came. */
  lemma {:induction false} LegacyIdle(vs: seq<LegacyView>, n: nat, t: ChatType, preFilter: bool, st: MsgState)
    requires n <= |vs|
    requires forall i :: 0 <= i < n ==> !LegacyApplies(vs[i], t, preFilter)
    ensures LegacyPipelineTo(vs, n, t, preFilter, st) == st
  {
    if n > 0 {
      LegacyIdle(vs, n - 1, t, preFilter, st);
    }
  }

  /** No channel is listed twice. */
  predicate NoDup(cs: seq<ChatType>)
  {
    forall i, j :: 0 <= i < j < |cs| ==> cs[i] != cs[j]
  }

  /** The watched list after appending, in order, each channel of `cs` it does not yet hold. */
  function AddMissing(w: seq<ChatType>, cs: seq<ChatType>): seq<ChatType>
    decreases |cs|
  {
    if cs == [] then w else AddMissing(if cs[0] in w then w else w + [cs[0]], cs[1..])
  }

  /** The watched list after the first `n` channel lists. */
  function WatchedTo(chans: seq<seq<ChatType>>, n: nat): seq<ChatType>
    requires n <= |chans|
  {
    if n == 0 then [] else AddMissing(WatchedTo(chans, n - 1), chans[n - 1])
  }

  /** Appending the missing channels keeps the list free of duplicates. */
  lemma {:induction false} AddMissingNoDup(w: seq<ChatType>, cs: seq<ChatType>)
    requires NoDup(w)
    ensures NoDup(AddMissing(w, cs))
    decreases |cs|
  {
    if cs != [] {
      var w1 := if cs[0] in w then w else w + [cs[0]];
      assert NoDup(w1) by {
        if cs[0] !in w {
          forall i, j | 0 <= i < j < |w1|
            ensures w1[i] != w1[j]
          {
            if j == |w| {
              assert w1[i] == w[i] && w[i] in w;
            }
          }
        }
      }
      AddMissingNoDup(w1, cs[1..]);
    }
  }

  /** The appended list holds exactly the channels of both lists. */
  lemma {:induction false} AddMissingMembers(w: seq<ChatType>, cs: seq<ChatType>, c: ChatType)
    ensures c in AddMissing(w, cs) <==> c in w || c in cs
    decreases |cs|
  {
    if cs != [] {
      var w1 := if cs[0] in w then w else w + [cs[0]];
      AddMissingMembers(w1, cs[1..], c);
      assert cs == [cs[0]] + cs[1..];
    }
  }

  /** The watched list names every listed channel once and nothing else. */
  lemma {:induction false} WatchedToFacts(chans: seq<seq<ChatType>>, n: nat, c: ChatType)
    requires n <= |chans|
    ensures NoDup(WatchedTo(chans, n))
    ensures c in WatchedTo(chans, n) <==> c in ListedChannels(chans, n)
  {
    if n > 0 {
      WatchedToFacts(chans, n - 1, c);
      AddMissingNoDup(WatchedTo(chans, n - 1), chans[n - 1]);
      AddMissingMembers(WatchedTo(chans, n - 1), chans[n - 1], c);
    }
  }

  /** `chans` lists the channels of each alert, in order. */
  ghost predicate ListsOf(alerts: seq<LegacyAlert>, chans: seq<seq<ChatType>>)
    reads alerts
  {
    |chans| == |alerts| && forall j :: 0 <= j < |alerts| ==> alerts[j].channels == chans[j]
  }

  lemma ListsOfChannelLists(alerts: seq<LegacyAlert>, chans: seq<seq<ChatType>>)
    requires ListsOf(alerts, chans)
    ensures Plugin.ChannelLists(alerts) == chans
  {
  }

  class Plugin {
    var watchedChannels: seq<ChatType>
    var watchAllChannels: bool
    const config: LegacyConfig
    /** The regex and audio services the alerts' Update uses. */
    const platform: Platform

    static ghost predicate AllValid(alerts: seq<LegacyAlert>)
      reads alerts
    {
      forall i :: 0 <= i < |alerts| ==> alerts[i].Valid()
    }

    /** The channel lists of the alerts, in order. */
    static function ChannelLists(alerts: seq<LegacyAlert>): (r: seq<seq<ChatType>>)
      reads alerts
      ensures |r| == |alerts| && forall j :: 0 <= j < |alerts| ==> r[j] == alerts[j].channels
    {
      if alerts == [] then [] else ChannelLists(alerts[..|alerts| - 1]) + [alerts[|alerts| - 1].channels]
    }

    /** Some alert of the list lists channel `t`, or lists AnyChannel. */
    static predicate Listed(alerts: seq<LegacyAlert>, t: ChatType)
      reads alerts
    {
      exists i :: 0 <= i < |alerts| && (AnyChannel in alerts[i].channels || t in alerts[i].channels)
    }

    /** Whether a message of channel `t` gets past the gate of HandleMessage. */
    predicate Passes(t: ChatType)
      reads this
    {
      watchAllChannels || t in watchedChannels
    }

    /** The gate passes exactly the channels some alert listens to. */
    predicate Settled()
      reads this, config, config.alerts
    {
      forall t :: Passes(t) <==> Listed(config.alerts, t)
    }

    /** Initialize: takes the configuration and builds every alert and the channel list. */
    constructor (config: LegacyConfig, platform: Platform)
      requires AllValid(config.alerts)
      modifies config.alerts
      ensures this.config == config && this.platform == platform
      ensures AllValid(config.alerts) && Settled()
      ensures watchedChannels == WatchedTo(ChannelLists(config.alerts), |config.alerts|)
      ensures forall i :: 0 <= i < |config.alerts| ==> config.alerts[i].RegexCurrent(platform)
    {
      this.config := config;
      this.platform := platform;
      watchedChannels := [];
      watchAllChannels := false;
      new;
      UpdateAlerts();
    }

    /**
     * Rebuilds every alert and the watched list from scratch: each alert's channels
     * not yet watched are appended in order, and listing AnyChannel opens the gate to all.
     */
    method UpdateAlerts()
      requires AllValid(config.alerts)
      modifies this`watchedChannels, this`watchAllChannels, config.alerts
      ensures AllValid(config.alerts) && ChannelLists(config.alerts) == old(ChannelLists(config.alerts))
      ensures watchedChannels == WatchedTo(ChannelLists(config.alerts), |config.alerts|)
      ensures NoDup(watchedChannels)
      ensures watchAllChannels <==> exists i :: 0 <= i < |config.alerts| && AnyChannel in config.alerts[i].channels
      ensures forall c :: c in watchedChannels <==> exists i :: 0 <= i < |config.alerts| && c in config.alerts[i].channels
      ensures Settled()
      ensures forall i :: 0 <= i < |config.alerts| ==> config.alerts[i].RegexCurrent(platform)
    {
      var alerts := config.alerts;
      ghost var chans := ChannelLists(alerts);
      RebuildAll(alerts, chans);
      ListsOfChannelLists(alerts, chans);
      GateFacts(chans, alerts);
    }

    /** The loop of UpdateAlerts: every alert rebuilt in order, its channels joined to a fresh watched list. */
    method RebuildAll(alerts: seq<LegacyAlert>, ghost chans: seq<seq<ChatType>>)
      requires AllValid(alerts) && ListsOf(alerts, chans)
      modifies this`watchedChannels, this`watchAllChannels, alerts
      ensures AllValid(alerts) && ListsOf(alerts, chans)
      ensures watchAllChannels == (AnyChannel in ListedChannels(chans, |alerts|))
      ensures watchedChannels == WatchedTo(chans, |alerts|)
      ensures forall j :: 0 <= j < |alerts| ==> alerts[j].RegexCurrent(platform)
    {
      watchedChannels := [];
      watchAllChannels := false;
      var i := 0;
      while i < |alerts|
        invariant 0 <= i <= |alerts|
        invariant AllValid(alerts) && ListsOf(alerts, chans)
        invariant watchAllChannels == (AnyChannel in ListedChannels(chans, i))
        invariant watchedChannels == WatchedTo(chans, i)
        invariant forall j :: 0 <= j < i ==> alerts[j].RegexCurrent(platform)
      {
        UpdateNext(alerts[i], alerts, chans, i);
        i := i + 1;
      }
    }

    /** One round of UpdateAlerts: `alerts[i]` is rebuilt and its channels joined to the watched list. */
    method UpdateNext(a: LegacyAlert, alerts: seq<LegacyAlert>, ghost chans: seq<seq<ChatType>>, i: nat)
      requires i < |alerts| && a == alerts[i] && ListsOf(alerts, chans) && AllValid(alerts)
      requires watchAllChannels == (AnyChannel in ListedChannels(chans, i))
      requires watchedChannels == WatchedTo(chans, i)
      requires forall j :: 0 <= j < i ==> alerts[j].RegexCurrent(platform)
      modifies this`watchedChannels, this`watchAllChannels
      modifies a`compiledRegex, a`audioFile, a`audioEvent, a`created, a`live
      ensures AllValid(alerts) && ListsOf(alerts, chans)
      ensures watchAllChannels == (AnyChannel in ListedChannels(chans, i + 1))
      ensures watchedChannels == WatchedTo(chans, i + 1)
      ensures forall j :: 0 <= j <= i ==> alerts[j].RegexCurrent(platform)
    {
      RefreshAt(a, alerts, chans, i, platform);
      if AnyChannel in a.channels {
        watchAllChannels := true;
      }
      AppendMissing(a.channels);
    }

    /** Alert.Update on `alerts[i]`: its regex is now current, and every alert stays valid with its channels. */
    static method RefreshAt(a: LegacyAlert, alerts: seq<LegacyAlert>, ghost chans: seq<seq<ChatType>>, i: nat, platform: Platform)
      requires i < |alerts| && a == alerts[i] && ListsOf(alerts, chans) && AllValid(alerts)
      requires forall j :: 0 <= j < i ==> alerts[j].RegexCurrent(platform)
      modifies a`compiledRegex, a`audioFile, a`audioEvent, a`created, a`live
      ensures AllValid(alerts) && ListsOf(alerts, chans)
      ensures forall j :: 0 <= j <= i ==> alerts[j].RegexCurrent(platform)
    {
      a.Update(platform);
    }

    /** watchedChannels.AddRange of the channels it does not yet hold, checked one by one. */
    method AppendMissing(cs: seq<ChatType>)
      modifies this`watchedChannels
      ensures watchedChannels == AddMissing(old(watchedChannels), cs)
    {
      var k := 0;
      while k < |cs|
        invariant 0 <= k <= |cs|
        invariant AddMissing(watchedChannels, cs[k..]) == AddMissing(old(watchedChannels), cs)
      {
        assert cs[k..][1..] == cs[k + 1..];
        if cs[k] !in watchedChannels {
          watchedChannels := watchedChannels + [cs[k]];
        }
        k := k + 1;
      }
      assert cs[k..] == [];
    }

    /** What the rebuilt list and flag say about the alerts. */
    lemma GateFacts(chans: seq<seq<ChatType>>, alerts: seq<LegacyAlert>)
      requires alerts == config.alerts && chans == ChannelLists(alerts)
      requires watchAllChannels == (AnyChannel in ListedChannels(chans, |alerts|))
      requires watchedChannels == WatchedTo(chans, |alerts|)
      ensures NoDup(watchedChannels)
      ensures watchAllChannels <==> exists i :: 0 <= i < |alerts| && AnyChannel in alerts[i].channels
      ensures forall c :: c in watchedChannels <==> exists i :: 0 <= i < |alerts| && c in alerts[i].channels
      ensures Settled()
    {
      WatchedToFacts(chans, |alerts|, AnyChannel);
      ListedChannelsExact(chans, |alerts|, AnyChannel);
      forall c
        ensures c in watchedChannels <==> exists i :: 0 <= i < |alerts| && c in alerts[i].channels
      {
        WatchedToFacts(chans, |alerts|, c);
        ListedChannelsExact(chans, |alerts|, c);
      }
    }

    /**
     * Runs every applicable alert over one chat line. The message comes back
     * rewritten, with the sounds started (at most one); the sender is never changed.
     */
    method HandleMessage(chatType: ChatType, sender: seq<Payload>, message: seq<Payload>, preFilter: bool)
      returns (newMessage: seq<Payload>, sounds: seq<SoundEvent>)
      requires AllValid(config.alerts)
      ensures !Passes(chatType) ==> newMessage == message && sounds == []
      ensures Passes(chatType) || Settled() ==>
        LegacyPipeline(LegacyViews(config.alerts), chatType, preFilter, Start(sender, message)) ==
        MsgState(sender, newMessage, |sounds| == 1, sounds)
    {
      if !Passes(chatType) {
        if Settled() {
          GateTransparent(config.alerts, chatType, preFilter, Start(sender, message));
        }
        return message, [];
      }
      newMessage, sounds := RunAlerts(config.alerts, LegacyViews(config.alerts), chatType, sender, message, preFilter);
    }

    /** A settled gate turns away only messages no alert would act on. */
    lemma GateTransparent(alerts: seq<LegacyAlert>, t: ChatType, preFilter: bool, st: MsgState)
      requires alerts == config.alerts && Settled() && !Passes(t)
      ensures LegacyPipeline(LegacyViews(alerts), t, preFilter, st) == st
    {
      var vs := LegacyViews(alerts);
      forall i | 0 <= i < |vs|
        ensures !LegacyApplies(vs[i], t, preFilter)
      {
        assert !Listed(alerts, t);
        assert !(AnyChannel in alerts[i].channels || t in alerts[i].channels);
      }
      LegacyIdle(vs, |vs|, t, preFilter, st);
    }

    /** The loop of HandleMessage: every alert in list order, over a message the gate let through. */
    static method RunAlerts(alerts: seq<LegacyAlert>, ghost vs: seq<LegacyView>, chatType: ChatType,
                            sender: seq<Payload>, message: seq<Payload>, preFilter: bool)
      returns (newMessage: seq<Payload>, sounds: seq<SoundEvent>)
      requires AllValid(alerts) && vs == LegacyViews(alerts)
      ensures LegacyPipeline(vs, chatType, preFilter, Start(sender, message)) ==
              MsgState(sender, newMessage, |sounds| == 1, sounds)
    {
      var soundPlayed;
      newMessage, soundPlayed, sounds := RunLoop(alerts, vs, chatType, sender, message, preFilter);
      LegacySoundAtMostOnce(vs, |vs|, chatType, preFilter, sender, message);
    }

    /** The loop itself: after it, the state is the one all alerts lead to. */
    static method RunLoop(alerts: seq<LegacyAlert>, ghost vs: seq<LegacyView>, chatType: ChatType,
                          sender: seq<Payload>, message: seq<Payload>, preFilter: bool)
      returns (newMessage: seq<Payload>, soundPlayed: bool, sounds: seq<SoundEvent>)
      requires AllValid(alerts) && ViewsOf(alerts, vs)
      ensures MsgState(sender, newMessage, soundPlayed, sounds) ==
              LegacyPipelineTo(vs, |vs|, chatType, preFilter, Start(sender, message))
    {
      newMessage, soundPlayed, sounds := message, false, [];
      var i := 0;
      while i < |alerts|
        invariant 0 <= i <= |alerts|
        invariant MsgState(sender, newMessage, soundPlayed, sounds) ==
                  LegacyPipelineTo(vs, i, chatType, preFilter, Start(sender, message))
      {
        newMessage, soundPlayed, sounds := RunNext(alerts, vs, i, chatType, preFilter, sender, message, newMessage, soundPlayed, sounds);
        i := i + 1;
      }
    }

    /** One round of the alert loop: the state after `i` alerts becomes the state after `i + 1`. */
    static method RunNext(alerts: seq<LegacyAlert>, ghost vs: seq<LegacyView>, i: nat, chatType: ChatType, preFilter: bool,
                          sender: seq<Payload>, ghost message: seq<Payload>,
                          current: seq<Payload>, soundPlayed: bool, sounds: seq<SoundEvent>)
      returns (newMessage: seq<Payload>, newPlayed: bool, newSounds: seq<SoundEvent>)
      requires i < |alerts| && AllValid(alerts) && ViewsOf(alerts, vs)
      requires MsgState(sender, current, soundPlayed, sounds) == LegacyPipelineTo(vs, i, chatType, preFilter, Start(sender, message))
      ensures MsgState(sender, newMessage, newPlayed, newSounds) ==
              LegacyPipelineTo(vs, i + 1, chatType, preFilter, Start(sender, message))
    {
      var a := alerts[i];
      assert a.Valid() && vs[i] == LegacyViewOf(a);
      newMessage, newPlayed, newSounds := ApplyAlert(a, vs[i], chatType, preFilter, sender, current, soundPlayed, sounds);
    }

    /** One alert's turn: it searches when it applies, replaces the message on a hit, and starts the first sound. */
    static method ApplyAlert(a: LegacyAlert, ghost v: LegacyView, chatType: ChatType, preFilter: bool,
                             sender: seq<Payload>, message: seq<Payload>, soundPlayed: bool, sounds: seq<SoundEvent>)
      returns (newMessage: seq<Payload>, newPlayed: bool, newSounds: seq<SoundEvent>)
      requires a.Valid() && v == LegacyViewOf(a)
      ensures MsgState(sender, newMessage, newPlayed, newSounds) ==
              LegacyStep(v, chatType, preFilter, MsgState(sender, message, soundPlayed, sounds))
    {
      newMessage, newPlayed, newSounds := message, soundPlayed, sounds;
      if !(a.enabled && a.includeHidden == preFilter && (AnyChannel in a.channels || chatType in a.channels)) {
        return;
      }
      if a.isRegex && a.compiledRegex.None? {
        return;
      }
      if |a.content| == 0 {
        return;
      }
      var payloads := if a.senderAlert then sender else message;
      var alertMatch, newPayloads := SplicePayloads(a, payloads);
      if !alertMatch {
        return;
      }
      if !a.senderAlert {
        newMessage := newPayloads;
      }
      if !soundPlayed {
        var event;
        newPlayed, event := a.StartSound();
        if event.Some? {
          newSounds := sounds + [event.value];
        }
      }
    }

    /** The payload loop of one alert: every payload rewritten in order, and whether any run had a hit. */
    static method SplicePayloads(a: LegacyAlert, payloads: seq<Payload>) returns (alertMatch: bool, newPayloads: seq<Payload>)
      requires a.SearchPattern().Some?
      ensures newPayloads == LegacyAllTo(a.SearchPattern().value, a.Style(), payloads, |payloads|)
      ensures alertMatch == LegacyMatchTo(a.SearchPattern().value, payloads, |payloads|)
    {
      ghost var p := a.SearchPattern().value;
      newPayloads := [];
      alertMatch := false;
      var k := 0;
      while k < |payloads|
        invariant 0 <= k <= |payloads|
        invariant newPayloads == LegacyAllTo(p, a.Style(), payloads, k)
        invariant alertMatch == LegacyMatchTo(p, payloads, k)
      {
        alertMatch, newPayloads := SpliceNext(a, payloads, k, alertMatch, newPayloads);
        k := k + 1;
      }
    }

    /** One payload of the loop: the lists after `k` payloads become the lists after `k + 1`. */
    static method SpliceNext(a: LegacyAlert, payloads: seq<Payload>, k: nat, alertMatch: bool, newPayloads: seq<Payload>)
      returns (nextMatch: bool, nextPayloads: seq<Payload>)
      requires a.SearchPattern().Some? && k < |payloads|
      requires newPayloads == LegacyAllTo(a.SearchPattern().value, a.Style(), payloads, k)
      requires alertMatch == LegacyMatchTo(a.SearchPattern().value, payloads, k)
      ensures nextPayloads == LegacyAllTo(a.SearchPattern().value, a.Style(), payloads, k + 1)
      ensures nextMatch == LegacyMatchTo(a.SearchPattern().value, payloads, k + 1)
    {
      var payload := payloads[k];
      nextMatch := alertMatch;
      if !payload.Text? {
        nextPayloads := newPayloads + [payload];
      } else {
        var hit;
        if a.isRegex {
          nextPayloads, hit := RegexRun(a, payload, newPayloads);
        } else {
          nextPayloads, hit := LiteralRun(a, payload, newPayloads);
        }
        nextMatch := alertMatch || hit;
      }
    }

    /** A text run searched with the regex: passed on unchanged without a hit, every NextMatch spliced otherwise. */
    static method RegexRun(a: LegacyAlert, q: Payload, out: seq<Payload>) returns (ret: seq<Payload>, hit: bool)
      requires a.isRegex && a.SearchPattern().Some? && q.Text?
      ensures ret == out + LegacyRun(a.SearchPattern().value, a.Style(), q)
      ensures hit == RunHit(a.SearchPattern().value, q)
    {
      ghost var p := a.SearchPattern().value;
      ghost var s := a.Style();
      var text := q.text;
      var regex := a.compiledRegex.value;
      var m := regex.find(text, 0);
      if m.None? {
        return out + [q], false;
      }
      ghost var target := out + LegacyFrom(p, s, text, 0, 0);
      ret := out;
      var idx: nat := 0;
      var startat: nat := 0;
      while m.Some?
        invariant idx <= startat <= |text| + 1
        invariant m.Some? ==> startat <= |text| && m == Find(p, text, startat) &&
                              target == ret + LegacyFrom(p, s, text, idx, startat)
        invariant m.None? ==> idx <= |text| && target == ret + Rest(text, idx)
        decreases |text| + 1 - startat
      {
        var h := m.value;
        ghost var before := ret;
        ret := AppendPiece(a, ret, text, idx, h);
        LegacyAdvance(p, s, text, idx, startat, h, before, ret);
        idx := h.End();
        // Match.NextMatch: on from the end of the hit, one further after an empty hit
        startat := if h.len > 0 then h.End() else h.from + 1;
        if startat > |text| {
          m := None;
        } else {
          m := regex.find(text, startat);
          if m.None? {
            LegacyFromNone(p, s, text, idx, startat);
          }
        }
      }
      if idx < |text| {
        ret := ret + [Text(text[idx..])];
      }
      hit := true;
    }

    /** A text run searched for the literal content with IndexOf: every occurrence spliced, then the rest if any. */
    static method LiteralRun(a: LegacyAlert, q: Payload, out: seq<Payload>) returns (ret: seq<Payload>, hit: bool)
      requires !a.isRegex && a.SearchPattern().Some? && q.Text?
      ensures ret == out + LegacyRun(a.SearchPattern().value, a.Style(), q)
      ensures hit == RunHit(a.SearchPattern().value, q)
    {
      ghost var p := a.SearchPattern().value;
      ghost var s := a.Style();
      var text := q.text;
      ghost var target := out + LegacyFrom(p, s, text, 0, 0);
      ret := out;
      hit := false;
      var idx: nat := 0;
      var nextIndex := IndexOf(text, a.content, idx, a.ignoreCase);
      while nextIndex >= 0
        invariant idx <= |text|
        invariant nextIndex == IndexOf(text, a.content, idx, a.ignoreCase)
        invariant target == ret + LegacyFrom(p, s, text, idx, idx)
        invariant !hit ==> idx == 0
        invariant hit ==> RunHit(p, q)
        decreases |text| - idx
      {
        var h := Hit(nextIndex, |a.content|);
        assert Find(p, text, idx) == Some(h);
        ghost var before := ret;
        ret := AppendPiece(a, ret, text, idx, h);
        LegacyAdvance(p, s, text, idx, idx, h, before, ret);
        LegacyTailNonEmpty(p, s, text, h);
        idx := h.End();
        assert target == ret + LegacyFrom(p, s, text, idx, idx);
        hit := true;
        nextIndex := IndexOf(text, a.content, idx, a.ignoreCase);
      }
      assert Find(p, text, idx).None?;
      LegacyFromNone(p, s, text, idx, idx);
      if idx < |text| {
        ret := ret + [Text(text[idx..])];
      }
    }

    /** Appends one hit: the skipped text if any, then the hit between both colour switches when highlighting. */
    static method AppendPiece(a: LegacyAlert, out: seq<Payload>, text: string, idx: nat, h: Hit) returns (ret: seq<Payload>)
      requires idx <= h.from && h.End() <= |text|
      ensures ret == out + LegacyPiece(a.Style(), text, idx, h)
    {
      ghost var s := a.Style();
      ghost var pre := if idx < h.from then [Text(text[idx..h.from])] else [];
      ret := out;
      var skippedStr := text[idx..h.from];
      if |skippedStr| > 0 {
        ret := ret + [Text(skippedStr)];
      }
      ghost var beforeOpen := ret;
      if a.highlight {
        ret := ret + [Foreground(Low16(a.highlightForeground))];
        ret := ret + [Glow(Low16(a.highlightGlow))];
      }
      assert ret == beforeOpen + LegacyOpen(s);
      ret := ret + [Text(text[h.from..h.End()])];
      ghost var closed := ret;
      if a.highlight {
        ret := ret + [Foreground(0)];
        ret := ret + [Glow(0)];
      }
      assert ret == closed + LegacyClose(s);
      AppendAssoc(out, pre, LegacyOpen(s));
      AppendAssoc(out, pre + LegacyOpen(s), [Text(text[h.from..h.End()])]);
      AppendAssoc(out, pre + LegacyOpen(s) + [Text(text[h.from..h.End()])], LegacyClose(s));
    }

    /** Plugin.Dispose: the configuration's alerts release their audio. */
    method Dispose()
      requires AllValid(config.alerts)
      modifies config.alerts
      ensures forall i :: 0 <= i < |config.alerts| ==>
        config.alerts[i].Valid() && !config.alerts[i].SoundReady() && config.alerts[i].audioFile.None?
      ensures forall i :: 0 <= i < |config.alerts| && old(config.alerts[i].NoLeak()) ==> config.alerts[i].live == {}
    {
      config.Dispose();
    }
  }

  /** The earlier configuration: the ordered alert list and its window's list actions. */
  class LegacyConfig {
    var alerts: seq<LegacyAlert>
    /** How often SavePluginConfig has been called. */
    var saveCount: nat

    constructor ()
      ensures alerts == [] && saveCount == 0
    {
      alerts, saveCount := [], 0;
    }

    method Save()
      modifies this`saveCount
      ensures saveCount == old(saveCount) + 1
    {
      saveCount := saveCount + 1;
    }

    /** "Add Alert": a new alert with the six default channels is appended, not yet updated. */
    method AddAlert() returns (a: LegacyAlert)
      modifies this`alerts
      ensures fresh(a) && alerts == old(alerts) + [a]
      ensures a.channels == Channels.DefaultChannels && a.SearchPattern().None?
      ensures a.Valid() && a.NoLeak() && !a.SoundReady() && !a.playSound
    {
      a := new LegacyAlert();
      a.channels := a.channels + [Say];
      a.channels := a.channels + [Shout];
      a.channels := a.channels + [Yell];
      a.channels := a.channels + [Party];
      a.channels := a.channels + [Alliance];
      a.channels := a.channels + [FreeCompany];
      alerts := alerts + [a];
    }

    /** The checkbox of channel `t` set to `on`: every copy removed, added back once if on, then sorted. */
    method ToggleChannel(alert: LegacyAlert, t: ChatType, on: bool) returns (hasChange: bool)
      requires Channels.Toggleable(t)
      modifies alert`channels
      ensures alert.channels == Channels.Toggle(old(alert.channels), t, on) && hasChange
    {
      alert.channels := ListOps.RemoveAll(alert.channels, Channels.Coupled(t));
      if on {
        alert.channels := alert.channels + [t];
        if t == Party {
          alert.channels := alert.channels + [CrossParty];
        }
      }
      assert alert.channels == ListOps.RemoveAll(old(alert.channels), Channels.Coupled(t)) +
                               (if on then Channels.Added(t) else []);
      alert.channels := Channels.Sort(alert.channels);
      hasChange := true;
    }

    /** The requested row action on `actionAlert`: delete (and dispose), or move one place up or down. */
    method HandleAction(actionAlert: Option<LegacyAlert>, action: ListOps.ConfigAction) returns (hasChange: bool)
      requires actionAlert.Some? ==> actionAlert.value.Valid()
      modifies this`alerts, if actionAlert.Some? then {actionAlert.value} else {}
      ensures hasChange == (actionAlert.Some? && !action.NoAction?)
      ensures hasChange ==> alerts == ListOps.ApplyAction(old(alerts), action, actionAlert.value)
      ensures !hasChange ==> alerts == old(alerts)
      ensures hasChange && action.Delete? ==>
        actionAlert.value.Valid() && !actionAlert.value.SoundReady() && actionAlert.value.audioFile.None?
      ensures actionAlert.Some? && !(hasChange && action.Delete?) ==> unchanged(actionAlert.value)
    {
      if actionAlert.None? || action.NoAction? {
        return false;
      }
      var alert := actionAlert.value;
      match action {
        case NoAction =>
        case Delete =>
          alerts := ListOps.Remove(alerts, alert);
          alert.Dispose();
        case MoveUp =>
          var idx := ListOps.IndexOf(alerts, alert);
          if idx > 0 {
            alerts := ListOps.Remove(alerts, alert);
            alerts := ListOps.Insert(alerts, idx - 1, alert);
          }
        case MoveDown =>
          var idx := ListOps.IndexOf(alerts, alert);
          if !(idx < 0 || idx >= |alerts| - 1) {
            alerts := ListOps.Remove(alerts, alert);
            alerts := ListOps.Insert(alerts, idx + 1, alert);
          }
      }
      hasChange := true;
    }

    /** The end of the window: on a change the configuration is saved and the plugin rebuilds its alerts. */
    method Commit(plugin: Plugin, hasChange: bool)
      requires plugin.config == this && Plugin.AllValid(alerts)
      modifies this`saveCount, plugin`watchedChannels, plugin`watchAllChannels, alerts
      ensures saveCount == if hasChange then old(saveCount) + 1 else old(saveCount)
      ensures Plugin.AllValid(alerts)
      ensures hasChange ==> plugin.Settled() && NoDup(plugin.watchedChannels)
      ensures hasChange ==> forall i :: 0 <= i < |alerts| ==> alerts[i].RegexCurrent(plugin.platform)
    {
      if hasChange {
        Save();
        plugin.UpdateAlerts();
      }
    }

    /** Every alert releases its audio. */
    method Dispose()
      requires Plugin.AllValid(alerts)
      modifies alerts
      ensures forall i :: 0 <= i < |alerts| ==> alerts[i].Valid() && !alerts[i].SoundReady() && alerts[i].audioFile.None?
      ensures forall i :: 0 <= i < |alerts| && old(alerts[i].NoLeak()) ==> alerts[i].live == {}
    {
      var k := 0;
      while k < |alerts|
        invariant 0 <= k <= |alerts|
        invariant Plugin.AllValid(alerts)
        invariant forall i :: 0 <= i < k ==> alerts[i].audioFile.None? && alerts[i].audioEvent.None?
        invariant forall i :: 0 <= i < |alerts| && old(alerts[i].NoLeak()) ==> alerts[i].NoLeak()
      {
        alerts[k].Dispose();
        k := k + 1;
      }
    }
  }
}
