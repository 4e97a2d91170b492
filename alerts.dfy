/**
 * One alert (rule) and the cache it owns: the compiled regex and the two audio
 * handles (the decoded file and the output device), built and released on demand.
 */
module Alerts {
  import opened Wrappers
  import opened Chat
  import opened Matching
  import opened Splice

  /** A game sound effect id (UIModule.PlaySound); Sounds.Sound02 is 0x26. */
  type SoundId = nat
  const Sound02: SoundId := 0x26

  /**
   * The services outside the plugin that the cache calls:
   * `compile(pattern, ignoreCase)` is `new Regex(pattern, options)`, None when it throws;
   * `canOpen(path)` says whether `new AudioFileReader(path)` succeeds;
   * `canInit(path)` whether a WaveOutEvent can be created and initialised on that file.
   */
  datatype Platform = Platform(
    compile: (string, bool) -> Option<Regex>,
    canOpen: string -> bool,
    canInit: string -> bool)

  /**
   * An open AudioFileReader and an initialised WaveOutEvent. The serial number
   * stands for object identity: every handle the cache creates gets a new one.
   */
  datatype AudioFile = AudioFile(serial: nat, fileName: string)
  datatype AudioEvent = AudioEvent(serial: nat, file: AudioFile)

  /**
   * A sound the plugin starts: a game sound effect, or the custom file replayed
   * from its start (Stop, Position = 0, Play on the cached handles).
   */
  datatype SoundEvent = GameSound(id: SoundId) | Replay(file: AudioFile)

  /** The regex UpdateRegex keeps: a pattern that compiles and does not match the empty input. */
  function AcceptedRegex(isRegex: bool, content: string, ignoreCase: bool, platform: Platform): Option<Regex>
  {
    if !isRegex then None
    else match platform.compile(content, ignoreCase)
      case None => None
      case Some(r) => if r.find("", 0).Some? then None else Some(r)
  }

  /** A match as Alert.Match reports it: (index, length), or (-1, 0). */
  function AsPair(h: Option<Hit>): (r: (int, int))
    ensures r.0 >= 0 <==> h.Some?
    ensures h.Some? ==> r.0 == h.value.from && r.1 == h.value.len
    ensures h.None? ==> r == (-1, 0)
  {
    if h.Some? then (h.value.from as int, h.value.len as int) else (-1, 0)
  }

  /** Reads a search result back from the (index, length) pair a caller tests with `From < 0`. */
  function FromPair(r: (int, int)): Option<Hit>
  {
    if r.0 < 0 || r.1 < 0 then None else Some(Hit(r.0, r.1))
  }

  /**
   * The pair loses nothing: the hit can be read back from it, and a negative index,
   * the callers' test for "no hit", means exactly that there was none.
   */
  lemma AsPairRoundTrip(h: Option<Hit>)
    ensures FromPair(AsPair(h)) == h
    ensures AsPair(h).0 < 0 <==> h.None?
    ensures AsPair(h).1 >= 0
  {
  }

  class AlertCache {
    var compiledRegex: Option<Regex>
    var audioFile: Option<AudioFile>
    var audioEvent: Option<AudioEvent>
    /** The number of audio handles this cache has created: the serial of the next one. */
    var created: nat
    /** The serials of the handles created and not yet disposed. */
    ghost var live: set<nat>

    /** The handles the cache currently holds. */
    ghost function Held(): set<nat>
      reads this
    {
      (if audioFile.Some? then {audioFile.value.serial} else {}) +
      (if audioEvent.Some? then {audioEvent.value.serial} else {})
    }

    ghost predicate Valid()
      reads this
    {
      (audioEvent.Some? ==> audioFile.Some? && audioEvent.value.file == audioFile.value) &&
      Held() <= live &&
      (forall n | n in live :: n < created)
    }

    /** No handle is open that the cache no longer holds. */
    ghost predicate NoLeak()
      reads this
    {
      live == Held()
    }

    constructor ()
      ensures Valid() && NoLeak()
      ensures compiledRegex.None? && audioFile.None? && audioEvent.None? && created == 0
    {
      compiledRegex, audioFile, audioEvent, created := None, None, None, 0;
      live := {};
    }

    predicate SoundReady()
      reads this
    {
      audioFile.Some? && audioEvent.Some?
    }

    /** Replays the custom sound from its start when both handles are present. */
    method PlaySound() returns (played: bool, event: Option<SoundEvent>)
      requires Valid()
      ensures played == (audioFile.Some? && audioEvent.Some?)
      ensures played ==> event == Some(Replay(audioFile.value)) && audioEvent.value.file == audioFile.value
      ensures !played ==> event.None?
    {
      if audioFile.None? || audioEvent.None? {
        return false, None;
      }
      played, event := true, Some(Replay(audioFile.value));
    }

    method DisposeAudio()
      requires Valid()
      modifies this
      ensures Valid()
      ensures audioFile.None? && audioEvent.None?
      ensures compiledRegex == old(compiledRegex) && created == old(created)
      ensures live == old(live) - old(Held())
      ensures old(NoLeak()) ==> NoLeak()
    {
      live := live - Held();
      audioFile := None;
      audioEvent := None;
    }

    method Dispose()
      requires Valid()
      modifies this
      ensures Valid()
      ensures compiledRegex.None? && audioFile.None? && audioEvent.None?
      ensures live == old(live) - old(Held())
      ensures old(NoLeak()) ==> live == {}
    {
      DisposeAudio();
      compiledRegex := None;
    }

    method UpdateRegex(parent: Alert, platform: Platform)
      requires Valid()
      modifies this
      ensures Valid()
      ensures !parent.isRegex ==> compiledRegex.None?
      ensures platform.compile(parent.content, parent.ignoreCase).None? ==> compiledRegex.None?
      ensures compiledRegex.Some? ==> compiledRegex.value.find("", 0).None?
      ensures compiledRegex.Some? <==>
        parent.isRegex && platform.compile(parent.content, parent.ignoreCase).Some? &&
        platform.compile(parent.content, parent.ignoreCase).value.find("", 0).None?
      ensures compiledRegex.Some? ==> compiledRegex == platform.compile(parent.content, parent.ignoreCase)
      ensures compiledRegex == AcceptedRegex(parent.isRegex, parent.content, parent.ignoreCase, platform)
      ensures audioFile == old(audioFile) && audioEvent == old(audioEvent)
      ensures created == old(created) && live == old(live)
    {
      compiledRegex := None;
      if !parent.isRegex {
        return;
      }
      var compiled := platform.compile(parent.content, parent.ignoreCase);
      if compiled.None? {
        // the constructor threw: the error is logged and the regex stays absent
        return;
      }
      compiledRegex := compiled;
      if compiledRegex.value.find("", 0).Some? {
        compiledRegex := None;
      }
    }

    /**
     * UpdateAudio as written. When the stored file has the same name as the
     * alert's path, the handles it holds are replaced without being disposed.
     */
    method UpdateAudio(parent: Alert, platform: Platform)
      requires Valid()
      modifies this
      ensures Valid()
      ensures compiledRegex == old(compiledRegex)
      ensures !(parent.playSound && parent.customSound) ==>
        audioFile.None? && audioEvent.None? && created == old(created) && live == old(live) - old(Held())
      ensures parent.playSound && parent.customSound ==>
        SoundReady() == (platform.canOpen(parent.soundPath) && platform.canInit(parent.soundPath))
      ensures SoundReady() ==>
        audioFile == Some(AudioFile(old(created), parent.soundPath)) &&
        audioEvent == Some(AudioEvent(old(created) + 1, audioFile.value))
      ensures !SoundReady() ==> audioFile.None? && audioEvent.None?
      ensures old(audioFile).Some? && old(audioFile).value.fileName != parent.soundPath ==> old(Held()) !! live
      ensures (old(audioFile).Some? && old(audioFile).value.fileName == parent.soundPath &&
               parent.playSound && parent.customSound && platform.canOpen(parent.soundPath)) ==>
        old(Held()) <= live && old(Held()) !! Held()
    {
      if !(parent.playSound && parent.customSound) {
        DisposeAudio();
        return;
      }
      if audioFile.None? || audioFile.value.fileName != parent.soundPath {
        DisposeAudio();
      }
      OpenAudio(parent.soundPath, platform);
    }

    /**
     * UpdateAudio with the leak closed: the held handles are always disposed
     * before new ones are opened. Every field ends as UpdateAudio leaves it.
     */
    method UpdateAudioReleasing(parent: Alert, platform: Platform)
      requires Valid()
      modifies this
      ensures Valid()
      ensures compiledRegex == old(compiledRegex)
      ensures !(parent.playSound && parent.customSound) ==>
        audioFile.None? && audioEvent.None? && created == old(created)
      ensures parent.playSound && parent.customSound ==>
        SoundReady() == (platform.canOpen(parent.soundPath) && platform.canInit(parent.soundPath))
      ensures SoundReady() ==>
        audioFile == Some(AudioFile(old(created), parent.soundPath)) &&
        audioEvent == Some(AudioEvent(old(created) + 1, audioFile.value))
      ensures !SoundReady() ==> audioFile.None? && audioEvent.None?
      ensures created == if parent.playSound && parent.customSound && platform.canOpen(parent.soundPath)
                         then old(created) + 2 else old(created)
      ensures old(Held()) !! live
      ensures old(NoLeak()) ==> NoLeak()
    {
      DisposeAudio();
      if !(parent.playSound && parent.customSound) {
        return;
      }
      OpenAudio(parent.soundPath, platform);
    }

    /**
     * The guarded part of UpdateAudio: opens the file and the output device over it.
     * When opening throws, the catch disposes what the cache holds; when Init throws,
     * the catch disposes the two fresh handles. Handles held on entry are overwritten,
     * not disposed, when the file opens.
     */
    method OpenAudio(path: string, platform: Platform)
      requires Valid()
      modifies this
      ensures Valid()
      ensures compiledRegex == old(compiledRegex)
      ensures SoundReady() == (platform.canOpen(path) && platform.canInit(path))
      ensures SoundReady() ==>
        audioFile == Some(AudioFile(old(created), path)) &&
        audioEvent == Some(AudioEvent(old(created) + 1, audioFile.value))
      ensures !SoundReady() ==> audioFile.None? && audioEvent.None?
      ensures created == if platform.canOpen(path) then old(created) + 2 else old(created)
      ensures platform.canOpen(path) ==> live == old(live) + Held()
      ensures !platform.canOpen(path) ==> live == old(live) - old(Held())
    {
      if !platform.canOpen(path) {
        // new AudioFileReader threw before the field was assigned
        DisposeAudio();
        return;
      }
      audioFile := Some(AudioFile(created, path));
      live := live + {created};
      created := created + 1;
      audioEvent := Some(AudioEvent(created, audioFile.value));
      live := live + {created};
      created := created + 1;
      if !platform.canInit(path) {
        // the device was created but Init threw
        DisposeAudio();
      }
    }
  }

  class Alert {
    var channels: seq<ChatType>
    var name: string
    var content: string
    var soundPath: string
    var highlightForeground: u16
    var highlightGlow: u16
    var soundEffect: SoundId
    var enabled: bool
    var isRegex: bool
    var ignoreCase: bool
    var customSound: bool
    var senderAlert: bool
    var includeHidden: bool
    var highlight: bool
    var playSound: bool
    const cache: AlertCache

    /** A new alert with the source's field defaults; it cannot match until it has content. */
    constructor ()
      ensures channels == [] && name == "New Alert" && content == "" && soundPath == ""
      ensures highlightForeground == 500 && highlightGlow == 0 && soundEffect == Sound02
      ensures enabled && !isRegex && ignoreCase && !customSound && !senderAlert && !includeHidden
      ensures highlight && !playSound
      ensures fresh(cache) && cache.Valid() && cache.NoLeak()
      ensures cache.compiledRegex.None? && !cache.SoundReady()
      ensures !CanMatch()
    {
      channels, name, content, soundPath := [], "New Alert", "", "";
      highlightForeground, highlightGlow, soundEffect := 500, 0, Sound02;
      enabled, isRegex, ignoreCase, customSound := true, false, true, false;
      senderAlert, includeHidden, highlight, playSound := false, false, true, false;
      cache := new AlertCache();
    }

    /** Plays the alert's sound: the cached custom file, or the game sound effect. */
    method StartSound() returns (started: bool, event: Option<SoundEvent>)
      requires cache.Valid()
      ensures started == (playSound && SoundReady())
      ensures !playSound ==> !started
      ensures customSound ==> started == (playSound && cache.SoundReady())
      ensures !customSound ==> started == playSound
      ensures !started ==> event.None?
      ensures started && customSound ==> event == Some(Replay(cache.audioFile.value))
      ensures started && !customSound ==> event == Some(GameSound(soundEffect))
      ensures event == SoundOf() && started == event.Some?
    {
      if !playSound {
        return false, None;
      }
      if customSound {
        started, event := cache.PlaySound();
        return;
      }
      started, event := true, Some(GameSound(soundEffect));
    }

    /** The sound StartSound starts, if any. */
    function SoundOf(): Option<SoundEvent>
      reads this, cache
    {
      if !playSound then None
      else if !customSound then Some(GameSound(soundEffect))
      else if cache.SoundReady() then Some(Replay(cache.audioFile.value))
      else None
    }

    predicate SoundReady()
      reads this, cache
    {
      !customSound || cache.SoundReady()
    }

    predicate CanMatch()
      reads this, cache
    {
      |content| > 0 && (!isRegex || cache.compiledRegex.Some?)
    }

    /** What the alert searches with; a regex alert needs its compiled pattern. */
    function Pattern(): Pattern
      reads this, cache
      requires isRegex ==> cache.compiledRegex.Some?
    {
      if isRegex then Compiled(cache.compiledRegex.value) else Literal(content, ignoreCase)
    }

    function HighlightStyle(): Style
      reads this
    {
      Style(highlight, highlightForeground, highlightGlow)
    }

    /** Alert.Match as written: the next hit at or after `startIdx`, or (-1, 0). */
    function Match(text: string, startIdx: nat): (r: (int, int))
      reads this, cache
      requires startIdx <= |text|
      requires isRegex ==> cache.compiledRegex.Some?
      ensures r.0 < 0 ==> r == (-1, 0)
      ensures r.0 >= 0 ==> startIdx <= r.0 && r.0 + r.1 <= |text|
      ensures isRegex ==> r == AsPair(cache.compiledRegex.value.find(text, startIdx))
      ensures !isRegex && r.0 >= 0 ==> r.1 == |content|
      ensures !isRegex ==> r.0 == IndexOf(text, content, startIdx, ignoreCase)
    {
      AsPair(Find(Pattern(), text, startIdx))
    }

    /** The match the splice loop uses: Match with zero-width hits skipped. */
    function ScanMatch(text: string, startIdx: nat): (r: (int, int))
      reads this, cache
      requires startIdx <= |text|
      requires isRegex ==> cache.compiledRegex.Some?
      ensures r.0 >= 0 ==> startIdx <= r.0 && r.1 > 0 && r.0 + r.1 <= |text|
      ensures r.0 < 0 ==> r == (-1, 0)
    {
      AsPair(Scan(Pattern(), text, startIdx))
    }

    /** The cache holds the regex this alert's settings compile to. */
    ghost predicate RegexCurrent(platform: Platform)
      reads this, cache
    {
      cache.compiledRegex == AcceptedRegex(isRegex, content, ignoreCase, platform)
    }

    method Update(platform: Platform)
      requires cache.Valid()
      modifies cache
      ensures cache.Valid()
      ensures cache.compiledRegex == AcceptedRegex(isRegex, content, ignoreCase, platform)
      ensures playSound && customSound ==>
        cache.SoundReady() == (platform.canOpen(soundPath) && platform.canInit(soundPath))
      ensures !(playSound && customSound) ==> !cache.SoundReady()
      ensures CanMatch() <==> |content| > 0 && (!isRegex || AcceptedRegex(isRegex, content, ignoreCase, platform).Some?)
      ensures SoundReady() <==> !customSound || (playSound && platform.canOpen(soundPath) && platform.canInit(soundPath))
      ensures old(cache.NoLeak()) ==> cache.NoLeak()
    {
      cache.UpdateRegex(this, platform);
      cache.UpdateAudioReleasing(this, platform);
    }

    method UpdateRegex(platform: Platform)
      requires cache.Valid()
      modifies cache
      ensures cache.Valid()
      ensures cache.compiledRegex == AcceptedRegex(isRegex, content, ignoreCase, platform)
      ensures cache.audioFile == old(cache.audioFile) && cache.audioEvent == old(cache.audioEvent)
      ensures old(cache.NoLeak()) ==> cache.NoLeak()
    {
      cache.UpdateRegex(this, platform);
    }

    method UpdateAudio(platform: Platform)
      requires cache.Valid()
      modifies cache
      ensures cache.Valid()
      ensures cache.compiledRegex == old(cache.compiledRegex)
      ensures playSound && customSound ==>
        cache.SoundReady() == (platform.canOpen(soundPath) && platform.canInit(soundPath))
      ensures !(playSound && customSound) ==> !cache.SoundReady()
      ensures old(cache.NoLeak()) ==> cache.NoLeak()
    {
      cache.UpdateAudioReleasing(this, platform);
    }

    method Dispose()
      requires cache.Valid()
      modifies cache
      ensures cache.Valid()
      ensures cache.compiledRegex.None? && cache.audioFile.None? && cache.audioEvent.None?
      ensures old(cache.NoLeak()) ==> cache.live == {}
    {
      cache.Dispose();
    }
  }

  /** The plugin configuration's alert list (ChatAlertsConfig.Alerts) and its saves. */
  class ChatAlertsConfig {
    var alerts: seq<Alert>
    /** How often the configuration was written out; the file format is not modelled. */
    var saveCount: nat

    constructor (alerts: seq<Alert>)
      ensures this.alerts == alerts && saveCount == 0
    {
      this.alerts, saveCount := alerts, 0;
    }

    method Save()
      modifies this`saveCount
      ensures saveCount == old(saveCount) + 1
    {
      saveCount := saveCount + 1;
    }
  }

  /**
   * ScanMatch differs from Match only on a zero-width hit: it finds nothing where Match
   * finds nothing, the same hit where Match's has positive length, and always agrees
   * with a literal search for non-empty content.
   */
  lemma ScanAgreesWithMatch(a: Alert, text: string, startIdx: nat)
    requires startIdx <= |text|
    requires a.isRegex ==> a.cache.compiledRegex.Some?
    ensures a.Match(text, startIdx).1 > 0 ==> a.ScanMatch(text, startIdx) == a.Match(text, startIdx)
    ensures a.Match(text, startIdx).0 < 0 ==> a.ScanMatch(text, startIdx).0 < 0
    ensures !a.isRegex && |a.content| > 0 ==> a.ScanMatch(text, startIdx) == a.Match(text, startIdx)
  {
    ScanRefinesFind(a.Pattern(), text, startIdx);
  }

  /** A platform on which every pattern fails to compile and every sound file opens and plays. */
  function SoundPlatform(): Platform
  {
    Platform((pattern: string, ignoreCase: bool) => None, (path: string) => true, (path: string) => true)
  }

  /**
   * UpdateAudio as written, run twice on an alert with a custom sound: the second
   * run opens new handles over the same file while the first two stay open.
   */
  method ReopenLeaks() returns (cache: AlertCache)
    ensures cache.Valid() && cache.SoundReady()
    ensures !cache.NoLeak()
  {
    var parent := new Alert();
    parent.playSound, parent.customSound, parent.soundPath := true, true, "ping.wav";
    cache := parent.cache;
    cache.UpdateAudio(parent, SoundPlatform());
    ghost var first := cache.Held();
    cache.UpdateAudio(parent, SoundPlatform());
    assert first <= cache.live && first !! cache.Held() && first != {};
  }

  /** The same two runs with UpdateAudioReleasing: only the handles of the second run stay open. */
  method ReopenReleases() returns (cache: AlertCache)
    ensures cache.Valid() && cache.SoundReady()
    ensures cache.NoLeak()
  {
    var parent := new Alert();
    parent.playSound, parent.customSound, parent.soundPath := true, true, "ping.wav";
    cache := parent.cache;
    cache.UpdateAudioReleasing(parent, SoundPlatform());
    cache.UpdateAudioReleasing(parent, SoundPlatform());
  }
}
