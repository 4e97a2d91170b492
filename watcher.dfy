/**
 * ChatWatcher: the index of watched channels and the per-message pipeline that
 * runs every applicable alert over the sender or the message of a chat line.
 */
module Watcher {
  import opened Wrappers
  import opened Chat
  import opened Matching
  import opened Splice
  import opened Alerts

  /** The state threaded through the alerts of one message. */
  datatype MsgState = MsgState(
    sender: seq<Payload>,
    message: seq<Payload>,
    soundPlayed: bool,
    sounds: seq<SoundEvent>)

  function Start(sender: seq<Payload>, message: seq<Payload>): MsgState
  {
    MsgState(sender, message, false, [])
  }

  /**
   * What the pipeline needs to know of one alert: its filters, its pattern
   * (present when the alert can match), its highlight style and the sound it would start.
   */
  datatype AlertView = AlertView(
    enabled: bool,
    includeHidden: bool,
    channels: seq<ChatType>,
    senderAlert: bool,
    pattern: Option<Pattern>,
    style: Style,
    sound: Option<SoundEvent>)

  function ViewOf(a: Alert): AlertView
    reads a, a.cache
  {
    AlertView(a.enabled, a.includeHidden, a.channels, a.senderAlert,
              if a.CanMatch() then Some(a.Pattern()) else None,
              a.HighlightStyle(), a.SoundOf())
  }

  function Views(alerts: seq<Alert>): (vs: seq<AlertView>)
    reads alerts, set a | a in alerts :: a.cache
    ensures |vs| == |alerts|
    ensures forall i :: 0 <= i < |alerts| ==> vs[i] == ViewOf(alerts[i])
  {
    if alerts == [] then [] else [ViewOf(alerts[0])] + Views(alerts[1..])
  }

  /** Whether an alert takes part in a message of channel `t` seen before (`preFilter`) or after filtering. */
  predicate Applies(v: AlertView, t: ChatType, preFilter: bool)
  {
    v.enabled && v.pattern.Some? && v.includeHidden == preFilter &&
    (AnyChannel in v.channels || t in v.channels)
  }

  /** The payload list an alert looks at: the sender for a sender alert, the message otherwise. */
  function Target(v: AlertView, st: MsgState): seq<Payload>
  {
    if v.senderAlert then st.sender else st.message
  }

  /** Whether an alert matches in state `st`. */
  predicate Hits(v: AlertView, t: ChatType, preFilter: bool, st: MsgState)
  {
    Applies(v, t, preFilter) && HandleAlertSpec(v.pattern.value, v.style, Target(v, st)).1
  }

  /** One alert's effect on the message state. */
  function Step(v: AlertView, t: ChatType, preFilter: bool, st: MsgState): MsgState
  {
    if !Applies(v, t, preFilter) then st
    else
      var (out, matched) := HandleAlertSpec(v.pattern.value, v.style, Target(v, st));
      var st1 := if v.senderAlert then st.(sender := out) else st.(message := out);
      if matched && !st.soundPlayed then
        st1.(soundPlayed := v.sound.Some?, sounds := st.sounds + (if v.sound.Some? then [v.sound.value] else []))
      else st1
  }

  /** The state after the first `n` alerts, applied in list order. */
  function PipelineTo(vs: seq<AlertView>, n: nat, t: ChatType, preFilter: bool, st: MsgState): MsgState
    requires n <= |vs|
  {
    if n == 0 then st
    else Step(vs[n - 1], t, preFilter, PipelineTo(vs, n - 1, t, preFilter, st))
  }

  /** All the alerts applied in list order. */
  function Pipeline(vs: seq<AlertView>, t: ChatType, preFilter: bool, st: MsgState): MsgState
  {
    PipelineTo(vs, |vs|, t, preFilter, st)
  }

  /** Whether the `k`-th alert matches, given what the alerts before it did. */
  predicate FiresAt(vs: seq<AlertView>, k: nat, t: ChatType, preFilter: bool, st: MsgState)
    requires k < |vs|
  {
    Hits(vs[k], t, preFilter, PipelineTo(vs, k, t, preFilter, st))
  }

  /** At most one sound per message; a sound was started exactly when one is recorded. */
  lemma {:induction false} SoundAtMostOnce(vs: seq<AlertView>, n: nat, t: ChatType, preFilter: bool, sender: seq<Payload>, message: seq<Payload>)
    requires n <= |vs|
    ensures |PipelineTo(vs, n, t, preFilter, Start(sender, message)).sounds| <= 1
    ensures PipelineTo(vs, n, t, preFilter, Start(sender, message)).soundPlayed <==>
            |PipelineTo(vs, n, t, preFilter, Start(sender, message)).sounds| == 1
  {
    if n > 0 {
      SoundAtMostOnce(vs, n - 1, t, preFilter, sender, message);
    }
  }

  /**
   * The index of the alert whose sound the first `n` alerts start: the first alert
   * that matches and has a sound to start. A matching alert without one (PlaySound
   * off, custom file not loaded) leaves the turn to the next.
   */
  function FirstSoundTo(vs: seq<AlertView>, n: nat, t: ChatType, preFilter: bool, st: MsgState): Option<nat>
    requires n <= |vs|
  {
    if n == 0 then None
    else
      var before := FirstSoundTo(vs, n - 1, t, preFilter, st);
      if before.Some? then before
      else if FiresAt(vs, n - 1, t, preFilter, st) && vs[n - 1].sound.Some? then Some(n - 1)
      else None
  }

  /** The alert whose sound the message starts, over the whole list. */
  function FirstSound(vs: seq<AlertView>, t: ChatType, preFilter: bool, st: MsgState): Option<nat>
  {
    FirstSoundTo(vs, |vs|, t, preFilter, st)
  }

  /** The sounds of the first `n` alerts are exactly the sound of FirstSoundTo's alert, if there is one. */
  lemma {:induction false} SoundIsFirstSoundTo(vs: seq<AlertView>, n: nat, t: ChatType, preFilter: bool, st: MsgState)
    requires n <= |vs| && !st.soundPlayed && st.sounds == []
    ensures FirstSoundTo(vs, n, t, preFilter, st).Some? ==>
      FirstSoundTo(vs, n, t, preFilter, st).value < n &&
      vs[FirstSoundTo(vs, n, t, preFilter, st).value].sound.Some? &&
      PipelineTo(vs, n, t, preFilter, st).sounds == [vs[FirstSoundTo(vs, n, t, preFilter, st).value].sound.value]
    ensures PipelineTo(vs, n, t, preFilter, st).soundPlayed == FirstSoundTo(vs, n, t, preFilter, st).Some?
    ensures FirstSoundTo(vs, n, t, preFilter, st).None? ==> PipelineTo(vs, n, t, preFilter, st).sounds == []
  {
    if n > 0 {
      SoundIsFirstSoundTo(vs, n - 1, t, preFilter, st);
    }
  }

  /** The message's sounds are exactly the sound of FirstSound's alert, if there is one. */
  lemma SoundIsFirstSound(vs: seq<AlertView>, t: ChatType, preFilter: bool, st: MsgState)
    requires !st.soundPlayed && st.sounds == []
    ensures FirstSound(vs, t, preFilter, st).Some? ==>
      FirstSound(vs, t, preFilter, st).value < |vs| &&
      vs[FirstSound(vs, t, preFilter, st).value].sound.Some? &&
      Pipeline(vs, t, preFilter, st).sounds == [vs[FirstSound(vs, t, preFilter, st).value].sound.value]
    ensures Pipeline(vs, t, preFilter, st).soundPlayed == FirstSound(vs, t, preFilter, st).Some?
    ensures FirstSound(vs, t, preFilter, st).None? ==> Pipeline(vs, t, preFilter, st).sounds == []
  {
    SoundIsFirstSoundTo(vs, |vs|, t, preFilter, st);
  }

  /** FirstSoundTo names one of the first `n` alerts, one that matches and has a sound. */
  lemma {:induction false} FirstSoundFires(vs: seq<AlertView>, n: nat, t: ChatType, preFilter: bool, st: MsgState)
    requires n <= |vs|
    ensures FirstSoundTo(vs, n, t, preFilter, st).Some? ==>
      var k := FirstSoundTo(vs, n, t, preFilter, st).value;
      k < n && FiresAt(vs, k, t, preFilter, st) && vs[k].sound.Some?
  {
    if n > 0 {
      FirstSoundFires(vs, n - 1, t, preFilter, st);
    }
  }

  /**
   * FirstSoundTo is the first such alert: every matching alert before it (every
   * one of the first `n`, when there is none) has no sound.
   */
  lemma {:induction false} FirstSoundIsFirst(vs: seq<AlertView>, n: nat, t: ChatType, preFilter: bool, st: MsgState)
    requires n <= |vs|
    ensures forall j :: 0 <= j < n && FiresAt(vs, j, t, preFilter, st) && EarlierThan(j, FirstSoundTo(vs, n, t, preFilter, st)) ==>
      vs[j].sound.None?
  {
    if n > 0 {
      var before := FirstSoundTo(vs, n - 1, t, preFilter, st);
      FirstSoundIsFirst(vs, n - 1, t, preFilter, st);
      forall j | 0 <= j < n && FiresAt(vs, j, t, preFilter, st) && EarlierThan(j, FirstSoundTo(vs, n, t, preFilter, st))
        ensures vs[j].sound.None?
      {
        if j < n - 1 {
          assert EarlierThan(j, before);
        } else {
          FirstSoundFires(vs, n - 1, t, preFilter, st);
        }
      }
    }
  }

  /** `j` comes before the alert `k` names, or `k` names none. */
  predicate EarlierThan(j: nat, k: Option<nat>)
  {
    k.None? || j < k.value
  }

  /** One alert keeps the text of sender and message and adds no empty run. */
  lemma StepKeepsText(v: AlertView, t: ChatType, preFilter: bool, st: MsgState)
    ensures TextOf(Step(v, t, preFilter, st).sender) == TextOf(st.sender)
    ensures TextOf(Step(v, t, preFilter, st).message) == TextOf(st.message)
    ensures NoEmptyText(st.sender) && NoEmptyText(st.message) ==>
      NoEmptyText(Step(v, t, preFilter, st).sender) && NoEmptyText(Step(v, t, preFilter, st).message)
  {
    if Applies(v, t, preFilter) {
      HandleAlertPreserves(v.pattern.value, v.style, Target(v, st));
    }
  }

  /** No alert changes the text a reader sees: sender and message keep their text and gain no empty run. */
  lemma {:induction false} PipelineKeepsText(vs: seq<AlertView>, n: nat, t: ChatType, preFilter: bool, st: MsgState)
    requires n <= |vs|
    ensures TextOf(PipelineTo(vs, n, t, preFilter, st).sender) == TextOf(st.sender)
    ensures TextOf(PipelineTo(vs, n, t, preFilter, st).message) == TextOf(st.message)
    ensures NoEmptyText(st.sender) && NoEmptyText(st.message) ==>
      NoEmptyText(PipelineTo(vs, n, t, preFilter, st).sender) && NoEmptyText(PipelineTo(vs, n, t, preFilter, st).message)
  {
    if n > 0 {
      PipelineKeepsText(vs, n - 1, t, preFilter, st);
      StepKeepsText(vs[n - 1], t, preFilter, PipelineTo(vs, n - 1, t, preFilter, st));
    }
  }

  /** Alerts that do not apply to a message leave it exactly as it came. */
  lemma {:induction false} PipelineIdle(vs: seq<AlertView>, n: nat, t: ChatType, preFilter: bool, st: MsgState)
    requires n <= |vs|
    requires forall i :: 0 <= i < n ==> !Applies(vs[i], t, preFilter)
    ensures PipelineTo(vs, n, t, preFilter, st) == st
  {
    if n > 0 {
      PipelineIdle(vs, n - 1, t, preFilter, st);
    }
  }

  /** The channels of a channel list, as a set. */
  function ChannelSet(cs: seq<ChatType>): (r: set<ChatType>)
    ensures forall c :: c in r <==> c in cs
  {
    set c | c in cs
  }

  /** Every channel the first `n` lists name, AnyChannel included. */
  function ListedChannels(chans: seq<seq<ChatType>>, n: nat): set<ChatType>
    requires n <= |chans|
  {
    if n == 0 then {} else ListedChannels(chans, n - 1) + ChannelSet(chans[n - 1])
  }

  /** A channel is in ListedChannels exactly when one of the first `n` lists names it. */
  lemma {:induction false} ListedChannelsExact(chans: seq<seq<ChatType>>, n: nat, t: ChatType)
    requires n <= |chans|
    ensures t in ListedChannels(chans, n) <==> exists i :: 0 <= i < n && t in chans[i]
  {
    if n > 0 {
      ListedChannelsExact(chans, n - 1, t);
      if t in chans[n - 1] {
        assert 0 <= n - 1 < n && t in chans[n - 1];
      }
    }
  }

  class ChatWatcher {
    var watchedChannels: set<ChatType>
    var watchAllChannels: bool
    const config: ChatAlertsConfig
    const platform: Platform

    /** Every channel an alert lists passes the gate, and listing AnyChannel opens it for all. */
    predicate CoversAlert(a: Alert)
      reads this, a
    {
      (AnyChannel in a.channels ==> watchAllChannels) &&
      forall c :: c in a.channels ==> watchAllChannels || c in watchedChannels
    }

    predicate Covers(alerts: seq<Alert>)
      reads this, alerts
    {
      forall i :: 0 <= i < |alerts| ==> CoversAlert(alerts[i])
    }

    /** Whether a message of channel `t` gets past the gate of HandleMessage. */
    predicate Passes(t: ChatType)
      reads this
    {
      watchAllChannels || t in watchedChannels
    }

    /** Some alert of the list lists channel `t`, or lists AnyChannel. */
    static predicate Listed(alerts: seq<Alert>, t: ChatType)
      reads alerts
    {
      exists i :: 0 <= i < |alerts| && (AnyChannel in alerts[i].channels || t in alerts[i].channels)
    }

    /** Each distinct alert owns its cache. */
    static ghost predicate OwnCaches(alerts: seq<Alert>)
    {
      forall i, j :: 0 <= i < |alerts| && 0 <= j < |alerts| && alerts[i].cache == alerts[j].cache ==> alerts[i] == alerts[j]
    }

    static ghost predicate CachesValid(alerts: seq<Alert>)
      reads set a | a in alerts :: a.cache
    {
      forall i :: 0 <= i < |alerts| ==> alerts[i].cache.Valid()
    }

    constructor (config: ChatAlertsConfig, platform: Platform)
      requires OwnCaches(config.alerts) && CachesValid(config.alerts)
      modifies set a | a in config.alerts :: a.cache
      ensures this.config == config && this.platform == platform
      ensures CachesValid(config.alerts) && GateFor(config.alerts)
      ensures Covers(config.alerts)
      ensures forall t :: Passes(t) <==> Listed(config.alerts, t)
    {
      this.config := config;
      this.platform := platform;
      watchedChannels := {};
      watchAllChannels := false;
      new;
      UpdateAllAlerts();
      GateForFacts(config.alerts);
    }

    /** The channel lists of the alerts, in order. */
    static function ChannelLists(alerts: seq<Alert>): (r: seq<seq<ChatType>>)
      reads alerts
      ensures |r| == |alerts| && forall j :: 0 <= j < |alerts| ==> r[j] == alerts[j].channels
    {
      if alerts == [] then [] else ChannelLists(alerts[..|alerts| - 1]) + [alerts[|alerts| - 1].channels]
    }

    /**
     * The gate UpdateAllAlerts leaves: open to all when some alert lists AnyChannel,
     * otherwise open to exactly the listed channels.
     */
    predicate GateFor(alerts: seq<Alert>)
      reads this, alerts
    {
      GateOver(ChannelLists(alerts), |alerts|)
    }

    predicate GateOver(chans: seq<seq<ChatType>>, n: nat)
      reads this
      requires n <= |chans|
    {
      watchAllChannels == (AnyChannel in ListedChannels(chans, n)) &&
      (!watchAllChannels ==> watchedChannels == ListedChannels(chans, n))
    }

    /** Such a gate covers every alert and passes exactly the channels some alert listens to. */
    lemma GateForFacts(alerts: seq<Alert>)
      requires GateFor(alerts)
      ensures Covers(alerts)
      ensures forall t :: Passes(t) <==> Listed(alerts, t)
    {
      var chans := ChannelLists(alerts);
      forall i | 0 <= i < |alerts|
        ensures CoversAlert(alerts[i])
      {
        forall c | c in alerts[i].channels
          ensures c in ListedChannels(chans, |chans|)
        {
          ListedChannelsExact(chans, |chans|, c);
        }
      }
      forall t
        ensures Passes(t) <==> Listed(alerts, t)
      {
        ListedChannelsExact(chans, |chans|, t);
        ListedChannelsExact(chans, |chans|, AnyChannel);
      }
    }

    /** Rebuilds the caches of `alert` and widens the gate to its channels. */
    method UpdateAlert(alert: Alert)
      requires alert.cache.Valid()
      modifies this`watchedChannels, this`watchAllChannels, alert.cache
      ensures watchAllChannels == (old(watchAllChannels) || AnyChannel in alert.channels)
      ensures watchedChannels == if watchAllChannels then old(watchedChannels)
                                 else old(watchedChannels) + ChannelSet(alert.channels)
      ensures CoversAlert(alert)
      ensures alert.cache.Valid()
      ensures alert.cache.compiledRegex == AcceptedRegex(alert.isRegex, alert.content, alert.ignoreCase, platform)
      ensures alert.playSound && alert.customSound ==>
        alert.cache.SoundReady() == (platform.canOpen(alert.soundPath) && platform.canInit(alert.soundPath))
      ensures !(alert.playSound && alert.customSound) ==> !alert.cache.SoundReady()
      ensures old(alert.cache.NoLeak()) ==> alert.cache.NoLeak()
    {
      alert.Update(platform);
      watchAllChannels := watchAllChannels || AnyChannel in alert.channels;
      if !watchAllChannels {
        watchedChannels := watchedChannels + ChannelSet(alert.channels);
      }
    }

    /** Rebuilds every cache and the gate from scratch. */
    method UpdateAllAlerts()
      requires OwnCaches(config.alerts) && CachesValid(config.alerts)
      modifies this`watchedChannels, this`watchAllChannels, set a | a in config.alerts :: a.cache
      ensures CachesValid(config.alerts) && GateFor(config.alerts)
      ensures forall i :: 0 <= i < |config.alerts| ==> config.alerts[i].RegexCurrent(platform)
    {
      var alerts := config.alerts;
      ghost var chans := ChannelLists(alerts);
      watchedChannels := {};
      watchAllChannels := false;
      var i := 0;
      while i < |alerts|
        invariant 0 <= i <= |alerts|
        invariant CachesValid(alerts) && chans == ChannelLists(alerts)
        invariant GateOver(chans, i)
        invariant forall j :: 0 <= j < i ==> alerts[j].RegexCurrent(platform)
      {
        UpdateNext(alerts, chans, i);
        i := i + 1;
      }
    }

    /** One round of UpdateAllAlerts: refreshes `alerts[i]` and folds its channels into the gate. */
    method UpdateNext(alerts: seq<Alert>, ghost chans: seq<seq<ChatType>>, i: nat)
      requires i < |alerts| && chans == ChannelLists(alerts)
      requires OwnCaches(alerts) && CachesValid(alerts) && GateOver(chans, i)
      requires forall j :: 0 <= j < i ==> alerts[j].RegexCurrent(platform)
      modifies this`watchedChannels, this`watchAllChannels, alerts[i].cache
      ensures CachesValid(alerts) && chans == ChannelLists(alerts) && GateOver(chans, i + 1)
      ensures forall j :: 0 <= j <= i ==> alerts[j].RegexCurrent(platform)
    {
      var a := alerts[i];
      UpdateAlert(a);
      forall j | 0 <= j < |alerts| && alerts[j] != a
        ensures alerts[j].cache != a.cache
      {
      }
    }

    /** Copies `payloads[from..to]` onto the end of `newPayloads`. */
    static method CopySublist(payloads: seq<Payload>, newPayloads: seq<Payload>, from: nat, to: nat)
      returns (r: seq<Payload>)
      requires to <= |payloads|
      ensures from <= to ==> r == newPayloads + payloads[from..to]
      ensures from >= to ==> r == newPayloads
    {
      r := newPayloads;
      var i := from;
      while i < to
        invariant from <= i
        invariant from <= to ==> i <= to && r == newPayloads + payloads[from..i]
        invariant from >= to ==> r == newPayloads
      {
        r := r + [payloads[i]];
        i := i + 1;
      }
    }

    /** HandleAlert's work on a run with a hit: the runs since the last copy go out untouched, then the run spliced. */
    static method HighlightRun(alert: Alert, payloads: seq<Payload>, ret: seq<Payload>, lastCopied: nat, p: nat, idx: (int, int))
      returns (out: seq<Payload>)
      requires alert.isRegex ==> alert.cache.compiledRegex.Some?
      requires lastCopied <= p < |payloads| && payloads[p].Text?
      requires idx == alert.Match(payloads[p].text, 0)
      ensures out == ret + payloads[lastCopied..p] + SpliceFrom(alert.Pattern(), alert.HighlightStyle(), payloads[p].text, 0)
    {
      out := CopySublist(payloads, ret, lastCopied, p);
      out := SpliceText(alert, payloads[p].text, idx, out);
    }

    /**
     * The inner loop of HandleAlert: starting from the first hit `first` that Match found
     * in `text`, appends every hit with its highlight and then the text after the last one.
     * An empty hit is searched past, so the loop always moves on.
     */
    static method SpliceText(alert: Alert, text: string, first: (int, int), ret: seq<Payload>) returns (out: seq<Payload>)
      requires alert.isRegex ==> alert.cache.compiledRegex.Some?
      requires first == alert.Match(text, 0)
      ensures out == ret + SpliceFrom(alert.Pattern(), alert.HighlightStyle(), text, 0)
    {
      ghost var pat := alert.Pattern();
      ghost var style := alert.HighlightStyle();
      ghost var target := SpliceAcc(pat, style, text, ret, 0);
      out := ret;
      var oldIdx: nat := 0;
      var idx := first;
      ScanAgreesWithMatch(alert, text, 0);
      if idx.1 == 0 {
        idx := alert.ScanMatch(text, 0);
      }
      while idx.0 >= 0
        invariant 0 <= oldIdx <= |text|
        invariant idx == AsPair(Scan(pat, text, oldIdx))
        invariant SpliceAcc(pat, style, text, out, oldIdx) == target
        decreases |text| - oldIdx
      {
        ghost var pos := oldIdx;
        ghost var before := out;
        var preString := text[oldIdx..idx.0];
        var matchString := text[idx.0..idx.0 + idx.1];
        oldIdx := idx.0 + idx.1;
        out := AppendHit(alert, out, preString, matchString);
        AdvanceHit(pat, style, text, pos, idx, oldIdx, before, out);
        idx := alert.ScanMatch(text, oldIdx);
      }
      if oldIdx < |text| {
        out := out + [Text(text[oldIdx..])];
      }
      SpliceAccIsAppend(pat, style, text, ret, 0);
    }

    /** Appends what one hit turns into: the text before it if any, then the hit between its colour switches. */
    static method AppendHit(alert: Alert, out: seq<Payload>, preString: string, matchString: string) returns (ret: seq<Payload>)
      ensures ret == out + ((if 0 < |preString| then [Text(preString)] else []) +
                     Open(alert.HighlightStyle()) + [Text(matchString)] + Close(alert.HighlightStyle()))
    {
      ghost var style := alert.HighlightStyle();
      ghost var pre := if 0 < |preString| then [Text(preString)] else [];
      ret := out;
      if |preString| > 0 {
        ret := ret + [Text(preString)];
      }
      ghost var beforeOpen := ret;
      if alert.highlightForeground != 0 {
        ret := ret + [Foreground(alert.highlightForeground)];
      }
      if alert.highlightGlow != 0 {
        ret := ret + [Glow(alert.highlightGlow)];
      }
      assert ret == beforeOpen + Open(style);
      ret := ret + [Text(matchString)];
      ghost var closed := ret;
      if alert.highlightForeground != 0 {
        ret := ret + [Foreground(0)];
      }
      if alert.highlightGlow != 0 {
        ret := ret + [Glow(0)];
      }
      assert ret == closed + Close(style);
      AppendAssoc(out, pre, Open(style));
      AppendAssoc(out, pre + Open(style), [Text(matchString)]);
      AppendAssoc(out, pre + Open(style) + [Text(matchString)], Close(style));
    }

    /**
     * Runs one alert over a payload list: whether it matched, and the list with every hit
     * highlighted. The output list `ret` is created at the first hit (`hasRet`), so a list
     * without hits, or an alert that does not highlight, hands back the input itself.
     */
    static method HandleAlert(alert: Alert, payloads: seq<Payload>) returns (matched: bool, newPayloads: seq<Payload>)
      requires alert.isRegex ==> alert.cache.compiledRegex.Some?
      ensures (newPayloads, matched) == HandleAlertSpec(alert.Pattern(), alert.HighlightStyle(), payloads)
    {
      ghost var pat := alert.Pattern();
      ghost var style := alert.HighlightStyle();
      ghost var target := SpliceAll(pat, style, payloads);
      ghost var emitted: seq<Payload> := [];
      SpliceAllAccIsAppend(pat, style, payloads, emitted, 0);
      assert payloads[0..] == payloads;
      newPayloads := payloads;
      var lastCopied := 0;
      var ret: seq<Payload> := [];
      var hasRet := false;
      matched := false;
      var p := 0;
      while p < |payloads|
        invariant 0 <= lastCopied <= p <= |payloads|
        invariant matched == MatchBefore(pat, payloads, p)
        invariant hasRet == matched
        invariant matched ==> style.highlight
        invariant !hasRet ==> ret == [] && lastCopied == 0
        invariant emitted == ret + payloads[lastCopied..p]
        invariant SpliceAllAcc(pat, style, payloads, emitted, p) == target
      {
        if !payloads[p].Text? {
          Skip(pat, style, payloads, ret, lastCopied, p, emitted, target);
          emitted := emitted + [payloads[p]];
          p := p + 1;
          continue;
        }
        var idx := alert.Match(payloads[p].text, 0);
        if idx.0 < 0 {
          Skip(pat, style, payloads, ret, lastCopied, p, emitted, target);
          emitted := emitted + [payloads[p]];
          p := p + 1;
          continue;
        }
        matched := true;
        if !alert.highlight {
          AnyMatchWitness(pat, payloads, p);
          return true, payloads;
        }
        hasRet := true;
        ret := HighlightRun(alert, payloads, ret, lastCopied, p, idx);
        lastCopied := p + 1;
        Take(pat, style, payloads, p, emitted, ret, target);
        emitted := ret;
        p := p + 1;
      }
      if hasRet {
        newPayloads := CopySublist(payloads, ret, lastCopied, |payloads|);
      }
    }

    /** The bookkeeping of a payload HandleAlert passes over: it joins the range still to be copied. */
    static lemma Skip(pat: Pattern, style: Style, payloads: seq<Payload>, ret: seq<Payload>,
                      lastCopied: nat, p: nat, emitted: seq<Payload>, target: seq<Payload>)
      requires lastCopied <= p < |payloads| && !RunMatches(pat, payloads[p])
      requires emitted == ret + payloads[lastCopied..p]
      requires SpliceAllAcc(pat, style, payloads, emitted, p) == target
      ensures MatchBefore(pat, payloads, p + 1) == MatchBefore(pat, payloads, p)
      ensures emitted + [payloads[p]] == ret + payloads[lastCopied..p + 1]
      ensures SpliceAllAcc(pat, style, payloads, emitted + [payloads[p]], p + 1) == target
    {
      SliceSnoc(payloads, lastCopied, p);
      SpliceAllAccStep(pat, style, payloads, emitted, p, emitted + [payloads[p]]);
    }

    /** The bookkeeping of a matching text run HandleAlert has just highlighted. */
    static lemma Take(pat: Pattern, style: Style, payloads: seq<Payload>, p: nat,
                      emitted: seq<Payload>, out: seq<Payload>, target: seq<Payload>)
      requires p < |payloads| && payloads[p].Text? && Find(pat, payloads[p].text, 0).Some?
      requires out == emitted + SpliceFrom(pat, style, payloads[p].text, 0)
      requires SpliceAllAcc(pat, style, payloads, emitted, p) == target
      ensures MatchBefore(pat, payloads, p + 1)
      ensures out == out + payloads[p + 1..p + 1]
      ensures SpliceAllAcc(pat, style, payloads, out, p + 1) == target
    {
      assert RunMatches(pat, payloads[p]);
      SpliceAllAccStep(pat, style, payloads, emitted, p, out);
      SliceSnoc(payloads, p + 1, p + 1);
    }

    /**
     * Runs every applicable alert over one chat line. The sender and message come
     * back rewritten, with the sounds started (at most one).
     */
    method HandleMessage(chatType: ChatType, sender: seq<Payload>, message: seq<Payload>, preFilter: bool)
      returns (newSender: seq<Payload>, newMessage: seq<Payload>, sounds: seq<SoundEvent>)
      requires CachesValid(config.alerts)
      ensures !Passes(chatType) ==> newSender == sender && newMessage == message && sounds == []
      ensures Passes(chatType) || Covers(config.alerts) ==>
        Pipeline(Views(config.alerts), chatType, preFilter, Start(sender, message)) ==
        MsgState(newSender, newMessage, |sounds| == 1, sounds)
    {
      if !Passes(chatType) {
        if Covers(config.alerts) {
          GateTransparent(config.alerts, chatType, preFilter, Start(sender, message));
        }
        return sender, message, [];
      }
      newSender, newMessage, sounds := RunAlerts(config.alerts, Views(config.alerts), chatType, sender, message, preFilter);
    }

    /** The loop of HandleMessage: every alert in list order, over a message the gate let through. */
    static method RunAlerts(alerts: seq<Alert>, ghost vs: seq<AlertView>, chatType: ChatType, sender: seq<Payload>, message: seq<Payload>, preFilter: bool)
      returns (newSender: seq<Payload>, newMessage: seq<Payload>, sounds: seq<SoundEvent>)
      requires CachesValid(alerts) && vs == Views(alerts)
      ensures Pipeline(vs, chatType, preFilter, Start(sender, message)) ==
              MsgState(newSender, newMessage, |sounds| == 1, sounds)
    {
      newSender, newMessage, sounds := sender, message, [];
      var soundPlayed := false;
      var i := 0;
      while i < |alerts|
        invariant 0 <= i <= |alerts|
        invariant MsgState(newSender, newMessage, soundPlayed, sounds) == PipelineTo(vs, i, chatType, preFilter, Start(sender, message))
      {
        newSender, newMessage, soundPlayed, sounds := ApplyAlert(alerts[i], vs[i], chatType, preFilter, newSender, newMessage, soundPlayed, sounds);
        i := i + 1;
      }
      SoundAtMostOnce(vs, i, chatType, preFilter, sender, message);
    }

    /** One alert's turn in HandleMessage: the alert runs when it applies, and starts its sound on the message's first hit. */
    static method ApplyAlert(a: Alert, ghost v: AlertView, chatType: ChatType, preFilter: bool,
                             sender: seq<Payload>, message: seq<Payload>, soundPlayed: bool, sounds: seq<SoundEvent>)
      returns (newSender: seq<Payload>, newMessage: seq<Payload>, newPlayed: bool, newSounds: seq<SoundEvent>)
      requires a.cache.Valid() && v == ViewOf(a)
      ensures MsgState(newSender, newMessage, newPlayed, newSounds) ==
              Step(v, chatType, preFilter, MsgState(sender, message, soundPlayed, sounds))
    {
      ghost var st := MsgState(sender, message, soundPlayed, sounds);
      newSender, newMessage, newPlayed, newSounds := sender, message, soundPlayed, sounds;
      if a.enabled && a.CanMatch() && a.includeHidden == preFilter && (AnyChannel in a.channels || chatType in a.channels) {
        assert Applies(v, chatType, preFilter);
        var payloads := if a.senderAlert then sender else message;
        assert payloads == Target(v, st);
        var alertMatch;
        alertMatch, payloads := HandleAlert(a, payloads);
        assert (payloads, alertMatch) == HandleAlertSpec(v.pattern.value, v.style, Target(v, st));
        if a.senderAlert {
          newSender := payloads;
        } else {
          newMessage := payloads;
        }
        if alertMatch && !soundPlayed {
          var event;
          newPlayed, event := a.StartSound();
          assert event == v.sound && newPlayed == event.Some?;
          if event.Some? {
            newSounds := sounds + [event.value];
          }
        }
      }
    }

    /** When every alert is covered, the gate only turns away messages no alert would act on. */
    lemma GateTransparent(alerts: seq<Alert>, t: ChatType, preFilter: bool, st: MsgState)
      requires Covers(alerts) && !Passes(t)
      ensures Pipeline(Views(alerts), t, preFilter, st) == st
    {
      var vs := Views(alerts);
      forall i | 0 <= i < |vs| ensures !Applies(vs[i], t, preFilter) {
        assert CoversAlert(alerts[i]);
      }
      PipelineIdle(vs, |vs|, t, preFilter, st);
    }
  }

  /** Appending the payloads of the hit `idx` found from `pos` is one step of the accumulating scan. */
  lemma AdvanceHit(p: Pattern, s: Style, text: string, pos: nat, idx: (int, int), end: nat, before: seq<Payload>, out: seq<Payload>)
    requires pos <= |text| && idx == AsPair(Scan(p, text, pos)) && idx.0 >= 0 && end == idx.0 + idx.1
    requires out == before + ((if 0 < |text[pos..idx.0]| then [Text(text[pos..idx.0])] else []) +
                              Open(s) + [Text(text[idx.0..idx.0 + idx.1])] + Close(s))
    ensures pos < end <= |text|
    ensures SpliceAcc(p, s, text, out, end) == SpliceAcc(p, s, text, before, pos)
  {
    var h := Scan(p, text, pos).value;
    PieceShape(s, text, pos, h);
    assert out == before + Piece(s, text, pos, h);
  }

  lemma SliceSnoc<T>(s: seq<T>, i: nat, j: nat)
    requires i <= j <= |s|
    ensures j < |s| ==> s[i..j + 1] == s[i..j] + [s[j]]
    ensures s[j..j] == []
  {
  }

  lemma SpliceAllAccStep(p: Pattern, s: Style, ps: seq<Payload>, acc: seq<Payload>, i: nat, next: seq<Payload>)
    requires i < |ps| && next == acc + SpliceRun(p, s, ps[i])
    ensures SpliceAllAcc(p, s, ps, next, i + 1) == SpliceAllAcc(p, s, ps, acc, i)
  {
  }

  lemma AnyMatchWitness(p: Pattern, ps: seq<Payload>, i: nat)
    requires i < |ps| && RunMatches(p, ps[i])
    ensures AnyMatch(p, ps)
  {
    MatchBeforeExists(p, ps, |ps|);
  }

  /**
   * The search position of the highlight loop of ChatWatcher.HandleAlert as written:
   * the loop goes round again from the end of the hit `Find` reports at `oldIdx`,
   * and stops when there is none.
   */
  function NextIdxAsWritten(p: Pattern, text: string, oldIdx: nat): (r: Option<nat>)
    requires oldIdx <= |text|
    ensures r.Some? <==> Find(p, text, oldIdx).Some?
    ensures r.Some? ==> oldIdx <= r.value <= |text|
  {
    match Find(p, text, oldIdx)
    case None => None
    case Some(h) => Some(h.End())
  }

  /** A regex that matches the empty string in front of every character, like `(?=.)` or `\b` before a word. */
  const BeforeEachChar: Regex := RawRegex((text: string, start: nat) => if start < |text| then Some(Hit(start, 0)) else None)

  /**
   * The regex passes the empty-input check of UpdateRegex, and on the one-character run "a"
   * the loop as written finds the same empty hit at index 0 again and again: its
   * position never moves, so the loop does not end.
   */
  lemma ZeroWidthLoopStalls(platform: Platform)
    requires platform.compile("(?=.)", false) == Some(BeforeEachChar)
    ensures AcceptedRegex(true, "(?=.)", false, platform) == Some(BeforeEachChar)
    ensures Find(Compiled(BeforeEachChar), "a", 0) == Some(Hit(0, 0))
    ensures NextIdxAsWritten(Compiled(BeforeEachChar), "a", 0) == Some(0)
  {
  }

  /**
   * An alert whose only hits are empty still matches, as the first Match of a run
   * decides: with Highlight off it reports a match on "a" and leaves the run alone,
   * and with Highlight on the corrected loop brackets nothing and keeps the run's text.
   */
  lemma ZeroWidthHitMatches()
    ensures HandleAlertSpec(Compiled(BeforeEachChar), Style(false, 0, 0), [Text("a")]) == ([Text("a")], true)
    ensures HandleAlertSpec(Compiled(BeforeEachChar), Style(true, 1, 0), [Text("a")]) == ([Text("a")], true)
  {
    var p := Compiled(BeforeEachChar);
    assert Find(p, "a", 0) == Some(Hit(0, 0));
    assert RunMatches(p, Text("a"));
    assert AnyMatch(p, [Text("a")]);
    assert Scan(p, "a", 0).None?;
    assert SpliceAll(p, Style(true, 1, 0), [Text("a")]) == [Text("a")] by {
      assert [Text("a")][1..] == [];
      assert "a"[0..] == "a";
    }
  }

  /** With Scan in its place every round moves past the hit, so SpliceText's loop ends. */
  lemma ScanAlwaysAdvances(p: Pattern, text: string, oldIdx: nat)
    requires oldIdx <= |text|
    ensures Scan(p, text, oldIdx).Some? ==> oldIdx < Scan(p, text, oldIdx).value.End() <= |text|
    ensures Scan(Compiled(BeforeEachChar), "a", 0).None?
  {
  }
}
