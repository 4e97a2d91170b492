/**
 * The configuration window's effect on the alert list: the row buttons request an
 * action, HandleChanges applies it and saves, the channel checkboxes rewrite an
 * alert's channel list, and "Add Alert" appends a new alert. Interface is the
 * window of the current plugin, which keeps the watcher's gate in step;
 * EarlyInterface is the earlier window, which has no watcher.
 */
module Editor {
  import opened Wrappers
  import opened Chat
  import opened Alerts
  import opened Watcher
  import opened ListOps
  import opened Channels

  class Interface {
    var changes: bool
    var action: ConfigAction
    var changedAlert: Option<Alert>
    /** The plugin's watcher; its configuration is the plugin-wide one the window edits. */
    const watcher: ChatWatcher

    constructor (watcher: ChatWatcher)
      ensures this.watcher == watcher
      ensures !changes && action == NoAction && changedAlert == None
    {
      this.watcher := watcher;
      changes, action, changedAlert := false, NoAction, None;
    }

    method ResetChange()
      modifies this`changes, this`action, this`changedAlert
      ensures !changes && action == NoAction && changedAlert == None
    {
      changes := false;
      action := NoAction;
      changedAlert := None;
    }

    /** A row button was pressed: move up, move down, or (with Shift held) delete that alert. */
    method Request(alert: Alert, requested: ConfigAction)
      modifies this`action, this`changedAlert
      ensures changedAlert == Some(alert) && action == requested
    {
      changedAlert := Some(alert);
      action := requested;
    }

    /** Whether HandleActions has something to do. */
    predicate Pending()
      reads this
    {
      changedAlert.Some? && !action.NoAction?
    }

    /**
     * Applies the requested action to the alert list. Nothing happens without both an
     * alert and an action; otherwise the change is marked, the list becomes
     * ApplyAction of the old list, and a deleted alert's cache is emptied.
     */
    method HandleActions()
      requires changedAlert.Some? ==> changedAlert.value.cache.Valid()
      modifies this`changes, watcher.config`alerts, if changedAlert.Some? then {changedAlert.value.cache} else {}
      ensures !old(Pending()) ==> changes == old(changes) && watcher.config.alerts == old(watcher.config.alerts)
      ensures old(Pending()) ==>
        changes && watcher.config.alerts == ApplyAction(old(watcher.config.alerts), action, changedAlert.value)
      ensures old(Pending()) && action.Delete? ==>
        var c := changedAlert.value.cache;
        c.Valid() && c.compiledRegex.None? && c.audioFile.None? && c.audioEvent.None?
      ensures changedAlert.Some? && !(old(Pending()) && action.Delete?) ==> unchanged(changedAlert.value.cache)
    {
      if changedAlert.None? || action.NoAction? {
        return;
      }
      changes := true;
      var alert := changedAlert.value;
      var alerts := watcher.config.alerts;
      match action {
        case NoAction =>
        case Delete =>
          watcher.config.alerts := Remove(alerts, alert);
          alert.Dispose();
        case MoveUp =>
          var idx := IndexOf(alerts, alert);
          if idx <= 0 {
            return;
          }
          watcher.config.alerts := RemoveAt(alerts, idx);
          watcher.config.alerts := Insert(watcher.config.alerts, idx - 1, alert);
        case MoveDown =>
          var idx := IndexOf(alerts, alert);
          if idx < 0 || idx >= |alerts| - 1 {
            return;
          }
          watcher.config.alerts := RemoveAt(alerts, idx);
          watcher.config.alerts := Insert(watcher.config.alerts, idx + 1, alert);
      }
    }

    /** Applies the pending action, saves when anything changed, and clears the pending state. */
    method HandleChanges()
      requires changedAlert.Some? ==> changedAlert.value.cache.Valid()
      modifies this`changes, this`action, this`changedAlert, watcher.config`alerts, watcher.config`saveCount
      modifies if changedAlert.Some? then {changedAlert.value.cache} else {}
      ensures watcher.config.alerts ==
        if old(Pending()) then ApplyAction(old(watcher.config.alerts), old(action), old(changedAlert).value)
        else old(watcher.config.alerts)
      ensures watcher.config.saveCount ==
        if old(changes) || old(Pending()) then old(watcher.config.saveCount) + 1 else old(watcher.config.saveCount)
      ensures old(Pending()) && old(action).Delete? ==>
        var c := old(changedAlert).value.cache;
        c.Valid() && c.compiledRegex.None? && c.audioFile.None? && c.audioEvent.None?
      ensures old(changedAlert).Some? && !(old(Pending()) && old(action).Delete?) ==>
        unchanged(old(changedAlert).value.cache)
      ensures !changes && action == NoAction && changedAlert == None
    {
      HandleActions();
      if changes {
        watcher.config.Save();
      }
      ResetChange();
    }

    /**
     * The checkbox of channel `t` set to `on`: the alert's channel list is rewritten
     * by Toggle, the change is marked, and the watcher refreshes the alert. The gate
     * only widens, so every alert it covered stays covered.
     */
    method ToggleChannel(alert: Alert, t: ChatType, on: bool)
      requires Toggleable(t) && alert.cache.Valid()
      modifies alert`channels, this`changes, watcher`watchedChannels, watcher`watchAllChannels, alert.cache
      ensures alert.channels == Toggle(old(alert.channels), t, on) && changes
      ensures old(watcher.watchAllChannels) ==> watcher.watchAllChannels
      ensures old(watcher.watchedChannels) <= watcher.watchedChannels || watcher.watchAllChannels
      ensures watcher.watchAllChannels == (old(watcher.watchAllChannels) || AnyChannel in alert.channels)
      ensures watcher.watchedChannels == if watcher.watchAllChannels then old(watcher.watchedChannels)
                                         else old(watcher.watchedChannels) + ChannelSet(alert.channels)
      ensures watcher.CoversAlert(alert) && alert.cache.Valid()
      ensures alert.cache.compiledRegex == AcceptedRegex(alert.isRegex, alert.content, alert.ignoreCase, watcher.platform)
      ensures alert.playSound && alert.customSound ==>
        alert.cache.SoundReady() == (watcher.platform.canOpen(alert.soundPath) && watcher.platform.canInit(alert.soundPath))
      ensures !(alert.playSound && alert.customSound) ==> !alert.cache.SoundReady()
      ensures old(alert.cache.NoLeak()) ==> alert.cache.NoLeak()
      ensures old(watcher.Covers(watcher.config.alerts)) ==> watcher.Covers(watcher.config.alerts)
    {
      alert.channels := RemoveAll(alert.channels, Coupled(t));
      if on {
        alert.channels := alert.channels + [t];
        if t == Party {
          alert.channels := alert.channels + [CrossParty];
        }
      }
      assert alert.channels == RemoveAll(old(alert.channels), Coupled(t)) + (if on then Added(t) else []);
      alert.channels := Sort(alert.channels);
      changes := true;
      watcher.UpdateAlert(alert);
      if old(watcher.Covers(watcher.config.alerts)) {
        forall i | 0 <= i < |watcher.config.alerts|
          ensures watcher.CoversAlert(watcher.config.alerts[i])
        {
          if watcher.config.alerts[i] != alert {
            assert old(watcher.CoversAlert(watcher.config.alerts[i]));
          }
        }
      }
    }

    /**
     * "Add Alert": a new alert listening to the six default channels goes to the end
     * of the list and the watcher widens its gate to it.
     */
    method AddAlert() returns (a: Alert)
      modifies watcher.config`alerts, this`changes, watcher`watchedChannels, watcher`watchAllChannels
      ensures fresh(a) && fresh(a.cache) && a.channels == DefaultChannels && !a.CanMatch()
      ensures watcher.config.alerts == old(watcher.config.alerts) + [a] && changes
      ensures watcher.CoversAlert(a) && a.cache.Valid()
      ensures old(watcher.Covers(watcher.config.alerts)) ==> watcher.Covers(watcher.config.alerts)
      ensures ChatWatcher.OwnCaches(old(watcher.config.alerts)) ==> ChatWatcher.OwnCaches(watcher.config.alerts)
    {
      a := DefaultAlert();
      watcher.config.alerts := watcher.config.alerts + [a];
      watcher.UpdateAlert(a);
      changes := true;
      if old(watcher.Covers(watcher.config.alerts)) {
        forall i | 0 <= i < |watcher.config.alerts|
          ensures watcher.CoversAlert(watcher.config.alerts[i])
        {
          if i < |old(watcher.config.alerts)| {
            assert old(watcher.CoversAlert(watcher.config.alerts[i]));
          }
        }
      }
    }
  }

  /** The alert "Add Alert" creates: the defaults of a new alert, listening to the six default channels. */
  method DefaultAlert() returns (a: Alert)
    ensures fresh(a) && fresh(a.cache) && a.channels == DefaultChannels && !a.CanMatch()
    ensures a.cache.Valid() && a.cache.NoLeak() && a.cache.compiledRegex.None? && !a.cache.SoundReady()
    ensures !a.isRegex && !a.playSound && a.enabled && a.highlight
  {
    a := new Alert();
    a.channels := a.channels + [Say];
    a.channels := a.channels + [Shout];
    a.channels := a.channels + [Yell];
    a.channels := a.channels + [Party];
    a.channels := a.channels + [Alliance];
    a.channels := a.channels + [FreeCompany];
  }

  /** Deleting or moving alerts keeps the gate covering every alert, and the caches owned and valid. */
  lemma ActionKeepsWatcher(w: ChatWatcher, before: seq<Alert>, action: ConfigAction, x: Alert)
    requires w.Covers(before) && ChatWatcher.OwnCaches(before) && ChatWatcher.CachesValid(before)
    ensures w.Covers(ApplyAction(before, action, x))
    ensures ChatWatcher.OwnCaches(ApplyAction(before, action, x))
    ensures ChatWatcher.CachesValid(ApplyAction(before, action, x))
  {
    var after := ApplyAction(before, action, x);
    ApplyActionWithin(before, action, x);
    forall i | 0 <= i < |after|
      ensures w.CoversAlert(after[i]) && after[i].cache.Valid()
    {
      assert after[i] in before;
      var k :| 0 <= k < |before| && before[k] == after[i];
      assert w.CoversAlert(before[k]);
    }
    forall i, j | 0 <= i < |after| && 0 <= j < |after| && after[i].cache == after[j].cache
      ensures after[i] == after[j]
    {
      assert after[i] in before && after[j] in before;
      var k :| 0 <= k < |before| && before[k] == after[i];
      var l :| 0 <= l < |before| && before[l] == after[j];
    }
  }

  /** The earlier window: the same pending-action state, over the configuration alone. */
  class EarlyInterface {
    var changes: bool
    var action: ConfigAction
    var changedAlert: Option<Alert>
    const config: ChatAlertsConfig
    /** The regex and audio services the alerts' Update uses. */
    const platform: Platform

    constructor (config: ChatAlertsConfig, platform: Platform)
      ensures this.config == config && this.platform == platform
      ensures !changes && action == NoAction && changedAlert == None
    {
      this.config, this.platform := config, platform;
      changes, action, changedAlert := false, NoAction, None;
    }

    method ResetChange()
      modifies this`changes, this`action, this`changedAlert
      ensures !changes && action == NoAction && changedAlert == None
    {
      changes := false;
      action := NoAction;
      changedAlert := None;
    }

    predicate Pending()
      reads this
    {
      changedAlert.Some? && !action.NoAction?
    }

    method HandleActions()
      requires changedAlert.Some? ==> changedAlert.value.cache.Valid()
      modifies this`changes, config`alerts, if changedAlert.Some? then {changedAlert.value.cache} else {}
      ensures !old(Pending()) ==> changes == old(changes) && config.alerts == old(config.alerts)
      ensures old(Pending()) ==>
        changes && config.alerts == ApplyAction(old(config.alerts), action, changedAlert.value)
      ensures old(Pending()) && action.Delete? ==>
        var c := changedAlert.value.cache;
        c.Valid() && c.compiledRegex.None? && c.audioFile.None? && c.audioEvent.None?
      ensures changedAlert.Some? && !(old(Pending()) && action.Delete?) ==> unchanged(changedAlert.value.cache)
    {
      if changedAlert.None? || action.NoAction? {
        return;
      }
      changes := true;
      var alert := changedAlert.value;
      var alerts := config.alerts;
      match action {
        case NoAction =>
        case Delete =>
          config.alerts := Remove(alerts, alert);
          alert.Dispose();
        case MoveUp =>
          var idx := IndexOf(alerts, alert);
          if idx <= 0 {
            return;
          }
          config.alerts := RemoveAt(alerts, idx);
          config.alerts := Insert(config.alerts, idx - 1, alert);
        case MoveDown =>
          var idx := IndexOf(alerts, alert);
          if idx < 0 || idx >= |alerts| - 1 {
            return;
          }
          config.alerts := RemoveAt(alerts, idx);
          config.alerts := Insert(config.alerts, idx + 1, alert);
      }
    }

    method HandleChanges()
      requires changedAlert.Some? ==> changedAlert.value.cache.Valid()
      modifies this`changes, this`action, this`changedAlert, config`alerts, config`saveCount
      modifies if changedAlert.Some? then {changedAlert.value.cache} else {}
      ensures config.alerts ==
        if old(Pending()) then ApplyAction(old(config.alerts), old(action), old(changedAlert).value)
        else old(config.alerts)
      ensures config.saveCount ==
        if old(changes) || old(Pending()) then old(config.saveCount) + 1 else old(config.saveCount)
      ensures old(Pending()) && old(action).Delete? ==>
        var c := old(changedAlert).value.cache;
        c.Valid() && c.compiledRegex.None? && c.audioFile.None? && c.audioEvent.None?
      ensures old(changedAlert).Some? && !(old(Pending()) && old(action).Delete?) ==>
        unchanged(old(changedAlert).value.cache)
      ensures !changes && action == NoAction && changedAlert == None
    {
      HandleActions();
      if changes {
        config.Save();
      }
      ResetChange();
    }

    /** The checkbox of channel `t` set to `on`; this window leaves the alert's caches alone. */
    method ToggleChannel(alert: Alert, t: ChatType, on: bool)
      requires Toggleable(t)
      modifies alert`channels, this`changes
      ensures alert.channels == Toggle(old(alert.channels), t, on) && changes
    {
      alert.channels := RemoveAll(alert.channels, Coupled(t));
      if on {
        alert.channels := alert.channels + [t];
        if t == Party {
          alert.channels := alert.channels + [CrossParty];
        }
      }
      assert alert.channels == RemoveAll(old(alert.channels), Coupled(t)) + (if on then Added(t) else []);
      alert.channels := Sort(alert.channels);
      changes := true;
    }

    /** "Add Alert": the new alert with the six default channels is updated, then appended. */
    method AddAlert() returns (a: Alert)
      modifies config`alerts, this`changes
      ensures fresh(a) && fresh(a.cache) && a.channels == DefaultChannels && !a.CanMatch()
      ensures config.alerts == old(config.alerts) + [a] && changes
      ensures a.cache.Valid() && a.cache.NoLeak() && a.RegexCurrent(platform) && !a.cache.SoundReady()
    {
      a := DefaultAlert();
      a.Update(platform);
      config.alerts := config.alerts + [a];
      changes := true;
    }
  }
}
