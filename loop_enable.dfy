/**
 * The automation action that enables the loop. When the loop plugin is
 * disabled it enables it, stores the configuration, asks the overview to
 * refresh and logs a user entry; either way it reports one successful
 * result to the callback.
 */
module LoopEnable {
  import opened Interfaces

  datatype PluginType = LOOP
  datatype UserAction = LOOP_ENABLED
  datatype Source = Automation
  datatype UserEntry = UserEntry(action: UserAction, source: Source, note: string)
  datatype Event = EventRefreshOverview(from: string)

  /** The name the action passes to the settings store and the event bus. */
  const Origin: string := "ActionLoopEnable"

  const OkResult: PumpEnactResult := PumpEnactResult(true, false, Resource("ok"))
  const AlreadyEnabledResult: PumpEnactResult := PumpEnactResult(true, false, Resource("alreadyenabled"))

  class LoopPlugin {
    var enabled: bool

    constructor (enabled: bool)
      ensures this.enabled == enabled
    {
      this.enabled := enabled;
    }

    function IsEnabled(): bool
      reads this
    {
      enabled
    }

    method SetPluginEnabled(pluginType: PluginType, newState: bool)
      modifies this
      ensures enabled == newState
    {
      enabled := newState;
    }
  }

  /** The configuration store: records who asked for the settings to be stored. */
  class ConfigBuilder {
    var stored: seq<string>

    constructor ()
      ensures stored == []
    {
      stored := [];
    }

    method StoreSettings(from: string)
      modifies this
      ensures stored == old(stored) + [from]
    {
      stored := stored + [from];
    }
  }

  /** The event bus: records every event sent. */
  class RxBus {
    var sent: seq<Event>

    constructor ()
      ensures sent == []
    {
      sent := [];
    }

    method Send(event: Event)
      modifies this
      ensures sent == old(sent) + [event]
    {
      sent := sent + [event];
    }
  }

  /** The user-entry log: records every entry. */
  class UserEntryLogger {
    var entries: seq<UserEntry>

    constructor ()
      ensures entries == []
    {
      entries := [];
    }

    method Log(action: UserAction, source: Source, note: string)
      modifies this
      ensures entries == old(entries) + [UserEntry(action, source, note)]
    {
      entries := entries + [UserEntry(action, source, note)];
    }
  }

  /** What the collaborators of the action hold: the loop's state and the three records. */
  datatype Observed = Observed(loopEnabled: bool, stored: seq<string>, sent: seq<Event>, entries: seq<UserEntry>)

  /** The effect of one `doAction` on what the collaborators hold, and the result reported. */
  function DoActionEffect(before: Observed, title: string): (after: (Observed, PumpEnactResult))
    ensures after.0.loopEnabled
    ensures after.1.success
    ensures before.loopEnabled ==> after == (before, AlreadyEnabledResult)
    ensures !before.loopEnabled ==> after.1 == OkResult && after.0 == Observed(true,
      before.stored + [Origin], before.sent + [EventRefreshOverview(Origin)],
      before.entries + [UserEntry(LOOP_ENABLED, Automation, title)])
  {
    if !before.loopEnabled then
      (Observed(true, before.stored + [Origin], before.sent + [EventRefreshOverview(Origin)],
                before.entries + [UserEntry(LOOP_ENABLED, Automation, title)]),
       OkResult)
    else (before, AlreadyEnabledResult)
  }

  /** A second `doAction` right after the first takes the "already enabled" branch and changes nothing. */
  lemma DoActionIdempotent(before: Observed, title: string)
    ensures var once := DoActionEffect(before, title).0;
      DoActionEffect(once, title) == (once, AlreadyEnabledResult)
  {
  }

  class ActionLoopEnable {
    const loopPlugin: LoopPlugin
    const configBuilder: ConfigBuilder
    const rxBus: RxBus
    const uel: UserEntryLogger
    const title: string

    constructor (loopPlugin: LoopPlugin, configBuilder: ConfigBuilder, rxBus: RxBus, uel: UserEntryLogger, title: string)
      ensures this.loopPlugin == loopPlugin && this.configBuilder == configBuilder
      ensures this.rxBus == rxBus && this.uel == uel && this.title == title
    {
      this.loopPlugin := loopPlugin;
      this.configBuilder := configBuilder;
      this.rxBus := rxBus;
      this.uel := uel;
      this.title := title;
    }

    function Collaborators(): Observed
      reads loopPlugin, configBuilder, rxBus, uel
    {
      Observed(loopPlugin.enabled, configBuilder.stored, rxBus.sent, uel.entries)
    }

    method DoAction(callback: Callback)
      modifies loopPlugin, configBuilder, rxBus, uel, callback
      ensures Collaborators() == DoActionEffect(old(Collaborators()), title).0
      ensures callback.results == old(callback.results) + [DoActionEffect(old(Collaborators()), title).1]
    {
      if !loopPlugin.IsEnabled() {
        loopPlugin.SetPluginEnabled(PluginType.LOOP, true);
        configBuilder.StoreSettings(Origin);
        rxBus.Send(EventRefreshOverview(Origin));
        uel.Log(LOOP_ENABLED, Automation, title);
        callback.Deliver(OkResult);
      } else {
        callback.Deliver(AlreadyEnabledResult);
      }
    }

    function IsValid(): (r: bool)
      ensures r
    {
      true
    }
  }

  /** Two actions in a row: the second reports "already enabled" and adds no settings, events or entries. */
  method TwiceInARow(title: string)
  {
    var loop := new LoopPlugin(false);
    var store := new ConfigBuilder();
    var bus := new RxBus();
    var log := new UserEntryLogger();
    var action := new ActionLoopEnable(loop, store, bus, log, title);
    var sink := new Callback();
    action.DoAction(sink);
    action.DoAction(sink);
    assert loop.enabled;
    assert store.stored == [Origin] && bus.sent == [EventRefreshOverview(Origin)];
    assert |log.entries| == 1;
    assert sink.results == [OkResult, AlreadyEnabledResult];
  }
}
