/**
 * A device that follows the account's settings, each method a stretch between
 * two awaits, proved to do what the protocol has the device do in that step.
 */
module SettingsDevice {
  import Protocol = SettingSync
  import opened Decisions
  import opened Facts
  import opened Prelude

  /** What was sealed: an old device leaves the decisions out. */
  datatype Settings = Settings(switches: string, decisions: Option<Decisions>)

  class Device {
    const mirror: DecisionMirror
    var switches: string
    var mark: nat
    /** Set while a pull's values are applied: setters say nothing then. */
    var applying: bool
    var pushTimer: bool

    constructor (mirror: DecisionMirror, switches: string)
      ensures this.mirror == mirror && this.switches == switches && mark == 0 && !applying && !pushTimer
    {
      this.mirror, this.switches := mirror, switches;
      mark, applying, pushTimer := 0, false, false;
    }

    /** Between awaits the object holds what the protocol's device has. */
    ghost predicate Holds(d: Protocol.Device)
      reads this, mirror
    {
      mirror.record == d.record && switches == d.switches && mark == d.mark && pushTimer == d.owed && !applying
    }

    /** A setter announced a change: a push falls due, unless it is this device
     *  applying the account's own word. */
    method SettingChanged()
      modifies this`pushTimer
      ensures pushTimer == (old(pushTimer) || !applying)
    {
      if applying {
        return;
      }
      pushTimer := true;
    }

    method Decide(name: DecisionSet, keys: seq<string>, ghost d: Protocol.Device, ghost id: Protocol.DevId)
      requires Holds(d)
      modifies this`pushTimer, mirror
      ensures var change := Protocol.ChangeOf(d.record, Protocol.Decide(id, name, keys));
        Holds(if change.Some? then Protocol.Changed(d, change.value) else d)
    {
      var changed := mirror.Decide(name, keys);
      if changed {
        SettingChanged();
      }
    }

    method SetPin(tag: string, on: bool, at: int, ghost d: Protocol.Device, ghost id: Protocol.DevId)
      requires Holds(d)
      modifies this`pushTimer, mirror
      ensures var change := Protocol.ChangeOf(d.record, Protocol.SetPin(id, tag, on, at));
        Holds(if change.Some? then Protocol.Changed(d, change.value) else d)
    {
      var changed := mirror.SetPin(tag, on, at);
      if changed {
        SettingChanged();
      }
    }

    method RememberSearch(query: string, at: int, ghost d: Protocol.Device, ghost id: Protocol.DevId)
      requires Holds(d)
      modifies this`pushTimer, mirror
      ensures var change := Protocol.ChangeOf(d.record, Protocol.RememberSearch(id, query, at));
        Holds(if change.Some? then Protocol.Changed(d, change.value) else d)
    {
      mirror.RememberSearch(query, at);
      if query != "" {
        SettingChanged();
      }
    }

    method Flip(to: string, ghost d: Protocol.Device)
      requires Holds(d)
      modifies this`switches, this`pushTimer
      ensures Holds(d.(switches := to, owed := true))
    {
      switches := to;
      SettingChanged();
    }

    /** What a push seals, taken when the push begins. */
    method Snapshot() returns (settings: Settings)
      ensures settings == Settings(switches, Some(mirror.record))
    {
      settings := Settings(switches, Some(mirror.record));
    }

    /** The debounce is over: a push begins with what the device holds. */
    method TimerFired(ghost d: Protocol.Device) returns (settings: Settings)
      requires Holds(d)
      modifies this`pushTimer
      ensures Holds(d.(owed := false)) && settings == Settings(d.switches, Some(d.record))
    {
      pushTimer := false;
      settings := Snapshot();
    }

    method PushAnswered(updatedAt: nat, ghost d: Protocol.Device)
      requires Holds(d)
      modifies this`mark
      ensures Holds(d.(mark := updatedAt))
    {
      mark := updatedAt;
    }

    /** Takes over the account's values; that the setters announce them meanwhile
     *  is not heard. */
    method ApplySettings(values: Settings) returns (knewMore: bool)
      modifies this`switches, this`applying, this`pushTimer, mirror
      ensures switches == values.switches && !applying
      ensures values.decisions.Some? ==>
        && mirror.record == Merge(old(mirror.record), values.decisions.value)
        && knewMore == KnewMore(old(mirror.record), values.decisions.value)
      ensures values.decisions.None? ==> mirror.record == old(mirror.record) && knewMore == HasAny(mirror.record)
      ensures pushTimer == old(pushTimer)
    {
      applying := true;
      switches := values.switches;
      SettingChanged();
      knewMore := mirror.ApplyDecisions(values.decisions);
      applying := false;
    }

    /** A pull's answer arrives; the settings to push back, if any, are a
     *  snapshot taken then. An account without settings is seeded, an old stamp
     *  is ignored, and an unreadable blob leaves everything be. */
    method PullAnswered(updatedAt: nat, empty: bool, blob: Option<Settings>, ghost d: Protocol.Device, ghost learned: iset<Fact>)
        returns (push: Option<Settings>)
      requires Holds(d)
      modifies this`switches, this`mark, this`applying, this`pushTimer, mirror
      ensures push.Some? ==> push.value == Settings(switches, Some(mirror.record))
      ensures updatedAt == 0 || empty ==> push.Some? && Holds(d)
      ensures updatedAt > 0 && !empty && (updatedAt <= d.mark || blob.None?) ==> push.None? && Holds(d)
      ensures updatedAt > d.mark && !empty && blob.Some? ==>
        match blob.value.decisions
        case Some(theirs) =>
          && Holds(Protocol.Pulled(d, updatedAt, Protocol.Payload(theirs, blob.value.switches, learned)))
          && push.Some? == KnewMore(d.record, theirs)
        case None => mirror.record == d.record && mark == updatedAt && push.Some? == HasAny(d.record)
      ensures (
        && updatedAt > d.mark && !empty && blob.Some? && blob.value.decisions.Some?
        && OneWord(FactsOf(d.record) + FactsOf(blob.value.decisions.value)))
        ==> (push.None? <==> Covers(FactsOf(blob.value.decisions.value), FactsOf(d.record)))
    {
      push := None;
      if updatedAt == 0 || empty {
        var seed := Snapshot();
        return Some(seed);
      }
      if updatedAt <= mark || blob.None? {
        return;
      }
      var knewMore := ApplySettings(blob.value);
      mark := updatedAt;
      if blob.value.decisions.Some? && OneWord(FactsOf(d.record) + FactsOf(blob.value.decisions.value)) {
        KnewMoreIff(d.record, blob.value.decisions.value);
      }
      if knewMore {
        var union := Snapshot();
        push := Some(union);
      }
    }
  }
}
