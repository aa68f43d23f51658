/**
 * The agent's plugins: which of them run, after which answers of the heartbeat server.
 * modules/agent/plugins/plugins.go, modules/agent/plugins/scheduler.go and modules/agent/cron/plugin.go.
 */
module Plugins {
  import opened Model

  datatype Plugin = Plugin(filePath: string, mtime: int, cycle: int)

  /** What NewTicker asks of the cycle, whose other values make it panic. */
  predicate Listed(plugins: map<string, Plugin>) {
    forall k :: k in plugins ==> plugins[k].cycle > 0
  }

  /** What the heartbeat server answers, with the plugins listed under each directory it names. */
  datatype Answer = Answer(timestamp: int, dirs: seq<map<string, Plugin>>)

  /** All the plugins listed, a later directory before an earlier one. */
  function Desired(dirs: seq<map<string, Plugin>>): map<string, Plugin> {
    if dirs == [] then map[] else Desired(dirs[..|dirs| - 1]) + dirs[|dirs| - 1]
  }

  /** The last timestamp taken, and the answer it came with if one was taken since after. */
  function Newest(answers: seq<Option<Answer>>, after: int): (r: (int, Option<Answer>))
    ensures r.0 >= after && forall a :: a in answers && a.Some? ==> a.value.timestamp <= r.0
    ensures match r.1 case None => r.0 == after case Some(a) => r.1 in answers && a.timestamp == r.0
  {
    if answers == [] then (after, None)
    else
      var before, last := Newest(answers[..|answers| - 1], after), answers[|answers| - 1];
      assert answers == answers[..|answers| - 1] + [last];
      if last.Some? && last.value.timestamp > before.0 then (last.value.timestamp, last) else before
  }

  predicate Matches(plugins: map<string, Plugin>, desired: map<string, Plugin>) {
    plugins.Keys == desired.Keys && forall k :: k in plugins ==> plugins[k].mtime == desired[k].mtime
  }

  /** What runs after the given answer, if one was taken. */
  predicate Follows(plugins: map<string, Plugin>, before: map<string, Plugin>, answer: Option<Answer>) {
    if answer.Some? then Matches(plugins, Desired(answer.value.dirs)) else plugins == before
  }

  /** The plugins that are already what is desired. */
  function Current(plugins: map<string, Plugin>, desired: map<string, Plugin>): set<string> {
    set k | k in plugins && k in desired && plugins[k].mtime == desired[k].mtime
  }

  class PluginScheduler {
    const plugin: Plugin
    var scheduled: bool
    var quit: bool

    constructor (p: Plugin)
      requires p.cycle > 0
      ensures plugin == p && !scheduled && !quit
    {
      plugin := p;
      scheduled := false;
      quit := false;
    }

    predicate Running()
      reads this
    {
      scheduled && !quit
    }

    /** Starts the goroutine that runs the plugin at every tick until quit. */
    method Schedule()
      modifies this`scheduled
      ensures scheduled
    {
      scheduled := true;
    }

    /** Closing the channel a second time panics. */
    method Stop()
      requires !quit
      modifies this`quit
      ensures quit
    {
      quit := true;
    }
  }

  /** The maps of a Reconciler, and what it had started. */
  datatype Picture = Picture(plugins: map<string, Plugin>, schedulers: map<string, PluginScheduler>,
                             started: set<PluginScheduler>)

  ghost predicate Mapped(p: Picture, s: PluginScheduler) {
    exists k :: k in p.schedulers && p.schedulers[k] == s
  }

  /** Every plugin has a running scheduler of its own. */
  ghost predicate Good(p: Picture)
    reads p.started
  {
    && p.schedulers.Keys == p.plugins.Keys
    && (forall k :: k in p.schedulers ==>
          p.schedulers[k] in p.started && p.schedulers[k].Running() && p.schedulers[k].plugin == p.plugins[k])
    && (forall j, k :: j in p.schedulers && k in p.schedulers && j != k ==> p.schedulers[j] != p.schedulers[k])
  }

  /** The schedulers that still run although nothing can stop them any more. */
  ghost function Leaks(p: Picture): set<PluginScheduler>
    reads p.started
  {
    set s | s in p.started && !s.quit && !Mapped(p, s)
  }

  /** The two maps of the package, and every scheduler it ever started. */
  class Reconciler {
    var plugins: map<string, Plugin>
    var schedulers: map<string, PluginScheduler>
    var timestamp: int
    ghost var started: set<PluginScheduler>

    constructor ()
      ensures Valid() && plugins == map[] && schedulers == map[] && timestamp == -1 && started == {} && Leaked() == {}
    {
      plugins, schedulers, timestamp, started := map[], map[], -1, {};
    }

    ghost function Running(): Picture
      reads this
    {
      Picture(plugins, schedulers, started)
    }

    ghost predicate Valid()
      reads this, started
    {
      Good(Running())
    }

    ghost function Leaked(): set<PluginScheduler>
      reads this, started
    {
      Leaks(Running())
    }

    method DeletePlugin(key: string)
      requires Valid()
      modifies this`plugins, this`schedulers, if key in schedulers then {schedulers[key]} else {}
      ensures Valid()
      ensures plugins == old(plugins) - {key} && schedulers == old(schedulers) - {key}
      ensures key in old(schedulers) ==> old(schedulers[key]).quit
      ensures Leaked() == old(Leaked())
    {
      if key in schedulers {
        schedulers[key].Stop();
        schedulers := schedulers - {key};
      }
      plugins := plugins - {key};
      forall s | s in started && !s.quit ensures Mapped(Running(), s) <==> old(Mapped(Running(), s)) {
        if old(Mapped(Running(), s)) {
          var k :| k in old(schedulers) && old(schedulers[k]) == s;
          assert k in schedulers && schedulers[k] == s;
        }
      }
    }

    method ClearAllPlugins()
      requires Valid()
      modifies this`plugins, this`schedulers, schedulers.Values
      ensures Valid() && plugins == map[] && schedulers == map[]
      ensures forall k :: k in old(schedulers) ==> old(schedulers[k]).quit
      ensures Leaked() == old(Leaked())
    {
      var keys := plugins.Keys;
      while keys != {}
        invariant Valid() && plugins.Keys == keys && Leaked() == old(Leaked())
        invariant forall k :: k in schedulers ==> k in old(schedulers) && schedulers[k] == old(schedulers[k])
      {
        var k :| k in keys;
        DeletePlugin(k);
        keys := keys - {k};
      }
      forall k | k in old(schedulers) ensures old(schedulers[k]).quit {
        assert old(Mapped(Running(), schedulers[k])) && old(schedulers[k]) !in Leaked();
      }
    }

    /** What is no longer desired, or was changed, is stopped and forgotten; the rest is left alone. */
    method DelNoUsePlugins(newPlugins: map<string, Plugin>)
      requires Valid()
      modifies this`plugins, this`schedulers, schedulers.Values
      ensures Valid()
      ensures plugins.Keys == Current(old(plugins), newPlugins)
      ensures forall k :: k in plugins ==> plugins[k] == old(plugins[k]) && schedulers[k] == old(schedulers[k])
      ensures forall k :: k in old(schedulers) && k !in plugins ==> old(schedulers[k]).quit
      ensures Leaked() == old(Leaked())
    {
      var keys := plugins.Keys;
      ghost var current := Current(plugins, newPlugins);
      while keys != {}
        invariant Valid() && keys <= plugins.Keys && Leaked() == old(Leaked())
        invariant forall k :: k in plugins <==> k in keys || k in current
        invariant forall k :: k in plugins ==> k in old(plugins) && plugins[k] == old(plugins[k])
        invariant forall k :: k in schedulers ==> k in old(schedulers) && schedulers[k] == old(schedulers[k])
      {
        var currKey :| currKey in keys;
        assert currKey in current <==> currKey in newPlugins && plugins[currKey].mtime == newPlugins[currKey].mtime;
        if currKey !in newPlugins || plugins[currKey].mtime != newPlugins[currKey].mtime {
          DeletePlugin(currKey);
        }
        keys := keys - {currKey};
      }
      forall k | k in old(schedulers) && k !in plugins ensures old(schedulers[k]).quit {
        assert old(Mapped(Running(), schedulers[k])) && old(schedulers[k]) !in Leaked();
      }
    }

    /** One plugin is given a scheduler of its own. The scheduler it may have had is not stopped. */
    method AddPlugin(fpath: string, newPlugin: Plugin)
      requires Valid() && newPlugin.cycle > 0
      modifies this`plugins, this`schedulers, this`started
      ensures Valid()
      ensures plugins == old(plugins)[fpath := newPlugin]
      ensures fpath in schedulers && fresh(schedulers[fpath])
      ensures schedulers == old(schedulers)[fpath := schedulers[fpath]]
      ensures started == old(started) + {schedulers[fpath]}
      ensures fresh(started - old(started))
    {
      plugins := plugins[fpath := newPlugin];
      var sch := new PluginScheduler(newPlugin);
      schedulers := schedulers[fpath := sch];
      sch.Schedule();
      started := started + {sch};
    }

    /** One turn of AddNewPlugins, which started from first and has left those in left to look at. */
    method AddIfChanged(fpath: string, newPlugins: map<string, Plugin>, ghost first: Picture, ghost left: set<string>)
      requires Valid() && Listed(newPlugins) && fpath in newPlugins && fpath in left
      requires Extends(first, Running(), newPlugins, Changed(first, newPlugins, left))
      modifies this`plugins, this`schedulers, this`started
      ensures Valid()
      ensures Extends(first, Running(), newPlugins, Changed(first, newPlugins, left - {fpath}))
      ensures fresh(started - old(started))
    {
      ghost var done := Changed(first, newPlugins, left);
      if fpath in plugins && newPlugins[fpath].mtime == plugins[fpath].mtime {
        assert Changed(first, newPlugins, left - {fpath}) == done;
        return;
      }
      assert Changed(first, newPlugins, left - {fpath}) == done + {fpath};
      AddPlugin(fpath, newPlugins[fpath]);
      ExtendsOneMore(first, old(Running()), Running(), newPlugins, done, fpath);
    }

    /** Whatever is new or changed is given a scheduler. On its own this leaks the schedulers of what was changed. */
    method AddNewPlugins(newPlugins: map<string, Plugin>)
      requires Valid() && Listed(newPlugins)
      modifies this`plugins, this`schedulers, this`started
      ensures Valid()
      ensures var added := Changed(old(Running()), newPlugins, {});
              && Extends(old(Running()), Running(), newPlugins, added)
              && Leaked() == old(Leaked()) + At(old(schedulers), added)
      ensures fresh(started - old(started))
    {
      var keys := newPlugins.Keys;
      ghost var first := Running();
      ExtendsNone(first, newPlugins);
      while keys != {}
        invariant Valid() && keys <= newPlugins.Keys
        invariant Extends(first, Running(), newPlugins, Changed(first, newPlugins, keys))
        invariant fresh(started - old(started))
      {
        var fpath :| fpath in keys;
        AddIfChanged(fpath, newPlugins, first, keys);
        keys := keys - {fpath};
      }
      LeaksReplaced(first, Running(), newPlugins);
    }

    /** Together they leave exactly what is desired running, each plugin under one scheduler, and leak nothing. */
    method Sync(desired: map<string, Plugin>)
      requires Valid() && Listed(desired)
      modifies this`plugins, this`schedulers, this`started, schedulers.Values
      ensures Valid()
      ensures plugins.Keys == desired.Keys
      ensures forall k :: k in plugins ==> plugins[k].mtime == desired[k].mtime
      ensures forall k :: k in plugins ==>
                if k in Current(old(plugins), desired)
                then plugins[k] == old(plugins)[k] && schedulers[k] == old(schedulers)[k]
                else plugins[k] == desired[k] && schedulers[k] !in old(started)
      ensures forall k :: k in old(schedulers) && k !in Current(old(plugins), desired) ==> old(schedulers[k]).quit
      ensures Leaked() == old(Leaked()) && old(started) <= started && fresh(started - old(started))
    {
      DelNoUsePlugins(desired);
      assert Current(plugins, desired) == plugins.Keys;
      AddNewPlugins(desired);
    }

    /** One turn of syncMinePlugins: an answer that is not newer than the last one taken is ignored. */
    method HandleAnswer(answer: Option<Answer>)
      requires Valid() && (answer.Some? ==> Listed(Desired(answer.value.dirs)))
      modifies this, schedulers.Values
      ensures Valid() && Leaked() == old(Leaked()) && old(started) <= started && fresh(started - old(started))
      ensures if answer.Some? && answer.value.timestamp > old(timestamp)
              then timestamp == answer.value.timestamp && Follows(plugins, old(plugins), answer)
              else timestamp == old(timestamp) && plugins == old(plugins) && schedulers == old(schedulers)
    {
      if answer.None? {
        return;
      }
      var resp := answer.value;
      if resp.timestamp <= timestamp {
        return;
      }
      timestamp := resp.timestamp;
      if |resp.dirs| == 0 {
        ClearAllPlugins();
      }
      var desiredAll := map[];
      for i := 0 to |resp.dirs|
        invariant desiredAll == Desired(resp.dirs[..i]) && timestamp == resp.timestamp
        invariant Valid() && Leaked() == old(Leaked()) && started == old(started)
        invariant schedulers == if |resp.dirs| == 0 then map[] else old(schedulers)
      {
        assert resp.dirs[..i + 1][..i] == resp.dirs[..i];
        desiredAll := desiredAll + resp.dirs[i];
      }
      assert resp.dirs[..|resp.dirs|] == resp.dirs;
      Sync(desiredAll);
    }

    /**
     * Any run of answers. The newest one decides what runs; and a run that starts with nothing leaked ends so, which
     * is that every scheduler ever started is either the one of its plugin or was stopped.
     */
    method SyncMinePlugins(answers: seq<Option<Answer>>)
      requires Valid() && forall a :: a in answers && a.Some? ==> Listed(Desired(a.value.dirs))
      modifies this, started
      ensures Valid() && Leaked() == old(Leaked()) && old(started) <= started
      ensures timestamp == Newest(answers, old(timestamp)).0
      ensures Follows(plugins, old(plugins), Newest(answers, old(timestamp)).1)
    {
      for i := 0 to |answers|
        invariant Valid() && Leaked() == old(Leaked()) && old(started) <= started && fresh(started - old(started))
        invariant timestamp == Newest(answers[..i], old(timestamp)).0
        invariant Follows(plugins, old(plugins), Newest(answers[..i], old(timestamp)).1)
      {
        assert answers[..i + 1][..i] == answers[..i];
        HandleAnswer(answers[i]);
      }
      assert answers[..|answers|] == answers;
    }
  }

  /** Between the two, exactly the keys in added got what is desired, under schedulers not started before. */
  ghost predicate Extends(before: Picture, after: Picture, desired: map<string, Plugin>, added: set<string>) {
    && after.plugins.Keys == before.plugins.Keys + added
    && before.started <= after.started
    && (forall k :: k in added ==>
          k in desired && k in after.schedulers
          && after.plugins[k] == desired[k] && after.schedulers[k] !in before.started)
    && (forall k :: k in before.plugins && k !in added ==>
          k in before.schedulers && k in after.schedulers
          && after.plugins[k] == before.plugins[k] && after.schedulers[k] == before.schedulers[k])
    && (forall s :: s in after.started ==> s in before.started || exists k :: k in added && after.schedulers[k] == s)
  }

  /** The desired keys, but for those still left, that p has not as they are desired. */
  ghost function Changed(p: Picture, desired: map<string, Plugin>, left: set<string>): set<string> {
    desired.Keys - left - Current(p.plugins, desired)
  }

  lemma ExtendsOneMore(first: Picture, before: Picture, after: Picture, desired: map<string, Plugin>,
                       done: set<string>, key: string)
    requires Extends(first, before, desired, done) && key in desired
    requires after.plugins == before.plugins[key := desired[key]]
    requires key in after.schedulers && after.schedulers == before.schedulers[key := after.schedulers[key]]
    requires after.schedulers[key] !in before.started && after.started == before.started + {after.schedulers[key]}
    requires key !in done
    ensures Extends(first, after, desired, done + {key})
  {
    forall s | s in after.started && s !in first.started
      ensures exists k :: k in done + {key} && after.schedulers[k] == s
    {
      if s == after.schedulers[key] {
        assert key in done + {key};
      } else {
        var k :| k in done && before.schedulers[k] == s;
        assert k in done + {key} && after.schedulers[k] == s;
      }
    }
  }

  lemma ExtendsNone(p: Picture, desired: map<string, Plugin>)
    requires Good(p)
    ensures Extends(p, p, desired, Changed(p, desired, desired.Keys))
  {
    assert Changed(p, desired, desired.Keys) == {};
  }

  lemma LeaksReplaced(before: Picture, after: Picture, desired: map<string, Plugin>)
    requires Good(before) && Good(after) && Extends(before, after, desired, Changed(before, desired, {}))
    ensures Leaks(after) == Leaks(before) + At(before.schedulers, Changed(before, desired, {}))
  {
    var added := Changed(before, desired, {});
    forall s ensures s in Leaks(after) <==> s in Leaks(before) || s in At(before.schedulers, added) {
      if s in Leaks(after) && Mapped(before, s) {
        var k :| k in before.schedulers && before.schedulers[k] == s;
        assert k in added;
      }
      if s in before.started && Mapped(after, s) {
        var k :| k in after.schedulers && after.schedulers[k] == s;
        assert k !in added && before.schedulers[k] == s;
      }
    }
  }

  function At(schedulers: map<string, PluginScheduler>, keys: set<string>): set<PluginScheduler> {
    set k | k in schedulers && k in keys :: schedulers[k]
  }
}
