/**
 * The older configuration manager. It starts from `DEFAULT_CONFIG.copy()`: a new top-level
 * dictionary whose values are the very group dictionaries of the module-level defaults, so a
 * change made inside a group is seen through the defaults as well, while replacing a whole
 * top-level entry is not.
 */
module LegacyConfig {
  import opened Wrappers
  import opened JsonTree

  /** A settings group: a dictionary object that more than one top-level dictionary can hold. */
  class Group {
    var entries: Dict

    constructor (entries: Dict)
      ensures this.entries == entries
    {
      this.entries := entries;
    }
  }

  /** A top-level value: a group object, or any other value. */
  datatype Entry = Plain(v: Json) | Grp(g: Group)

  type Top = map<string, Entry>

  function GroupsOf(t: Top): set<Group> {
    set k | k in t && t[k].Grp? :: t[k].g
  }

  /** No group object sits under two keys of the same top-level dictionary. */
  predicate Distinct(t: Top) {
    forall k1, k2 :: k1 in t && k2 in t && k1 != k2 && t[k1].Grp? && t[k2].Grp? ==> t[k1].g != t[k2].g
  }

  /** What a top-level dictionary holds, read through its groups. */
  function View(t: Top): Dict
    reads GroupsOf(t)
  {
    map k | k in t :: match t[k] case Plain(v) => v case Grp(g) => JObj(g.entries)
  }

  /** `DEFAULT_CONFIG` of the older release. */
  function LegacyDefaults(): Dict {
    map[
      "network" := JObj(NetworkDefaults()),
      "camera" := JObj(CameraDefaults()),
      "tracking" := JObj(TrackingDefaults()),
      "visuals" := JObj(VisualsDefaults()),
      "calibration" := JObj(CalibrationDefaults()),
      "trackers" := JObj(TrackersDefaults()),
      "system" := JObj(SystemDefaults())
    ]
  }

  function NetworkDefaults(): Dict {
    map["vmt_ip" := JStr("127.0.0.1"), "vmt_port" := JInt(39570)]
  }

  function CameraDefaults(): Dict {
    map["device_id" := JInt(1), "width" := JInt(640), "height" := JInt(480), "fps" := JInt(30),
        "flip_horizontal" := JBool(true)]
  }

  function TrackingDefaults(): Dict {
    map["mode" := JStr("Full Body"), "use_fingers" := JBool(false), "model_complexity" := JInt(1),
        "min_detection_confidence" := JReal(0.5), "min_tracking_confidence" := JReal(0.5),
        "smooth_factor" := JReal(0.3), "static_image_mode" := JBool(false)]
  }

  function VisualsDefaults(): Dict {
    map["show_skeleton" := JBool(true), "neon_style" := JBool(true), "show_hud" := JBool(true),
        "language" := JStr("EN"), "theme" := JStr("Matrix")]
  }

  function CalibrationDefaults(): Dict {
    map["scale" := JReal(1.5), "offset_x" := JReal(0.0), "offset_y" := JReal(0.0), "offset_z" := JReal(0.0),
        "rotation_y" := JReal(180.0)]
  }

  function TrackersDefaults(): Dict {
    map["enable_head" := JBool(true), "enable_hands" := JBool(true), "enable_waist" := JBool(true),
        "head_index" := JInt(0), "left_hand_index" := JInt(1), "right_hand_index" := JInt(2),
        "waist_index" := JInt(3)]
  }

  function SystemDefaults(): Dict {
    map["first_run" := JBool(true)]
  }

  /** The legacy defaults lack the VMC settings and ask for 30 frames per second. */
  lemma LegacyDefaultsReadBack()
    ensures Lookup(JObj(LegacyDefaults()), ["camera", "fps"], JNull) == JInt(30)
    ensures Lookup(JObj(LegacyDefaults()), ["network", "use_vmc"], JBool(false)) == JBool(false)
  {
    assert ["camera", "fps"][1..] == ["fps"];
    assert ["network", "use_vmc"][1..] == ["use_vmc"];
  }

  /**
   * What `_deep_update` leaves under key `k` of `base` for the update value `uv`: an object
   * merged into the value already there, otherwise `uv` itself.
   */
  function MergedEntry(base: Dict, k: string, uv: Json): Json
    requires uv.JObj? && k in base ==> Mergeable(base[k], uv)
  {
    if uv.JObj? && k in base then Merged(base[k], uv) else uv
  }

  /** `base` after the update loop has handled the keys in `done`. */
  function MergedSoFar(base: Dict, u: Dict, done: set<string>): Dict
    requires done <= u.Keys
    requires forall k :: k in u && u[k].JObj? && k in base ==> Mergeable(base[k], u[k])
  {
    map k | k in base.Keys + done :: if k in done then MergedEntry(base, k, u[k]) else base[k]
  }

  /** One more round of the loop: key `k`, not handled before, is merged against its original value. */
  lemma MergedSoFarStep(base: Dict, u: Dict, done: set<string>, k: string)
    requires done <= u.Keys && k in u && k !in done
    requires forall k :: k in u && u[k].JObj? && k in base ==> Mergeable(base[k], u[k])
    ensures var now := MergedSoFar(base, u, done);
            (k in now <==> k in base) && (k in base ==> now[k] == base[k])
    ensures var now := MergedSoFar(base, u, done);
            now[k := MergedEntry(base, k, u[k])] == MergedSoFar(base, u, done + {k})
  {
    var now, next := MergedSoFar(base, u, done), MergedSoFar(base, u, done + {k});
    assert now[k := MergedEntry(base, k, u[k])].Keys == next.Keys;
  }

  /** Handling every key of a non-empty update one at a time gives the whole merge. */
  lemma MergedSoFarComplete(base: Dict, u: Dict)
    requires u != map[] && Mergeable(JObj(base), JObj(u))
    ensures MergedSoFar(base, u, u.Keys) == Merged(JObj(base), JObj(u)).fields
  {
    var a, b := MergedSoFar(base, u, u.Keys), Merged(JObj(base), JObj(u)).fields;
    assert a.Keys == b.Keys;
    forall k | k in a
      ensures a[k] == b[k]
    {
    }
  }

  class LegacyConfigManager {
    /** `DEFAULT_CONFIG`, the module-level dictionary this manager copied. */
    const defaults: Top
    var config: Top

    ghost predicate Valid()
      reads this
    {
      Distinct(config)
    }

    /** `__init__`: `DEFAULT_CONFIG.copy()`, a new top-level dictionary holding the same groups. */
    constructor (defaults: Top)
      requires Distinct(defaults)
      ensures Valid() && this.defaults == defaults && config == defaults
      ensures GroupsOf(config) == GroupsOf(defaults)
    {
      this.defaults := defaults;
      config := defaults;
    }

    /**
     * `get(*keys, default=fallback)`: the walk down `keys`, starting in the top-level
     * dictionary and going on inside the group (or value) under the first key; the fallback
     * as soon as the walk meets a non-object, a missing key or a stored null.
     */
    method Get(keys: seq<string>, fallback: Json) returns (r: Json)
      ensures r == Lookup(JObj(View(config)), keys, fallback)
    {
      if keys == [] {
        return JObj(View(config));
      }
      var k := keys[0];
      if k !in config {
        return fallback;
      }
      var value: Json;
      match config[k] {
        case Plain(v) => value := v;
        case Grp(g) => value := JObj(g.entries);
      }
      assert value == View(config)[k];
      if value == JNull {
        return fallback;
      }
      var i := 1;
      while i < |keys|
        invariant 1 <= i <= |keys|
        invariant Lookup(JObj(View(config)), keys, fallback) == Lookup(value, keys[i..], fallback)
      {
        assert keys[i..][1..] == keys[i + 1..];
        if !value.JObj? {
          return fallback;
        }
        if keys[i] !in value.fields || value.fields[keys[i]] == JNull {
          return fallback;
        }
        value := value.fields[keys[i]];
        i := i + 1;
      }
      return value;
    }

    /**
     * `set(*keys, value)`: IndexError with no key; one key replaces the top-level entry; longer
     * paths change the group under the first key in place, creating a new group where there
     * was none, so every dictionary holding that group sees the change.
     */
    method Set(keys: seq<string>, value: Json) returns (r: Result<()>)
      requires Valid()
      modifies this, GroupsOf(config)
      ensures Valid()
      ensures keys == [] ==> r == Err(IndexError) && config == old(config)
      ensures keys != [] ==> r == Ok(()) && View(config) == SetPath(old(View(config)), keys, value)
      ensures |keys| >= 2 && keys[0] in old(config) && old(config)[keys[0]].Grp? ==> config == old(config)
      ensures forall g :: g in old(GroupsOf(config)) &&
                !(|keys| >= 2 && keys[0] in old(config) && old(config)[keys[0]] == Grp(g))
                ==> g.entries == old(g.entries)
    {
      if keys == [] {
        return Err(IndexError);
      }
      var k := keys[0];
      if |keys| == 1 {
        ReplaceEntry(k, value);
      } else if k in config && config[k].Grp? {
        WriteInGroup(k, keys[1..], value);
      } else {
        WriteInNewGroup(k, keys[1..], value);
      }
      r := Ok(());
    }

    /**
     * `load()`: with no settings file nothing happens; otherwise `_deep_update(self.config,
     * loaded)`, which merges into the groups in place. A failing merge is reported as an error
     * (the source prints it). The model then keeps the settings as they were, whereas the
     * source keeps the keys it merged before the failure.
     */
    method Load(loaded: Option<Json>) returns (r: Result<()>)
      requires Valid()
      modifies this, GroupsOf(config)
      ensures Valid()
      ensures loaded.None? ==> r == Ok(()) && config == old(config)
      ensures loaded.Some? ==> match DeepUpdate(JObj(old(View(config))), loaded.value)
                               case Ok(v) => r == Ok(()) && View(config) == v.fields
                               case Err(e) => r == Err(e) && config == old(config)
      ensures loaded.None? || r.Err? ==> forall g :: g in old(GroupsOf(config)) ==> g.entries == old(g.entries)
      ensures loaded.Some? && loaded.value.JObj? ==>
                forall k :: k in old(config) && old(config)[k].Grp? &&
                            (k !in loaded.value.fields || loaded.value.fields[k].JObj?) ==>
                  k in config && config[k] == old(config)[k]
    {
      if loaded.None? {
        return Ok(());
      }
      var merged := DeepUpdate(JObj(View(config)), loaded.value);
      if merged.Err? {
        return Err(merged.error);
      }
      MergeAll(loaded.value.fields);
      r := Ok(());
    }

    /** The update loop of `_deep_update` at the top level, over the keys of `u` in any order. */
    method MergeAll(u: Dict)
      requires Valid() && Mergeable(JObj(View(config)), JObj(u))
      modifies this, GroupsOf(config)
      ensures Valid()
      ensures View(config) == Merged(JObj(old(View(config))), JObj(u)).fields
      ensures forall k :: k in old(config) && old(config)[k].Grp? && (k !in u || u[k].JObj?) ==>
                k in config && config[k] == old(config)[k]
    {
      ghost var base := View(config);
      var todo := u.Keys;
      ghost var done: set<string> := {};
      assert forall k :: k in u && u[k].JObj? && k in base ==> Mergeable(base[k], u[k]);
      while todo != {}
        invariant todo + done == u.Keys && todo !! done
        invariant Valid() && GroupsOf(config) <= old(GroupsOf(config))
        invariant View(config) == MergedSoFar(base, u, done)
        invariant forall k :: k in old(config) && old(config)[k].Grp? && (k !in done || u[k].JObj?) ==>
                    k in config && config[k] == old(config)[k]
        decreases todo
      {
        var k :| k in todo;
        MergeNext(base, u, done, k);
        todo, done := todo - {k}, done + {k};
      }
      if u != map[] {
        MergedSoFarComplete(base, u);
      } else {
        assert View(config) == base;
      }
    }

    /** One round of the update loop, with what the rounds before it have done. */
    method MergeNext(ghost base: Dict, u: Dict, ghost done: set<string>, k: string)
      requires done <= u.Keys && k in u && k !in done
      requires forall k :: k in u && u[k].JObj? && k in base ==> Mergeable(base[k], u[k])
      requires Valid() && View(config) == MergedSoFar(base, u, done)
      modifies this, GroupsOf(config)
      ensures Valid() && GroupsOf(config) <= old(GroupsOf(config))
      ensures View(config) == MergedSoFar(base, u, done + {k})
      ensures u[k].JObj? && k in old(config) && old(config)[k].Grp? ==> config == old(config)
      ensures forall k' :: k' in old(config) && k' != k ==> k' in config && config[k'] == old(config)[k']
    {
      MergedSoFarStep(base, u, done, k);
      MergeKey(k, u[k]);
    }

    /** One round of the update loop: key `k` of the update, with value `uv`. */
    method MergeKey(k: string, uv: Json)
      requires Valid() && (uv.JObj? && k in config ==> Mergeable(View(config)[k], uv))
      modifies this, GroupsOf(config)
      ensures Valid() && GroupsOf(config) <= old(GroupsOf(config)) && config.Keys == old(config.Keys) + {k}
      ensures View(config) == old(View(config))[k := MergedEntry(old(View(config)), k, uv)]
      ensures uv.JObj? && k in old(config) && old(config)[k].Grp? ==> config == old(config)
      ensures forall k' :: k' in old(config) && k' != k ==> k' in config && config[k'] == old(config)[k']
    {
      if uv.JObj? && k in config && config[k].Grp? {
        MergeInGroup(k, uv);
      } else if uv.JObj? && k in config {
        ReplaceEntry(k, Merged(config[k].v, uv));
      } else {
        ReplaceEntry(k, uv);
      }
    }

    /** An object merged into a group: the group object is changed in place. */
    method MergeInGroup(k: string, uv: Json)
      requires Valid() && uv.JObj? && k in config && config[k].Grp? && Mergeable(View(config)[k], uv)
      modifies config[k].g
      ensures config[k].g.entries == Merged(JObj(old(config[k].g.entries)), uv).fields && config == old(config)
      ensures View(config) == old(View(config))[k := Merged(old(View(config))[k], uv)]
    {
      var g := config[k].g;
      ghost var before := View(config);
      g.entries := Merged(JObj(g.entries), uv).fields;
      forall k' | k' in config
        ensures View(config)[k'] == before[k := JObj(g.entries)][k']
      {
        if k' != k && config[k'].Grp? {
          assert config[k'].g != g;
        }
      }
      assert View(config) == before[k := JObj(g.entries)];
    }

    /** `config[k] = value`: the top-level entry is replaced; no group changes. */
    method ReplaceEntry(k: string, value: Json)
      requires Valid()
      modifies this
      ensures Valid() && config == old(config)[k := Plain(value)]
      ensures GroupsOf(config) <= old(GroupsOf(config))
      ensures View(config) == old(View(config))[k := value]
    {
      config := config[k := Plain(value)];
    }

    /** A path below an existing group: that group object is changed in place. */
    method WriteInGroup(k: string, rest: seq<string>, value: Json)
      requires Valid() && k in config && config[k].Grp? && rest != []
      modifies config[k].g
      ensures config[k].g.entries == SetPath(old(config[k].g.entries), rest, value)
      ensures View(config) == old(View(config))[k := JObj(SetPath(Child(old(View(config)), k), rest, value))]
    {
      var g := config[k].g;
      ghost var before := View(config);
      g.entries := SetPath(g.entries, rest, value);
      forall k' | k' in config
        ensures View(config)[k'] == before[k := JObj(g.entries)][k']
      {
        if k' != k && config[k'].Grp? {
          assert config[k'].g != g;
        }
      }
      assert View(config) == before[k := JObj(g.entries)];
    }

    /** A path below a missing or non-object entry: a new group, seeded from an object value, takes its place. */
    method WriteInNewGroup(k: string, rest: seq<string>, value: Json)
      requires Valid() && !(k in config && config[k].Grp?) && rest != []
      modifies this
      ensures Valid() && k in config && config[k].Grp? && fresh(config[k].g)
      ensures config == old(config)[k := config[k]]
      ensures View(config) == old(View(config))[k := JObj(SetPath(Child(old(View(config)), k), rest, value))]
    {
      var seed := if k in config && config[k].v.JObj? then config[k].v.fields else map[];
      var g := new Group(SetPath(seed, rest, value));
      Install(k, g);
    }

    /** `config[k] = g` for a group no key holds yet. */
    method Install(k: string, g: Group)
      requires Valid() && g !in GroupsOf(config)
      modifies this
      ensures Valid() && config == old(config)[k := Grp(g)]
      ensures View(config) == old(View(config))[k := JObj(g.entries)]
    {
      config := config[k := Grp(g)];
    }
  }

  /**
   * The aliasing: a manager copied from `defaults` that sets a path two or more keys deep under
   * one of its groups changes what `defaults` holds in the same way, while setting a single key
   * leaves `defaults` as it was.
   */
  method SetThroughCopy(defaults: Top, keys: seq<string>, value: Json) returns (m: LegacyConfigManager)
    requires Distinct(defaults)
    modifies GroupsOf(defaults)
    ensures |keys| >= 2 && keys[0] in defaults && defaults[keys[0]].Grp? ==>
              View(defaults) == View(m.config) == SetPath(old(View(defaults)), keys, value)
    ensures |keys| == 1 ==> View(defaults) == old(View(defaults)) && View(m.config) == View(defaults)[keys[0] := value]
  {
    m := new LegacyConfigManager(defaults);
    var _ := m.Set(keys, value);
  }

  /**
   * `ConfigManager()`: the shallow copy, then `load()`. Every group of `defaults` that the
   * settings file merges an object into is merged in place, so the defaults read exactly what
   * the manager reads under those keys.
   */
  method Open(defaults: Top, stored: Option<Json>) returns (m: LegacyConfigManager, r: Result<()>)
    requires Distinct(defaults)
    modifies GroupsOf(defaults)
    ensures m.Valid() && fresh(m)
    ensures stored.None? ==> r == Ok(()) && View(m.config) == View(defaults) == old(View(defaults))
    ensures stored.Some? ==> match DeepUpdate(JObj(old(View(defaults))), stored.value)
                             case Ok(v) => r == Ok(()) && View(m.config) == v.fields
                             case Err(e) => r == Err(e) && View(m.config) == View(defaults) == old(View(defaults))
    ensures r.Ok? && stored.Some? ==>
              forall k :: k in defaults && defaults[k].Grp? && k in stored.value.fields && stored.value.fields[k].JObj? ==>
                k in m.config && View(defaults)[k] == View(m.config)[k]
  {
    m := new LegacyConfigManager(defaults);
    r := m.Load(stored);
  }

  /** The same on a concrete group: after one manager sets `system.first_run`, the defaults read it back. */
  method SharedDefaultsWitness() returns (before: Json, after: Json)
    ensures before == JBool(true) && after == JBool(false)
  {
    var system := new Group(SystemDefaults());
    var d := map["system" := Grp(system)];
    assert ["system", "first_run"][1..] == ["first_run"];
    before := Lookup(JObj(View(d)), ["system", "first_run"], JNull);
    var _ := SetThroughCopy(d, ["system", "first_run"], JBool(false));
    after := Lookup(JObj(View(d)), ["system", "first_run"], JNull);
  }
}
