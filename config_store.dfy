/**
 * The current configuration manager: the settings as a nested object, the in-memory profile
 * table, and the operations on them. Reading and writing files is not modelled; where a branch
 * depends on a file, what the file holds (or whether it exists) is a parameter.
 */
module ConfigStore {
  import opened Wrappers
  import opened JsonTree

  /** `DEFAULT_CONFIG`. */
  function Defaults(): Dict {
    map[
      "network" := JObj(map[
        "vmt_ip" := JStr("127.0.0.1"), "vmt_port" := JInt(39570), "use_vmc" := JBool(false),
        "vmc_ip" := JStr("127.0.0.1"), "vmc_port" := JInt(39580)]),
      "camera" := JObj(map[
        "device_id" := JInt(1), "width" := JInt(640), "height" := JInt(480), "fps" := JInt(60),
        "flip_horizontal" := JBool(true)]),
      "tracking" := JObj(map[
        "mode" := JStr("Upper Body"), "use_fingers" := JBool(false), "model_complexity" := JInt(0),
        "min_detection_confidence" := JReal(0.77), "min_tracking_confidence" := JReal(0.75),
        "smooth_factor" := JReal(0.57), "static_image_mode" := JBool(false)]),
      "visuals" := JObj(map[
        "show_skeleton" := JBool(true), "neon_style" := JBool(true), "show_hud" := JBool(true),
        "language" := JStr("EN"), "theme" := JStr("Terminal"), "frame_reduction" := JInt(1),
        "overlay_mode" := JBool(false), "show_tracker_overlay" := JBool(true)]),
      "calibration" := JObj(map[
        "scale" := JReal(1.1912948602338154), "offset_x" := JReal(0.0), "offset_y" := JReal(1.0),
        "offset_z" := JReal(1.0), "rotation_y" := JReal(180.0)]),
      "trackers" := JObj(map[
        "enable_head" := JBool(true), "enable_hands" := JBool(true), "enable_waist" := JBool(true),
        "enable_knees" := JBool(false), "enable_hips" := JBool(false), "enable_feet" := JBool(false),
        "head_index" := JInt(0), "left_hand_index" := JInt(1), "right_hand_index" := JInt(2),
        "waist_index" := JInt(3)]),
      "system" := JObj(map[
        "first_run" := JBool(false), "last_profile" := JStr("default"), "auto_start" := JBool(true),
        "minimize_to_tray" := JBool(true)]),
      "profiles" := JObj(map["active" := JStr("default")])
    ]
  }

  const ActivePath: seq<string> := ["profiles", "active"]

  /** The defaults name "default" as the active profile and carry the calibration the engine starts from. */
  lemma DefaultsReadBack()
    ensures Lookup(JObj(Defaults()), ActivePath, JNull) == JStr("default")
    ensures Lookup(JObj(Defaults()), ["calibration", "scale"], JNull) == JReal(1.1912948602338154)
    ensures Lookup(JObj(Defaults()), ["tracking", "smooth_factor"], JNull) == JReal(0.57)
  {
    assert ActivePath[1..] == ["active"];
    assert ["calibration", "scale"][1..] == ["scale"];
    assert ["tracking", "smooth_factor"][1..] == ["smooth_factor"];
  }

  /** `get_active_profile` on a settings object. */
  function ActiveProfile(config: Dict): (r: Json)
    ensures ("profiles" !in config || !config["profiles"].JObj?
             || "active" !in config["profiles"].fields || config["profiles"].fields["active"] == JNull)
            ==> r == JStr("default")
    ensures ("profiles" in config && config["profiles"].JObj?
             && "active" in config["profiles"].fields && config["profiles"].fields["active"] != JNull)
            ==> r == config["profiles"].fields["active"]
  {
    assert ActivePath[1..] == ["active"];
    Lookup(JObj(config), ActivePath, JStr("default"))
  }

  class ConfigManager {
    var config: Dict
    /** Profile name to its settings; "default" is always entered at start-up. */
    var profiles: map<string, Dict>

    /**
     * `__init__` and `load`: a copy of the defaults, with the settings file's content merged in
     * when there is one and the merge succeeds; the profile table holds "default", a copy of
     * the result.
     */
    constructor (stored: Option<Json>)
      ensures stored.None? ==> config == Defaults()
      ensures stored.Some? ==> match DeepUpdate(JObj(Defaults()), stored.value)
                               case Ok(r) => config == r.fields
                               case Err(_) => config == Defaults()
      ensures profiles == map["default" := config]
    {
      var c := DeepCopy(JObj(Defaults())).fields;
      if stored.Some? {
        var merged := DeepUpdate(JObj(c), stored.value);
        if merged.Ok? {
          c := merged.value.fields;
        }
      }
      config := c;
      profiles := map["default" := DeepCopy(JObj(c)).fields];
    }

    /** `get(*keys, default=fallback)`. */
    method Get(keys: seq<string>, fallback: Json) returns (r: Json)
      ensures r == Lookup(JObj(config), keys, fallback)
    {
      var value := JObj(config);
      var i := 0;
      while i < |keys|
        invariant 0 <= i <= |keys|
        invariant Lookup(JObj(config), keys, fallback) == Lookup(value, keys[i..], fallback)
      {
        assert keys[i..][1..] == keys[i + 1..];
        if !value.JObj? {
          return fallback;
        }
        if keys[i] !in value.fields || value.fields[keys[i]] == JNull {
          return fallback;
        }
        value := value.fields[keys[i]];
        i := i + 1;
      }
      return value;
    }

    /**
     * `set(*keys, value)`: with no key, `keys[-1]` raises IndexError and nothing changes;
     * otherwise the walk down `keys`, then the value under the last key.
     */
    method Set(keys: seq<string>, value: Json) returns (r: Result<()>)
      modifies this
      ensures keys == [] ==> r == Err(IndexError) && config == old(config)
      ensures keys != [] ==> r == Ok(()) && config == SetPath(old(config), keys, value)
      ensures profiles == old(profiles)
    {
      if keys == [] {
        return Err(IndexError);
      }
      // The walk: the object at each depth, a missing or non-object level replaced by `{}`.
      var levels := [config];
      var i := 0;
      while i < |keys| - 1
        invariant 0 <= i <= |keys| - 1
        invariant |levels| == i + 1 && levels[0] == config
        invariant forall j :: 0 <= j < i ==> levels[j + 1] == Child(levels[j], keys[j])
      {
        levels := levels + [Child(levels[i], keys[i])];
        i := i + 1;
      }
      // The levels are the same objects in the source, so storing the value is seen from the
      // top; here each level is stored back into the one above it.
      var acc := levels[i][keys[i] := value];
      while i > 0
        invariant 0 <= i <= |keys| - 1
        invariant acc == SetPath(levels[i], keys[i..], value)
      {
        assert keys[i - 1..][1..] == keys[i..];
        i := i - 1;
        acc := levels[i][keys[i] := JObj(acc)];
      }
      config := acc;
      r := Ok(());
    }

    /**
     * `load_profile(name)`: "default" gives a fresh copy of the defaults; a known profile gives
     * a copy of it; otherwise a profile file (`file`, when it exists) is read and entered in
     * the table; with none of these, false and nothing changes. On success the loaded name
     * becomes the active profile.
     */
    method LoadProfile(name: string, file: Option<Dict>) returns (ok: bool)
      modifies this
      ensures name == "default" ==> ok && profiles == old(profiles)
                                    && config == SetPath(Defaults(), ActivePath, JStr(name))
      ensures name != "default" && name in old(profiles) ==>
                ok && profiles == old(profiles) && config == SetPath(old(profiles)[name], ActivePath, JStr(name))
      ensures name != "default" && name !in old(profiles) && file.Some? ==>
                ok && profiles == old(profiles)[name := file.value] && config == SetPath(file.value, ActivePath, JStr(name))
      ensures name != "default" && name !in old(profiles) && file.None? ==>
                !ok && profiles == old(profiles) && config == old(config)
      ensures ok ==> ActiveProfile(config) == JStr(name)
    {
      if name == "default" {
        config := DeepCopy(JObj(Defaults())).fields;
      } else if name in profiles {
        config := DeepCopy(JObj(profiles[name])).fields;
      } else if file.Some? {
        config := file.value;
        profiles := profiles[name := DeepCopy(JObj(config)).fields];
      } else {
        return false;
      }
      var _ := Set(ActivePath, JStr(name));
      GetAfterSet(old(config), ActivePath, JStr(name), JStr("default"));
      ok := true;
    }

    /**
     * `delete_profile(name)`: "default" is never deleted; otherwise the result is whether the
     * profile file existed, and then the name leaves the table. The settings never change.
     */
    method DeleteProfile(name: string, fileExists: bool) returns (ok: bool)
      modifies this
      ensures name == "default" ==> !ok && profiles == old(profiles)
      ensures name != "default" ==> ok == fileExists
      ensures name != "default" && fileExists ==> profiles == old(profiles) - {name}
      ensures !(name != "default" && fileExists) ==> profiles == old(profiles)
      ensures config == old(config)
    {
      if name == "default" {
        return false;
      }
      if fileExists {
        if name in profiles {
          profiles := profiles - {name};
        }
        return true;
      }
      return false;
    }

    /** `get_active_profile`: never null; "default" unless `profiles.active` holds a value. */
    function GetActiveProfile(): (r: Json)
      reads this
      ensures r != JNull
      ensures r == JStr("default")
              || ("profiles" in config && config["profiles"].JObj?
                  && "active" in config["profiles"].fields && r == config["profiles"].fields["active"])
    {
      ActiveProfile(config)
    }
  }

  /**
   * Loading a profile and then setting any path that parts from `profiles.active` before its
   * end keeps the loaded name active.
   */
  lemma ActiveSurvivesOtherSets(config: Dict, name: string, keys: seq<string>, value: Json)
    requires Lookup(JObj(config), ActivePath, JStr("default")) == JStr(name)
    requires keys != [] && (keys[0] != "profiles" || (|keys| > 1 && keys[1] != "active"))
    ensures ActiveProfile(SetPath(config, keys, value)) == JStr(name)
  {
    if keys[0] != "profiles" {
      SetPreservesOthers(config, keys, value, ActivePath, 0, JStr("default"));
    } else {
      assert ActivePath[..1] == keys[..1];
      SetPreservesOthers(config, keys, value, ActivePath, 1, JStr("default"));
    }
  }
}
