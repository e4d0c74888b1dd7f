/**
 * The values the two configuration managers hold: what `json.load` produces, with objects as
 * string-keyed maps. `get`, `set`, `_deep_update` and `_deep_copy` as functions on values.
 */
module JsonTree {
  import opened Wrappers

  datatype Json =
    | JNull
    | JBool(b: bool)
    | JInt(i: int)
    | JReal(r: real)
    | JStr(s: string)
    | JList(items: seq<Json>)
    | JObj(fields: map<string, Json>)

  type Dict = map<string, Json>

  // ---------------------------------------------------------------------------------------
  // get

  /**
   * `get(*keys, default=...)` from `v`: walk the keys; the fallback as soon as the walk meets a
   * value that is not an object, a missing key or a stored null. No keys give `v` itself.
   */
  function Lookup(v: Json, keys: seq<string>, fallback: Json): (r: Json)
    ensures keys == [] ==> r == v
    ensures keys != [] && fallback != JNull ==> r != JNull
    decreases |keys|
  {
    if keys == [] then v
    else if !v.JObj? || keys[0] !in v.fields || v.fields[keys[0]] == JNull then fallback
    else Lookup(v.fields[keys[0]], keys[1..], fallback)
  }

  // ---------------------------------------------------------------------------------------
  // set

  /** The object `set` walks into under `k`: the one stored there, or `{}` in place of anything else. */
  function Child(m: Dict, k: string): Dict {
    if k in m && m[k].JObj? then m[k].fields else map[]
  }

  /**
   * `set(k1, .., kn, value)` on object `m`: every level above the last is an object afterwards
   * (a missing or non-object one replaced by `{}`), and the last key holds `value`.
   */
  function SetPath(m: Dict, keys: seq<string>, value: Json): (r: Dict)
    requires keys != []
    ensures keys[0] in r && r.Keys == m.Keys + {keys[0]}
    decreases |keys|
  {
    if |keys| == 1 then m[keys[0] := value]
    else m[keys[0] := JObj(SetPath(Child(m, keys[0]), keys[1..], value))]
  }

  /** After setting a non-null value at a path, reading the path gives the value back. */
  lemma {:induction false} GetAfterSet(m: Dict, keys: seq<string>, value: Json, fallback: Json)
    requires keys != [] && value != JNull
    ensures Lookup(JObj(SetPath(m, keys, value)), keys, fallback) == value
    decreases |keys|
  {
    if |keys| > 1 {
      GetAfterSet(Child(m, keys[0]), keys[1..], value, fallback);
    }
  }

  /** A stored null reads as missing: after setting null at a path, reading it gives the fallback. */
  lemma {:induction false} GetAfterSetNull(m: Dict, keys: seq<string>, fallback: Json)
    requires keys != []
    ensures Lookup(JObj(SetPath(m, keys, JNull)), keys, fallback) == fallback
    decreases |keys|
  {
    if |keys| > 1 {
      GetAfterSetNull(Child(m, keys[0]), keys[1..], fallback);
    }
  }

  /** Reading below `k` through `Child(m, k)` is reading below `k` in `m`, for a non-empty rest. */
  lemma ChildLookup(m: Dict, k: string, rest: seq<string>, fallback: Json)
    requires rest != []
    ensures Lookup(JObj(Child(m, k)), rest, fallback) == Lookup(JObj(m), [k] + rest, fallback)
  {
    assert ([k] + rest)[1..] == rest;
    if k in m && m[k].JObj? {
      assert JObj(Child(m, k)) == m[k];
    }
  }

  /**
   * `set` leaves every other path alone: a key path that parts from `keys` at some position
   * both paths reach reads the same before and after, even where `set` replaced a level by `{}`.
   */
  lemma {:induction false} SetPreservesOthers(m: Dict, keys: seq<string>, value: Json, other: seq<string>, i: nat, fallback: Json)
    requires i < |keys| && i < |other|
    requires other[..i] == keys[..i] && other[i] != keys[i]
    ensures Lookup(JObj(SetPath(m, keys, value)), other, fallback) == Lookup(JObj(m), other, fallback)
    decreases i
  {
    if i > 0 {
      var k := keys[0];
      assert other[0] == other[..i][0] == keys[..i][0] == k;
      assert other[1..][..i - 1] == keys[1..][..i - 1];
      SetPreservesOthers(Child(m, k), keys[1..], value, other[1..], i - 1, fallback);
      ChildLookup(m, k, other[1..], fallback);
      assert other == [k] + other[1..];
    }
  }

  // ---------------------------------------------------------------------------------------
  // _deep_update

  /**
   * Whether `_deep_update(base, update)` finishes for an object `update`: an empty update
   * always does (its loop never runs); otherwise `base` must be an object, and every object
   * value of the update under a key `base` already has must merge into that key's value.
   */
  predicate Mergeable(base: Json, update: Json)
    requires update.JObj?
    decreases update
  {
    var u := update.fields;
    u == map[] ||
    (base.JObj? && forall k :: k in u && u[k].JObj? && k in base.fields ==> Mergeable(base.fields[k], u[k]))
  }

  /**
   * The result of `_deep_update`: keys absent from the update keep their values, an object
   * value under a key the base has is merged into it, any other value overwrites.
   */
  function Merged(base: Json, update: Json): (r: Json)
    requires update.JObj? && Mergeable(base, update)
    ensures base.JObj? ==> r.JObj?
    decreases update
  {
    var u := update.fields;
    if u == map[] then base
    else JObj(map k | k in base.fields.Keys + u.Keys ::
                if k !in u then base.fields[k]
                else if u[k].JObj? && k in base.fields then Merged(base.fields[k], u[k])
                else u[k])
  }

  /**
   * `_deep_update(base, update)`: an update that is not an object has no `items`
   * (AttributeError); a non-empty update reaching a base that is not an object raises
   * TypeError; otherwise the merge.
   */
  function DeepUpdate(base: Json, update: Json): (r: Result<Json>)
    ensures r.Ok? <==> update.JObj? && Mergeable(base, update)
    ensures !update.JObj? ==> r == Err(AttributeError)
    ensures update.JObj? && !Mergeable(base, update) ==> r == Err(TypeError)
  {
    if !update.JObj? then Err(AttributeError)
    else if !Mergeable(base, update) then Err(TypeError)
    else Ok(Merged(base, update))
  }

  /** `p` leads, through objects only, to the non-object value `v` of `update`. */
  predicate LeafAt(update: Json, p: seq<string>, v: Json)
    decreases |p|
  {
    && p != [] && update.JObj? && p[0] in update.fields
    && (if |p| == 1 then update.fields[p[0]] == v && !v.JObj?
        else LeafAt(update.fields[p[0]], p[1..], v))
  }

  lemma {:induction false} LeafLookup(update: Json, p: seq<string>, v: Json, fallback: Json)
    requires LeafAt(update, p, v) && v != JNull
    ensures Lookup(update, p, fallback) == v
    decreases |p|
  {
    if |p| > 1 {
      LeafLookup(update.fields[p[0]], p[1..], v, fallback);
    }
  }

  /** Every non-null value the update carries is read back at its path after the merge. */
  lemma {:induction false} UpdateApplies(base: Json, update: Json, p: seq<string>, v: Json, fallback: Json)
    requires update.JObj? && Mergeable(base, update) && LeafAt(update, p, v) && v != JNull
    ensures Lookup(Merged(base, update), p, fallback) == v
    decreases |p|
  {
    var k := p[0];
    var u := update.fields;
    assert k in u;
    var r := Merged(base, update);
    if |p| == 1 {
      assert r.fields[k] == v;
    } else if k in base.fields {
      assert r.fields[k] == Merged(base.fields[k], u[k]);
      UpdateApplies(base.fields[k], u[k], p[1..], v, fallback);
    } else {
      assert r.fields[k] == u[k];
      LeafLookup(u[k], p[1..], v, fallback);
    }
  }

  /**
   * `p` stays clear of `update`: the update is empty here, or `p` continues under a key the
   * update lacks, or under a key where an object merges into an existing value and `p` stays
   * clear of that.
   */
  predicate Apart(base: Json, update: Json, p: seq<string>)
    requires update.JObj?
    decreases |p|
  {
    var u := update.fields;
    u == map[] ||
    (p != [] && base.JObj? &&
     (p[0] !in u || (u[p[0]].JObj? && p[0] in base.fields && Apart(base.fields[p[0]], u[p[0]], p[1..]))))
  }

  /** Every path clear of the update reads the same after the merge as before. */
  lemma {:induction false} UpdateKeepsApart(base: Json, update: Json, p: seq<string>, fallback: Json)
    requires update.JObj? && Mergeable(base, update) && Apart(base, update, p)
    ensures Lookup(Merged(base, update), p, fallback) == Lookup(base, p, fallback)
    decreases |p|
  {
    var u := update.fields;
    if u != map[] {
      var k := p[0];
      var r := Merged(base, update);
      if k !in u {
        assert k in r.fields <==> k in base.fields;
        if k in base.fields {
          assert r.fields[k] == base.fields[k];
        }
      } else {
        assert r.fields[k] == Merged(base.fields[k], u[k]);
        UpdateKeepsApart(base.fields[k], u[k], p[1..], fallback);
      }
    }
  }

  /** An empty object in a loaded file leaves even a plain value under its key untouched. */
  lemma EmptyUpdateKeepsValue()
    ensures DeepUpdate(JObj(map["camera" := JObj(map["width" := JInt(640)])]),
                       JObj(map["camera" := JObj(map["width" := JObj(map[])])]))
         == Ok(JObj(map["camera" := JObj(map["width" := JInt(640)])]))
  {
    var base := JObj(map["camera" := JObj(map["width" := JInt(640)])]);
    var update := JObj(map["camera" := JObj(map["width" := JObj(map[])])]);
    var bc, uc := base.fields["camera"], update.fields["camera"];
    assert Merged(bc.fields["width"], uc.fields["width"]) == JInt(640);
    assert Mergeable(bc, uc);
    var inner := Merged(bc, uc);
    assert "width" in uc.fields;
    assert inner.fields == map["width" := JInt(640)];
    assert "camera" in update.fields;
    assert Mergeable(base, update);
    assert Merged(base, update).fields == map["camera" := inner];
  }

  /** A non-empty object aimed at a plain value raises TypeError. */
  lemma ObjectOverValueRaises()
    ensures DeepUpdate(JObj(map["camera" := JObj(map["width" := JInt(640)])]),
                       JObj(map["camera" := JObj(map["width" := JObj(map["a" := JInt(1)])])]))
         == Err(TypeError)
  {
    var base := JObj(map["camera" := JObj(map["width" := JInt(640)])]);
    var update := JObj(map["camera" := JObj(map["width" := JObj(map["a" := JInt(1)])])]);
    var bc, uc := base.fields["camera"], update.fields["camera"];
    assert "a" in uc.fields["width"].fields;
    assert !Mergeable(bc.fields["width"], uc.fields["width"]);
    assert !Mergeable(bc, uc);
  }

  // ---------------------------------------------------------------------------------------
  // _deep_copy

  /**
   * `_deep_copy`: a JSON round trip, rebuilding every list and object; for the values held
   * here (string keys, no tuples, no non-finite numbers) the copy equals the original.
   */
  function DeepCopy(v: Json): (r: Json)
    ensures r == v
    decreases v
  {
    match v
    case JObj(m) =>
      var n := map k | k in m :: DeepCopy(m[k]);
      assert n == m;
      JObj(n)
    case JList(xs) =>
      var ys := seq(|xs|, i requires 0 <= i < |xs| => DeepCopy(xs[i]));
      assert ys == xs;
      JList(ys)
    case _ => v
  }
}
