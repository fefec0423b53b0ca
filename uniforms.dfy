/** The uniform settings table every demo keeps in a ref: a record from key to
    setting object, each setting carrying its GLSL type, display flags and a
    `value` that is overwritten in place. */
module Uniforms {
  import opened Wrappers
  import opened JsValue

  /** `UNIFORM_TYPE`; `Untyped` is a setting without a `type` property. */
  datatype UniformType = Int1 | Float1 | Vec2 | Vec3 | Vec4 | Untyped

  predicate IsVector(t: UniformType)
  {
    t == Vec2 || t == Vec3 || t == Vec4
  }

  /** The fields of a setting that never change after it is made. */
  datatype SettingInfo = SettingInfo(
    name: Option<string>,
    uniformType: UniformType,
    readonly: bool,
    isBool: bool,
    isRadio: bool,
    radioChoices: Option<seq<string>>,
    defaultValue: Value)

  /** The fields of `{ value }` alone: every other property is `undefined`. */
  const NoInfo := SettingInfo(None, Untyped, false, false, false, None, Undefined)

  /** A `UniformSetting` object. */
  class Setting {
    var value: Value
    const info: SettingInfo

    constructor(info: SettingInfo, value: Value)
      ensures this.info == info && this.value == value
    {
      this.info := info;
      this.value := value;
    }
  }

  /** A `UniformSettings` record: its keys in insertion order and the setting
      under each. */
  datatype Table = Table(keys: seq<string>, settings: map<string, Setting>)

  /** Keys are distinct and exactly those of `settings`, and no setting
      object is stored under two keys. */
  ghost predicate ValidTable(t: Table)
  {
    && (forall i, j :: 0 <= i < j < |t.keys| ==> t.keys[i] != t.keys[j])
    && (forall k :: k in t.settings <==> k in t.keys)
    && (forall a, b :: a in t.settings && b in t.settings && a != b ==> t.settings[a] != t.settings[b])
  }

  /** The setting objects of a table. */
  ghost function Objects(t: Table): set<Setting>
  {
    set k | k in t.settings :: t.settings[k]
  }

  /** The setting objects in key order: `Object.keys(t).map(k => t[k])`.
      No object appears twice. */
  function InOrder(t: Table): (objs: seq<Setting>)
    requires ValidTable(t)
    ensures |objs| == |t.keys|
    ensures forall j :: 0 <= j < |t.keys| ==> t.keys[j] in t.settings && objs[j] == t.settings[t.keys[j]]
    ensures forall j, k :: 0 <= j < k < |objs| ==> objs[j] != objs[k]
    ensures forall j :: 0 <= j < |objs| ==> objs[j] in Objects(t)
  {
    seq(|t.keys|, j requires 0 <= j < |t.keys| => t.settings[t.keys[j]])
  }
}
