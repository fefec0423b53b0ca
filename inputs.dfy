/** The uniform panel of `Inputs.tsx`: which control each uniform gets, what
    each control sends when edited, and `updateUniforms`, which writes the
    edit into the setting object in place. */
module Inputs {
  import opened Wrappers
  import opened JsValue
  import opened Uniforms
  import opened Refs
  import General

  /** The value a scalar control sends: a number input's raw text, a
      checkbox's 1 or 0, a radio button's index. */
  function TextEdit(raw: string): Value
  {
    Prim(Str(raw))
  }

  function CheckboxEdit(checked: bool): Value
  {
    Prim(Num(if checked then 1.0 else 0.0))
  }

  function RadioEdit(index: nat): Value
  {
    Prim(Num(index as real))
  }

  /** The key a control passes to `updateUniforms`: its setting's `name`,
      which becomes the property key "undefined" when the setting has none. */
  function EditKey(info: SettingInfo): string
  {
    info.name.GetOr("undefined")
  }

  /** A vector control sends one component: `{ x: raw }`. */
  function AxisEdit(axis: string, raw: string): (v: Value)
    ensures v.Obj? && UniqueKeys(v.entries) && Keys(v.entries) == [axis]
  {
    Obj([Entry(axis, Str(raw))])
  }

  /** The new value of `updateUniforms`: a vector merges the edit into the
      current value (`{ ...value, ...newValue }`), anything else is replaced. */
  function Updated(current: Value, t: UniformType, newValue: Value): (v: Value)
    ensures !IsVector(t) ==> v == newValue
    ensures IsVector(t) ==> v.Obj?
  {
    if IsVector(t) then Obj(Spread(current, newValue)) else newValue
  }

  /** A scalar uniform takes what its control sends, verbatim: the raw text
      of a number box, 1 or 0 from a checkbox, the index of a radio button. */
  lemma ScalarEditsReplace(current: Value, t: UniformType, raw: string, checked: bool, index: nat)
    requires !IsVector(t)
    ensures Updated(current, t, TextEdit(raw)) == Prim(Str(raw))
    ensures Updated(current, t, CheckboxEdit(checked)) == Prim(Num(if checked then 1.0 else 0.0))
    ensures Updated(current, t, RadioEdit(index)) == Prim(Num(index as real))
  {
  }

  /** A vector edit sets the components it supplies and keeps every other
      component of the current value. */
  lemma VectorEditMerges(current: Value, t: UniformType, newValue: Value, key: string)
    requires IsVector(t) && newValue.Obj? && UniqueKeys(newValue.entries)
    ensures key in Keys(newValue.entries) ==> Get(Updated(current, t, newValue), key) == Get(newValue, key)
    ensures key !in Keys(newValue.entries) ==> Get(Updated(current, t, newValue), key) == Get(current, key)
  {
    var base := if current.Obj? then current.entries else [];
    SpreadLookup(base, newValue.entries, key);
  }

  /** Editing one box of a vector control changes that component only. */
  lemma AxisEditChangesOneComponent(current: Value, t: UniformType, axis: string, raw: string, key: string)
    requires IsVector(t)
    ensures Get(Updated(current, t, AxisEdit(axis, raw)), axis) == Str(raw)
    ensures key != axis ==> Get(Updated(current, t, AxisEdit(axis, raw)), key) == Get(current, key)
  {
    VectorEditMerges(current, t, AxisEdit(axis, raw), axis);
    VectorEditMerges(current, t, AxisEdit(axis, raw), key);
  }

  /** `updateUniforms(name, newValue)`: the setting under `name` must exist,
      since reading its `type` from `undefined` throws. Its `value` is
      overwritten in place, the table is replaced by a copy that holds the
      same objects (so, as a record, it is unchanged), and no other setting
      changes. */
  method UpdateUniforms(uniforms: Ref<Table>, name: string, newValue: Value) returns (r: Result<(), JsError>)
    modifies uniforms, uniforms.current.settings.Values
    ensures uniforms.current == old(uniforms.current)
    ensures name !in uniforms.current.settings ==> r == Err(General.ReadError("type"))
    ensures name in uniforms.current.settings ==>
              var s := uniforms.current.settings[name];
              r.Ok? && s.value == Updated(old(s.value), s.info.uniformType, newValue)
    ensures forall k :: k in uniforms.current.settings && (name !in uniforms.current.settings
                          || uniforms.current.settings[k] != uniforms.current.settings[name])
              ==> uniforms.current.settings[k].value == old(uniforms.current.settings[k].value)
  {
    if name !in uniforms.current.settings {
      r := Err(General.ReadError("type"));
    } else {
      var setting := uniforms.current.settings[name];
      setting.value := Updated(setting.value, setting.info.uniformType, newValue);
      uniforms.current := Table(uniforms.current.keys, uniforms.current.settings[name := setting]);
      r := Ok(());
    }
  }

  /** What `UniformInput` renders. */
  datatype Control =
    | Nothing
    | Display(shown: General.Shown)
    | FloatInput
    | BoolInput
    | RadioInput(choices: seq<string>)
    | IntInput
    | VectorInput(axes: seq<string>)
    | DefaultValue(value: Value)

  /** `UniformInput`: a read-only uniform is displayed through
      `parseUniform`, except `uBackground`, which shows nothing; otherwise the
      type picks the control, and for `INT_1` a checkbox wins over radio
      buttons, which win over a number box. Radio buttons map over
      `radioChoices`, which throws when there are none. */
  function UniformInput(info: SettingInfo, value: Value, show: real -> string): (r: Result<Control, JsError>)
    ensures info.readonly && info.name == Some("uBackground") ==> r == Ok(Nothing)
    ensures info.readonly && info.name != Some("uBackground") ==>
              (r.Ok? <==> General.ParseUniform(value, info.uniformType, show).Ok?)
    ensures info.readonly && info.name != Some("uBackground") && General.ParseUniform(value, info.uniformType, show).Ok? ==>
              r == Ok(Display(General.ParseUniform(value, info.uniformType, show).value))
    ensures info.readonly && info.name != Some("uBackground") && General.ParseUniform(value, info.uniformType, show).Err? ==>
              r == Err(General.ParseUniform(value, info.uniformType, show).error)
    ensures !info.readonly && info.uniformType == Float1 ==> r == Ok(FloatInput)
    ensures !info.readonly ==> (r.Ok? && r.value.VectorInput? <==> IsVector(info.uniformType))
    ensures !info.readonly && info.uniformType == Int1 && info.isBool ==> r == Ok(BoolInput)
    ensures !info.readonly && info.uniformType == Int1 && !info.isBool && info.isRadio ==>
              (r.Ok? <==> info.radioChoices.Some?)
    ensures !info.readonly && info.uniformType == Int1 && !info.isBool && info.isRadio && info.radioChoices.Some? ==>
              r == Ok(RadioInput(info.radioChoices.value))
    ensures !info.readonly && info.uniformType == Int1 && !info.isBool && !info.isRadio ==> r == Ok(IntInput)
    ensures !info.readonly && info.uniformType == Untyped ==> r == Ok(DefaultValue(info.defaultValue))
    ensures r.Err? ==> (info.readonly && IsVector(info.uniformType) && value == Undefined)
                       || (!info.readonly && info.uniformType == Int1 && info.isRadio && info.radioChoices.None?)
  {
    if info.readonly then
      if info.name == Some("uBackground") then Ok(Nothing)
      else
        match General.ParseUniform(value, info.uniformType, show)
        case Ok(shown) => Ok(Display(shown))
        case Err(e) => Err(e)
    else
      match info.uniformType
      case Float1 => Ok(FloatInput)
      case Int1 =>
        if info.isBool then Ok(BoolInput)
        else if info.isRadio then
          if info.radioChoices.None? then Err(General.ReadError("map")) else Ok(RadioInput(info.radioChoices.value))
        else Ok(IntInput)
      case Vec2 => Ok(VectorInput(["x", "y"]))
      case Vec3 => Ok(VectorInput(["x", "y", "z"]))
      case Vec4 => Ok(VectorInput(["x", "y", "z", "w"]))
      case Untyped => Ok(DefaultValue(info.defaultValue))
  }

  /** A vector control edits exactly the axes the read-only display shows. */
  lemma ControlAxesMatchDisplay(info: SettingInfo, value: Value, show: real -> string)
    requires !info.readonly && IsVector(info.uniformType)
    ensures var axes := General.Axes(info.uniformType);
            UniformInput(info, value, show) == Ok(VectorInput(seq(|axes|, k requires 0 <= k < |axes| => axes[k].0)))
  {
    var axes := General.Axes(info.uniformType);
    var names := seq(|axes|, k requires 0 <= k < |axes| => axes[k].0);
    if info.uniformType == Vec2 {
      assert names == ["x", "y"];
    } else if info.uniformType == Vec3 {
      assert names == ["x", "y", "z"];
    } else {
      assert names == ["x", "y", "z", "w"];
    }
  }

  /** The keys that get a control: every key but `uMouse` and `uTime`, in
      order. */
  function Controls(keys: seq<string>): (r: seq<string>)
    ensures |r| <= |keys|
    ensures forall k :: k in r <==> k in keys && k != "uMouse" && k != "uTime"
  {
    if keys == [] then []
    else
      var rest := Controls(keys[1..]);
      if keys[0] != "uMouse" && keys[0] != "uTime" then [keys[0]] + rest else rest
  }

  /** Filtering keeps the keys in their order: the controls are a
      subsequence of the keys. */
  lemma {:induction false} ControlsInOrder(keys: seq<string>, i: nat, j: nat)
    requires i < j < |Controls(keys)|
    ensures exists a, b :: 0 <= a < b < |keys| && keys[a] == Controls(keys)[i] && keys[b] == Controls(keys)[j]
  {
    var rest := Controls(keys[1..]);
    if keys[0] != "uMouse" && keys[0] != "uTime" {
      if i == 0 {
        assert Controls(keys)[j] == rest[j - 1] && rest[j - 1] in keys[1..];
        var b :| 0 <= b < |keys[1..]| && keys[1..][b] == rest[j - 1];
        assert keys[0] == Controls(keys)[0] && keys[b + 1] == Controls(keys)[j];
      } else {
        ControlsInOrder(keys[1..], i - 1, j - 1);
        var a, b :| 0 <= a < b < |keys[1..]| && keys[1..][a] == rest[i - 1] && keys[1..][b] == rest[j - 1];
        assert keys[a + 1] == Controls(keys)[i] && keys[b + 1] == Controls(keys)[j];
      }
    } else {
      ControlsInOrder(keys[1..], i, j);
      var a, b :| 0 <= a < b < |keys[1..]| && keys[1..][a] == rest[i] && keys[1..][b] == rest[j];
      assert keys[a + 1] == Controls(keys)[i] && keys[b + 1] == Controls(keys)[j];
    }
  }
}
