/** `updateUniform` of `AccessibleContrast.tsx`: the contrast form writes a
    uniform by building a new table around a new setting object, leaving the
    old object as it was. */
module AccessibleContrast {
  import opened Wrappers
  import opened JsValue
  import opened Uniforms
  import opened Refs
  import General

  /** The fixed fields `{ ...current[name] }` copies: those of the setting
      under `name`, or none when there is no such setting. */
  function InfoOf(t: Table, name: string): SettingInfo
  {
    if name in t.settings then t.settings[name].info else NoInfo
  }

  /** `{ ...t, [name]: s }`: an existing key keeps its place, a new key goes
      last. */
  function Assign(t: Table, name: string, s: Setting): (r: Table)
    ensures name in r.settings && r.settings[name] == s
    ensures forall k :: k in t.settings && k != name ==> k in r.settings && r.settings[k] == t.settings[k]
    ensures r.settings.Keys == t.settings.Keys + {name}
    ensures name in t.keys ==> r.keys == t.keys
    ensures name !in t.keys ==> r.keys == t.keys + [name]
  {
    Table(if name in t.keys then t.keys else t.keys + [name], t.settings[name := s])
  }

  /** Storing an object found nowhere else in the table keeps the table
      valid. */
  lemma AssignKeepsValid(t: Table, name: string, s: Setting)
    requires forall k :: k in t.settings && k != name ==> t.settings[k] != s
    ensures ValidTable(t) ==> ValidTable(Assign(t, name, s))
  {
    var r := Assign(t, name, s);
    if ValidTable(t) && name !in t.keys {
      forall i, j | 0 <= i < j < |r.keys|
        ensures r.keys[i] != r.keys[j]
      {
        if j == |t.keys| {
          assert r.keys[i] == t.keys[i];
        }
      }
    }
  }

  /** Reading `current` of a missing `uniforms` prop. */
  const MISSING_REF := General.ReadError("current")

  /** `updateUniform(name, value)`. `Background` mounts the component without
      a `uniforms` prop, so `uniforms` may be absent, and then the call throws.
      Otherwise the entry under `name` becomes a new object with the old
      entry's fields and the new value; the old object is left unchanged,
      every other entry is the same object, and the table stays valid. */
  method UpdateUniform(uniforms: Ref?<Table>, name: string, value: Value) returns (r: Result<(), JsError>)
    modifies uniforms
    ensures uniforms == null ==> r == Err(MISSING_REF)
    ensures uniforms != null ==> r.Ok? && name in uniforms.current.settings
    ensures uniforms != null ==>
              var s := uniforms.current.settings[name];
              && fresh(s) && s.info == InfoOf(old(uniforms.current), name) && s.value == value
              && uniforms.current == Assign(old(uniforms.current), name, s)
    ensures uniforms != null && name in old(uniforms.current.settings) ==>
              var previous := old(uniforms.current.settings[name]);
              previous != uniforms.current.settings[name] && previous.value == old(previous.value)
    ensures uniforms != null && ValidTable(old(uniforms.current)) ==> ValidTable(uniforms.current)
  {
    if uniforms == null {
      r := Err(MISSING_REF);
    } else {
      var s := new Setting(InfoOf(uniforms.current, name), value);
      AssignKeepsValid(uniforms.current, name, s);
      uniforms.current := Assign(uniforms.current, name, s);
      r := Ok(());
    }
  }
}
