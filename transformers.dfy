/** A transformer: an immutable id and name plus the settings container it owns. */
module Transformers {
  import opened Wrappers
  import opened Failures
  import opened Identifiers

  /** One constant of a settings enum. */
  datatype Setting = Setting(name: string)

  /** The settings class handed to the constructor: an enum with its constants, or any other class. */
  datatype SettingsClass = NotAnEnum | EnumClass(constants: seq<Setting>)

  /** The settings container; of its contents only the number of registered settings is modelled. */
  class TransformerSettings {
    var count: nat

    constructor ()
      ensures count == 0
    {
      count := 0;
    }

    method RegisterSetting(setting: Setting)
      modifies this
      ensures count == old(count) + 1
    {
      count := count + 1;
    }

    function Size(): nat
      reads this
    {
      count
    }
  }

  class Transformer {
    const id: string
    const name: string
    const settings: TransformerSettings

    /** What the Java constructor guarantees of every instance: a legal id and a non-empty name. */
    ghost predicate Legal()
    {
      IsLegalId(id) && |name| > 0
    }

    /** The part of construction that runs once id and name have been checked:
        the fields are set and every enum constant is registered once. */
    constructor (id: string, name: string, constants: seq<Setting>)
      requires IsLegalId(id) && |name| > 0
      ensures this.id == id && this.name == name && Legal()
      ensures fresh(settings) && settings.count == |constants|
    {
      this.id := id;
      this.name := name;
      settings := new TransformerSettings();
      new;
      for i := 0 to |constants|
        invariant settings.count == i
      {
        settings.RegisterSetting(constants[i]);
      }
    }

    /** The two-argument Java constructor: no settings class. */
    static method Create(id: Option<string>, name: Option<string>) returns (r: Result<Transformer, Error>)
      ensures CheckLegalId(id).Fail? ==> r == Failure(CheckLegalId(id).error)
      ensures CheckLegalId(id).Pass? && CheckLegalName(name).Fail? ==> r == Failure(EmptyName)
      ensures r.Success? <==> id.Some? && IsLegalId(id.value) && name.Some? && name.value != []
      ensures r.Success? ==> fresh(r.value) && fresh(r.value.settings)
      ensures r.Success? ==> Some(r.value.id) == id && Some(r.value.name) == name && r.value.Legal()
      ensures r.Success? ==> !r.value.HasSettings()
    {
      r := CreateWithSettings(id, name, None);
    }

    /** The three-argument Java constructor: checks the id, then the name, then the settings class,
        and registers each constant of an enum settings class. */
    static method CreateWithSettings(id: Option<string>, name: Option<string>, settingsClass: Option<SettingsClass>)
      returns (r: Result<Transformer, Error>)
      ensures CheckLegalId(id).Fail? ==> r == Failure(CheckLegalId(id).error)
      ensures CheckLegalId(id).Pass? && CheckLegalName(name).Fail? ==> r == Failure(EmptyName)
      ensures CheckLegalId(id).Pass? && CheckLegalName(name).Pass? && settingsClass == Some(NotAnEnum) ==>
                r == Failure(SettingsNotEnum)
      ensures r.Success? <==>
                id.Some? && IsLegalId(id.value) && name.Some? && name.value != [] && settingsClass != Some(NotAnEnum)
      ensures r.Success? ==> fresh(r.value) && fresh(r.value.settings)
      ensures r.Success? ==> Some(r.value.id) == id && Some(r.value.name) == name && r.value.Legal()
      ensures r.Success? ==>
                r.value.settings.count == (if settingsClass.Some? then |settingsClass.value.constants| else 0)
      ensures r.Success? ==>
                (r.value.HasSettings() <==> settingsClass.Some? && settingsClass.value.constants != [])
    {
      var idCheck := CheckLegalId(id);
      if idCheck.Fail? {
        return Failure(idCheck.error);
      }
      var nameCheck := CheckLegalName(name);
      if nameCheck.Fail? {
        return Failure(nameCheck.error);
      }
      var constants := [];
      if settingsClass.Some? {
        match settingsClass.value
        case NotAnEnum =>
          return Failure(SettingsNotEnum);
        case EnumClass(cs) =>
          constants := cs;
      }
      var t := new Transformer(id.value, name.value, constants);
      r := Success(t);
    }

    /** hasSettings: at least one setting is registered. */
    function HasSettings(): (r: bool)
      reads settings
      ensures r <==> settings.count != 0
    {
      settings.Size() > 0
    }

    /** equals: identity, as the Java override makes it. */
    function Equals(obj: object?): (r: bool)
      ensures r <==> obj == this
      ensures r ==> obj is Transformer && (obj as Transformer).id == id && (obj as Transformer).name == name
    {
      obj == this
    }
  }
}
