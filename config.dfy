/**
 * Configuration of the integration: the fixed, ordered table of the six data sources with
 * their display names, and the key/value settings store with its defaults.
 */
module NasaConfig {
  import opened Options

  /** A value of the JSON settings file. */
  datatype Value = Str(s: string) | Int(n: int) | Bool(b: bool) | Null

  /** Python truthiness of a settings value. */
  predicate Truthy(v: Value) {
    match v
    case Str(s) => s != ""
    case Int(n) => n != 0
    case Bool(b) => b
    case Null => false
  }

  /** One row of the source table: identifier, display name and description. */
  datatype Source = Source(id: string, name: string, description: string)

  /** The source table, in its declaration order (the order Python iterates it in). */
  const NasaSources: seq<Source> := [
    Source("apod", "Daily Universe", "Astronomy Picture of the Day"),
    Source("epic", "Earth Live", "Earth from Deep Space"),
    Source("iss", "ISS Tracker", "International Space Station Location"),
    Source("neo", "NEO Watch", "Near Earth Objects"),
    Source("insight", "Mars Archive", "Mars Mission Data"),
    Source("donki", "Space Weather", "Solar Events & Space Weather")
  ]

  /** The settings used when no settings file can be read. */
  const DefaultConfig: map<string, Value> := map[
    "api_key" := Str(""),
    "refresh_interval" := Int(10),
    "device_id" := Str("nasa_mission_control"),
    "device_name" := Str("NASA Mission Control")
  ]

  /** The source identifiers in table order (`list(NASA_SOURCES.keys())`). */
  function SourceIds(): (ids: seq<string>)
    ensures |ids| == |NasaSources|
    ensures forall i :: 0 <= i < |ids| ==> ids[i] == NasaSources[i].id
  {
    seq(|NasaSources|, i requires 0 <= i < |NasaSources| => NasaSources[i].id)
  }

  lemma SourceIdsAreTheSixIds()
    ensures SourceIds() == ["apod", "epic", "iss", "neo", "insight", "donki"]
  {
  }

  /** The display names in table order. */
  function GetSourceList(): (names: seq<string>)
    ensures |names| == |NasaSources|
    ensures forall i :: 0 <= i < |names| ==> names[i] == NasaSources[i].name
  {
    seq(|NasaSources|, i requires 0 <= i < |NasaSources| => NasaSources[i].name)
  }

  lemma SourceListIsTheSixNames()
    ensures GetSourceList() == ["Daily Universe", "Earth Live", "ISS Tracker", "NEO Watch", "Mars Archive", "Space Weather"]
  {
  }

  /** Index of the first row of `table` whose display name is `name`. */
  function IndexOfName(table: seq<Source>, name: string): (r: Option<nat>)
    ensures r.Some? ==> r.value < |table| && table[r.value].name == name
    ensures r.Some? ==> forall j :: 0 <= j < r.value ==> table[j].name != name
    ensures r.None? ==> forall j :: 0 <= j < |table| ==> table[j].name != name
  {
    if table == [] then None
    else if table[0].name == name then Some(0)
    else
      match IndexOfName(table[1..], name)
      case None => None
      case Some(k) => Some(k + 1)
  }

  /** The identifier of the source displayed as `name`, scanning the table in order. */
  function GetSourceByName(name: string): (r: Option<string>)
    ensures r.None? <==> forall i :: 0 <= i < |NasaSources| ==> NasaSources[i].name != name
    ensures r.Some? ==> exists i :: 0 <= i < |NasaSources| && NasaSources[i].name == name && NasaSources[i].id == r.value
  {
    match IndexOfName(NasaSources, name)
    case None => None
    case Some(i) => Some(NasaSources[i].id)
  }

  lemma NamesDistinct()
    ensures forall i, j :: 0 <= i < j < |NasaSources| ==> NasaSources[i].name != NasaSources[j].name
  {
  }

  lemma IdsDistinct()
    ensures forall i, j :: 0 <= i < j < |NasaSources| ==> NasaSources[i].id != NasaSources[j].id
  {
  }

  /** Looking a source up by its own display name finds that source, because names are distinct. */
  lemma SourceByOwnName(i: nat)
    requires i < |NasaSources|
    ensures GetSourceByName(NasaSources[i].name) == Some(NasaSources[i].id)
  {
    NamesDistinct();
    var r := IndexOfName(NasaSources, NasaSources[i].name);
    assert r.Some?;
    assert r.value == i;
  }

  /** The table row of a known identifier, `None` for any other string. */
  function GetSourceData(id: string): (r: Option<Source>)
    ensures r.Some? <==> id in SourceIds()
    ensures r.Some? ==> r.value.id == id && r.value in NasaSources
  {
    if id == "apod" then Some(NasaSources[0])
    else if id == "epic" then Some(NasaSources[1])
    else if id == "iss" then Some(NasaSources[2])
    else if id == "neo" then Some(NasaSources[3])
    else if id == "insight" then Some(NasaSources[4])
    else if id == "donki" then Some(NasaSources[5])
    else None
  }

  /** The data of each row's identifier is that row. */
  lemma GetSourceDataOfRow(i: nat)
    requires i < |NasaSources|
    ensures GetSourceData(NasaSources[i].id) == Some(NasaSources[i])
  {
    if i == 0 {
    } else if i == 1 {
    } else if i == 2 {
    } else if i == 3 {
    } else if i == 4 {
    } else {
    }
  }

  /** `dict.get(key, default)` on the settings. */
  function Lookup(values: map<string, Value>, key: string, default: Value): (v: Value)
    ensures key in values ==> v == values[key]
    ensures key !in values ==> v == default
  {
    if key in values then values[key] else default
  }

  /** Setting one key leaves every other key's lookup as it was. */
  lemma LookupAfterSet(values: map<string, Value>, key: string, value: Value, other: string, default: Value)
    ensures Lookup(values[key := value], key, default) == value
    ensures other != key ==> Lookup(values[key := value], other, default) == Lookup(values, other, default)
  {
  }

  /** Updating with `data` overwrites exactly the keys of `data`. */
  lemma LookupAfterUpdate(values: map<string, Value>, data: map<string, Value>, key: string, default: Value)
    ensures key in data ==> Lookup(values + data, key, default) == data[key]
    ensures key !in data ==> Lookup(values + data, key, default) == Lookup(values, key, default)
  {
  }

  /** The settings store. Reading and writing the JSON file is not modelled. */
  class Config {
    var values: map<string, Value>

    /** Loads the settings: the file's contents when it could be read, the defaults otherwise. */
    constructor (fileContents: Option<map<string, Value>>)
      ensures values == fileContents.GetOr(DefaultConfig)
    {
      values := fileContents.GetOr(DefaultConfig);
    }

    function Get(key: string, default: Value := Null): Value
      reads this
    {
      Lookup(values, key, default)
    }

    method Set(key: string, value: Value)
      modifies this
      ensures values == old(values)[key := value]
      ensures Get(key) == value
      ensures forall k :: k != key ==> Get(k) == old(Get(k))
    {
      values := values[key := value];
    }

    /** `dict.update(data)`, then saving to the file (the saving is not modelled). */
    method Update(data: map<string, Value>)
      modifies this
      ensures values == old(values) + data
      ensures forall k :: k in data ==> Get(k) == data[k]
      ensures forall k :: k !in data ==> Get(k) == old(Get(k))
    {
      values := values + data;
    }

    function ApiKey(): (v: Value)
      reads this
      ensures "api_key" in values ==> v == values["api_key"]
      ensures "api_key" !in values ==> v == Str("")
    {
      Get("api_key", Str(""))
    }

    function RefreshInterval(): (v: Value)
      reads this
      ensures "refresh_interval" in values ==> v == values["refresh_interval"]
      ensures "refresh_interval" !in values ==> v == Int(10)
    {
      Get("refresh_interval", Int(10))
    }

    function DeviceId(): (v: Value)
      reads this
      ensures "device_id" in values ==> v == values["device_id"]
      ensures "device_id" !in values ==> v == Str("nasa_mission_control")
    {
      Get("device_id", Str("nasa_mission_control"))
    }

    function DeviceName(): (v: Value)
      reads this
      ensures "device_name" in values ==> v == values["device_name"]
      ensures "device_name" !in values ==> v == Str("NASA Mission Control")
    {
      Get("device_name", Str("NASA Mission Control"))
    }
  }

  /** With the default settings, every getter yields its own fallback value. */
  lemma DefaultsAgreeWithGetters()
    ensures Lookup(DefaultConfig, "api_key", Null) == Str("")
    ensures Lookup(DefaultConfig, "refresh_interval", Null) == Int(10)
    ensures Lookup(DefaultConfig, "device_id", Null) == Str("nasa_mission_control")
    ensures Lookup(DefaultConfig, "device_name", Null) == Str("NASA Mission Control")
  {
  }
}
