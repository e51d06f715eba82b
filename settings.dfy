/**
 * The settings as the extension reads them: a live store of JavaScript
 * values looked up by key, JavaScript truthiness, and the two settings the
 * extension itself declares.
 */
module Settings {

  /** A JavaScript value as read back from the settings store. Numbers are integers here. */
  datatype Value = Undefined | Null | Bool(b: bool) | Number(n: int) | Str(s: string) | Object

  /** JavaScript truthiness of a value: `if (v)`, `!v`, the result of `filter`'s callback. */
  predicate Truthy(v: Value)
    ensures !Truthy(v) <==> v == Undefined || v == Null || v == Bool(false) || v == Number(0) || v == Str("")
  {
    match v
    case Undefined => false
    case Null => false
    case Bool(b) => b
    case Number(n) => n != 0
    case Str(s) => s != ""
    case Object => true
  }

  /** The live settings: the values the settings manager currently holds, by key. */
  type Store = map<string, Value>

  /** `settings.getValue(key)`: the current value, `undefined` for a key the store does not hold. */
  function GetValue(store: Store, key: string): (v: Value)
    ensures key !in store ==> v == Undefined
    ensures key in store ==> v == store[key]
  {
    if key in store then store[key] else Undefined
  }

  /** One entry of a settings definition list. */
  datatype SettingDefinition = SettingDefinition(key: string, title: string, defaultValue: Value, valueType: string)

  const ScanFinishedBundlesKey := "scan_finished_bundles"
  const ScanNewShareDirectoriesKey := "scan_new_share_directories"

  /** The settings the extension declares for itself, in their declared order. */
  function BuiltinDefinitions(): (defs: seq<SettingDefinition>)
    ensures |defs| == 2
    ensures defs[0].key == ScanFinishedBundlesKey && defs[1].key == ScanNewShareDirectoriesKey
    ensures forall d :: d in defs ==> d.valueType == "boolean" && Truthy(d.defaultValue) && d.defaultValue == Bool(true)
  {
    [ SettingDefinition(ScanFinishedBundlesKey, "Scan finished bundles", Bool(true), "boolean"),
      SettingDefinition(ScanNewShareDirectoriesKey, "Scan new share directories", Bool(true), "boolean") ]
  }
}
