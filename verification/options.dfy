/** The host's string-keyed option store, as the plugin uses it: a finite map from
    option name to string value, read with a default and written two ways. */
module OptionStore {

  type Options = map<string, string>

  /** `get_option(key, default)`: the stored value, or the caller's default when the
      option has never been written. */
  function Get(opts: Options, key: string, default: string): (v: string)
    ensures key in opts ==> v == opts[key]
    ensures key !in opts ==> v == default
  {
    if key in opts then opts[key] else default
  }

  /** `add_option(key, value)`: writes only when the option is absent; an existing
      value, whatever it is, is kept. */
  function Add(opts: Options, key: string, value: string): (r: Options)
    ensures r.Keys == opts.Keys + {key}
    ensures key in opts ==> r == opts
    ensures key !in opts ==> r[key] == value
    ensures forall k :: k in opts ==> r[k] == opts[k]
  {
    if key in opts then opts else opts[key := value]
  }

  /** `update_option(key, value)`: overwrites unconditionally; every other option
      keeps its value. */
  function Update(opts: Options, key: string, value: string): (r: Options)
    ensures r.Keys == opts.Keys + {key}
    ensures r[key] == value
    ensures forall k :: k in opts && k != key ==> r[k] == opts[k]
  {
    opts[key := value]
  }
}
