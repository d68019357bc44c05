/**
 * The application's configuration (application.go, lines 28-36): a map from
 * string keys to string values, read with Go's zero-value lookup.
 */
module Config {
  import opened Wrappers

  /** configs[key] in Go: the stored value, or "" for a key never set. */
  function Lookup(configs: map<string, string>, key: string): (v: string)
    ensures key in configs ==> v == configs[key]
    ensures key !in configs ==> v == ""
  {
    if key in configs then configs[key] else ""
  }

  /** The map after SetConfig(k, v) for each pair (k, v) of `sets`, in order. */
  function SetAll(configs: map<string, string>, sets: seq<(string, string)>): map<string, string>
    decreases |sets|
  {
    if sets == [] then configs else SetAll(configs[sets[0].0 := sets[0].1], sets[1..])
  }

  /** The value of the most recent pair for `key` in `sets`, if any. */
  function LastSet(sets: seq<(string, string)>, key: string): Option<string>
    decreases |sets|
  {
    if sets == [] then None
    else if sets[|sets| - 1].0 == key then Some(sets[|sets| - 1].1)
    else LastSet(sets[..|sets| - 1], key)
  }

  lemma {:induction false} SetAllSnoc(configs: map<string, string>, sets: seq<(string, string)>, kv: (string, string))
    ensures SetAll(configs, sets + [kv]) == SetAll(configs, sets)[kv.0 := kv.1]
    decreases |sets|
  {
    if sets != [] {
      assert (sets + [kv])[1..] == sets[1..] + [kv];
      SetAllSnoc(configs[sets[0].0 := sets[0].1], sets[1..], kv);
    }
  }

  /**
   * After any sequence of SetConfig calls, GetConfig(key) is the value of the
   * most recent call for that key (last write wins), or what it was before when
   * there was none.
   */
  lemma {:induction false} LastWriteWins(configs: map<string, string>, sets: seq<(string, string)>, key: string)
    ensures Lookup(SetAll(configs, sets), key)
         == match LastSet(sets, key) case Some(v) => v case None => Lookup(configs, key)
    decreases |sets|
  {
    if sets != [] {
      var init, last := sets[..|sets| - 1], sets[|sets| - 1];
      assert sets == init + [last];
      SetAllSnoc(configs, init, last);
      LastWriteWins(configs, init, key);
    }
  }
}
