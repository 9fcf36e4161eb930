/**
 * How the extension turns its constructor keyword arguments and an
 * application's configuration into the keyword arguments of a new pool.
 *
 * A Python dict of keyword arguments is a `map<string, V>`; the values are
 * never inspected, so their type is a parameter. The application's config
 * is a sequence of (key, value) pairs in the dict's iteration order.
 */
module PoolConfig {

  /** Config keys with this (case-sensitive) prefix configure the pool. */
  const PREFIX: string := "CUTTLEPOOL_"

  /**
   * The keyword arguments the extension stores at construction: the
   * given keyword arguments, with `capacity`, `overflow` and `timeout`
   * set to the explicit parameters.
   */
  function StoredKwargs<V>(kwargs: map<string, V>, capacity: V, overflow: V, timeout: V): (r: map<string, V>)
    ensures r.Keys == kwargs.Keys + {"capacity", "overflow", "timeout"}
    ensures r["capacity"] == capacity && r["overflow"] == overflow && r["timeout"] == timeout
    ensures forall k :: k in kwargs && k != "capacity" && k != "overflow" && k != "timeout" ==> r[k] == kwargs[k]
  {
    kwargs["capacity" := capacity]["overflow" := overflow]["timeout" := timeout]
  }

  predicate IsAsciiUpper(c: char) {
    'A' <= c <= 'Z'
  }

  function LowerChar(c: char): char {
    if IsAsciiUpper(c) then (c as int + 32) as char else c
  }

  /** Python's `str.lower`, restricted to ASCII letters. */
  function Lower(s: string): (r: string)
    ensures |r| == |s|
    ensures forall i :: 0 <= i < |r| ==> !IsAsciiUpper(r[i])
    ensures forall i :: 0 <= i < |s| && !IsAsciiUpper(s[i]) ==> r[i] == s[i]
    ensures forall i :: 0 <= i < |s| && IsAsciiUpper(s[i]) ==> r[i] as int == s[i] as int + 32
  {
    if s == [] then [] else [LowerChar(s[0])] + Lower(s[1..])
  }

  /** `key.startswith(PREFIX)`. */
  predicate HasPrefix(key: string): (r: bool)
    ensures r <==> |PREFIX| <= |key| && key == PREFIX + key[|PREFIX|..]
  {
    |PREFIX| <= |key| && key[..|PREFIX|] == PREFIX
  }

  /** The keyword a prefixed config key becomes: the rest of the key, lower-cased. */
  function ArgName(key: string): (r: string)
    requires HasPrefix(key)
    ensures |PREFIX| + |r| == |key|
    ensures forall i :: 0 <= i < |r| ==> r[i] == LowerChar(key[|PREFIX| + i])
  {
    Lower(key[|PREFIX|..])
  }

  /** The config entry sets keyword `name`. */
  predicate Supplies<V>(entry: (string, V), name: string) {
    HasPrefix(entry.0) && ArgName(entry.0) == name
  }

  /**
   * The dict comprehension over the config items: every prefixed key
   * contributes its keyword, and a later entry replaces an earlier one
   * that gives the same keyword.
   */
  function ConfigOverrides<V>(config: seq<(string, V)>): map<string, V> {
    if config == [] then map[]
    else
      var earlier := ConfigOverrides(config[..|config| - 1]);
      var last := config[|config| - 1];
      if HasPrefix(last.0) then earlier[ArgName(last.0) := last.1] else earlier
  }

  /** The keyword arguments a new pool is made with: the stored ones, updated by the config. */
  function PoolArguments<V>(stored: map<string, V>, config: seq<(string, V)>): (r: map<string, V>)
    ensures r.Keys == stored.Keys + ConfigOverrides(config).Keys
  {
    stored + ConfigOverrides(config)
  }

  /** A keyword is configured exactly when some prefixed config entry gives it. */
  lemma {:induction false} OverridesKeys<V>(config: seq<(string, V)>, name: string)
    ensures name in ConfigOverrides(config) <==> exists i :: 0 <= i < |config| && Supplies(config[i], name)
  {
    if config != [] {
      var n := |config| - 1;
      var init := config[..n];
      OverridesKeys(init, name);
      if exists i :: 0 <= i < n && Supplies(init[i], name) {
        var i :| 0 <= i < n && Supplies(init[i], name);
        assert config[i] == init[i];
      }
      if exists i :: 0 <= i < |config| && Supplies(config[i], name) {
        var i :| 0 <= i < |config| && Supplies(config[i], name);
        if i < n {
          assert init[i] == config[i];
        }
      }
    }
  }

  /** The value of a configured keyword is the one of the last entry that gives it. */
  lemma {:induction false} OverridesLastWins<V>(config: seq<(string, V)>, i: nat)
    requires i < |config| && HasPrefix(config[i].0)
    requires forall j :: i < j < |config| ==> !Supplies(config[j], ArgName(config[i].0))
    ensures ArgName(config[i].0) in ConfigOverrides(config)
    ensures ConfigOverrides(config)[ArgName(config[i].0)] == config[i].1
  {
    var n := |config| - 1;
    if i < n {
      var init := config[..n];
      assert init[i] == config[i];
      forall j | i < j < |init| ensures !Supplies(init[j], ArgName(init[i].0)) {
        assert init[j] == config[j];
      }
      OverridesLastWins(init, i);
      assert !Supplies(config[n], ArgName(config[i].0));
    }
  }

  /** Reading the config in two parts, the second part wins. */
  lemma {:induction false} OverridesAppend<V>(a: seq<(string, V)>, b: seq<(string, V)>)
    ensures ConfigOverrides(a + b) == ConfigOverrides(a) + ConfigOverrides(b)
  {
    if b == [] {
      assert a + b == a;
    } else {
      var n := |b| - 1;
      assert (a + b)[..|a + b| - 1] == a + b[..n];
      assert (a + b)[|a + b| - 1] == b[n];
      OverridesAppend(a, b[..n]);
    }
  }

  /** Every keyword of the new pool comes from the stored kwargs or from a prefixed config key. */
  lemma PoolArgumentsKeys<V>(stored: map<string, V>, config: seq<(string, V)>, name: string)
    ensures name in PoolArguments(stored, config)
        <==> name in stored || exists i :: 0 <= i < |config| && Supplies(config[i], name)
  {
    OverridesKeys(config, name);
  }

  /** A prefixed config key overrides a stored kwarg of the same name (the last such key wins). */
  lemma ConfigWins<V>(stored: map<string, V>, config: seq<(string, V)>, i: nat)
    requires i < |config| && HasPrefix(config[i].0)
    requires forall j :: i < j < |config| ==> !Supplies(config[j], ArgName(config[i].0))
    ensures ArgName(config[i].0) in PoolArguments(stored, config)
    ensures PoolArguments(stored, config)[ArgName(config[i].0)] == config[i].1
  {
    OverridesLastWins(config, i);
  }

  /** A stored kwarg that no config key names reaches the pool unchanged. */
  lemma StoredKept<V>(stored: map<string, V>, config: seq<(string, V)>, name: string)
    requires name in stored
    requires forall i :: 0 <= i < |config| ==> !Supplies(config[i], name)
    ensures name in PoolArguments(stored, config)
    ensures PoolArguments(stored, config)[name] == stored[name]
  {
    OverridesKeys(config, name);
  }

  /** A config entry without the prefix contributes nothing, wherever it stands. */
  lemma UnprefixedIgnored<V>(stored: map<string, V>, a: seq<(string, V)>, entry: (string, V), b: seq<(string, V)>)
    requires !HasPrefix(entry.0)
    ensures PoolArguments(stored, a + [entry] + b) == PoolArguments(stored, a + b)
  {
    OverridesAppend(a + [entry], b);
    OverridesAppend(a, [entry]);
    OverridesAppend(a, b);
    assert [entry][..0] == [];
  }

  /** Without prefixed config keys the pool gets exactly the stored kwargs. */
  lemma NothingConfigured<V>(stored: map<string, V>, config: seq<(string, V)>)
    requires forall i :: 0 <= i < |config| ==> !HasPrefix(config[i].0)
    ensures PoolArguments(stored, config) == stored
  {
    forall name | true ensures name !in ConfigOverrides(config) {
      OverridesKeys(config, name);
    }
    assert ConfigOverrides(config).Keys == {};
  }

  /**
   * The example of the `init_app` documentation: the constructor asks for
   * database `rons_house`, the app config says `steakhouse`, and the pool
   * connects to `steakhouse`; the stored kwargs still say `rons_house`.
   */
  lemma RonsHouseExample(capacity: string, overflow: string, timeout: string)
    ensures var stored := StoredKwargs(map["database" := "rons_house"], capacity, overflow, timeout);
            && stored["database"] == "rons_house"
            && PoolArguments(stored, [("CUTTLEPOOL_DATABASE", "steakhouse")])["database"] == "steakhouse"
  {
    var config := [("CUTTLEPOOL_DATABASE", "steakhouse")];
    assert HasPrefix(config[0].0);
    assert ArgName(config[0].0) == "database";
    ConfigWins(StoredKwargs(map["database" := "rons_house"], capacity, overflow, timeout), config, 0);
  }

  /** The configuration of the tests: user, password and host all reach the pool, lower-cased. */
  lemma TestConfigExample<V>(capacity: V, overflow: V, timeout: V, user: V, password: V, host: V)
    ensures var args := PoolArguments(StoredKwargs(map[], capacity, overflow, timeout),
                                      [("CUTTLEPOOL_USER", user), ("CUTTLEPOOL_PASSWORD", password), ("CUTTLEPOOL_HOST", host)]);
            && "user" in args && "password" in args && "host" in args
            && args["user"] == user && args["password"] == password && args["host"] == host
            && args["capacity"] == capacity
  {
    var stored := StoredKwargs(map[], capacity, overflow, timeout);
    var config := [("CUTTLEPOOL_USER", user), ("CUTTLEPOOL_PASSWORD", password), ("CUTTLEPOOL_HOST", host)];
    assert ArgName(config[0].0) == "user";
    assert ArgName(config[1].0) == "password";
    assert ArgName(config[2].0) == "host";
    ConfigWins(stored, config, 0);
    ConfigWins(stored, config, 1);
    ConfigWins(stored, config, 2);
    StoredKept(stored, config, "capacity");
  }
}
