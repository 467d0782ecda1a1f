/** The service configuration: defaults from a TOML file flattened into
    upper-case `GROUP_KEY` names, overridden by environment variables under a
    prefix. The file contents and the environment are parameters. */
module Config {
  import opened Values
  import EnvVars

  /** A parsed TOML document: top-level names in file order, each normally a table. */
  type Toml = seq<(string, Value)>

  /** A flat configuration as `get_config` returns it. */
  type Settings = map<string, Value>

  /** What a default is stored as: falsy values become None. */
  function Stored(v: Value): (r: Value)
    ensures r == PyNone || r == v
    ensures Falsy(v) <==> r == PyNone
  {
    if Falsy(v) then PyNone else v
  }

  /** The variable name of key `k` in group `g`. */
  function VarName(g: string, k: string): string {
    Upper(g + "_" + k)
  }

  /** The (name, stored value) pairs one table contributes, in order. */
  function Entries(g: string, es: seq<(string, Value)>): (r: seq<(string, Value)>)
    ensures |r| == |es|
    ensures forall i :: 0 <= i < |es| ==> r[i] == (VarName(g, es[i].0), Stored(es[i].1))
  {
    seq(|es|, i requires 0 <= i < |es| => (VarName(g, es[i].0), Stored(es[i].1)))
  }

  /** Inserting pairs one after the other into a dictionary. */
  function Insert(m: Settings, ps: seq<(string, Value)>): Settings
    decreases |ps|
  {
    if ps == [] then m else Insert(m[ps[0].0 := ps[0].1], ps[1..])
  }

  /** Every group from the given index on, each pair in order, or AttributeError
      for the first group that is not a table (it has no `.items()`). */
  function FlattenFrom(m: Settings, toml: Toml): Result<Settings>
    decreases |toml|
  {
    if toml == [] then Ok(m)
    else if !toml[0].1.PyDict? then Err(AttributeError("items"))
    else FlattenFrom(Insert(m, Entries(toml[0].0, toml[0].1.entries)), toml[1..])
  }

  /** `load_default_config` on an already parsed document. */
  function LoadDefaultConfig(toml: Toml): Result<Settings> {
    FlattenFrom(map[], toml)
  }

  /** The nested loop of `load_default_config`: for every table and every entry
      of it, the upper-cased `GROUP_KEY` name receives the stored value. */
  method FlattenDefaults(toml: Toml) returns (r: Result<Settings>)
    ensures r == LoadDefaultConfig(toml)
  {
    var configDefaultEnv: Settings := map[];
    var i := 0;
    while i < |toml|
      invariant 0 <= i <= |toml|
      invariant LoadDefaultConfig(toml) == FlattenFrom(configDefaultEnv, toml[i..])
    {
      var (group, table) := toml[i];
      assert toml[i..][0] == toml[i] && toml[i..][1..] == toml[i + 1..];
      if !table.PyDict? {
        return Err(AttributeError("items"));
      }
      var items := table.entries;
      ghost var before := configDefaultEnv;
      var j := 0;
      while j < |items|
        invariant 0 <= j <= |items|
        invariant Insert(before, Entries(group, items)) == Insert(configDefaultEnv, Entries(group, items)[j..])
      {
        var (ky, vl) := items[j];
        assert Entries(group, items)[j..][0] == (VarName(group, ky), Stored(vl));
        assert Entries(group, items)[j..][1..] == Entries(group, items)[j + 1..];
        var varNm := Upper(group + "_" + ky);
        configDefaultEnv := configDefaultEnv[varNm := if Falsy(vl) then PyNone else vl];
        j := j + 1;
      }
      i := i + 1;
    }
    assert toml[i..] == [];
    return Ok(configDefaultEnv);
  }

  // ---------------------------------------------------------------------------
  // What flattening yields

  /** Every group of the document is a table. */
  predicate AllTables(toml: Toml) {
    forall i :: 0 <= i < |toml| ==> toml[i].1.PyDict?
  }

  /** All pairs of all tables, in file order. */
  function AllEntries(toml: Toml): seq<(string, Value)>
    requires AllTables(toml)
  {
    if toml == [] then [] else Entries(toml[0].0, toml[0].1.entries) + AllEntries(toml[1..])
  }

  lemma {:induction false} InsertAppend(m: Settings, ps: seq<(string, Value)>, qs: seq<(string, Value)>)
    ensures Insert(m, ps + qs) == Insert(Insert(m, ps), qs)
    decreases |ps|
  {
    if ps != [] {
      assert (ps + qs)[1..] == ps[1..] + qs;
      InsertAppend(m[ps[0].0 := ps[0].1], ps[1..], qs);
    } else {
      assert ps + qs == qs;
    }
  }

  /** Flattening fails exactly when some group is not a table, and otherwise
      inserts all pairs in file order. */
  lemma {:induction false} FlattenIsInsert(m: Settings, toml: Toml)
    ensures FlattenFrom(m, toml).Ok? <==> AllTables(toml)
    ensures AllTables(toml) ==> FlattenFrom(m, toml) == Ok(Insert(m, AllEntries(toml)))
    decreases |toml|
  {
    if toml != [] {
      var m' := if toml[0].1.PyDict? then Insert(m, Entries(toml[0].0, toml[0].1.entries)) else m;
      FlattenIsInsert(m', toml[1..]);
      assert AllTables(toml) <==> toml[0].1.PyDict? && AllTables(toml[1..]) by {
        if toml[0].1.PyDict? && AllTables(toml[1..]) {
          forall i | 0 <= i < |toml| ensures toml[i].1.PyDict? {
            if i > 0 { assert toml[i] == toml[1..][i - 1]; }
          }
        }
      }
      if AllTables(toml) {
        InsertAppend(m, Entries(toml[0].0, toml[0].1.entries), AllEntries(toml[1..]));
      }
    }
  }

  /** The names after inserting pairs are the old names and the pairs' names. */
  lemma {:induction false} InsertKeys(m: Settings, ps: seq<(string, Value)>, k: string)
    ensures k in Insert(m, ps) <==> k in m || exists i :: 0 <= i < |ps| && ps[i].0 == k
    decreases |ps|
  {
    if ps != [] {
      InsertKeys(m[ps[0].0 := ps[0].1], ps[1..], k);
      if exists i :: 0 <= i < |ps[1..]| && ps[1..][i].0 == k {
        var i :| 0 <= i < |ps[1..]| && ps[1..][i].0 == k;
        assert ps[i + 1].0 == k;
      }
      if exists i :: 0 <= i < |ps| && ps[i].0 == k {
        var i :| 0 <= i < |ps| && ps[i].0 == k;
        if i > 0 { assert ps[1..][i - 1].0 == k; }
      }
    }
  }

  /** The last pair for a name decides its value; a name no pair mentions keeps
      its old value. */
  lemma {:induction false} InsertLastWins(m: Settings, ps: seq<(string, Value)>, i: nat)
    requires i < |ps|
    requires forall j :: i < j < |ps| ==> ps[j].0 != ps[i].0
    ensures ps[i].0 in Insert(m, ps) && Insert(m, ps)[ps[i].0] == ps[i].1
    decreases |ps|
  {
    if i == 0 {
      InsertUntouched(m[ps[0].0 := ps[0].1], ps[1..], ps[0].0);
    } else {
      InsertLastWins(m[ps[0].0 := ps[0].1], ps[1..], i - 1);
    }
  }

  lemma {:induction false} InsertUntouched(m: Settings, ps: seq<(string, Value)>, k: string)
    requires k in m
    requires forall j :: 0 <= j < |ps| ==> ps[j].0 != k
    ensures k in Insert(m, ps) && Insert(m, ps)[k] == m[k]
    decreases |ps|
  {
    if ps != [] {
      InsertUntouched(m[ps[0].0 := ps[0].1], ps[1..], k);
    }
  }

  /** Every value a flattened configuration holds is None or a truthy value. */
  lemma {:induction false} InsertStoredValues(m: Settings, ps: seq<(string, Value)>)
    requires forall k :: k in m ==> m[k] == PyNone || !Falsy(m[k])
    requires forall j :: 0 <= j < |ps| ==> ps[j].1 == PyNone || !Falsy(ps[j].1)
    ensures forall k :: k in Insert(m, ps) ==> Insert(m, ps)[k] == PyNone || !Falsy(Insert(m, ps)[k])
    decreases |ps|
  {
    if ps != [] {
      InsertStoredValues(m[ps[0].0 := ps[0].1], ps[1..]);
    }
  }

  lemma {:induction false} AllEntriesStored(toml: Toml)
    requires AllTables(toml)
    ensures forall j :: 0 <= j < |AllEntries(toml)| ==>
      AllEntries(toml)[j].1 == PyNone || !Falsy(AllEntries(toml)[j].1)
    decreases |toml|
  {
    if toml != [] {
      assert AllTables(toml[1..]) by {
        forall i | 0 <= i < |toml[1..]| ensures toml[1..][i].1.PyDict? { assert toml[1..][i] == toml[i + 1]; }
      }
      AllEntriesStored(toml[1..]);
    }
  }

  /** `load_default_config`: the document loads exactly when every group is a
      table; every name is the upper-cased `GROUP_KEY` of some entry and every
      entry's name is present; the last entry for a name decides its value;
      and values are None in place of every falsy default. */
  lemma LoadDefaultConfigMeaning(toml: Toml)
    ensures LoadDefaultConfig(toml).Ok? <==> AllTables(toml)
    ensures AllTables(toml) ==> forall k ::
      k in LoadDefaultConfig(toml).value <==> exists i :: 0 <= i < |AllEntries(toml)| && AllEntries(toml)[i].0 == k
    ensures AllTables(toml) ==> forall k :: k in LoadDefaultConfig(toml).value ==>
      LoadDefaultConfig(toml).value[k] == PyNone || !Falsy(LoadDefaultConfig(toml).value[k])
  {
    FlattenIsInsert(map[], toml);
    if AllTables(toml) {
      forall k ensures k in Insert(map[], AllEntries(toml)) <==>
        exists i :: 0 <= i < |AllEntries(toml)| && AllEntries(toml)[i].0 == k
      {
        InsertKeys(map[], AllEntries(toml), k);
      }
      AllEntriesStored(toml);
      InsertStoredValues(map[], AllEntries(toml));
    }
  }

  /** The entry that last names a variable decides its value. */
  lemma LoadDefaultConfigLastWins(toml: Toml, i: nat)
    requires AllTables(toml) && i < |AllEntries(toml)|
    requires forall j :: i < j < |AllEntries(toml)| ==> AllEntries(toml)[j].0 != AllEntries(toml)[i].0
    ensures LoadDefaultConfig(toml).Ok? && AllEntries(toml)[i].0 in LoadDefaultConfig(toml).value
    ensures LoadDefaultConfig(toml).value[AllEntries(toml)[i].0] == AllEntries(toml)[i].1
  {
    FlattenIsInsert(map[], toml);
    InsertLastWins(map[], AllEntries(toml), i);
  }

  /** A single table: key `k` with value `v` answers as `GROUP_K`, upper-cased,
      holding `v`, or None when `v` is falsy. */
  lemma OneTable(g: string, es: seq<(string, Value)>, i: nat)
    requires i < |es|
    requires forall j :: i < j < |es| ==> VarName(g, es[j].0) != VarName(g, es[i].0)
    ensures LoadDefaultConfig([(g, PyDict(es))]).Ok?
    ensures Upper(g + "_" + es[i].0) in LoadDefaultConfig([(g, PyDict(es))]).value
    ensures LoadDefaultConfig([(g, PyDict(es))]).value[Upper(g + "_" + es[i].0)] == Stored(es[i].1)
  {
    var toml: Toml := [(g, PyDict(es))];
    assert AllTables(toml);
    assert AllEntries(toml) == Entries(g, es) + AllEntries(toml[1..]);
    assert AllEntries(toml) == Entries(g, es);
    LoadDefaultConfigLastWins(toml, i);
  }

  // ---------------------------------------------------------------------------
  // get_config

  /** `str()` of a value returned by `cast`, as used in the prefix f-string; the
      shortest repr of a float is a parameter. */
  function Str(v: Value, floatRepr: real -> string): string {
    match v
    case PyStr(s) => s
    case PyBool(b) => if b then "True" else "False"
    case PyInt(i) => if i < 0 then "-" + EnvVars.NatString(-i) else EnvVars.NatString(i)
    case PyFloat(r) => floatRepr(r)
    case _ => ""
  }

  /** The literal prefix the environment variables are filtered by: the
      `PREFIX` variable (cast) or the service's default, followed by "_";
      nothing at all when that value is falsy. */
  function EnvPrefix(env: map<string, string>, defaultPrefix: string, floatRepr: real -> string): (r: string)
    ensures r == "" || r[|r| - 1] == '_'
    ensures "PREFIX" !in env ==> r == if defaultPrefix == "" then "" else defaultPrefix + "_"
    ensures "PREFIX" in env && EnvVars.Cast(env["PREFIX"]).PyStr? && env["PREFIX"] != "" ==> r == env["PREFIX"] + "_"
  {
    var prefix := EnvVars.GetEnvVariable(env, "PREFIX", PyStr(defaultPrefix));
    if Falsy(prefix) then "" else Str(prefix, floatRepr) + "_"
  }

  /** `get_config`: the flattened defaults (none when the default file is
      missing) merged with the prefixed environment variables, the environment
      winning on a shared name. */
  function GetConfig(defaults: Option<Toml>, env: map<string, string>, defaultPrefix: string, floatRepr: real -> string)
    : (r: Result<Settings>)
    ensures r.Ok? <==> defaults.None? || AllTables(defaults.value)
    ensures r.Ok? ==> var e := EnvVars.EnvConfig(env, env.Keys, EnvPrefix(env, defaultPrefix, floatRepr), false);
      forall k :: k in e ==> k in r.value && r.value[k] == e[k]
    ensures defaults.Some? && LoadDefaultConfig(defaults.value).Ok? ==>
      var e := EnvVars.EnvConfig(env, env.Keys, EnvPrefix(env, defaultPrefix, floatRepr), false);
      var d := LoadDefaultConfig(defaults.value).value;
      && r.Ok?
      && (forall k :: k in d && k !in e ==> k in r.value && r.value[k] == d[k])
      && (forall k :: k in r.value ==> k in d || k in e)
    ensures r.Ok? && defaults.None? ==>
      r.value == EnvVars.EnvConfig(env, env.Keys, EnvPrefix(env, defaultPrefix, floatRepr), false)
  {
    var configEnvironmentVars := EnvVars.EnvConfig(env, env.Keys, EnvPrefix(env, defaultPrefix, floatRepr), false);
    match defaults
    case None => Ok(map[] + configEnvironmentVars)
    case Some(toml) =>
      LoadDefaultConfigMeaning(toml);
      var configDefault := LoadDefaultConfig(toml);
      if configDefault.Err? then Err(configDefault.error)
      else Ok(configDefault.value + configEnvironmentVars)
  }

  /** The merge: every name of either source is present, an environment value
      overrides the default, and a default stays where the environment is silent. */
  lemma MergePrecedence(toml: Toml, env: map<string, string>, defaultPrefix: string, floatRepr: real -> string)
    requires AllTables(toml)
    ensures GetConfig(Some(toml), env, defaultPrefix, floatRepr).Ok?
    ensures var c := GetConfig(Some(toml), env, defaultPrefix, floatRepr).value;
      var d := LoadDefaultConfig(toml).value;
      var e := EnvVars.EnvConfig(env, env.Keys, EnvPrefix(env, defaultPrefix, floatRepr), false);
      && c.Keys == d.Keys + e.Keys
      && (forall k :: k in e ==> c[k] == e[k])
      && (forall k :: k in d && k !in e ==> c[k] == d[k])
  {
    LoadDefaultConfigMeaning(toml);
  }

  /** Without a default file the configuration is just the environment part. */
  lemma NoDefaultFile(env: map<string, string>, defaultPrefix: string, floatRepr: real -> string)
    ensures GetConfig(None, env, defaultPrefix, floatRepr) ==
      Ok(EnvVars.EnvConfig(env, env.Keys, EnvPrefix(env, defaultPrefix, floatRepr), false))
  {
    var e := EnvVars.EnvConfig(env, env.Keys, EnvPrefix(env, defaultPrefix, floatRepr), false);
    assert map[] + e == e;
  }

  /** A `PREFIX` of "0" or "false" casts to a falsy value, so no prefix filters
      the environment: every variable is collected under its own name. */
  lemma FalsyPrefixCollectsAll(env: map<string, string>, defaultPrefix: string, floatRepr: real -> string)
    requires "PREFIX" in env && env["PREFIX"] in {"0", "false"}
    ensures EnvPrefix(env, defaultPrefix, floatRepr) == ""
  {
    if env["PREFIX"] == "0" {
      EnvVars.CastNatString(0);
      assert EnvVars.NatString(0) == "0";
    } else {
      EnvVars.CastFalse("false");
    }
  }

  /** With `PREFIX` set to a plain name, the prefix is that name and "_". */
  lemma NamedPrefix(env: map<string, string>, defaultPrefix: string, floatRepr: real -> string)
    requires "PREFIX" in env && EnvVars.Cast(env["PREFIX"]).PyStr? && env["PREFIX"] != ""
    ensures EnvPrefix(env, defaultPrefix, floatRepr) == env["PREFIX"] + "_"
  {
  }

  /** Without `PREFIX` the service's default prefix is used, itself uncast. */
  lemma DefaultPrefix(env: map<string, string>, defaultPrefix: string, floatRepr: real -> string)
    requires "PREFIX" !in env && defaultPrefix != ""
    ensures EnvPrefix(env, defaultPrefix, floatRepr) == defaultPrefix + "_"
  {
  }
}
