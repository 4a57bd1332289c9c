/**
 * The environment part of the conversion: each Postman environment becomes
 * one Insomnia `environment` under the base environment, its values turned
 * into a flat key/value map whose keys have every '-' and '.' replaced by
 * '_'.
 */
module Environments {
  import opened Wrappers
  import opened Ids
  import opened Schema

  /** The character a key character becomes. */
  function SanitizeChar(c: char): char {
    if c == '-' || c == '.' then '_' else c
  }

  /** `key.replace(/[-.]/g, '_')`. */
  function SanitizeKey(key: string): (r: string)
    ensures |r| == |key|
    ensures forall i :: 0 <= i < |key| ==> r[i] == SanitizeChar(key[i])
    ensures '-' !in r && '.' !in r
  {
    if key == [] then [] else [SanitizeChar(key[0])] + SanitizeKey(key[1..])
  }

  /** Sanitizing twice changes nothing more. */
  lemma SanitizeKeyIdempotent(key: string)
    ensures SanitizeKey(SanitizeKey(key)) == SanitizeKey(key)
  {
  }

  /** A key without '-' and '.' is kept as it is. */
  lemma {:induction false} SanitizeKeyKeepsClean(key: string)
    requires '-' !in key && '.' !in key
    ensures SanitizeKey(key) == key
  {
    if key != [] {
      assert key[0] in key;
      assert forall c :: c in key[1..] ==> c in key;
      SanitizeKeyKeepsClean(key[1..]);
    }
  }

  /** `my-var.name` becomes `my_var_name`. */
  lemma SanitizeKeyExample(key: string)
    requires key == "my-var.name"
    ensures SanitizeKey(key) == "my_var_name"
  {
    var r := SanitizeKey(key);
    assert key[2] == '-' && key[6] == '.';
    assert r[..6] == "my_var";
    assert r[6..] == "_name";
    assert r == r[..6] + r[6..];
  }

  /** The data map after the forEach over `values`: each value written under its sanitized key. */
  function EnvData(values: seq<KeyValue>): (data: map<string, string>)
    ensures forall k :: k in data ==> exists i :: 0 <= i < |values| && SanitizeKey(values[i].key) == k && data[k] == values[i].value
  {
    if values == [] then map[]
    else EnvData(values[..|values| - 1])[SanitizeKey(values[|values| - 1].key) := values[|values| - 1].value]
  }

  /** The sanitized keys of the values. */
  function SanitizedKeys(values: seq<KeyValue>): set<string> {
    set i | 0 <= i < |values| :: SanitizeKey(values[i].key)
  }

  /** The map has exactly one entry per distinct sanitized key. */
  lemma {:induction false} EnvDataKeys(values: seq<KeyValue>)
    ensures EnvData(values).Keys == SanitizedKeys(values)
  {
    if values != [] {
      var init := values[..|values| - 1];
      EnvDataKeys(init);
      forall x | x in SanitizedKeys(values) ensures x in EnvData(values).Keys {
        var i :| 0 <= i < |values| && SanitizeKey(values[i].key) == x;
        if i < |values| - 1 {
          assert init[i] == values[i];
        }
      }
      forall x | x in SanitizedKeys(init) ensures x in SanitizedKeys(values) {
        var i :| 0 <= i < |init| && SanitizeKey(init[i].key) == x;
        assert values[i] == init[i];
      }
    }
  }

  /** Value `j` is the last one written under its sanitized key. */
  predicate LastWithKey(values: seq<KeyValue>, j: int)
    requires 0 <= j < |values|
  {
    forall l :: j < l < |values| ==> SanitizeKey(values[l].key) != SanitizeKey(values[j].key)
  }

  /** Last write wins: each entry holds the value of the last item with that sanitized key. */
  lemma {:induction false} EnvDataLastWriteWins(values: seq<KeyValue>, j: int)
    requires 0 <= j < |values| && LastWithKey(values, j)
    ensures SanitizeKey(values[j].key) in EnvData(values)
    ensures EnvData(values)[SanitizeKey(values[j].key)] == values[j].value
  {
    var init := values[..|values| - 1];
    if j < |values| - 1 {
      assert init[j] == values[j];
      assert LastWithKey(init, j) by {
        forall l | j < l < |init| ensures SanitizeKey(init[l].key) != SanitizeKey(init[j].key) {
          assert init[l] == values[l];
        }
      }
      EnvDataLastWriteWins(init, j);
    }
  }

  /** The forEach that fills `mapped.data`. */
  method BuildEnvData(values: seq<KeyValue>) returns (data: map<string, string>)
    ensures data == EnvData(values)
  {
    data := map[];
    for i := 0 to |values|
      invariant data == EnvData(values[..i])
    {
      assert values[..i + 1][..i] == values[..i];
      data := data[SanitizeKey(values[i].key) := values[i].value];
    }
    assert values[..|values|] == values;
  }

  /** The environment record for `env`, placed under the base environment `baseId`. */
  function MapEnvironment(env: PostmanEnvironment, baseId: string): (r: Resource)
    ensures r.Environment? && r.Type() == "environment"
    ensures r.id == "env_" + ToId(env.id) && r.parentId == Some(baseId) && r.name == env.name
    ensures r.data == EnvData(env.values) && r.data.Keys == SanitizedKeys(env.values)
  {
    EnvDataKeys(env.values);
    Environment("env_" + ToId(env.id), Some(baseId), env.name, EnvData(env.values))
  }
}
