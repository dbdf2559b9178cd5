/**
 * The directory service's device list item (rest/service.go): a device id
 * with its service configuration as a list of key/value pairs.
 */
module RestService {

  /** A service configuration, keyed by configuration key. */
  type Config = map<string, string>

  datatype KeyValuePair = KeyValuePair(key: string, value: string)

  datatype ServiceDeviceListItem = ServiceDeviceListItem(id: string, config: seq<KeyValuePair>)
  {
    /** The device id, unchanged. */
    function GetID(): (r: string)
      ensures r == id
    {
      id
    }

    /** Reads the key/value list into a map; a later pair overrides an earlier one with the same key. */
    method GetConfigMap() returns (m: Config)
      ensures m == ConfigMap(config)
    {
      m := map[];
      for i := 0 to |config|
        invariant m == ConfigMap(config[..i])
      {
        assert config[..i + 1][..i] == config[..i];
        m := m[config[i].key := config[i].value];
      }
      assert config[..|config|] == config;
    }
  }

  /** The map a key/value list denotes: the pairs applied in order, so the last occurrence of a key wins. */
  function ConfigMap(kvs: seq<KeyValuePair>): Config
  {
    if kvs == [] then map[]
    else ConfigMap(kvs[..|kvs| - 1])[kvs[|kvs| - 1].key := kvs[|kvs| - 1].value]
  }

  /** The set of keys named in a key/value list. */
  ghost function KeysOf(kvs: seq<KeyValuePair>): set<string>
  {
    set i | 0 <= i < |kvs| :: kvs[i].key
  }

  /** The keys of the map are exactly the keys named in the list; in particular an empty list gives an empty map. */
  lemma {:induction false} ConfigMapKeys(kvs: seq<KeyValuePair>)
    ensures ConfigMap(kvs).Keys == KeysOf(kvs)
    ensures ConfigMap(kvs) == map[] <==> kvs == []
  {
    if kvs != [] {
      var init := kvs[..|kvs| - 1];
      ConfigMapKeys(init);
      assert KeysOf(kvs) == KeysOf(init) + {kvs[|kvs| - 1].key} by {
        forall k | k in KeysOf(kvs) ensures k in KeysOf(init) + {kvs[|kvs| - 1].key} {
          var i :| 0 <= i < |kvs| && kvs[i].key == k;
          if i < |kvs| - 1 { assert init[i].key == k; }
        }
        forall k | k in KeysOf(init) ensures k in KeysOf(kvs) {
          var i :| 0 <= i < |init| && init[i].key == k;
          assert kvs[i].key == k;
        }
      }
      assert kvs[|kvs| - 1].key in ConfigMap(kvs);
    }
  }

  /** For a key named more than once, the value of its last occurrence is the one kept. */
  lemma {:induction false} ConfigMapLastWins(kvs: seq<KeyValuePair>, i: nat)
    requires i < |kvs|
    requires forall j :: i < j < |kvs| ==> kvs[j].key != kvs[i].key
    ensures kvs[i].key in ConfigMap(kvs) && ConfigMap(kvs)[kvs[i].key] == kvs[i].value
  {
    if i < |kvs| - 1 {
      var init := kvs[..|kvs| - 1];
      assert init[i] == kvs[i];
      ConfigMapLastWins(init, i);
    }
  }
}
