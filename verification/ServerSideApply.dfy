/**
 Server-side apply on keys that are owned one at a time, which is what keeps operators from undoing
 each other: a map's keys, or the entries of a keyed list.

 An apply names every key its manager wants. A key somebody else owns is refused where the values
 differ and shared where they are equal; one refused key refuses them all. A key the manager owned
 and no longer names goes, unless it is shared. Force takes the keys whose values differ.
 */
module ServerSideApply {
  import opened Names
  import opened Options

  type Manager = NamespacedName

  datatype Field<V> = Field(value: V, owners: set<Manager>)

  predicate Refuses<K, V(==)>(live: map<K, Field<V>>, m: Manager, config: map<K, V>) {
    exists k | k in config && k in live :: live[k].value != config[k] && live[k].owners - {m} != {}
  }

  lemma RefusesAt<K, V>(live: map<K, Field<V>>, m: Manager, config: map<K, V>, k: K)
    requires k in config && k in live && live[k].value != config[k] && live[k].owners - {m} != {}
    ensures Refuses(live, m, config)
  {
  }

  function Merged<K, V(==)>(live: map<K, Field<V>>, m: Manager, config: map<K, V>): map<K, Field<V>> {
    map k | k in live.Keys + config.Keys && (k in config || live[k].owners != {m}) ::
      if k !in config then Field(live[k].value, live[k].owners - {m})
      else if k in live && live[k].value == config[k] then Field(config[k], live[k].owners + {m})
      else Field(config[k], {m})
  }

  /** None is a conflict, and a conflict writes nothing. */
  function Apply<K, V(==)>(live: map<K, Field<V>>, m: Manager, config: map<K, V>,
                           force: bool): Option<map<K, Field<V>>> {
    if !force && Refuses(live, m, config) then None else Some(Merged(live, m, config))
  }

  predicate Owns<K, V>(live: map<K, Field<V>>, m: Manager, k: K) {
    k in live && m in live[k].owners
  }

  /** An apply that is not forced changes no value anybody else owns, and takes nobody's ownership. */
  lemma OthersKeepTheirs<K, V>(live: map<K, Field<V>>, m: Manager, config: map<K, V>, other: Manager)
    requires other != m && Apply(live, m, config, false).Some?
    ensures var t := Apply(live, m, config, false).value;
      forall k :: (Owns(t, other, k) <==> Owns(live, other, k))
        && (Owns(live, other, k) ==> t[k].value == live[k].value)
  {
  }

  /**
   What is left once a manager has forced a configuration and then let go of everything: what it never
   sent, and what it sent with a value somebody else already owned.
   */
  lemma ForcedThenLetGo<K, V>(live: map<K, Field<V>>, m: Manager, config: map<K, V>)
    requires forall k | k in live :: live[k].owners != {}
    ensures var t := Apply(Apply(live, m, config, true).value, m, map[], false).value;
      && (forall k :: k in t <==> k in live && live[k].owners != {m} && (k in config ==> live[k].value == config[k]))
      && (forall k | k in t :: t[k] == Field(live[k].value, live[k].owners - {m}))
  {
    var taken := Merged(live, m, config);
    var none: map<K, V> := map[];
    assert !Refuses(taken, m, none);
    forall k | k in live && live[k].owners != {m}
      ensures live[k].owners + {m} != {m} && live[k].owners - {m} != {}
    {
      var o :| o in live[k].owners && o != m;
      assert o in live[k].owners + {m};
    }
  }
}
