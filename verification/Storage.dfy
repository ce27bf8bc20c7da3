/** The in-process key/value store. */
module Storage {
  import opened Bytes
  import Text

  /** Buckets by namespace. */
  type Namespaces<V> = map<string, map<string, V>>

  function Segment(value: string): Result<string> {
    var trimmed := Text.Trim(value);
    if trimmed == "" then Err("Storage segment must be a non-empty string.") else Ok(trimmed)
  }

  function Bucket<V>(n: Namespaces<V>, ns: string): map<string, V> {
    if ns in n then n[ns] else map[]
  }

  /** Replaces a bucket; an empty one is not kept. */
  function WithBucket<V>(n: Namespaces<V>, ns: string, bucket: map<string, V>): Namespaces<V> {
    if bucket == map[] then n - {ns} else n[ns := bucket]
  }

  class MemoryStorage<V(==)> {
    var namespaces: Namespaces<V>

    ghost predicate Valid()
      reads this
    {
      forall ns :: ns in namespaces ==> namespaces[ns] != map[]
    }

    constructor ()
      ensures Valid() && namespaces == map[]
    {
      namespaces := map[];
    }

    method Save(namespace_: string, key: string, value: V) returns (r: Result<()>)
      requires Valid()
      modifies this
      ensures Valid()
      ensures r.Ok? <==> Segment(namespace_).Ok? && Segment(key).Ok?
      ensures r.Err? ==> namespaces == old(namespaces)
      ensures r.Ok? ==>
                var ns := Segment(namespace_).value;
                namespaces == WithBucket(old(namespaces), ns, Bucket(old(namespaces), ns)[Segment(key).value := value])
    {
      var ns, k := Segment(namespace_), Segment(key);
      if ns.Err? {
        return Err(ns.error);
      }
      if k.Err? {
        return Err(k.error);
      }
      if ns.value !in namespaces {
        namespaces := namespaces[ns.value := map[k.value := value]];
      } else {
        namespaces := namespaces[ns.value := namespaces[ns.value][k.value := value]];
      }
      assert k.value in namespaces[ns.value];
      r := Ok(());
    }

    method Get(namespace_: string, key: string) returns (r: Result<Option<V>>)
      requires Valid()
      ensures r.Ok? <==> Segment(namespace_).Ok? && Segment(key).Ok?
      ensures r.Ok? ==>
                var bucket, k := Bucket(namespaces, Segment(namespace_).value), Segment(key).value;
                r.value == if k in bucket then Some(bucket[k]) else None
    {
      var ns, k := Segment(namespace_), Segment(key);
      if ns.Err? {
        return Err(ns.error);
      }
      if k.Err? {
        return Err(k.error);
      }
      if ns.value !in namespaces || k.value !in namespaces[ns.value] {
        return Ok(None);
      }
      r := Ok(Some(namespaces[ns.value][k.value]));
    }

    method Delete(namespace_: string, key: string) returns (r: Result<bool>)
      requires Valid()
      modifies this
      ensures Valid()
      ensures r.Ok? <==> Segment(namespace_).Ok? && Segment(key).Ok?
      ensures r.Err? ==> namespaces == old(namespaces)
      ensures r.Ok? ==>
                var ns, k := Segment(namespace_).value, Segment(key).value;
                && (r.value <==> k in Bucket(old(namespaces), ns))
                && namespaces == WithBucket(old(namespaces), ns, Bucket(old(namespaces), ns) - {k})
    {
      var ns, k := Segment(namespace_), Segment(key);
      if ns.Err? {
        return Err(ns.error);
      }
      if k.Err? {
        return Err(k.error);
      }
      if ns.value !in namespaces {
        assert namespaces - {ns.value} == namespaces;
        return Ok(false);
      }
      var bucket := namespaces[ns.value];
      var removed := k.value in bucket;
      bucket := bucket - {k.value};
      if |bucket| == 0 {
        namespaces := namespaces - {ns.value};
      } else {
        namespaces := namespaces[ns.value := bucket];
      }
      r := Ok(removed);
    }

    method Clear(namespace_: Option<string>) returns (r: Result<()>)
      requires Valid()
      modifies this
      ensures Valid()
      ensures namespace_.None? ==> r.Ok? && namespaces == map[]
      ensures namespace_.Some? ==>
                && (r.Ok? <==> Segment(namespace_.value).Ok?)
                && namespaces == if r.Ok? then old(namespaces) - {Segment(namespace_.value).value} else old(namespaces)
    {
      if namespace_.None? {
        namespaces := map[];
        return Ok(());
      }
      var ns := Segment(namespace_.value);
      if ns.Err? {
        return Err(ns.error);
      }
      namespaces := namespaces - {ns.value};
      r := Ok(());
    }
  }
}
