/** utils.Config: an open namespace whose fields live in the instance __dict__,
    readable by item (KeyError when missing) and by attribute (AttributeError). */
module ConfigNamespace {
  import opened Py

  /** cfg[key]: the __dict__ entry, or KeyError. */
  function Item(fields: map<string, Value>, key: string): Result<Value> {
    if key in fields then Ok(fields[key]) else Err(KeyError(key))
  }

  /** cfg.name: the same entry, or AttributeError. */
  function Attribute(fields: map<string, Value>, name: string): Result<Value> {
    if name in fields then Ok(fields[name]) else Err(AttributeError("Config", name))
  }

  /** Both ways of reading a field see the same __dict__: they succeed together, exactly for
      the keys present, and give the stored value; a missing key raises KeyError by item and
      AttributeError by attribute, each naming the key. */
  lemma ItemAndAttributeAgree(fields: map<string, Value>, key: string)
    ensures Item(fields, key).Ok? <==> Attribute(fields, key).Ok?
    ensures Item(fields, key).Ok? <==> key in fields
    ensures Item(fields, key).Ok? ==> Item(fields, key).value == Attribute(fields, key).value == fields[key]
    ensures Item(fields, key).Err? ==>
      Item(fields, key).error == KeyError(key) && Attribute(fields, key).error == AttributeError("Config", key)
  {
  }

  class Config {
    /** the instance __dict__ */
    var fields: map<string, Value>

    /** Config(**core): every seeded key reads back as its seeded value, and no other key exists. */
    constructor (core: map<string, Value>)
      ensures fields == core
      ensures forall k :: k in core ==> GetItem(k) == Ok(core[k])
      ensures forall k :: k !in core ==> GetItem(k) == Err(KeyError(k))
    {
      fields := core;
    }

    /** __getitem__ */
    function GetItem(key: string): Result<Value>
      reads this
    {
      Item(fields, key)
    }

    /** Attribute access on the instance: it finds exactly what `__getitem__` finds, and raises
        AttributeError where `__getitem__` raises KeyError. */
    function GetAttr(name: string): (r: Result<Value>)
      reads this
      ensures r.Ok? <==> GetItem(name).Ok?
      ensures r.Ok? ==> r.value == GetItem(name).value
      ensures r.Err? ==> GetItem(name) == Err(KeyError(name)) && r.error == AttributeError("Config", name)
    {
      Attribute(fields, name)
    }

    /** __setitem__, and equally `cfg.name = value`: only that key changes, and it reads back. */
    method SetItem(key: string, value: Value)
      modifies this
      ensures fields == old(fields)[key := value]
      ensures GetItem(key) == Ok(value) && GetAttr(key) == Ok(value)
      ensures forall k :: k != key ==> GetItem(k) == old(GetItem(k))
    {
      fields := fields[key := value];
    }

    /** `del cfg.name` (Python's default attribute deletion): AttributeError when absent;
        afterwards both kinds of read fail. */
    method DelAttr(name: string) returns (r: Result<()>)
      modifies this
      ensures r.Ok? <==> name in old(fields)
      ensures r.Err? ==> r.error == AttributeError("Config", name)
      ensures fields == old(fields) - {name}
      ensures GetItem(name) == Err(KeyError(name)) && GetAttr(name).Err?
    {
      if name !in fields {
        return Err(AttributeError("Config", name));
      }
      fields := fields - {name};
      return Ok(());
    }
  }
}
