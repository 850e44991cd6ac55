/** Lookup in the fixed tables the program writes as object literals: `table[key]`
    on a literal whose entries are kept, in declaration order, as a sequence of
    key/value pairs. */
module Tables {
  import opened Wrappers

  /** The first entry of `table` under `key`. */
  function Find<V>(table: seq<(string, V)>, key: string): Option<V>
    decreases |table|
  {
    if table == [] then None
    else if table[0].0 == key then Some(table[0].1)
    else Find(table[1..], key)
  }

  /** `Find` returns the value of the first entry under the key, and nothing exactly
      when no entry has that key. */
  lemma {:induction false} FindSpec<V>(table: seq<(string, V)>, key: string)
    ensures Find(table, key).Some? ==>
      exists i :: 0 <= i < |table| && table[i] == (key, Find(table, key).value) &&
                  forall j :: 0 <= j < i ==> table[j].0 != key
    ensures Find(table, key).None? <==> forall i :: 0 <= i < |table| ==> table[i].0 != key
    decreases |table|
  {
    if table != [] && table[0].0 != key {
      FindSpec(table[1..], key);
      var r := Find(table, key);
      if r.Some? {
        var i :| 0 <= i < |table[1..]| && table[1..][i] == (key, r.value) &&
                 forall j :: 0 <= j < i ==> table[1..][j].0 != key;
        assert table[i + 1] == (key, r.value);
        assert forall j :: 0 <= j < i + 1 ==> table[j].0 != key by {
          forall j | 0 <= j < i + 1 ensures table[j].0 != key {
            if j > 0 { assert table[j] == table[1..][j - 1]; }
          }
        }
      } else {
        forall i | 0 <= i < |table| ensures table[i].0 != key {
          if i > 0 { assert table[i] == table[1..][i - 1]; }
        }
      }
    } else if table != [] {
      assert table[0] == (key, Find(table, key).value);
    }
  }

  /** Lookup finds the entry at position i when no earlier entry has its key. */
  lemma {:induction false} FindAt<V>(table: seq<(string, V)>, key: string, i: nat)
    requires i < |table| && table[i].0 == key
    requires forall j :: 0 <= j < i ==> table[j].0 != key
    ensures Find(table, key) == Some(table[i].1)
  {
    if i > 0 {
      assert forall j :: 0 <= j < i - 1 ==> table[1..][j] == table[j + 1];
      FindAt(table[1..], key, i - 1);
    }
  }

  /** The properties every object literal inherits from `Object.prototype`. */
  const INHERITED_NAMES: seq<string> := [
    "constructor", "__proto__", "toString", "toLocaleString", "valueOf", "hasOwnProperty",
    "isPrototypeOf", "propertyIsEnumerable", "__defineGetter__", "__defineSetter__",
    "__lookupGetter__", "__lookupSetter__"
  ]

  /** What `table[key]` yields on an object literal: its own entry, else the member
      of `Object.prototype` under that name (an object or a function, so truthy), else
      `undefined`. */
  datatype Property<V> = Own(value: V) | Inherited(name: string) | Undefined

  function PropertyOf<V>(table: seq<(string, V)>, key: string): Property<V> {
    match Find(table, key)
    case Some(v) => Own(v)
    case None => if key in INHERITED_NAMES then Inherited(key) else Undefined
  }

  /** The keys of a table, in declaration order. */
  function TableKeys<V>(table: seq<(string, V)>): (r: seq<string>)
    ensures |r| == |table| && forall i :: 0 <= i < |table| ==> r[i] == table[i].0
  {
    seq(|table|, i requires 0 <= i < |table| => table[i].0)
  }

  /** A key the table does not list is not found. */
  lemma FindAbsent<V>(table: seq<(string, V)>, key: string)
    requires key !in TableKeys(table)
    ensures Find(table, key).None?
  {
    FindSpec(table, key);
    forall i | 0 <= i < |table| ensures table[i].0 != key {
      assert TableKeys(table)[i] == table[i].0;
    }
  }
}
