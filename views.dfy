/**
 * The values a `to_dict` method builds: a Python dict of plain values, as handed to the
 * JSON layer. A dict is an ordered list of entries, since Python dicts keep the order in
 * which a literal lists its keys.
 */
module Views {
  import opened Wrappers

  datatype Value = Null | Int(n: int) | Str(s: string) | Dict(entries: seq<Entry>)

  datatype Entry = Entry(key: string, val: Value)

  /** A nullable integer column as it appears in a view: the number, or `None`. */
  function FromInt(x: Option<int>): (v: Value)
    ensures v == Null <==> x.None?
    ensures x.Some? ==> v.Int? && v.n == x.value
  {
    if x.Some? then Int(x.value) else Null
  }

  /** A nullable string column as it appears in a view: the text, or `None`. */
  function FromString(x: Option<string>): (v: Value)
    ensures v == Null <==> x.None?
    ensures x.Some? ==> v.Str? && v.s == x.value
  {
    if x.Some? then Str(x.value) else Null
  }

  /** The keys of a dict, in order (`list(d.keys())`). */
  function Keys(entries: seq<Entry>): (ks: seq<string>)
    ensures |ks| == |entries|
    ensures forall i :: 0 <= i < |entries| ==> ks[i] == entries[i].key
  {
    if entries == [] then [] else [entries[0].key] + Keys(entries[1..])
  }

  /** Looking a key up (`d.get(k)`): the value stored under it, or nothing. */
  function Get(entries: seq<Entry>, k: string): Option<Value>
  {
    if entries == [] then None
    else if entries[0].key == k then Some(entries[0].val)
    else Get(entries[1..], k)
  }

  /** A lookup finds nothing exactly when the key is not among the dict's keys. */
  lemma {:induction false} GetMissing(entries: seq<Entry>, k: string)
    ensures Get(entries, k).None? <==> k !in Keys(entries)
  {
    if entries != [] {
      GetMissing(entries[1..], k);
      assert Keys(entries) == [entries[0].key] + Keys(entries[1..]);
    }
  }

  /** A lookup finds the first entry that holds the key. */
  lemma {:induction false} GetFirst(entries: seq<Entry>, i: nat)
    requires i < |entries|
    requires forall j :: 0 <= j < i ==> entries[j].key != entries[i].key
    ensures Get(entries, entries[i].key) == Some(entries[i].val)
  {
    if i > 0 {
      assert entries[1..][i - 1] == entries[i];
      GetFirst(entries[1..], i - 1);
    }
  }
}
