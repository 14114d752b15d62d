/**
 * The categories sheet turned into the nested dict the wizard offers:
 * category -> group -> partners, every key placed on its first appearance and
 * the partners kept in row order (the loop shared by both `get_data`s).
 */
module Grouping {

  /** One row of the categories sheet: its category, group and partner columns. */
  datatype Entry = Entry(category: string, group: string, partner: string)

  /** A Python dict with string keys: its key-value mapping and the order its keys were inserted in. */
  datatype Dict<V> = Dict(keys: seq<string>, values: map<string, V>)

  predicate WellFormed<V>(d: Dict<V>)
  {
    && (forall i, j :: 0 <= i < j < |d.keys| ==> d.keys[i] != d.keys[j])
    && (forall k :: k in d.values ==> k in d.keys)
    && (forall k :: k in d.keys ==> k in d.values)
  }

  function Empty<V>(): (d: Dict<V>)
    ensures WellFormed(d)
  {
    Dict([], map[])
  }

  /** `d[k] = v`: a key already present keeps its place, a new key goes last. */
  function Put<V>(d: Dict<V>, k: string, v: V): (r: Dict<V>)
    requires WellFormed(d)
    ensures WellFormed(r)
    ensures r.values == d.values[k := v]
    ensures r.keys == if k in d.values then d.keys else d.keys + [k]
  {
    Dict(if k in d.values then d.keys else d.keys + [k], d.values[k := v])
  }

  /** group -> partners */
  type Groups = Dict<seq<string>>

  /** category -> group -> partners */
  type Catalog = Dict<Groups>

  predicate ValidCatalog(c: Catalog)
  {
    WellFormed(c) && forall k :: k in c.values ==> WellFormed(c.values[k])
  }

  /** The partners of one category after a row: its group created if new, the partner appended. */
  function WithPartner(groups: Groups, group: string, partner: string): (r: Groups)
    requires WellFormed(groups)
    ensures WellFormed(r)
  {
    Put(groups, group, (if group in groups.values then groups.values[group] else []) + [partner])
  }

  /** What one sheet row adds: its category and group created if new, its partner appended. */
  function AddEntry(c: Catalog, e: Entry): (r: Catalog)
    requires ValidCatalog(c)
    ensures ValidCatalog(r)
  {
    var groups := if e.category in c.values then c.values[e.category] else Empty();
    Put(c, e.category, WithPartner(groups, e.group, e.partner))
  }

  /** The nested dict built from the sheet's rows, in order. */
  function Grouped(entries: seq<Entry>): (c: Catalog)
    ensures ValidCatalog(c)
  {
    if entries == [] then Empty()
    else AddEntry(Grouped(entries[..|entries| - 1]), entries[|entries| - 1])
  }

  function Categories(entries: seq<Entry>): (cs: seq<string>)
    ensures |cs| == |entries|
    ensures forall k :: 0 <= k < |entries| ==> cs[k] == entries[k].category
  {
    seq(|entries|, k requires 0 <= k < |entries| => entries[k].category)
  }

  /** pandas' `unique()`: each value once, in order of first appearance. */
  function Unique(s: seq<string>): (u: seq<string>)
    ensures forall x :: x in u <==> x in s
  {
    if s == [] then []
    else
      var u := Unique(s[..|s| - 1]);
      assert s == s[..|s| - 1] + [s[|s| - 1]];
      if s[|s| - 1] in u then u else u + [s[|s| - 1]]
  }

  /** The partners of the rows with that category and group, in row order. */
  function PartnersOf(entries: seq<Entry>, category: string, group: string): seq<string>
  {
    if entries == [] then []
    else
      var e := entries[|entries| - 1];
      var p := PartnersOf(entries[..|entries| - 1], category, group);
      if e.category == category && e.group == group then p + [e.partner] else p
  }

  /** The categories of the built dict are the sheet's unique categories, in the same order. */
  lemma {:induction false} GroupedKeys(entries: seq<Entry>)
    ensures Grouped(entries).keys == Unique(Categories(entries))
  {
    if entries != [] {
      var n := |entries| - 1;
      GroupedKeys(entries[..n]);
      assert Categories(entries)[..n] == Categories(entries[..n]);
    }
  }

  /**
   * Each (category, group) pair is present exactly when some row has it, and
   * then holds exactly the partners of those rows, in row order.
   */
  lemma {:induction false} GroupedPartners(entries: seq<Entry>, category: string, group: string)
    ensures var c := Grouped(entries);
      category in c.values ==> (group in c.values[category].values <==> PartnersOf(entries, category, group) != [])
    ensures var c := Grouped(entries);
      category !in c.values ==> PartnersOf(entries, category, group) == []
    ensures var c := Grouped(entries);
      category in c.values && group in c.values[category].values ==>
        c.values[category].values[group] == PartnersOf(entries, category, group)
  {
    if entries != [] {
      GroupedPartners(entries[..|entries| - 1], category, group);
    }
  }

  /** A total of sizes over a list of keys, summed from the back. */
  function SumSizes(keys: seq<string>, sizes: map<string, nat>): nat
    requires forall k :: k in keys ==> k in sizes
  {
    if keys == [] then 0 else SumSizes(keys[..|keys| - 1], sizes) + sizes[keys[|keys| - 1]]
  }

  lemma {:induction false} SumSizesUpdate(keys: seq<string>, sizes: map<string, nat>, k: string, n: nat)
    requires forall x :: x in keys ==> x in sizes
    requires forall i, j :: 0 <= i < j < |keys| ==> keys[i] != keys[j]
    ensures k in keys ==> SumSizes(keys, sizes[k := n]) == SumSizes(keys, sizes) - sizes[k] + n
    ensures k !in keys ==> SumSizes(keys, sizes[k := n]) == SumSizes(keys, sizes)
  {
    if keys != [] {
      var m := |keys| - 1;
      assert forall x :: x in keys[..m] ==> x in keys;
      SumSizesUpdate(keys[..m], sizes, k, n);
      if keys[m] == k {
        assert k !in keys[..m];
      }
    }
  }

  /** Each group's partner count. */
  function PartnerCounts(g: Groups): (sizes: map<string, nat>)
    ensures sizes.Keys == g.values.Keys
    ensures forall k :: k in sizes ==> sizes[k] == |g.values[k]|
  {
    map k | k in g.values :: |g.values[k]|
  }

  /** The number of partners in a group dict. */
  function GroupSize(g: Groups): nat
    requires WellFormed(g)
  {
    SumSizes(g.keys, PartnerCounts(g))
  }

  /** Each category's partner count. */
  function GroupCounts(c: Catalog): (sizes: map<string, nat>)
    requires ValidCatalog(c)
    ensures sizes.Keys == c.values.Keys
    ensures forall k :: k in sizes ==> sizes[k] == GroupSize(c.values[k])
  {
    map k | k in c.values :: GroupSize(c.values[k])
  }

  /** The number of partners in the whole nested dict. */
  function Size(c: Catalog): nat
    requires ValidCatalog(c)
  {
    SumSizes(c.keys, GroupCounts(c))
  }

  /** Putting a key last adds its size to the total. */
  lemma SumSizesAppend(keys: seq<string>, sizes: map<string, nat>, k: string)
    requires forall x :: x in keys ==> x in sizes
    requires k in sizes
    ensures SumSizes(keys + [k], sizes) == SumSizes(keys, sizes) + sizes[k]
  {
    assert (keys + [k])[..|keys|] == keys;
  }

  /** Putting a value under a key of a dict changes the total by that key's change in size. */
  lemma SumSizesPut<V>(d: Dict<V>, sizes: map<string, nat>, key: string, v: V, n: nat)
    requires WellFormed(d)
    requires sizes.Keys == d.values.Keys
    ensures key in d.values ==>
      SumSizes(Put(d, key, v).keys, sizes[key := n]) == SumSizes(d.keys, sizes) - sizes[key] + n
    ensures key !in d.values ==>
      SumSizes(Put(d, key, v).keys, sizes[key := n]) == SumSizes(d.keys, sizes) + n
  {
    SumSizesUpdate(d.keys, sizes, key, n);
    if key !in d.values {
      SumSizesAppend(d.keys, sizes[key := n], key);
    }
  }

  /** Putting a list one longer under a key raises the group's total by one. */
  lemma GroupSizePut(g: Groups, key: string, p: seq<string>, partner: string)
    requires WellFormed(g)
    requires p == if key in g.values then g.values[key] else []
    ensures GroupSize(Put(g, key, p + [partner])) == GroupSize(g) + 1
  {
    var g' := Put(g, key, p + [partner]);
    PartnerCountsPut(g, key, p + [partner]);
    SumSizesPut(g, PartnerCounts(g), key, p + [partner], |p| + 1);
    assert key in g.values ==> PartnerCounts(g)[key] == |p|;
  }

  lemma PartnerCountsPut(g: Groups, key: string, v: seq<string>)
    requires WellFormed(g)
    ensures PartnerCounts(Put(g, key, v)) == PartnerCounts(g)[key := |v|]
  {
    var g' := Put(g, key, v);
    var a, b := PartnerCounts(g'), PartnerCounts(g)[key := |v|];
    assert a.Keys == b.Keys;
    forall x | x in a
      ensures a[x] == b[x]
    {
    }
  }

  /** Storing under a key twice leaves only the second value, at the key's first place. */
  lemma PutPut<V>(d: Dict<V>, k: string, v: V, w: V)
    requires WellFormed(d)
    ensures Put(Put(d, k, v), k, w) == Put(d, k, w)
  {
  }

  lemma GroupCountsPut(c: Catalog, k: string, g: Groups)
    requires ValidCatalog(c)
    requires WellFormed(g)
    ensures GroupCounts(Put(c, k, g)) == GroupCounts(c)[k := GroupSize(g)]
  {
    var c' := Put(c, k, g);
    forall x | x in c'.values
      ensures GroupCounts(c')[x] == GroupCounts(c)[k := GroupSize(g)][x]
    {
    }
  }

  /** Storing a group dict under a category replaces that category's share of the total. */
  lemma SizePut(c: Catalog, k: string, g: Groups)
    requires ValidCatalog(c)
    requires WellFormed(g)
    ensures k in c.values ==> Size(Put(c, k, g)) == Size(c) - GroupSize(c.values[k]) + GroupSize(g)
    ensures k !in c.values ==> Size(Put(c, k, g)) == Size(c) + GroupSize(g)
  {
    GroupCountsPut(c, k, g);
    SumSizesPut(c, GroupCounts(c), k, g, GroupSize(g));
  }

  /** Each row adds exactly one partner to the nested dict. */
  lemma SizeAddEntry(c: Catalog, e: Entry)
    requires ValidCatalog(c)
    ensures Size(AddEntry(c, e)) == Size(c) + 1
  {
    var groups := if e.category in c.values then c.values[e.category] else Empty();
    var partners := if e.group in groups.values then groups.values[e.group] else [];
    var groups' := Put(groups, e.group, partners + [e.partner]);
    assert AddEntry(c, e) == Put(c, e.category, groups');
    GroupSizePut(groups, e.group, partners, e.partner);
    SizePut(c, e.category, groups');
    assert e.category !in c.values ==> GroupSize(groups) == 0;
  }

  /** No row is lost or duplicated: the nested dict holds one partner per sheet row. */
  lemma {:induction false} GroupedSize(entries: seq<Entry>)
    ensures Size(Grouped(entries)) == |entries|
  {
    if entries != [] {
      GroupedSize(entries[..|entries| - 1]);
      SizeAddEntry(Grouped(entries[..|entries| - 1]), entries[|entries| - 1]);
    }
  }

  /** The inner half of the loop body: create the group if new, then append the partner. */
  method AddPartner(groups0: Groups, group: string, partner: string) returns (groups: Groups)
    requires WellFormed(groups0)
    ensures groups == WithPartner(groups0, group, partner)
  {
    groups := groups0;
    if group !in groups.values {
      groups := Put(groups, group, []);
      PutPut(groups0, group, [], [partner]);
    }
    groups := Put(groups, group, groups.values[group] + [partner]);
  }

  /** The loop body: create the category if new, then add the row's partner to it. */
  method AddRow(c0: Catalog, e: Entry) returns (c: Catalog)
    requires ValidCatalog(c0)
    ensures c == AddEntry(c0, e)
  {
    c := c0;
    if e.category !in c.values {
      c := Put(c, e.category, Empty());
    }
    var groups := AddPartner(c.values[e.category], e.group, e.partner);
    if e.category !in c0.values {
      PutPut(c0, e.category, Empty(), groups);
    }
    c := Put(c, e.category, groups);
  }

  /** The loop over the sheet's rows that fills the nested dict. */
  method Build(entries: seq<Entry>) returns (c: Catalog)
    ensures c == Grouped(entries)
  {
    c := Empty();
    for i := 0 to |entries|
      invariant c == Grouped(entries[..i])
    {
      assert entries[..i + 1][..i] == entries[..i];
      c := AddRow(c, entries[i]);
    }
    assert entries[..|entries|] == entries;
  }
}
