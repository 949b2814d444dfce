/**
 * The catalog routes: the first-generation units and presets and the second-generation
 * units, listed whole or filtered by a case-insensitive substring of their names (and, for
 * the second generation, by a civilisation prefix of their keys), and fetched by key.
 */
module Catalog {
  import opened Js

  /** Every entry of the table has a string `name`. */
  predicate Named(table: map<string, Json>)
  {
    forall k :: k in table ==> Get(table[k], "name").Some? && Get(table[k], "name").value.JStr?
  }

  /** `v.name.toLowerCase().includes(q)` for an entry with a string name. */
  predicate NameMatches(v: Json, q: string)
    requires Get(v, "name").Some? && Get(v, "name").value.JStr?
  {
    Contains(Lower(Get(v, "name").value.s), q)
  }

  /**
   * `listUnitsLogic(nameFilter)` and `listPresetsLogic(nameFilter)`: an empty filter returns
   * the whole table; otherwise the entries whose lower-cased name contains the lower-cased
   * filter, each as it is.
   */
  function FilterByName(table: map<string, Json>, nameFilter: string): (r: map<string, Json>)
    requires nameFilter != "" ==> Named(table)
    ensures nameFilter == "" ==> r == table
    ensures forall k :: k in r ==> k in table && r[k] == table[k]
  {
    if nameFilter == "" then table
    else
      var q := Lower(nameFilter);
      map k | k in table && NameMatches(table[k], q) :: table[k]
  }

  /**
   * A non-empty filter keeps exactly the entries in whose lower-cased name the lower-cased
   * filter occurs at some position: nothing else is kept and nothing that matches is dropped.
   */
  lemma NameFilterExact(table: map<string, Json>, nameFilter: string, k: string)
    requires nameFilter != "" && Named(table)
    ensures k in FilterByName(table, nameFilter) <==>
      k in table && exists i :: OccursAt(Lower(Get(table[k], "name").value.s), Lower(nameFilter), i)
  {
    var q := Lower(nameFilter);
    assert k in FilterByName(table, nameFilter) <==> k in table && NameMatches(table[k], q);
    if k in table {
      ContainsIff(Lower(Get(table[k], "name").value.s), q);
    }
  }

  /** An occurrence of an occurrence is an occurrence: `Contains` is transitive. */
  lemma ContainsTransitive(s: string, t: string, u: string)
    requires Contains(s, t) && Contains(t, u)
    ensures Contains(s, u)
  {
    ContainsIff(s, t);
    ContainsIff(t, u);
    var i :| OccursAt(s, t, i);
    var j :| OccursAt(t, u, j);
    var x, y := s[i + j..i + j + |u|], t[j..j + |u|];
    forall m | 0 <= m < |u|
      ensures x[m] == y[m]
    {
      assert s[i..i + |t|][j + m] == s[i + j + m];
    }
    assert x == y;
    assert OccursAt(s, u, i + j);
    ContainsIff(s, u);
  }

  /** A filter that contains another, ignoring case, keeps no entry the other drops. */
  lemma NarrowerFilter(table: map<string, Json>, wide: string, narrow: string)
    requires wide != "" && Named(table)
    requires Contains(Lower(narrow), Lower(wide))
    ensures FilterByName(table, narrow).Keys <= FilterByName(table, wide).Keys
  {
    ContainsIff(Lower(narrow), Lower(wide));
    assert narrow != "";
    forall k | k in FilterByName(table, narrow)
      ensures k in FilterByName(table, wide)
    {
      ContainsTransitive(Lower(Get(table[k], "name").value.s), Lower(narrow), Lower(wide));
    }
  }

  /** An entry whose name is the filter, up to the case of ASCII letters, is always kept. */
  lemma ExactNameKept(table: map<string, Json>, nameFilter: string, k: string)
    requires nameFilter != "" && Named(table) && k in table
    requires Lower(Get(table[k], "name").value.s) == Lower(nameFilter)
    ensures k in FilterByName(table, nameFilter)
  {
    var s := Lower(nameFilter);
    assert s[..|s|] == s;
  }

  /** `listV2UnitsLogic`'s civilisation filter: the entries whose key starts with `prefix`. */
  function WithPrefix(table: map<string, Json>, prefix: string): (r: map<string, Json>)
    ensures forall k :: k in r ==> k in table && r[k] == table[k]
  {
    map k | k in table && StartsWith(k, prefix) :: table[k]
  }

  /**
   * `listV2UnitsLogic(nameFilter, civFilter)`: a non-empty civilisation filter keeps the
   * keys that start with its lower-cased form followed by `_`, then a non-empty name filter
   * keeps the entries whose name contains it.
   */
  function ListV2Units(all: map<string, Json>, nameFilter: string, civFilter: string): (r: map<string, Json>)
    requires nameFilter != "" ==> Named(all)
    ensures forall k :: k in r ==> k in all && r[k] == all[k]
  {
    var entries := if civFilter != "" then WithPrefix(all, Lower(civFilter) + "_") else all;
    if nameFilter != "" then FilterByName(entries, nameFilter) else entries
  }

  /**
   * A unit is listed exactly when it passes both filters that are given: its key starts
   * with the lower-cased civilisation and `_`, and its lower-cased name contains the
   * lower-cased name filter.
   */
  lemma V2FiltersMeet(all: map<string, Json>, nameFilter: string, civFilter: string, k: string)
    requires nameFilter != "" ==> Named(all)
    ensures k in ListV2Units(all, nameFilter, civFilter) <==>
      k in all
      && (civFilter != "" ==> StartsWith(k, Lower(civFilter) + "_"))
      && (nameFilter != "" ==> NameMatches(all[k], Lower(nameFilter)))
  {
  }

  /** The two filters combine as an intersection: the units listed are those each filter alone lists. */
  lemma V2FiltersIntersect(all: map<string, Json>, nameFilter: string, civFilter: string)
    requires nameFilter != "" ==> Named(all)
    ensures ListV2Units(all, nameFilter, civFilter).Keys
      == ListV2Units(all, nameFilter, "").Keys * ListV2Units(all, "", civFilter).Keys
  {
    forall k ensures k in ListV2Units(all, nameFilter, civFilter) <==>
      k in ListV2Units(all, nameFilter, "") && k in ListV2Units(all, "", civFilter)
    {
      V2FiltersMeet(all, nameFilter, civFilter, k);
      V2FiltersMeet(all, nameFilter, "", k);
      V2FiltersMeet(all, "", civFilter, k);
    }
  }

  /** Without a civilisation, the second-generation list filters by name as the first generation does. */
  lemma V2NameOnly(all: map<string, Json>, nameFilter: string)
    requires nameFilter != "" ==> Named(all)
    ensures ListV2Units(all, nameFilter, "") == FilterByName(all, nameFilter)
  {
  }

  /** `r` is `table[id]` when there is a truthy entry under the key, and the error `<kind> not found: <id>` otherwise. */
  predicate Fetched(table: map<string, Json>, id: string, kind: string, r: Result<Json>)
  {
    (r.Ok? <==> id in table && Truthy(Some(table[id])))
    && (r.Ok? ==> r.value == table[id])
    && (r.Err? ==> r.error == kind + " not found: " + id)
  }

  /** `table[id]`, or the error `<kind> not found: <id>` when there is no truthy entry under the key. */
  function Fetch(table: map<string, Json>, id: string, kind: string): (r: Result<Json>)
    ensures Fetched(table, id, kind, r)
  {
    if id in table && Truthy(Some(table[id])) then Ok(table[id]) else Err(kind + " not found: " + id)
  }

  /** `getUnitLogic(id)`: the first-generation unit under `id`, or `Unit not found: <id>`. */
  function GetUnit(units: map<string, Json>, id: string): (r: Result<Json>)
    ensures Fetched(units, id, "Unit", r)
  {
    Fetch(units, id, "Unit")
  }

  /** `getPresetLogic(id)`: the preset under `id`, or `Preset not found: <id>`. */
  function GetPreset(presets: map<string, Json>, id: string): (r: Result<Json>)
    ensures Fetched(presets, id, "Preset", r)
  {
    Fetch(presets, id, "Preset")
  }

  /** `getV2UnitLogic(id)`: the second-generation unit under `id`, or `V2 unit not found: <id>`. */
  function GetV2Unit(all: map<string, Json>, id: string): (r: Result<Json>)
    ensures Fetched(all, id, "V2 unit", r)
  {
    Fetch(all, id, "V2 unit")
  }

  /** Every unit a name filter lists can be fetched by its key, and is the entry listed. */
  lemma ListedCanBeFetched(units: map<string, Json>, nameFilter: string, id: string)
    requires nameFilter != "" ==> Named(units)
    requires id in FilterByName(units, nameFilter) && units[id].JObj?
    ensures GetUnit(units, id) == Ok(FilterByName(units, nameFilter)[id])
  {
  }
}
