/** The in-memory catalog of marketplace entries. */
module Catalog {
  import opened Options
  import opened HeapSpecs
  import opened DefaultPolicies

  datatype Template = Template(spec: HeapSpec, requiredSecrets: seq<string>, defaultPolicy: Option<DefaultPolicy>)
  datatype Entry = Entry(
    name: string, displayName: string, description: string, category: string, tags: seq<string>,
    template: Template)

  // ----------------------------------------------------------------- queries

  predicate OccursAt(s: string, sub: string, i: int) {
    0 <= i <= |s| - |sub| && s[i..i + |sub|] == sub
  }

  predicate Contains(s: string, sub: string) {
    exists i :: 0 <= i <= |s| - |sub| && OccursAt(s, sub, i)
  }

  lemma ContainsIsTransitive(a: string, b: string, c: string)
    requires Contains(a, b) && Contains(b, c)
    ensures Contains(a, c)
  {
    var i: int :| 0 <= i <= |a| - |b| && OccursAt(a, b, i);
    var j: int :| 0 <= j <= |b| - |c| && OccursAt(b, c, j);
    forall k | 0 <= k < |c| ensures a[i + j..i + j + |c|][k] == c[k] {
      assert a[i + j + k] == a[i..i + |b|][j + k] == b[j..j + |c|][k];
    }
    assert OccursAt(a, c, i + j);
  }

  /** strings.Contains, in other words: something, then the text sought, then something. */
  lemma ContainsWrittenOut(s: string, sub: string)
    ensures Contains(s, sub) <==> exists before, after :: s == before + sub + after
  {
    if Contains(s, sub) {
      var i: int :| 0 <= i <= |s| - |sub| && OccursAt(s, sub, i);
      assert s == s[..i] + sub + s[i + |sub|..];
    }
    if before, after :| s == before + sub + after {
      assert OccursAt(s, sub, |before|);
    }
  }

  predicate InCategory(entry: Entry, category: string) {
    category == "" || entry.category == category
  }

  /** Name, description or some tag, in lower case, contains the query. */
  predicate Matches(lower: string -> string, entry: Entry, query: string) {
    || Contains(lower(entry.displayName), query)
    || Contains(lower(entry.description), query)
    || exists i :: 0 <= i < |entry.tags| && Contains(lower(entry.tags[i]), query)
  }

  /** Some text that describes the entry contains the query, upper and lower case alike. */
  ghost predicate Answers(lower: string -> string, entry: Entry, query: string) {
    exists text :: text in [entry.displayName, entry.description] + entry.tags && Contains(lower(text), lower(query))
  }

  lemma MatchesWrittenOut(lower: string -> string, entry: Entry, query: string)
    ensures Matches(lower, entry, query) <==>
      exists text :: text in [entry.displayName, entry.description] + entry.tags && Contains(lower(text), query)
  {
    var texts := [entry.displayName, entry.description] + entry.tags;
    assert texts[0] == entry.displayName && texts[1] == entry.description;
    assert forall i :: 0 <= i < |entry.tags| ==> texts[i + 2] == entry.tags[i];
    if text :| text in texts && Contains(lower(text), query) {
      var i :| 0 <= i < |texts| && texts[i] == text;
      assert i < 2 || entry.tags[i - 2] == text;
    }
    if i :| 0 <= i < |entry.tags| && Contains(lower(entry.tags[i]), query) {
      assert texts[i + 2] in texts;
    }
  }

  function CategoryKeys(entries: map<string, Entry>, category: string): set<string> {
    set k | k in entries && InCategory(entries[k], category)
  }

  function SearchKeys(entries: map<string, Entry>, lower: string -> string, query: string): set<string> {
    set k | k in entries && Matches(lower, entries[k], lower(query))
  }

  /** `result` lists the entries with these keys, each once, and nothing else. */
  ghost predicate ListsExactly(entries: map<string, Entry>, keys: set<string>, result: seq<Entry>) {
    && (forall i :: 0 <= i < |result| ==>
          result[i].name in keys && result[i].name in entries && entries[result[i].name] == result[i])
    && (forall k :: k in keys ==> k in entries && entries[k] in result)
    && (forall i, j :: 0 <= i < j < |result| ==> result[i].name != result[j].name)
    && |result| == |keys|
  }

  class CatalogStore {
    const lower: string -> string   // strings.ToLower, of which nothing is assumed
    var entries: map<string, Entry>

    /** Every key is the name of its entry. */
    ghost predicate Valid()
      reads this
    {
      forall k :: k in entries ==> entries[k].name == k
    }

    constructor (lower: string -> string)
      ensures Valid() && entries == map[] && this.lower == lower
    {
      this.lower, this.entries := lower, map[];
    }

    method Add(entry: Entry)
      requires Valid()
      modifies this
      ensures Valid() && entries == old(entries)[entry.name := entry]
    {
      entries := entries[entry.name := entry];
    }

    method Get(name: string) returns (r: Option<Entry>)
      requires Valid()
      ensures r.Some? <==> name in entries
      ensures r.Some? ==> r.value == entries[name] && r.value.name == name
    {
      r := if name in entries then Some(entries[name]) else None;
    }

    method Delete(name: string)
      requires Valid()
      modifies this
      ensures Valid() && entries == old(entries) - {name}
    {
      entries := entries - {name};
    }

    /** As many as an unfiltered listing has, in whatever order that is made. */
    method Count() returns (n: nat)
      ensures n == |entries.Keys|
      ensures forall listing :: ListsExactly(entries, CategoryKeys(entries, ""), listing) ==> |listing| == n
    {
      assert CategoryKeys(entries, "") == entries.Keys;
      n := |entries|;
    }

    /** All entries of a category, or all entries, in any iteration order. */
    method List(category: string) returns (result: seq<Entry>)
      requires Valid()
      ensures ListsExactly(entries, CategoryKeys(entries, category), result)
      ensures forall k :: k in entries ==>
        (entries[k] in result <==> category == "" || entries[k].category == category)
    {
      var all := entries;
      ghost var keys := CategoryKeys(all, category);
      result := [];
      var rest := all.Keys;
      assert keys - rest == {};
      while rest != {}
        invariant rest <= all.Keys
        invariant ListsExactly(all, keys - rest, result)
        decreases rest
      {
        var k :| k in rest;
        if category == "" || all[k].category == category {
          ListOneMore(all, keys, rest, k, result);
          result := result + [all[k]];
        } else {
          assert keys - (rest - {k}) == keys - rest;
        }
        rest := rest - {k};
      }
      assert keys - rest == keys;
      forall k | k in all ensures all[k] in result <==> category == "" || all[k].category == category {
        ListedExactly(all, keys, result, k);
      }
    }

    method MatchesQuery(entry: Entry, query: string) returns (r: bool)
      ensures r == Matches(lower, entry, query)
      ensures r <==> exists text :: text in [entry.displayName, entry.description] + entry.tags && Contains(lower(text), query)
    {
      MatchesWrittenOut(lower, entry, query);
      if Contains(lower(entry.displayName), query) {
        return true;
      }
      if Contains(lower(entry.description), query) {
        return true;
      }
      for i := 0 to |entry.tags|
        invariant forall k :: 0 <= k < i ==> !Contains(lower(entry.tags[k]), query)
      {
        if Contains(lower(entry.tags[i]), query) {
          return true;
        }
      }
      return false;
    }

    method Search(query: string) returns (result: seq<Entry>)
      requires Valid()
      ensures ListsExactly(entries, SearchKeys(entries, lower, query), result)
      ensures forall k :: k in entries ==>
        (entries[k] in result <==> Answers(lower, entries[k], query))
    {
      var q := lower(query);
      var all := entries;
      ghost var keys := SearchKeys(all, lower, query);
      result := [];
      var rest := all.Keys;
      assert keys - rest == {};
      while rest != {}
        invariant rest <= all.Keys
        invariant ListsExactly(all, keys - rest, result)
        decreases rest
      {
        var k :| k in rest;
        var matches := MatchesQuery(all[k], q);
        if matches {
          ListOneMore(all, keys, rest, k, result);
          result := result + [all[k]];
        } else {
          assert keys - (rest - {k}) == keys - rest;
        }
        rest := rest - {k};
      }
      assert keys - rest == keys;
      SearchWrittenOut(all, lower, query, result);
    }
  }

  lemma SearchWrittenOut(entries: map<string, Entry>, lower: string -> string, query: string, result: seq<Entry>)
    requires forall n :: n in entries ==> entries[n].name == n
    requires ListsExactly(entries, SearchKeys(entries, lower, query), result)
    ensures forall k :: k in entries ==> (entries[k] in result <==> Answers(lower, entries[k], query))
  {
    forall k | k in entries ensures entries[k] in result <==> Answers(lower, entries[k], query) {
      ListedExactly(entries, SearchKeys(entries, lower, query), result, k);
      MatchesWrittenOut(lower, entries[k], lower(query));
    }
  }

  /** In an exact listing an entry stands if and only if its key is listed. */
  lemma ListedExactly(entries: map<string, Entry>, keys: set<string>, result: seq<Entry>, k: string)
    requires forall n :: n in entries ==> entries[n].name == n
    requires ListsExactly(entries, keys, result) && k in entries
    ensures entries[k] in result <==> k in keys
  {
    if entries[k] in result {
      var i :| 0 <= i < |result| && result[i] == entries[k];
      assert result[i].name == k;
    }
  }

  /** Appending the entry of a key taken from `rest` keeps the listing exact. */
  lemma ListOneMore(
      entries: map<string, Entry>, keys: set<string>, rest: set<string>, k: string, result: seq<Entry>)
    requires forall n :: n in entries ==> entries[n].name == n
    requires keys <= entries.Keys && k in keys && k in rest
    requires ListsExactly(entries, keys - rest, result)
    ensures ListsExactly(entries, keys - (rest - {k}), result + [entries[k]])
  {
    var more := result + [entries[k]];
    assert keys - (rest - {k}) == (keys - rest) + {k};
    forall i, j | 0 <= i < j < |more| ensures more[i].name != more[j].name {
      if j == |result| {
        assert more[i] in result;
      }
    }
  }

  // ----------------------------------------------------------- across queries

  function SumOfSizes(entries: map<string, Entry>, categories: seq<string>): nat {
    if categories == [] then 0
    else |CategoryKeys(entries, categories[0])| + SumOfSizes(entries, categories[1..])
  }

  lemma {:induction false} CategoriesAreDisjoint(entries: map<string, Entry>, categories: seq<string>)
    requires forall i, j :: 0 <= i < j < |categories| ==> categories[i] != categories[j]
    requires "" !in categories
    ensures SumOfSizes(entries, categories) == |set k | k in entries && entries[k].category in categories|
  {
    var keys := set k | k in entries && entries[k].category in categories;
    if categories == [] {
      assert keys == {};
    } else {
      CategoriesAreDisjoint(entries, categories[1..]);
      var first := CategoryKeys(entries, categories[0]);
      var others := set k | k in entries && entries[k].category in categories[1..];
      assert keys == first + others;
      assert first !! others;
    }
  }

  /** Listing category by category accounts for every entry: the sizes over distinct non-empty
      categories that include all that occur, plus the entries without a category, make the count. */
  lemma CategoriesPartition(entries: map<string, Entry>, categories: seq<string>)
    requires forall i, j :: 0 <= i < j < |categories| ==> categories[i] != categories[j]
    requires "" !in categories
    requires forall k :: k in entries ==> entries[k].category == "" || entries[k].category in categories
    ensures SumOfSizes(entries, categories) + |set k | k in entries && entries[k].category == ""| == |entries.Keys|
  {
    CategoriesAreDisjoint(entries, categories);
    var some := set k | k in entries && entries[k].category in categories;
    var none := set k | k in entries && entries[k].category == "";
    assert some + none == entries.Keys && some !! none;
  }

  function TotalLength(results: seq<seq<Entry>>): nat {
    if results == [] then 0 else |results[0]| + TotalLength(results[1..])
  }

  lemma {:induction false} TotalIsSum(entries: map<string, Entry>, categories: seq<string>, results: seq<seq<Entry>>)
    requires |results| == |categories|
    requires forall i :: 0 <= i < |results| ==> ListsExactly(entries, CategoryKeys(entries, categories[i]), results[i])
    ensures TotalLength(results) == SumOfSizes(entries, categories)
  {
    if results != [] {
      TotalIsSum(entries, categories[1..], results[1..]);
    }
  }

  /** The lists returned for those categories, with the uncategorised entries, make the count. */
  lemma ListsPartitionTheCatalog(
      entries: map<string, Entry>, categories: seq<string>, results: seq<seq<Entry>>)
    requires forall i, j :: 0 <= i < j < |categories| ==> categories[i] != categories[j]
    requires "" !in categories
    requires forall k :: k in entries ==> entries[k].category == "" || entries[k].category in categories
    requires |results| == |categories|
    requires forall i :: 0 <= i < |results| ==> ListsExactly(entries, CategoryKeys(entries, categories[i]), results[i])
    ensures TotalLength(results) + |set k | k in entries && entries[k].category == ""| == |entries.Keys|
  {
    TotalIsSum(entries, categories, results);
    CategoriesPartition(entries, categories);
  }

  /** A longer query finds less: if one lower-cased query contains another, its results are among
      the results of the other. */
  lemma LongerQueriesFindLess(
      entries: map<string, Entry>, lower: string -> string, query: string, part: string,
      results: seq<Entry>, more: seq<Entry>)
    requires Contains(lower(query), lower(part))
    requires ListsExactly(entries, SearchKeys(entries, lower, query), results)
    requires ListsExactly(entries, SearchKeys(entries, lower, part), more)
    ensures forall e :: e in results ==> e in more
  {
    forall k | k in SearchKeys(entries, lower, query) ensures k in SearchKeys(entries, lower, part) {
      MatchesLess(lower, entries[k], lower(query), lower(part));
    }
  }

  lemma MatchesLess(lower: string -> string, entry: Entry, query: string, part: string)
    requires Matches(lower, entry, query) && Contains(query, part)
    ensures Matches(lower, entry, part)
  {
    if Contains(lower(entry.displayName), query) {
      ContainsIsTransitive(lower(entry.displayName), query, part);
    } else if Contains(lower(entry.description), query) {
      ContainsIsTransitive(lower(entry.description), query, part);
    } else {
      var i :| 0 <= i < |entry.tags| && Contains(lower(entry.tags[i]), query);
      ContainsIsTransitive(lower(entry.tags[i]), query, part);
    }
  }
}
