/** Record logic the catalogue scrapers share once the HTTP fetch and the HTML
    parse have produced tiles: keyword rule tables decided by first match,
    grouping and counting by category with keys in first-seen order (Python
    dicts keep insertion order), and de-duplication where the first
    occurrence of a key wins. */
module Catalog {
  import opened Text

  // ===========================================================================
  // Keyword rule tables

  const TShirts := "T-Shirts"
  const Hoodies := "Hoodies & Sweatshirts"
  const TankTops := "Tank Tops"
  const LongSleeve := "Long Sleeve"
  const Drinkware := "Drinkware"
  const Headwear := "Headwear"
  const Merch := "Merch"
  const Apparel := "Apparel"

  /** The seven categories of the full keyword chains. */
  predicate KnownCategory(c: string) {
    c in {TShirts, Hoodies, TankTops, LongSleeve, Drinkware, Headwear, Merch}
  }

  /** A category chosen when a word of `typeWords` occurs in the lower-cased
      product type or a word of `nameWords` in the lower-cased name. */
  datatype Rule = Rule(category: string, typeWords: seq<string>, nameWords: seq<string>)

  predicate RuleMatches(r: Rule, productType: string, name: string) {
    AnyIn(productType, r.typeWords) || AnyIn(name, r.nameWords)
  }

  /** The category of the first matching rule, or the default when none matches. */
  function FirstMatch(rules: seq<Rule>, productType: string, name: string, default: string): (c: string)
    ensures c == default || exists k :: 0 <= k < |rules| && c == rules[k].category
    decreases |rules|
  {
    if rules == [] then default
    else if RuleMatches(rules[0], productType, name) then rules[0].category
    else
      var c := FirstMatch(rules[1..], productType, name, default);
      assert c != default ==> exists k :: 1 <= k < |rules| && c == rules[k].category by {
        if c != default {
          var k :| 0 <= k < |rules[1..]| && c == rules[1..][k].category;
          assert c == rules[k + 1].category;
        }
      }
      c
  }

  /** First match means first: the chosen rule matches and no earlier one
      does; the default is chosen only when no rule matches. */
  lemma {:induction false} FirstMatchIsFirst(rules: seq<Rule>, productType: string, name: string, default: string)
    ensures var c := FirstMatch(rules, productType, name, default);
            (exists k :: 0 <= k < |rules| && RuleMatches(rules[k], productType, name)
                         && (forall j :: 0 <= j < k ==> !RuleMatches(rules[j], productType, name))
                         && c == rules[k].category)
            || ((forall k :: 0 <= k < |rules| ==> !RuleMatches(rules[k], productType, name)) && c == default)
    decreases |rules|
  {
    if rules == [] {
    } else if RuleMatches(rules[0], productType, name) {
      assert RuleMatches(rules[0], productType, name);
    } else {
      FirstMatchIsFirst(rules[1..], productType, name, default);
      var c := FirstMatch(rules, productType, name, default);
      if exists k :: 0 <= k < |rules[1..]| && RuleMatches(rules[1..][k], productType, name)
                     && (forall j :: 0 <= j < k ==> !RuleMatches(rules[1..][j], productType, name))
                     && c == rules[1..][k].category {
        var k :| 0 <= k < |rules[1..]| && RuleMatches(rules[1..][k], productType, name)
                 && (forall j :: 0 <= j < k ==> !RuleMatches(rules[1..][j], productType, name))
                 && c == rules[1..][k].category;
        assert RuleMatches(rules[k + 1], productType, name);
        forall j | 0 <= j < k + 1 ensures !RuleMatches(rules[j], productType, name) {
          if j > 0 {
            assert rules[j] == rules[1..][j - 1];
          }
        }
      } else {
        forall k | 0 <= k < |rules| ensures !RuleMatches(rules[k], productType, name) {
          if k > 0 {
            assert rules[k] == rules[1..][k - 1];
          }
        }
      }
    }
  }

  // ===========================================================================
  // Grouping and counting by category

  /** The items whose key is `k`, in input order. */
  function Filter<T>(items: seq<T>, key: T -> string, k: string): (r: seq<T>)
    ensures |r| <= |items|
    ensures forall i :: 0 <= i < |r| ==> key(r[i]) == k
  {
    if items == [] then []
    else Filter(items[..|items| - 1], key, k) + (if key(items[|items| - 1]) == k then [items[|items| - 1]] else [])
  }

  /** The distinct keys of the items, in the order they are first seen. */
  function Keys<T>(items: seq<T>, key: T -> string): (ks: seq<string>)
    ensures forall i :: 0 <= i < |items| ==> key(items[i]) in ks
    ensures forall k :: k in ks ==> exists i :: 0 <= i < |items| && key(items[i]) == k
  {
    if items == [] then []
    else
      var prev := Keys(items[..|items| - 1], key);
      var k := key(items[|items| - 1]);
      assert forall i :: 0 <= i < |items| - 1 ==> items[..|items| - 1][i] == items[i];
      if k in prev then prev else prev + [k]
  }

  /** A sequence without repetitions. */
  predicate Distinct(ks: seq<string>) {
    forall i, j :: 0 <= i < j < |ks| ==> ks[i] != ks[j]
  }

  lemma {:induction false} KeysDistinct<T>(items: seq<T>, key: T -> string)
    ensures Distinct(Keys(items, key))
    decreases |items|
  {
    if items != [] {
      KeysDistinct(items[..|items| - 1], key);
    }
  }

  /** The total size of the groups of the given keys. */
  function SumCounts<T>(ks: seq<string>, items: seq<T>, key: T -> string): nat {
    if ks == [] then 0
    else SumCounts(ks[..|ks| - 1], items, key) + |Filter(items, key, ks[|ks| - 1])|
  }

  /** A key with no item has an empty group. */
  lemma {:induction false} FilterAbsent<T>(items: seq<T>, key: T -> string, k: string)
    requires k !in Keys(items, key)
    ensures Filter(items, key, k) == []
    decreases |items|
  {
    if items != [] {
      var init := items[..|items| - 1];
      assert forall i :: 0 <= i < |init| ==> init[i] == items[i];
      assert forall k' :: k' in Keys(init, key) ==> k' in Keys(items, key);
      FilterAbsent(init, key, k);
    }
  }

  /** One more item grows the sum over a set of keys by one when its key is
      among them (once, since they are distinct) and not at all otherwise. */
  lemma {:induction false} SumCountsSnoc<T>(ks: seq<string>, items: seq<T>, x: T, key: T -> string)
    requires Distinct(ks)
    ensures SumCounts(ks, items + [x], key) == SumCounts(ks, items, key) + (if key(x) in ks then 1 else 0)
    decreases |ks|
  {
    assert (items + [x])[..|items|] == items;
    if ks != [] {
      var init := ks[..|ks| - 1];
      assert Distinct(init);
      SumCountsSnoc(init, items, x, key);
      assert key(x) in ks <==> key(x) in init || key(x) == ks[|ks| - 1];
      assert key(x) == ks[|ks| - 1] ==> key(x) !in init;
    }
  }

  /** The groups partition the items: their sizes add up to the item count. */
  lemma {:induction false} GroupSizesSum<T>(items: seq<T>, key: T -> string)
    ensures SumCounts(Keys(items, key), items, key) == |items|
    decreases |items|
  {
    if items != [] {
      var init := items[..|items| - 1];
      var x := items[|items| - 1];
      assert items == init + [x];
      GroupSizesSum(init, key);
      KeysDistinct(init, key);
      SumCountsSnoc(Keys(init, key), init, x, key);
      if key(x) !in Keys(init, key) {
        FilterAbsent(init, key, key(x));
        assert Keys(items, key) == Keys(init, key) + [key(x)];
        assert Keys(items, key)[..|Keys(items, key)| - 1] == Keys(init, key);
      }
    }
  }

  /** The `by_category` dict: the category keys in insertion order, and for
      each key its items in input order. */
  method GroupByCategory<T>(items: seq<T>, category: T -> string)
    returns (order: seq<string>, groups: map<string, seq<T>>)
    ensures order == Keys(items, category)
    ensures groups.Keys == set k | k in order
    ensures forall k :: k in groups ==> groups[k] == Filter(items, category, k)
  {
    order, groups := [], map[];
    for i := 0 to |items|
      invariant order == Keys(items[..i], category)
      invariant groups.Keys == set k | k in order
      invariant forall k :: k in groups ==> groups[k] == Filter(items[..i], category, k)
    {
      assert items[..i + 1][..i] == items[..i];
      var cat := category(items[i]);
      if cat !in groups {
        FilterAbsent(items[..i], category, cat);
        groups := groups[cat := []];
        order := order + [cat];
      }
      groups := groups[cat := groups[cat] + [items[i]]];
    }
    assert items[..|items|] == items;
  }

  /** `{cat: len(items) for cat, items in by_category.items()}` and the
      `categories[cat] = categories.get(cat, 0) + 1` tally: each category
      that occurs, with the number of its items. */
  method CountByCategory<T>(items: seq<T>, category: T -> string) returns (counts: map<string, nat>)
    ensures counts.Keys == set k | k in Keys(items, category)
    ensures forall k :: k in counts ==> counts[k] == |Filter(items, category, k)|
  {
    counts := map[];
    for i := 0 to |items|
      invariant counts.Keys == set k | k in Keys(items[..i], category)
      invariant forall k :: k in counts ==> counts[k] == |Filter(items[..i], category, k)|
    {
      assert items[..i + 1][..i] == items[..i];
      var cat := category(items[i]);
      if cat !in counts {
        FilterAbsent(items[..i], category, cat);
      }
      counts := counts[cat := (if cat in counts then counts[cat] else 0) + 1];
    }
    assert items[..|items|] == items;
  }

  // ===========================================================================
  // De-duplication: the first occurrence of a key wins

  /** The keys of the items, as a set. */
  function KeySet<T>(items: seq<T>, key: T -> string): set<string> {
    set i | 0 <= i < |items| :: key(items[i])
  }

  /** The items whose key was not seen earlier, in input order. */
  function FirstByKey<T>(items: seq<T>, key: T -> string): seq<T> {
    if items == [] then []
    else
      var init := items[..|items| - 1];
      FirstByKey(init, key) + (if key(items[|items| - 1]) in KeySet(init, key) then [] else [items[|items| - 1]])
  }

  lemma {:induction false} KeySetSnoc<T>(items: seq<T>, x: T, key: T -> string)
    ensures KeySet(items + [x], key) == KeySet(items, key) + {key(x)}
  {
    var s := items + [x];
    forall k | k in KeySet(s, key) ensures k in KeySet(items, key) + {key(x)} {
      var i :| 0 <= i < |s| && key(s[i]) == k;
      if i < |items| {
        assert s[i] == items[i];
      }
    }
    forall k | k in KeySet(items, key) ensures k in KeySet(s, key) {
      var i :| 0 <= i < |items| && key(items[i]) == k;
      assert s[i] == items[i];
    }
    assert s[|items|] == x;
  }

  /** The kept items have pairwise different keys, and every key of the
      input is kept. */
  lemma {:induction false} FirstByKeyUnique<T>(items: seq<T>, key: T -> string)
    ensures var r := FirstByKey(items, key);
            (forall i, j :: 0 <= i < j < |r| ==> key(r[i]) != key(r[j]))
            && KeySet(r, key) == KeySet(items, key)
    decreases |items|
  {
    if items != [] {
      var init := items[..|items| - 1];
      var x := items[|items| - 1];
      assert items == init + [x];
      FirstByKeyUnique(init, key);
      KeySetSnoc(init, x, key);
      var prev := FirstByKey(init, key);
      if key(x) !in KeySet(init, key) {
        KeySetSnoc(prev, x, key);
        var r := prev + [x];
        forall i, j | 0 <= i < j < |r| ensures key(r[i]) != key(r[j]) {
          if j == |prev| {
            assert r[i] == prev[i];
            assert key(prev[i]) in KeySet(prev, key);
          } else {
            assert r[i] == prev[i] && r[j] == prev[j];
          }
        }
      } else {
        assert FirstByKey(items, key) == prev;
        assert KeySet(items, key) == KeySet(init, key);
      }
    }
  }

  /** Later items never displace earlier picks: what is kept from a prefix
      is a prefix of what is kept from the whole. */
  lemma {:induction false} FirstByKeyPrefix<T>(items: seq<T>, n: nat, key: T -> string)
    requires n <= |items|
    ensures var whole := FirstByKey(items, key);
            var part := FirstByKey(items[..n], key);
            |part| <= |whole| && whole[..|part|] == part
    decreases |items|
  {
    if n < |items| {
      var init := items[..|items| - 1];
      assert init[..n] == items[..n];
      FirstByKeyPrefix(init, n, key);
    } else {
      assert items[..n] == items;
    }
  }

  /** De-duplication only drops items: what is kept comes from the input. */
  lemma {:induction false} FirstByKeySubset<T>(items: seq<T>, key: T -> string)
    ensures forall x :: x in FirstByKey(items, key) ==> x in items
    decreases |items|
  {
    if items != [] {
      var init := items[..|items| - 1];
      FirstByKeySubset(init, key);
      assert forall x :: x in init ==> x in items;
    }
  }
}
