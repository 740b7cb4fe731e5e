/**
 * The certifications catalogue of the portfolio site: the data, the page's
 * category filter, and the grouping of certifications by category.
 */
module Certifications {
  import opened Seqs

  /** One certification; only the members the filter and the grouping read,
      plus the identifying ones. */
  datatype Cert = Cert(id: string, name: string, category: string, issuer: string)

  /** The `certifications` array. */
  const Catalog: seq<Cert> := [
    Cert("nptel-soft-skills", "Enhancing Soft Skills and Personality", "Development",
         "NPTEL (IIT Kanpur)"),
    Cert("nptel-privacy-security", "Privacy and Security in Online Social Media",
         "Cybersecurity", "NPTEL (IIIT Hyderabad)"),
    Cert("google-cybersecurity", "Foundations of Cybersecurity", "Cybersecurity",
         "Google (via Coursera)")
  ]

  /** The filter buttons offered by the page, `'All'` first. */
  const FilterCategories: seq<string> :=
    ["All", "Cybersecurity", "AI/ML", "Cloud", "Data Science", "Development"]

  // ------------------------------------------------------------- filter

  /** `certs.filter(cert => cert.category === cat)`. */
  function WithCategory(certs: seq<Cert>, cat: string): (r: seq<Cert>)
    ensures forall c :: c in r <==> c in certs && c.category == cat
    ensures |r| <= |certs|
  {
    if certs == [] then []
    else if certs[0].category == cat then [certs[0]] + WithCategory(certs[1..], cat)
    else WithCategory(certs[1..], cat)
  }

  /** `filteredCerts`: the whole list for `'All'`, otherwise the
      certifications whose single category equals the selected one. */
  function FilterCerts(certs: seq<Cert>, selected: string): (r: seq<Cert>)
    ensures selected == "All" ==> r == certs
    ensures selected != "All" ==> forall c :: c in r <==> c in certs && c.category == selected
    ensures |r| <= |certs|
  {
    if selected == "All" then certs else WithCategory(certs, selected)
  }

  /** The filter keeps the catalogue's order: its result is a subsequence. */
  lemma {:induction false} WithCategorySubsequence(certs: seq<Cert>, cat: string)
    ensures Subsequence(WithCategory(certs, cat), certs)
  {
    if certs != [] {
      WithCategorySubsequence(certs[1..], cat);
    }
  }

  lemma FilterCertsSubsequence(certs: seq<Cert>, selected: string)
    ensures Subsequence(FilterCerts(certs, selected), certs)
  {
    if selected == "All" {
      SubsequenceRefl(certs);
    } else {
      WithCategorySubsequence(certs, selected);
    }
  }

  /** The page offers 'AI/ML', but no certification carries it: that filter
      shows nothing. */
  lemma AiMlIsEmpty()
    ensures "AI/ML" in FilterCategories
    ensures FilterCerts(Catalog, "AI/ML") == []
  {
    assert forall c | c in Catalog :: c.category != "AI/ML";
  }

  /** Filtering the end of a list only adds the last element, if it matches. */
  lemma {:induction false} WithCategoryAppend(certs: seq<Cert>, c: Cert, cat: string)
    ensures WithCategory(certs + [c], cat)
         == WithCategory(certs, cat) + (if c.category == cat then [c] else [])
  {
    if certs == [] {
      assert [] + [c] == [c];
    } else {
      assert (certs + [c])[1..] == certs[1..] + [c];
      WithCategoryAppend(certs[1..], c, cat);
    }
  }

  // ----------------------------------------------------------- grouping

  /** The keys of the grouping object in insertion order: each category at
      its first occurrence. */
  function CategoryOrder(certs: seq<Cert>): seq<string> {
    if certs == [] then []
    else
      var keys := CategoryOrder(certs[..|certs| - 1]);
      var last := certs[|certs| - 1];
      if last.category in keys then keys else keys + [last.category]
  }

  /** The keys are exactly the categories that occur. */
  lemma {:induction false} CategoryOrderExact(certs: seq<Cert>, k: string)
    ensures k in CategoryOrder(certs) <==> exists c :: c in certs && c.category == k
  {
    if certs != [] {
      var init, last := certs[..|certs| - 1], certs[|certs| - 1];
      assert certs == init + [last];
      CategoryOrderExact(init, k);
      if k in CategoryOrder(init) {
        var c :| c in init && c.category == k;
        assert c in certs;
      }
    }
  }

  predicate Distinct(keys: seq<string>) {
    forall i, j | 0 <= i < j < |keys| :: keys[i] != keys[j]
  }

  lemma {:induction false} CategoryOrderDistinct(certs: seq<Cert>)
    ensures Distinct(CategoryOrder(certs))
  {
    if certs != [] {
      CategoryOrderDistinct(certs[..|certs| - 1]);
    }
  }

  /** `keys` and `groups` are the grouping of `certs`: the keys in order of
      first occurrence, each mapped to the certifications of its category. */
  ghost predicate Grouped(certs: seq<Cert>, keys: seq<string>, groups: map<string, seq<Cert>>) {
    && keys == CategoryOrder(certs)
    && (forall k :: k in groups <==> k in keys)
    && forall k | k in groups :: groups[k] == WithCategory(certs, k)
  }

  /** No certification of `certs` has a category the grouping lacks. */
  lemma AbsentCategoryEmpty(certs: seq<Cert>, cat: string)
    requires cat !in CategoryOrder(certs)
    ensures WithCategory(certs, cat) == []
  {
    CategoryOrderExact(certs, cat);
    NoneWithCategory(certs, cat);
  }

  lemma {:induction false} NoneWithCategory(certs: seq<Cert>, cat: string)
    requires forall c | c in certs :: c.category != cat
    ensures WithCategory(certs, cat) == []
  {
    if certs != [] {
      NoneWithCategory(certs[1..], cat);
    }
  }

  /** One step of the `reduce`: create the group if needed, then push. */
  lemma GroupStep(certs: seq<Cert>, c: Cert, keys: seq<string>, groups: map<string, seq<Cert>>,
                  keys': seq<string>, groups': map<string, seq<Cert>>)
    requires Grouped(certs, keys, groups)
    requires keys' == if c.category in groups then keys else keys + [c.category]
    requires var created := if c.category in groups then groups else groups[c.category := []];
             groups' == created[c.category := created[c.category] + [c]]
    ensures Grouped(certs + [c], keys', groups')
  {
    assert (certs + [c])[..|certs|] == certs;
    if c.category !in groups {
      AbsentCategoryEmpty(certs, c.category);
    }
    forall k | k in groups'
      ensures groups'[k] == WithCategory(certs + [c], k)
    {
      WithCategoryAppend(certs, c, k);
    }
  }

  /** `groupedCertifications`: the `reduce` that creates an empty array for a
      category on its first certification and pushes every certification
      into the array of its category. */
  method GroupByCategory(certs: seq<Cert>) returns (keys: seq<string>, groups: map<string, seq<Cert>>)
    ensures keys == CategoryOrder(certs)
    ensures forall k :: k in groups <==> k in keys
    ensures forall k | k in groups :: groups[k] == WithCategory(certs, k)
  {
    keys, groups := [], map[];
    var i := 0;
    while i < |certs|
      invariant 0 <= i <= |certs|
      invariant Grouped(certs[..i], keys, groups)
    {
      var cert := certs[i];
      ghost var keys0, groups0 := keys, groups;
      if cert.category !in groups {
        groups := groups[cert.category := []];
        keys := keys + [cert.category];
      }
      groups := groups[cert.category := groups[cert.category] + [cert]];
      GroupStep(certs[..i], cert, keys0, groups0, keys, groups);
      assert certs[..i + 1] == certs[..i] + [cert];
      i := i + 1;
    }
    assert certs[..i] == certs;
  }

  /** Every certification sits in the group of its own category and in no
      other group. */
  lemma GroupOfEach(certs: seq<Cert>, c: Cert, k: string)
    requires c in certs
    ensures c.category in CategoryOrder(certs)
    ensures c in WithCategory(certs, k) <==> k == c.category
  {
    CategoryOrderExact(certs, c.category);
  }

  /** No group is empty. */
  lemma GroupNonEmpty(certs: seq<Cert>, k: string)
    requires k in CategoryOrder(certs)
    ensures WithCategory(certs, k) != []
  {
    CategoryOrderExact(certs, k);
    var c :| c in certs && c.category == k;
    assert c in WithCategory(certs, k);
  }

  /** Total size of the groups named by `keys`. */
  function GroupSizes(certs: seq<Cert>, keys: seq<string>): nat {
    if keys == [] then 0 else |WithCategory(certs, keys[0])| + GroupSizes(certs, keys[1..])
  }

  /** How many of `keys` are `k`. */
  function Occurrences(keys: seq<string>, k: string): nat {
    if keys == [] then 0 else (if keys[0] == k then 1 else 0) + Occurrences(keys[1..], k)
  }

  lemma {:induction false} OccursOnce(keys: seq<string>, k: string)
    requires Distinct(keys) && k in keys
    ensures Occurrences(keys, k) == 1
  {
    if keys[0] != k {
      OccursOnce(keys[1..], k);
    } else {
      OccursNever(keys[1..], k);
    }
  }

  lemma {:induction false} OccursNever(keys: seq<string>, k: string)
    requires k !in keys
    ensures Occurrences(keys, k) == 0
  {
    if keys != [] {
      OccursNever(keys[1..], k);
    }
  }

  /** Taking one certification off the front removes it from exactly the
      groups named by its category. */
  lemma {:induction false} GroupSizesCons(certs: seq<Cert>, keys: seq<string>)
    requires certs != []
    ensures GroupSizes(certs, keys)
         == GroupSizes(certs[1..], keys) + Occurrences(keys, certs[0].category)
  {
    if keys != [] {
      GroupSizesCons(certs, keys[1..]);
    }
  }

  /** Over distinct keys that name every category present, the group sizes
      add up to the number of certifications. */
  lemma {:induction false} GroupSizesCount(certs: seq<Cert>, keys: seq<string>)
    requires Distinct(keys)
    requires forall c | c in certs :: c.category in keys
    ensures GroupSizes(certs, keys) == |certs|
  {
    if certs == [] {
      EmptyGroupSizes(keys);
    } else {
      GroupSizesCons(certs, keys);
      OccursOnce(keys, certs[0].category);
      GroupSizesCount(certs[1..], keys);
    }
  }

  lemma {:induction false} EmptyGroupSizes(keys: seq<string>)
    ensures GroupSizes([], keys) == 0
  {
    if keys != [] {
      EmptyGroupSizes(keys[1..]);
    }
  }

  /** The grouping is a partition: its groups together hold every
      certification exactly once. */
  lemma GroupingPartitions(certs: seq<Cert>)
    ensures GroupSizes(certs, CategoryOrder(certs)) == |certs|
  {
    CategoryOrderDistinct(certs);
    forall c | c in certs
      ensures c.category in CategoryOrder(certs)
    {
      CategoryOrderExact(certs, c.category);
    }
    GroupSizesCount(certs, CategoryOrder(certs));
  }

  /** The catalogue groups into 'Development' (one) then 'Cybersecurity'
      (two, in catalogue order). */
  lemma CatalogGroups()
    ensures CategoryOrder(Catalog) == ["Development", "Cybersecurity"]
    ensures WithCategory(Catalog, "Cybersecurity") == Catalog[1..]
  {
    assert Catalog[..1][..0] == [];
    assert CategoryOrder(Catalog[..1]) == ["Development"];
    assert Catalog[..2][..1] == Catalog[..1];
    assert CategoryOrder(Catalog[..2]) == ["Development", "Cybersecurity"];
    assert Catalog[..3][..2] == Catalog[..2];
    assert Catalog[..3] == Catalog;
  }
}
