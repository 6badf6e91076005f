/**
 * The `migrate_to_new_categories` management command
 * (backend/apps/products/management/commands/migrate_to_new_categories.py):
 * it creates the five categories and a default subcategory for each, links
 * every product whose legacy category is known to its category, turns the
 * legacy comma-separated tag strings into tag rows and links products to
 * them. Everything runs in one transaction, rolled back in dry-run mode.
 *
 * The tables are maps keyed by the field `get_or_create` looks rows up by.
 * The legacy columns the raw queries read are the input `rows`.
 */
module MigrateCategories {
  import opened Wrappers
  import opened Text

  // ---------------------------------------------------------------------------
  // The fixed tables

  /** `category_data`: each legacy enum value with its display name, in order. */
  const CategoryData: seq<(string, string)> :=
    [("COOKIE", "Cookie"), ("SNACK", "Snack"), ("CAKE", "Cake"), ("SWEET", "Sweet"), ("HAMPER", "Hamper")]

  /** The slug of the `i`-th category: the enum value lowercased. */
  function CategorySlug(i: nat): string
    requires i < |CategoryData|
  {
    ToLower(CategoryData[i].0)
  }

  const DefaultSubcategorySlug: string := "default"

  /** The five slugs are the expected lowercase words, so no two categories share a row. */
  lemma CategorySlugsSpelled()
    ensures CategorySlug(0) == "cookie" && CategorySlug(1) == "snack" && CategorySlug(2) == "cake"
    ensures CategorySlug(3) == "sweet" && CategorySlug(4) == "hamper"
    ensures forall i, j :: 0 <= i < j < |CategoryData| ==> CategorySlug(i) != CategorySlug(j)
  {
    assert CategorySlug(0) == "cookie";
    assert CategorySlug(1) == "snack";
    assert CategorySlug(2) == "cake";
    assert CategorySlug(3) == "sweet";
    assert CategorySlug(4) == "hamper";
  }

  /** The enum values of the first `n` categories. */
  function ValuesBelow(n: nat): (r: set<string>)
    requires n <= |CategoryData|
    ensures forall j :: 0 <= j < n ==> CategoryData[j].0 in r
  {
    if n == 0 then {} else ValuesBelow(n - 1) + {CategoryData[n - 1].0}
  }

  /** The slugs of the first `n` categories. */
  function SlugsBelow(n: nat): (r: set<string>)
    requires n <= |CategoryData|
    ensures forall j :: 0 <= j < n ==> CategorySlug(j) in r
  {
    if n == 0 then {} else SlugsBelow(n - 1) + {CategorySlug(n - 1)}
  }

  /** The keys of the default subcategories of the first `n` categories. */
  function DefaultKeysBelow(n: nat): (r: set<(string, string)>)
    requires n <= |CategoryData|
    ensures forall j :: 0 <= j < n ==> (CategorySlug(j), DefaultSubcategorySlug) in r
  {
    if n == 0 then {} else DefaultKeysBelow(n - 1) + {(CategorySlug(n - 1), DefaultSubcategorySlug)}
  }

  /** A slug of the first `n` categories is the slug of one of them. */
  lemma {:induction false} SlugsBelowFrom(n: nat, s: string) returns (j: nat)
    requires n <= |CategoryData| && s in SlugsBelow(n)
    ensures j < n && CategorySlug(j) == s
  {
    if CategorySlug(n - 1) == s {
      j := n - 1;
    } else {
      j := SlugsBelowFrom(n - 1, s);
    }
  }

  /** Each category's value and slug are new when the loop reaches it. */
  lemma CategoriesFresh(i: nat)
    requires i < |CategoryData|
    ensures CategoryData[i].0 !in ValuesBelow(i)
    ensures CategorySlug(i) !in SlugsBelow(i)
    ensures (CategorySlug(i), DefaultSubcategorySlug) !in DefaultKeysBelow(i)
  {
    CategorySlugsSpelled();
    if i == 1 {
      assert ValuesBelow(1) == {"COOKIE"} && SlugsBelow(1) == {"cookie"};
    } else if i == 2 {
      assert ValuesBelow(2) == {"COOKIE", "SNACK"} && SlugsBelow(2) == {"cookie", "snack"};
    } else if i == 3 {
      assert ValuesBelow(3) == {"COOKIE", "SNACK", "CAKE"} && SlugsBelow(3) == {"cookie", "snack", "cake"};
    } else if i == 4 {
      assert ValuesBelow(4) == {"COOKIE", "SNACK", "CAKE", "SWEET"} && SlugsBelow(4) == {"cookie", "snack", "cake", "sweet"};
    }
    DefaultKeysFromSlugs(i);
  }

  /** A default-subcategory key belongs to a category already processed. */
  lemma {:induction false} DefaultKeysFromSlugs(n: nat)
    requires n <= |CategoryData|
    ensures forall k :: k in DefaultKeysBelow(n) ==> k.0 in SlugsBelow(n)
  {
    if n > 0 {
      DefaultKeysFromSlugs(n - 1);
    }
  }

  // ---------------------------------------------------------------------------
  // Legacy tag strings

  /** `[tag.strip() for tag in pieces if tag.strip()]`. */
  function StrippedPieces(pieces: seq<string>): (r: seq<string>)
    ensures |r| <= |pieces|
    ensures forall k :: 0 <= k < |r| ==> r[k] != "" && PyStrip(r[k]) == r[k]
  {
    if pieces == [] then []
    else
      var t := PyStrip(pieces[0]);
      StripIdempotent(pieces[0], IsPySpace);
      var rest := StrippedPieces(pieces[1..]);
      if t != "" then [t] + rest else rest
  }

  /** A name survives exactly when it is the non-blank stripped form of some piece. */
  lemma {:induction false} StrippedPiecesMembers(pieces: seq<string>)
    ensures forall x :: x in StrippedPieces(pieces) <==> x != "" && exists p :: p in pieces && PyStrip(p) == x
  {
    if pieces != [] {
      StrippedPiecesMembers(pieces[1..]);
      assert forall p :: p in pieces <==> p == pieces[0] || p in pieces[1..];
    }
  }

  /** The tag names of one legacy tag string: split on `,`, stripped, blanks dropped. */
  function TagNames(s: string): seq<string> {
    StrippedPieces(Split(s, ','))
  }

  /** Every tag name read from a legacy string is non-blank and has no white space at either end. */
  lemma TagNamesClean(s: string)
    ensures forall k :: 0 <= k < |TagNames(s)| ==> TagNames(s)[k] != "" && PyStrip(TagNames(s)[k]) == TagNames(s)[k]
  {
  }

  /** A tag name as the command can read it back from a legacy string. */
  predicate CleanTagName(n: string) {
    n != "" && PyStrip(n) == n && forall i :: 0 <= i < |n| ==> n[i] != ','
  }

  /** Joining clean names with `,` and parsing the result gives the names back. */
  lemma {:induction false} TagNamesRoundTrip(names: seq<string>)
    requires forall k :: 0 <= k < |names| ==> CleanTagName(names[k])
    ensures TagNames(Join(names, ',')) == names
  {
    if names == [] {
      assert Split("", ',') == [""];
      assert PyStrip("") == "";
    } else {
      SplitJoin(names, ',');
      StrippedPiecesOfClean(names);
    }
  }

  lemma {:induction false} StrippedPiecesOfClean(names: seq<string>)
    requires forall k :: 0 <= k < |names| ==> CleanTagName(names[k])
    ensures StrippedPieces(names) == names
  {
    if names != [] {
      StrippedPiecesOfClean(names[1..]);
    }
  }

  /** `s.replace(a, b)` for single characters. */
  function ReplaceChar(s: string, a: char, b: char): (r: string)
    ensures |r| == |s|
    ensures forall k :: 0 <= k < |s| ==> r[k] == (if s[k] == a then b else s[k])
  {
    seq(|s|, k requires 0 <= k < |s| => if s[k] == a then b else s[k])
  }

  /** `tag_name.lower().replace(' ', '-').replace('_', '-')`. */
  function TagSlug(name: string): (r: string)
    ensures |r| == |name|
    ensures forall k :: 0 <= k < |r| ==> r[k] != ' ' && r[k] != '_' && !('A' <= r[k] <= 'Z')
    ensures forall k :: 0 <= k < |r| && name[k] != ' ' && name[k] != '_' ==> r[k] == LowerChar(name[k])
  {
    ReplaceChar(ReplaceChar(ToLower(name), ' ', '-'), '_', '-')
  }

  /** A slug is its own slug. */
  lemma {:induction false} TagSlugIdempotent(name: string)
    ensures TagSlug(TagSlug(name)) == TagSlug(name)
  {
    var s := TagSlug(name);
    assert forall k :: 0 <= k < |s| ==> TagSlug(s)[k] == s[k];
  }

  /** Names that differ only in case and in a space against an underscore share one tag row. */
  lemma SlugsCollide()
    ensures TagSlug("Gift Box") == TagSlug("gift_box") == "gift-box"
  {
    assert TagSlug("Gift Box") == "gift-box";
    assert TagSlug("gift_box") == "gift-box";
  }

  // ---------------------------------------------------------------------------
  // `sorted(all_tags)`

  /** Strictly increasing in Python's order on `str`. */
  predicate StrictlySorted(s: seq<string>) {
    forall i, j :: 0 <= i < j < |s| ==> LexLess(s[i], s[j])
  }

  predicate Distinct(s: seq<string>) {
    forall i, j :: 0 <= i < j < |s| ==> s[i] != s[j]
  }

  function InsertName(x: string, s: seq<string>): (r: seq<string>)
    requires StrictlySorted(s) && x !in s
    ensures StrictlySorted(r)
    ensures |r| == |s| + 1
    ensures forall y :: y in r <==> y == x || y in s
  {
    if s == [] then [x]
    else
      LexLessTotal(x, s[0]);
      if LexLess(x, s[0]) then
        forall j | 0 < j < |s| ensures LexLess(x, s[j]) { LexLessTransitive(x, s[0], s[j]); }
        [x] + s
      else
        var rest := InsertName(x, s[1..]);
        assert forall y :: y in rest ==> LexLess(s[0], y) by {
          forall y | y in rest ensures LexLess(s[0], y) {
            if y != x {
              var m :| 0 <= m < |s[1..]| && s[1..][m] == y;
              assert s[m + 1] == y;
            }
          }
        }
        [s[0]] + rest
  }

  /** `sorted` of a collection of distinct names. */
  function SortNames(s: seq<string>): (r: seq<string>)
    requires Distinct(s)
    ensures StrictlySorted(r)
    ensures |r| == |s|
    ensures forall y :: y in r <==> y in s
  {
    if s == [] then []
    else
      var rest := SortNames(s[1..]);
      assert forall m :: 0 <= m < |s| - 1 ==> s[1..][m] == s[m + 1] != s[0];
      InsertName(s[0], rest)
  }

  /** Two strictly sorted sequences holding the same names are the same sequence. */
  lemma {:induction false} SortedUnique(a: seq<string>, b: seq<string>)
    requires StrictlySorted(a) && StrictlySorted(b)
    requires forall y :: y in a <==> y in b
    ensures a == b
  {
    if a != [] { SameNamesNonEmpty(a, b); }
    if b != [] { SameNamesNonEmpty(b, a); }
    if a != [] && b != [] {
      if a[0] != b[0] {
        assert b[0] in a && a[0] in b;
        var i :| 0 <= i < |a| && a[i] == b[0];
        var j :| 0 <= j < |b| && b[j] == a[0];
        assert LexLess(a[0], b[0]) && LexLess(b[0], a[0]);
        LexLessTransitive(a[0], b[0], a[0]);
        LexLessIrreflexive(a[0]);
      }
      forall y ensures y in a[1..] ==> y in b[1..] {
        if y in a[1..] {
          SortedTailAbove(a, y);
          var i :| 0 <= i < |a[1..]| && a[1..][i] == y;
          assert a[i + 1] == y && y in b;
          var k :| 0 <= k < |b| && b[k] == y;
          assert b[1..][k - 1] == y;
        }
      }
      forall y ensures y in b[1..] ==> y in a[1..] {
        if y in b[1..] {
          SortedTailAbove(b, y);
          var i :| 0 <= i < |b[1..]| && b[1..][i] == y;
          assert b[i + 1] == y && y in a;
          var k :| 0 <= k < |a| && a[k] == y;
          assert a[1..][k - 1] == y;
        }
      }
      SortedUnique(a[1..], b[1..]);
    }
  }

  lemma SameNamesNonEmpty(a: seq<string>, b: seq<string>)
    requires a != [] && forall y :: y in a <==> y in b
    ensures b != []
  {
    assert a[0] in b;
  }

  /** A name in the tail of a strictly sorted sequence is not its head. */
  lemma SortedTailAbove(a: seq<string>, y: string)
    requires StrictlySorted(a) && a != [] && y in a[1..]
    ensures y != a[0]
  {
    var i :| 0 <= i < |a[1..]| && a[1..][i] == y;
    assert LexLess(a[0], a[i + 1]);
    LexLessIrreflexive(y);
  }

  /** `sorted(names)` for a set of names: the one strictly increasing sequence holding exactly them. */
  ghost function SortedNames(names: set<string>): (r: seq<string>)
    ensures StrictlySorted(r)
    ensures forall y :: y in r <==> y in names
    decreases |names|
  {
    if names == {} then []
    else
      var x :| x in names;
      InsertName(x, SortedNames(names - {x}))
  }

  // ---------------------------------------------------------------------------
  // Rows

  datatype CategoryRow = CategoryRow(slug: string, name: string, isActive: bool, order: nat)
  datatype SubcategoryRow = SubcategoryRow(category: string, slug: string, name: string, isActive: bool, order: nat)
  datatype TagRow = TagRow(slug: string, name: string, isActive: bool)

  /** The new relations of a product: category, subcategory (category slug, slug) and tag slugs. */
  datatype ProductLinks = ProductLinks(category: Option<string>, subcategory: Option<(string, string)>, tags: set<string>)

  /** A product's id with its legacy `category` and `tags` columns. */
  datatype LegacyRow = LegacyRow(id: nat, category: Option<string>, tags: Option<string>)

  /** The counts the command reports at the end. */
  /** The exception that ends the command: a `get_or_create` broke a unique name. */
  datatype MigrationError = IntegrityError

  datatype Summary = Summary(categories: nat, subcategories: nat, productsMigrated: nat, tags: nat, productsWithTags: nat)

  /** Product ids are a primary key. */
  predicate UniqueIds(rows: seq<LegacyRow>) {
    forall i, j :: 0 <= i < j < |rows| ==> rows[i].id != rows[j].id
  }

  /** A prefix of rows with distinct ids has distinct ids. */
  lemma UniqueIdsPrefix(rows: seq<LegacyRow>, n: nat)
    requires UniqueIds(rows) && n <= |rows|
    ensures UniqueIds(rows[..n])
  {
    var init := rows[..n];
    forall i, j | 0 <= i < j < |init| ensures init[i].id != init[j].id {
      assert init[i] == rows[i] && init[j] == rows[j];
    }
  }

  /** The legacy category maps to a new one and the product row exists. */
  predicate Migratable(row: LegacyRow, mapping: map<string, string>, ids: set<nat>) {
    row.category.Some? && row.category.value in mapping && row.id in ids
  }

  function MigratableCount(rows: seq<LegacyRow>, mapping: map<string, string>, ids: set<nat>): (n: nat)
    ensures n <= |rows|
  {
    if rows == [] then 0
    else MigratableCount(rows[..|rows| - 1], mapping, ids) + (if Migratable(rows[|rows| - 1], mapping, ids) then 1 else 0)
  }

  /** The rows the tag queries select: `tags IS NOT NULL AND tags != ''`. */
  predicate HasTagString(row: LegacyRow) {
    row.tags.Some? && row.tags.value != ""
  }

  /** The tag names one row contributes to `all_tags`. */
  function RowTagNames(row: LegacyRow): set<string> {
    if HasTagString(row) then set n | n in TagNames(row.tags.value) else {}
  }

  /** `all_tags`: the tag names of all selected rows. */
  function AllTagNames(rows: seq<LegacyRow>): set<string> {
    if rows == [] then {} else AllTagNames(rows[..|rows| - 1]) + RowTagNames(rows[|rows| - 1])
  }

  /** Every name a selected row lists is in `all_tags`. */
  lemma {:induction false} AllTagNamesHas(rows: seq<LegacyRow>, k: nat, n: string)
    requires k < |rows| && n in RowTagNames(rows[k])
    ensures n in AllTagNames(rows)
  {
    if k < |rows| - 1 {
      var init := rows[..|rows| - 1];
      assert init[k] == rows[k];
      AllTagNamesHas(init, k, n);
    }
  }

  /** Every name in `all_tags` is listed by some selected row. */
  lemma {:induction false} AllTagNamesFrom(rows: seq<LegacyRow>, n: string) returns (k: nat)
    requires n in AllTagNames(rows)
    ensures k < |rows| && n in RowTagNames(rows[k])
  {
    var last := |rows| - 1;
    if n in RowTagNames(rows[last]) {
      k := last;
    } else {
      var init := rows[..last];
      k := AllTagNamesFrom(init, n);
      assert init[k] == rows[k];
    }
  }

  /** `[tag_mapping[tag] for tag in names if tag in tag_mapping]`. */
  function MappedTags(names: seq<string>, tagMapping: map<string, string>): (r: seq<string>)
    ensures |r| <= |names|
  {
    if names == [] then []
    else
      var rest := MappedTags(names[1..], tagMapping);
      if names[0] in tagMapping then [tagMapping[names[0]]] + rest else rest
  }

  /** A slug is among the mapped tags exactly when some listed name maps to it. */
  lemma {:induction false} MappedTagsMembers(names: seq<string>, tagMapping: map<string, string>)
    ensures forall s :: s in MappedTags(names, tagMapping) <==> exists n :: n in names && n in tagMapping && tagMapping[n] == s
  {
    if names != [] {
      MappedTagsMembers(names[1..], tagMapping);
      assert forall n :: n in names <==> n == names[0] || n in names[1..];
    }
  }

  /** The tag slugs step 5 gives a selected row. */
  function RowTags(row: LegacyRow, tagMapping: map<string, string>): seq<string>
    requires HasTagString(row)
  {
    MappedTags(TagNames(row.tags.value), tagMapping)
  }

  predicate Taggable(row: LegacyRow, tagMapping: map<string, string>, ids: set<nat>) {
    HasTagString(row) && row.id in ids && RowTags(row, tagMapping) != []
  }

  function TaggableCount(rows: seq<LegacyRow>, tagMapping: map<string, string>, ids: set<nat>): (n: nat)
    ensures n <= |rows|
  {
    if rows == [] then 0
    else TaggableCount(rows[..|rows| - 1], tagMapping, ids) + (if Taggable(rows[|rows| - 1], tagMapping, ids) then 1 else 0)
  }

  /** The slugs of `names`. */
  function SlugsOf(names: seq<string>): (r: set<string>)
    ensures forall k :: 0 <= k < |names| ==> TagSlug(names[k]) in r
  {
    if names == [] then {}
    else
      var init := names[..|names| - 1];
      assert forall k :: 0 <= k < |init| ==> init[k] == names[k];
      SlugsOf(init) + {TagSlug(names[|names| - 1])}
  }

  /** No earlier name has the same slug as `names[k]`, so its `get_or_create` is the one that can create the row. */
  predicate FirstWithSlug(names: seq<string>, k: nat)
    requires k < |names|
  {
    forall j :: 0 <= j < k ==> TagSlug(names[j]) != TagSlug(names[k])
  }

  /** The tags step 5 sets on a selected row: `set(tag_objects)`. */
  function TagSet(row: LegacyRow, tagMapping: map<string, string>): set<string>
    requires HasTagString(row)
  {
    set s | s in RowTags(row, tagMapping)
  }

  /** A product's links after step 3. */
  function WithCategory(l: ProductLinks, slug: string): ProductLinks {
    l.(category := Some(slug), subcategory := Some((slug, DefaultSubcategorySlug)))
  }

  // ---------------------------------------------------------------------------
  // What each step leaves behind

  /** `category_mapping` once the first `n` categories are processed, as enum value to category slug. */
  function MappingBelow(n: nat): map<string, string>
    requires n <= |CategoryData|
  {
    if n == 0 then map[] else MappingBelow(n - 1)[CategoryData[n - 1].0 := CategorySlug(n - 1)]
  }

  /** The mapping has one entry per category processed, from its enum value to its slug. */
  lemma {:induction false} MappingBelowFacts(n: nat)
    requires n <= |CategoryData|
    ensures MappingBelow(n).Keys == ValuesBelow(n)
    ensures |MappingBelow(n)| == n
    ensures forall j :: 0 <= j < n ==> MappingBelow(n)[CategoryData[j].0] == CategorySlug(j)
  {
    if n > 0 {
      MappingBelowFacts(n - 1);
      CategoriesFresh(n - 1);
    }
  }

  /** `category_mapping` after step 1. */
  function CategoryMapping(): map<string, string> {
    MappingBelow(|CategoryData|)
  }

  /** Step 1 maps the five enum values to the five lowercase slugs. */
  lemma CategoryMappingSpelled()
    ensures CategoryMapping() == map["COOKIE" := "cookie", "SNACK" := "snack", "CAKE" := "cake", "SWEET" := "sweet", "HAMPER" := "hamper"]
  {
    CategorySlugsSpelled();
    assert MappingBelow(2) == map["COOKIE" := "cookie", "SNACK" := "snack"];
    assert MappingBelow(4) == map["COOKIE" := "cookie", "SNACK" := "snack", "CAKE" := "cake", "SWEET" := "sweet"];
  }

  /** The category table once the first `n` categories have been through `get_or_create`. */
  function CategoriesAfter(before: map<string, CategoryRow>, n: nat): map<string, CategoryRow>
    requires n <= |CategoryData|
  {
    if n == 0 then before
    else
      var prev := CategoriesAfter(before, n - 1);
      var slug := CategorySlug(n - 1);
      if slug in prev then prev else prev[slug := CategoryRow(slug, CategoryData[n - 1].1, true, n - 1)]
  }

  /**
   * Step 1 adds exactly the missing category slugs, leaves existing rows as
   * they were, and a created row has the display name, is active and has
   * its position as `order`.
   */
  lemma {:induction false} CategoriesAfterFacts(before: map<string, CategoryRow>, n: nat)
    requires n <= |CategoryData|
    ensures CategoriesAfter(before, n).Keys == before.Keys + SlugsBelow(n)
    ensures forall s :: s in before ==> CategoriesAfter(before, n)[s] == before[s]
    ensures forall j :: 0 <= j < n && CategorySlug(j) !in before ==>
      CategoriesAfter(before, n)[CategorySlug(j)] == CategoryRow(CategorySlug(j), CategoryData[j].1, true, j)
  {
    if n > 0 {
      CategoriesAfterFacts(before, n - 1);
      CategoriesFresh(n - 1);
    }
  }

  /** Every category slug has a row. */
  predicate HasAllCategories(categories: map<string, CategoryRow>) {
    forall j :: 0 <= j < |CategoryData| ==> CategorySlug(j) in categories
  }

  /** The subcategory table once the first `n` categories have had their default subcategory made. */
  function DefaultsAfter(before: map<(string, string), SubcategoryRow>, categories: map<string, CategoryRow>, n: nat)
    : map<(string, string), SubcategoryRow>
    requires n <= |CategoryData| && HasAllCategories(categories)
  {
    if n == 0 then before
    else
      var prev := DefaultsAfter(before, categories, n - 1);
      var slug := CategorySlug(n - 1);
      var key := (slug, DefaultSubcategorySlug);
      if key in prev then prev
      else prev[key := SubcategoryRow(slug, DefaultSubcategorySlug, categories[slug].name + " - Default", true, 0)]
  }

  /** Step 2 adds exactly the missing `default` subcategories and leaves existing rows as they were. */
  lemma {:induction false} DefaultsAfterKeeps(before: map<(string, string), SubcategoryRow>, categories: map<string, CategoryRow>, n: nat)
    requires n <= |CategoryData| && HasAllCategories(categories)
    ensures DefaultsAfter(before, categories, n).Keys == before.Keys + DefaultKeysBelow(n)
    ensures forall k :: k in before ==> DefaultsAfter(before, categories, n)[k] == before[k]
  {
    if n > 0 {
      DefaultsAfterKeeps(before, categories, n - 1);
    }
  }

  /** A created default subcategory is named after its category's row, is active and has `order` 0. */
  lemma {:induction false} DefaultsAfterCreates(before: map<(string, string), SubcategoryRow>, categories: map<string, CategoryRow>,
                                                n: nat, j: nat)
    requires n <= |CategoryData| && HasAllCategories(categories)
    requires j < n && (CategorySlug(j), DefaultSubcategorySlug) !in before
    ensures (CategorySlug(j), DefaultSubcategorySlug) in DefaultsAfter(before, categories, n)
    ensures DefaultsAfter(before, categories, n)[(CategorySlug(j), DefaultSubcategorySlug)]
      == SubcategoryRow(CategorySlug(j), DefaultSubcategorySlug, categories[CategorySlug(j)].name + " - Default", true, 0)
  {
    CategoriesFresh(n - 1);
    if j < n - 1 {
      DefaultsAfterCreates(before, categories, n - 1, j);
    } else {
      DefaultsAfterKeeps(before, categories, n - 1);
    }
  }

  /** `subcategory_mapping` once the first `n` categories are processed, as category slug to subcategory key. */
  function SubMappingBelow(n: nat): map<string, (string, string)>
    requires n <= |CategoryData|
  {
    if n == 0 then map[] else SubMappingBelow(n - 1)[CategorySlug(n - 1) := (CategorySlug(n - 1), DefaultSubcategorySlug)]
  }

  /** The subcategory mapping has one entry per category, to that category's default subcategory. */
  lemma {:induction false} SubMappingBelowFacts(n: nat)
    requires n <= |CategoryData|
    ensures SubMappingBelow(n).Keys == SlugsBelow(n)
    ensures |SubMappingBelow(n)| == n
    ensures forall j :: 0 <= j < n ==> SubMappingBelow(n)[CategorySlug(j)] == (CategorySlug(j), DefaultSubcategorySlug)
  {
    if n > 0 {
      SubMappingBelowFacts(n - 1);
      CategoriesFresh(n - 1);
    }
  }

  /** The product links after step 3 has handled `rows`. */
  function CategorizedLinks(before: map<nat, ProductLinks>, rows: seq<LegacyRow>, mapping: map<string, string>)
    : (r: map<nat, ProductLinks>)
    ensures r.Keys == before.Keys
  {
    if rows == [] then before
    else
      var prev := CategorizedLinks(before, rows[..|rows| - 1], mapping);
      var row := rows[|rows| - 1];
      if Migratable(row, mapping, before.Keys) then prev[row.id := WithCategory(prev[row.id], mapping[row.category.value])]
      else prev
  }

  /** Step 3 gives a product with a mapped legacy category that category and its default subcategory. */
  lemma {:induction false} CategorizedLinksSets(before: map<nat, ProductLinks>, rows: seq<LegacyRow>, mapping: map<string, string>, k: nat)
    requires UniqueIds(rows)
    requires k < |rows| && Migratable(rows[k], mapping, before.Keys)
    ensures CategorizedLinks(before, rows, mapping)[rows[k].id] == WithCategory(before[rows[k].id], mapping[rows[k].category.value])
  {
    var last := |rows| - 1;
    if k < last {
      var init := rows[..last];
      assert init[k] == rows[k];
      assert rows[k].id != rows[last].id;
      UniqueIdsPrefix(rows, last);
      CategorizedLinksSets(before, init, mapping, k);
    } else {
      var init := rows[..last];
      assert forall j :: 0 <= j < |init| ==> init[j] == rows[j] && init[j].id != rows[k].id;
      CategorizedLinksKeeps(before, init, mapping, rows[k].id);
    }
  }

  /** Step 3 leaves a product alone unless it has a mapped legacy category. */
  lemma {:induction false} CategorizedLinksKeeps(before: map<nat, ProductLinks>, rows: seq<LegacyRow>, mapping: map<string, string>, id: nat)
    requires id in before
    requires forall k :: 0 <= k < |rows| && rows[k].id == id ==> !Migratable(rows[k], mapping, before.Keys)
    ensures CategorizedLinks(before, rows, mapping)[id] == before[id]
  {
    if rows != [] {
      var init := rows[..|rows| - 1];
      assert forall k :: 0 <= k < |init| ==> init[k] == rows[k];
      CategorizedLinksKeeps(before, init, mapping, id);
    }
  }

  /** `tag_mapping` after `get_or_create` of each of `names` in turn, as name to tag slug. */
  function TagMappingOf(names: seq<string>): map<string, string> {
    if names == [] then map[]
    else TagMappingOf(names[..|names| - 1])[names[|names| - 1] := TagSlug(names[|names| - 1])]
  }

  /** Every name is mapped, to its own slug, and nothing else is. */
  lemma {:induction false} TagMappingFacts(names: seq<string>)
    ensures forall n :: n in TagMappingOf(names) <==> n in names
    ensures forall n :: n in TagMappingOf(names) ==> TagMappingOf(names)[n] == TagSlug(n)
  {
    if names != [] {
      var init := names[..|names| - 1];
      TagMappingFacts(init);
      assert names == init + [names[|names| - 1]];
    }
  }

  /** The tag table after `get_or_create` by slug of each of `names` in turn. */
  function TagsAfter(before: map<string, TagRow>, names: seq<string>): map<string, TagRow> {
    if names == [] then before
    else
      var prev := TagsAfter(before, names[..|names| - 1]);
      var name := names[|names| - 1];
      var slug := TagSlug(name);
      if slug in prev then prev else prev[slug := TagRow(slug, name, true)]
  }

  /** A slug of `names` is the slug of one of them. */
  lemma {:induction false} SlugsOfFrom(names: seq<string>, s: string) returns (k: nat)
    requires s in SlugsOf(names)
    ensures k < |names| && TagSlug(names[k]) == s
  {
    var last := |names| - 1;
    if TagSlug(names[last]) == s {
      k := last;
    } else {
      var init := names[..last];
      k := SlugsOfFrom(init, s);
      assert init[k] == names[k];
    }
  }

  /** Step 4 adds exactly the missing slugs and leaves existing tags as they were. */
  lemma {:induction false} TagsAfterKeeps(before: map<string, TagRow>, names: seq<string>)
    ensures TagsAfter(before, names).Keys == before.Keys + SlugsOf(names)
    ensures forall s :: s in before ==> TagsAfter(before, names)[s] == before[s]
  {
    if names != [] {
      TagsAfterKeeps(before, names[..|names| - 1]);
    }
  }

  /** A tag step 4 creates carries the first name (in processing order) with that slug. */
  lemma {:induction false} TagsAfterCreates(before: map<string, TagRow>, names: seq<string>, k: nat)
    requires k < |names| && FirstWithSlug(names, k) && TagSlug(names[k]) !in before
    ensures TagSlug(names[k]) in TagsAfter(before, names)
    ensures TagsAfter(before, names)[TagSlug(names[k])] == TagRow(TagSlug(names[k]), names[k], true)
  {
    var last := |names| - 1;
    var init := names[..last];
    var slug := TagSlug(names[last]);
    if k == last {
      TagsAfterKeeps(before, init);
      if slug in SlugsOf(init) {
        var j := SlugsOfFrom(init, slug);
        assert false;
      }
    } else {
      assert init[k] == names[k];
      assert FirstWithSlug(init, k) by {
        forall j | 0 <= j < k ensures TagSlug(init[j]) != TagSlug(init[k]) {
          assert init[j] == names[j];
        }
      }
      TagsAfterCreates(before, init, k);
    }
  }

  // ---------------------------------------------------------------------------
  // Unique names: `Category.name` and `Tag.name` are `unique=True`

  /** The five display names are pairwise distinct. */
  lemma CategoryNamesDistinct()
    ensures forall i, j :: 0 <= i < j < |CategoryData| ==> CategoryData[i].1 != CategoryData[j].1
  {
  }

  /** No two rows of a category table share a name. */
  predicate UniqueCategoryNames(t: map<string, CategoryRow>) {
    forall s, s' :: s in t && s' in t && s != s' ==> t[s].name != t[s'].name
  }

  /** No two rows of a tag table share a name. */
  predicate UniqueTagNames(t: map<string, TagRow>) {
    forall s, s' :: s in t && s' in t && s != s' ==> t[s].name != t[s'].name
  }

  /** Some row of the table has the name. */
  predicate HasCategoryName(t: map<string, CategoryRow>, name: string) {
    exists s :: s in t && t[s].name == name
  }

  predicate HasTagName(t: map<string, TagRow>, name: string) {
    exists s :: s in t && t[s].name == name
  }

  /**
   * The `get_or_create` of category `j` inserts a row, because no stored row
   * has its slug, while a stored row already has its name: the insert
   * raises `IntegrityError`.
   */
  predicate CategoryNameTaken(before: map<string, CategoryRow>, j: nat)
    requires j < |CategoryData|
  {
    CategorySlug(j) !in before && HasCategoryName(before, CategoryData[j].1)
  }

  /** Step 1 raises `IntegrityError` at one of the first `n` categories. */
  predicate CategoryConflict(before: map<string, CategoryRow>, n: nat)
    requires n <= |CategoryData|
  {
    exists j :: 0 <= j < n && CategoryNameTaken(before, j)
  }

  /** The test the loop makes on the table built so far is the test on the stored table. */
  lemma CategoryNameTakenAt(before: map<string, CategoryRow>, i: nat)
    requires i < |CategoryData|
    ensures var t := CategoriesAfter(before, i);
      (CategorySlug(i) !in t && HasCategoryName(t, CategoryData[i].1)) <==> CategoryNameTaken(before, i)
  {
    var t := CategoriesAfter(before, i);
    CategoriesAfterFacts(before, i);
    CategoriesFresh(i);
    CategoryNamesDistinct();
    forall s | s in t && s !in before ensures t[s].name != CategoryData[i].1 {
      var j := SlugsBelowFrom(i, s);
      assert t[s] == CategoryRow(s, CategoryData[j].1, true, j);
    }
  }

  /** Without a conflict, step 1 keeps category names unique. */
  lemma {:induction false} CategoriesAfterNamesUnique(before: map<string, CategoryRow>, n: nat)
    requires n <= |CategoryData| && UniqueCategoryNames(before) && !CategoryConflict(before, n)
    ensures UniqueCategoryNames(CategoriesAfter(before, n))
  {
    if n > 0 {
      assert !CategoryConflict(before, n - 1);
      CategoriesAfterNamesUnique(before, n - 1);
      CategoryNameTakenAt(before, n - 1);
      assert !CategoryNameTaken(before, n - 1);
      var prev := CategoriesAfter(before, n - 1);
      var slug := CategorySlug(n - 1);
      if slug !in prev {
        var row := CategoryRow(slug, CategoryData[n - 1].1, true, n - 1);
        assert forall s :: s in prev ==> prev[s].name != row.name;
        assert CategoriesAfter(before, n) == prev[slug := row];
      }
    }
  }

  /** A stored category named `Cookie` under the slug `cookies` makes step 1 fail. */
  lemma CookieNameTaken()
    ensures CategoryConflict(map["cookies" := CategoryRow("cookies", "Cookie", true, 0)], |CategoryData|)
  {
    var before := map["cookies" := CategoryRow("cookies", "Cookie", true, 0)];
    CategorySlugsSpelled();
    assert before["cookies"].name == CategoryData[0].1;
    assert CategoryNameTaken(before, 0);
  }

  /** A created tag row is keyed by the slug of the name it carries. */
  lemma {:induction false} TagsAfterRowSlugs(before: map<string, TagRow>, names: seq<string>)
    ensures forall s :: s in TagsAfter(before, names) && s !in before ==> TagSlug(TagsAfter(before, names)[s].name) == s
  {
    if names != [] {
      TagsAfterRowSlugs(before, names[..|names| - 1]);
    }
  }

  /**
   * The `get_or_create` of `names[k]` inserts a row, because neither a stored
   * row nor an earlier name has its slug, while a stored row already has
   * that name: the insert raises `IntegrityError`.
   */
  predicate TagNameTaken(before: map<string, TagRow>, names: seq<string>, k: nat)
    requires k < |names|
  {
    TagSlug(names[k]) !in before && FirstWithSlug(names, k) && HasTagName(before, names[k])
  }

  /** Step 4 raises `IntegrityError` at one of the first `n` names. */
  predicate TagConflictBelow(before: map<string, TagRow>, names: seq<string>, n: nat)
    requires n <= |names|
  {
    exists k :: 0 <= k < n && TagNameTaken(before, names, k)
  }

  predicate TagConflict(before: map<string, TagRow>, names: seq<string>) {
    TagConflictBelow(before, names, |names|)
  }

  /** The test the loop makes on the table built so far is the test on the stored table. */
  lemma TagNameTakenAt(before: map<string, TagRow>, names: seq<string>, i: nat)
    requires i < |names|
    ensures var t := TagsAfter(before, names[..i]);
      (TagSlug(names[i]) !in t && HasTagName(t, names[i])) <==> TagNameTaken(before, names, i)
  {
    var prefix := names[..i];
    var slug := TagSlug(names[i]);
    TagsAfterKeeps(before, prefix);
    TagsAfterRowSlugs(before, prefix);
    if slug in SlugsOf(prefix) {
      var j := SlugsOfFrom(prefix, slug);
      assert prefix[j] == names[j];
      assert !FirstWithSlug(names, i);
    } else {
      forall j | 0 <= j < i ensures TagSlug(names[j]) != slug {
        assert prefix[j] == names[j];
      }
    }
  }

  /** Without a conflict, step 4 keeps tag names unique. */
  lemma {:induction false} TagsAfterNamesUnique(before: map<string, TagRow>, names: seq<string>, n: nat)
    requires n <= |names| && UniqueTagNames(before) && !TagConflictBelow(before, names, n)
    ensures UniqueTagNames(TagsAfter(before, names[..n]))
  {
    if n > 0 {
      assert !TagConflictBelow(before, names, n - 1);
      TagsAfterNamesUnique(before, names, n - 1);
      TagNameTakenAt(before, names, n - 1);
      assert !TagNameTaken(before, names, n - 1);
      assert names[..n][..n - 1] == names[..n - 1];
    }
  }

  /** A stored tag `Gift Box` under the slug `gifts` makes step 4 fail on the name `Gift Box`. */
  lemma GiftBoxNameTaken()
    ensures TagConflict(map["gifts" := TagRow("gifts", "Gift Box", true)], ["Gift Box"])
  {
    var before := map["gifts" := TagRow("gifts", "Gift Box", true)];
    assert |TagSlug("Gift Box")| == 8;
    assert "gifts" in before && before["gifts"].name == ["Gift Box"][0];
    assert TagNameTaken(before, ["Gift Box"], 0);
  }

  /** Steps 1 and 4 together: whether the transaction raises `IntegrityError`. */
  ghost predicate NameConflict(categories: map<string, CategoryRow>, tags: map<string, TagRow>,
                               rows: seq<LegacyRow>, hasOldTagsField: bool) {
    CategoryConflict(categories, |CategoryData|) || (hasOldTagsField && TagConflict(tags, SortedNames(AllTagNames(rows))))
  }

  /**
   * The product links once each of `rows` in turn whose product exists and
   * for which `tagsOf` gives a set has had its tags set to that set.
   */
  function SetTags(before: map<nat, ProductLinks>, rows: seq<LegacyRow>, tagsOf: LegacyRow -> Option<set<string>>)
    : (r: map<nat, ProductLinks>)
    ensures r.Keys == before.Keys
  {
    if rows == [] then before
    else
      var prev := SetTags(before, rows[..|rows| - 1], tagsOf);
      var row := rows[|rows| - 1];
      var t := tagsOf(row);
      if t.Some? && row.id in prev then prev[row.id := prev[row.id].(tags := t.value)] else prev
  }

  /** With unique ids, a row's product ends up with exactly the set `tagsOf` gives it. */
  lemma {:induction false} SetTagsSets(before: map<nat, ProductLinks>, rows: seq<LegacyRow>, tagsOf: LegacyRow -> Option<set<string>>, k: nat)
    requires UniqueIds(rows)
    requires k < |rows| && rows[k].id in before && tagsOf(rows[k]).Some?
    ensures SetTags(before, rows, tagsOf)[rows[k].id] == before[rows[k].id].(tags := tagsOf(rows[k]).value)
  {
    var last := |rows| - 1;
    var init := rows[..last];
    if k < last {
      assert init[k] == rows[k];
      assert rows[k].id != rows[last].id;
      UniqueIdsPrefix(rows, last);
      SetTagsSets(before, init, tagsOf, k);
    } else {
      assert forall j :: 0 <= j < |init| ==> init[j] == rows[j] && init[j].id != rows[k].id;
      SetTagsKeeps(before, init, tagsOf, rows[k].id);
    }
  }

  /** A product no row gives a set keeps its links. */
  lemma {:induction false} SetTagsKeeps(before: map<nat, ProductLinks>, rows: seq<LegacyRow>, tagsOf: LegacyRow -> Option<set<string>>, id: nat)
    requires id in before
    requires forall k :: 0 <= k < |rows| && rows[k].id == id ==> tagsOf(rows[k]).None?
    ensures SetTags(before, rows, tagsOf)[id] == before[id]
  {
    if rows != [] {
      var init := rows[..|rows| - 1];
      assert forall k :: 0 <= k < |init| ==> init[k] == rows[k];
      SetTagsKeeps(before, init, tagsOf, id);
    }
  }

  /** The tags step 5 gives a row: its known tags when it is selected and has one. */
  function TagsOf(tagMapping: map<string, string>, ids: set<nat>): LegacyRow -> Option<set<string>> {
    row => if Taggable(row, tagMapping, ids) then Some(TagSet(row, tagMapping)) else None
  }

  /** The product links after step 5 has handled `rows`. */
  function TaggedLinks(before: map<nat, ProductLinks>, rows: seq<LegacyRow>, tagMapping: map<string, string>)
    : (r: map<nat, ProductLinks>)
    ensures r.Keys == before.Keys
  {
    SetTags(before, rows, TagsOf(tagMapping, before.Keys))
  }

  /** One more row handled by step 5. */
  lemma TaggedLinksStep(before: map<nat, ProductLinks>, rows: seq<LegacyRow>, tagMapping: map<string, string>, i: nat)
    requires i < |rows|
    ensures var prev := TaggedLinks(before, rows[..i], tagMapping);
      TaggedLinks(before, rows[..i + 1], tagMapping)
      == if Taggable(rows[i], tagMapping, before.Keys) then prev[rows[i].id := prev[rows[i].id].(tags := TagSet(rows[i], tagMapping))] else prev
  {
    assert rows[..i + 1][..i] == rows[..i];
  }

  /** Step 5 gives a selected product with at least one known tag exactly those tags. */
  lemma TaggedLinksSets(before: map<nat, ProductLinks>, rows: seq<LegacyRow>, tagMapping: map<string, string>, k: nat)
    requires UniqueIds(rows)
    requires k < |rows| && Taggable(rows[k], tagMapping, before.Keys)
    ensures TaggedLinks(before, rows, tagMapping)[rows[k].id] == before[rows[k].id].(tags := TagSet(rows[k], tagMapping))
  {
    SetTagsSets(before, rows, TagsOf(tagMapping, before.Keys), k);
  }

  /** Step 5 leaves a product alone unless it is selected and has a known tag. */
  lemma TaggedLinksKeeps(before: map<nat, ProductLinks>, rows: seq<LegacyRow>, tagMapping: map<string, string>, id: nat)
    requires id in before
    requires forall k :: 0 <= k < |rows| && rows[k].id == id ==> !Taggable(rows[k], tagMapping, before.Keys)
    ensures TaggedLinks(before, rows, tagMapping)[id] == before[id]
  {
    SetTagsKeeps(before, rows, TagsOf(tagMapping, before.Keys), id);
  }

  /** `tag_mapping` once every name of `names` is mapped, whatever the processing order. */
  function TagMapFor(names: set<string>): (r: map<string, string>)
    ensures r.Keys == names
  {
    map n | n in names :: TagSlug(n)
  }

  // ---------------------------------------------------------------------------
  // The command

  /** The tables the command reads and writes. */
  /** The links a real run leaves: step 3 when the category column is taken as legacy, then step 5 when the tags column is. */
  function LinksAfter(before: map<nat, ProductLinks>, rows: seq<LegacyRow>, hasOldCategoryField: bool,
                      hasOldTagsField: bool): (r: map<nat, ProductLinks>)
    ensures r.Keys == before.Keys
    ensures !hasOldCategoryField && !hasOldTagsField ==> r == before
  {
    var categorized := if hasOldCategoryField then CategorizedLinks(before, rows, CategoryMapping()) else before;
    if hasOldTagsField then TaggedLinks(categorized, rows, TagMapFor(AllTagNames(rows))) else categorized
  }

  // ---------------------------------------------------------------------------
  // Detecting the legacy columns

  /** An entry of `Product._meta.get_fields()`: its name and whether it is a relation. */
  datatype ModelField = ModelField(name: string, isRelation: bool)

  /** `Product._meta.get_field(name)`: the first field of that name. */
  function FieldNamed(fields: seq<ModelField>, name: string): (r: Option<nat>)
    ensures r.Some? <==> exists i :: 0 <= i < |fields| && fields[i].name == name
    ensures r.Some? ==> r.value < |fields| && fields[r.value].name == name
    ensures r.Some? ==> forall j :: 0 <= j < r.value ==> fields[j].name != name
  {
    if |fields| == 0 then None
    else if fields[0].name == name then Some(0)
    else match FieldNamed(fields[1..], name)
         case None => None
         case Some(i) => Some(i + 1)
  }

  /**
   * `hasattr(field, 'related_model')`. Django's `Field` defines
   * `related_model` on every field, `None` unless the field is a relation,
   * so the attribute is always there.
   */
  predicate HasRelatedModelAttribute(f: ModelField) {
    true
  }

  /**
   * `has_old_category_field` and `has_old_tags_field` as written:
   * `name in field_names and not hasattr(get_field(name), 'related_model')`.
   * No field passes the second test, so both flags are always false.
   */
  function LegacyColumnAsWritten(fields: seq<ModelField>, name: string): (r: bool)
    ensures !r
  {
    var i := FieldNamed(fields, name);
    i.Some? && !HasRelatedModelAttribute(fields[i.value])
  }

  /**
   * The test the comments ask for ("CharField, not ForeignKey", "CharField,
   * not ManyToMany"): a field of that name that is not a relation.
   */
  function LegacyColumn(fields: seq<ModelField>, name: string): (r: bool)
    ensures r ==> exists i :: 0 <= i < |fields| && fields[i].name == name && !fields[i].isRelation
    ensures (forall i :: 0 <= i < |fields| && fields[i].name == name ==> fields[i].isRelation) ==> !r
    ensures |fields| > 0 && fields[0].name == name ==> (r <==> !fields[0].isRelation)
  {
    var i := FieldNamed(fields, name);
    i.Some? && !fields[i.value].isRelation
  }

  /** A `Product` that still has its legacy `category` column is migrated by the intended test and skipped as written. */
  lemma LegacyCharFieldMissed(fields: seq<ModelField>)
    requires |fields| > 0 && fields[0] == ModelField("category", false)
    ensures LegacyColumn(fields, "category") && !LegacyColumnAsWritten(fields, "category")
  {
  }

  class Database {
    var categories: map<string, CategoryRow>
    var subcategories: map<(string, string), SubcategoryRow>
    var tags: map<string, TagRow>
    var links: map<nat, ProductLinks>

    constructor (categories: map<string, CategoryRow>, subcategories: map<(string, string), SubcategoryRow>,
                 tags: map<string, TagRow>, links: map<nat, ProductLinks>)
      ensures this.categories == categories && this.subcategories == subcategories
      ensures this.tags == tags && this.links == links
    {
      this.categories := categories;
      this.subcategories := subcategories;
      this.tags := tags;
      this.links := links;
    }

    /**
     * Step 1: `get_or_create` of each category, with `order` the number of
     * categories mapped so far. `conflict` is the `IntegrityError` of an
     * insert whose name is already taken; the step stops there.
     */
    method CreateCategories() returns (mapping: map<string, string>, conflict: bool)
      modifies this`categories
      ensures conflict <==> CategoryConflict(old(categories), |CategoryData|)
      ensures !conflict ==> mapping == CategoryMapping() && |mapping| == |CategoryData|
      ensures !conflict ==> categories == CategoriesAfter(old(categories), |CategoryData|)
      ensures !conflict ==> HasAllCategories(categories)
    {
      mapping, conflict := map[], false;
      var i := 0;
      while i < |CategoryData|
        invariant 0 <= i <= |CategoryData|
        invariant mapping == MappingBelow(i)
        invariant categories == CategoriesAfter(old(categories), i)
        invariant !CategoryConflict(old(categories), i)
      {
        MappingBelowFacts(i);
        conflict := CreateCategory(old(categories), i, |mapping|);
        if conflict {
          return;
        }
        mapping := mapping[CategoryData[i].0 := ToLower(CategoryData[i].0)];
        i := i + 1;
      }
      MappingBelowFacts(i);
      CategoriesAfterFacts(old(categories), |CategoryData|);
    }

    /** The `get_or_create` of category `i`, whose `order` is the size of the mapping so far. */
    method CreateCategory(ghost before: map<string, CategoryRow>, i: nat, order: nat) returns (conflict: bool)
      requires i < |CategoryData| && order == i && categories == CategoriesAfter(before, i)
      modifies this`categories
      ensures conflict <==> CategoryNameTaken(before, i)
      ensures !conflict ==> categories == CategoriesAfter(before, i + 1)
    {
      var (value, name) := CategoryData[i];
      var slug := ToLower(value);
      CategoryNameTakenAt(before, i);
      conflict := false;
      if slug !in categories {
        if HasCategoryName(categories, name) {
          return true;
        }
        categories := categories[slug := CategoryRow(slug, name, true, order)];
      }
    }

    /** Step 2: `get_or_create` of the subcategory `default` of each category, named after the category row. */
    method CreateDefaultSubcategories(mapping: map<string, string>) returns (subMapping: map<string, (string, string)>)
      requires mapping == CategoryMapping() && HasAllCategories(categories)
      modifies this`subcategories
      ensures subMapping == SubMappingBelow(|CategoryData|) && |subMapping| == |CategoryData|
      ensures subcategories == DefaultsAfter(old(subcategories), categories, |CategoryData|)
    {
      MappingBelowFacts(|CategoryData|);
      subMapping := map[];
      var i := 0;
      while i < |CategoryData|
        invariant 0 <= i <= |CategoryData|
        invariant subMapping == SubMappingBelow(i)
        invariant subcategories == DefaultsAfter(old(subcategories), categories, i)
      {
        var slug := mapping[CategoryData[i].0];
        var category := categories[slug];
        var key := (slug, DefaultSubcategorySlug);
        if key !in subcategories {
          subcategories := subcategories[key := SubcategoryRow(slug, DefaultSubcategorySlug, category.name + " - Default", true, 0)];
        }
        subMapping := subMapping[slug := key];
        i := i + 1;
      }
      SubMappingBelowFacts(i);
    }

    /** Step 3: every product whose legacy category is mapped gets that category and its default subcategory. */
    method MigrateProducts(rows: seq<LegacyRow>, mapping: map<string, string>, dryRun: bool) returns (count: nat)
      modifies this`links
      ensures count == MigratableCount(rows, mapping, old(links).Keys)
      ensures dryRun ==> links == old(links)
      ensures !dryRun ==> links == CategorizedLinks(old(links), rows, mapping)
    {
      count := 0;
      var i := 0;
      while i < |rows|
        invariant 0 <= i <= |rows|
        invariant count == MigratableCount(rows[..i], mapping, old(links).Keys)
        invariant links.Keys == old(links).Keys
        invariant dryRun ==> links == old(links)
        invariant !dryRun ==> links == CategorizedLinks(old(links), rows[..i], mapping)
      {
        var row := rows[i];
        assert rows[..i + 1][..i] == rows[..i] && rows[..i + 1][i] == row;
        if row.category.Some? && row.category.value in mapping && row.id in links {
          var slug := mapping[row.category.value];
          if !dryRun {
            links := links[row.id := WithCategory(links[row.id], slug)];
          }
          count := count + 1;
        }
        i := i + 1;
      }
      assert rows[..i] == rows;
    }

    /** `all_tags.update(tags_list)`, keeping the names gathered so far free of repeats. */
    static method AddNames(allTags: seq<string>, names: seq<string>) returns (r: seq<string>)
      requires Distinct(allTags)
      ensures Distinct(r)
      ensures forall n :: n in r <==> n in allTags || n in names
    {
      r := allTags;
      var k := 0;
      while k < |names|
        invariant 0 <= k <= |names|
        invariant Distinct(r)
        invariant forall n :: n in r <==> n in allTags || n in names[..k]
      {
        if names[k] !in r {
          r := r + [names[k]];
        }
        assert names[..k + 1] == names[..k] + [names[k]];
        k := k + 1;
      }
      assert names[..k] == names;
    }

    /** Step 4, first half: `all_tags`, gathered row by row without repeats. */
    static method CollectTagNames(rows: seq<LegacyRow>) returns (allTags: seq<string>)
      ensures Distinct(allTags)
      ensures forall n :: n in allTags <==> n in AllTagNames(rows)
    {
      allTags := [];
      var i := 0;
      while i < |rows|
        invariant 0 <= i <= |rows|
        invariant Distinct(allTags)
        invariant forall n :: n in allTags <==> n in AllTagNames(rows[..i])
      {
        assert rows[..i + 1][..i] == rows[..i] && rows[..i + 1][i] == rows[i];
        if HasTagString(rows[i]) {
          allTags := AddNames(allTags, TagNames(rows[i].tags.value));
        }
        i := i + 1;
      }
      assert rows[..i] == rows;
    }

    /**
     * Step 4, second half: `get_or_create` of a tag per name, by slug, in the
     * order given. `conflict` is the `IntegrityError` of an insert whose name
     * is already taken; the step stops there.
     */
    method CreateTags(names: seq<string>) returns (tagMapping: map<string, string>, conflict: bool)
      modifies this`tags
      ensures conflict <==> TagConflict(old(tags), names)
      ensures !conflict ==> tagMapping == TagMappingOf(names)
      ensures !conflict ==> tags == TagsAfter(old(tags), names)
    {
      tagMapping, conflict := map[], false;
      var i := 0;
      while i < |names|
        invariant 0 <= i <= |names|
        invariant tagMapping == TagMappingOf(names[..i])
        invariant tags == TagsAfter(old(tags), names[..i])
        invariant !TagConflictBelow(old(tags), names, i)
      {
        var name := names[i];
        var slug := TagSlug(name);
        TagNameTakenAt(old(tags), names, i);
        if slug !in tags {
          if HasTagName(tags, name) {
            conflict := true;
            return;
          }
          tags := tags[slug := TagRow(slug, name, true)];
        }
        tagMapping := tagMapping[name := slug];
        assert names[..i + 1][..i] == names[..i];
        i := i + 1;
      }
      assert names[..i] == names;
    }

    /** Step 5: every selected product with at least one known tag gets exactly those tags. */
    method MigrateProductTags(rows: seq<LegacyRow>, tagMapping: map<string, string>, dryRun: bool) returns (count: nat)
      modifies this`links
      ensures count == TaggableCount(rows, tagMapping, old(links).Keys)
      ensures dryRun ==> links == old(links)
      ensures !dryRun ==> links == TaggedLinks(old(links), rows, tagMapping)
    {
      count := 0;
      var i := 0;
      while i < |rows|
        invariant 0 <= i <= |rows|
        invariant count == TaggableCount(rows[..i], tagMapping, old(links).Keys)
        invariant links.Keys == old(links).Keys
        invariant dryRun ==> links == old(links)
        invariant !dryRun ==> links == TaggedLinks(old(links), rows[..i], tagMapping)
      {
        var row := rows[i];
        assert rows[..i + 1][..i] == rows[..i] && rows[..i + 1][i] == row;
        TaggedLinksStep(old(links), rows, tagMapping, i);
        if HasTagString(row) && row.id in links {
          var tagObjects := RowTags(row, tagMapping);
          if tagObjects != [] {
            if !dryRun {
              links := links[row.id := links[row.id].(tags := set t | t in tagObjects)];
            }
            count := count + 1;
          }
        }
        i := i + 1;
      }
      assert rows[..i] == rows;
    }

    /**
     * Steps 4 and 5 when the legacy `tags` column exists: gather `all_tags`,
     * `get_or_create` a tag per name in sorted order, then set each selected
     * product's tags.
     */
    method MigrateTags(rows: seq<LegacyRow>, dryRun: bool) returns (tagCount: nat, tagged: nat, conflict: bool)
      modifies this`tags, this`links
      ensures conflict <==> TagConflict(old(tags), SortedNames(AllTagNames(rows)))
      ensures !conflict ==> tagCount == |AllTagNames(rows)|
      ensures !conflict ==> tagged == TaggableCount(rows, TagMapFor(AllTagNames(rows)), old(links).Keys)
      ensures !conflict ==> tags == TagsAfter(old(tags), SortedNames(AllTagNames(rows)))
      ensures !conflict ==> forall s :: s in old(tags) ==> s in tags && tags[s] == old(tags)[s]
      ensures !conflict ==> forall n :: n in AllTagNames(rows) ==> TagSlug(n) in tags
      ensures !conflict && dryRun ==> links == old(links)
      ensures !conflict && !dryRun ==> links == TaggedLinks(old(links), rows, TagMapFor(AllTagNames(rows)))
    {
      var allTags := CollectTagNames(rows);
      var sortedTags := SortNames(allTags);
      SortedUnique(sortedTags, SortedNames(AllTagNames(rows)));
      var tagMapping;
      tagMapping, conflict := CreateTags(sortedTags);
      tagCount, tagged := 0, 0;
      if conflict {
        return;
      }
      assert tagMapping == TagMapFor(AllTagNames(rows)) by {
        TagMappingFacts(sortedTags);
      }
      assert forall n :: n in AllTagNames(rows) ==> TagSlug(n) in tags by {
        TagsAfterKeeps(old(tags), sortedTags);
        forall n | n in AllTagNames(rows) ensures TagSlug(n) in tags {
          var k :| 0 <= k < |sortedTags| && sortedTags[k] == n;
        }
      }
      assert forall s :: s in old(tags) ==> s in tags && tags[s] == old(tags)[s] by {
        TagsAfterKeeps(old(tags), sortedTags);
      }
      tagCount := |tagMapping|;
      tagged := MigrateProductTags(rows, tagMapping, dryRun);
    }

    /** Steps 1 to 3, reporting the sizes of both mappings and the number of products migrated. */
    method CategorySteps(rows: seq<LegacyRow>, hasOldCategoryField: bool, dryRun: bool)
      returns (categoryCount: nat, subcategoryCount: nat, migrated: nat, conflict: bool)
      modifies this`categories, this`subcategories, this`links
      ensures conflict <==> CategoryConflict(old(categories), |CategoryData|)
      ensures !conflict ==> categoryCount == |CategoryData| && subcategoryCount == |CategoryData|
      ensures !conflict ==>
        migrated == if hasOldCategoryField then MigratableCount(rows, CategoryMapping(), old(links).Keys) else 0
      ensures !conflict ==> categories == CategoriesAfter(old(categories), |CategoryData|)
      ensures !conflict ==>
        HasAllCategories(categories) && subcategories == DefaultsAfter(old(subcategories), categories, |CategoryData|)
      ensures !conflict && (!hasOldCategoryField || dryRun) ==> links == old(links)
      ensures !conflict && hasOldCategoryField && !dryRun ==> links == CategorizedLinks(old(links), rows, CategoryMapping())
    {
      categoryCount, subcategoryCount, migrated := 0, 0, 0;
      var mapping;
      mapping, conflict := CreateCategories();
      if conflict {
        return;
      }
      var subMapping := CreateDefaultSubcategories(mapping);
      migrated := 0;
      if hasOldCategoryField {
        migrated := MigrateProducts(rows, mapping, dryRun);
      }
      categoryCount, subcategoryCount := |mapping|, |subMapping|;
    }

    /**
     * The body of the transaction: steps 1 to 5 and the counts reported.
     * `conflict` is an `IntegrityError` raised by step 1 or step 4, which
     * ends the steps there.
     */
    method RunSteps(rows: seq<LegacyRow>, hasOldCategoryField: bool, hasOldTagsField: bool, dryRun: bool)
      returns (summary: Summary, conflict: bool)
      modifies this
      ensures conflict <==> NameConflict(old(categories), old(tags), rows, hasOldTagsField)
      ensures !conflict ==> summary.categories == |CategoryData| && summary.subcategories == |CategoryData|
      ensures !conflict ==>
        summary.productsMigrated == if hasOldCategoryField then MigratableCount(rows, CategoryMapping(), old(links).Keys) else 0
      ensures !conflict ==> summary.tags == if hasOldTagsField then |AllTagNames(rows)| else 0
      ensures !conflict ==>
        summary.productsWithTags == if hasOldTagsField then TaggableCount(rows, TagMapFor(AllTagNames(rows)), old(links).Keys) else 0
      ensures !conflict ==> categories == CategoriesAfter(old(categories), |CategoryData|)
      ensures !conflict ==>
        HasAllCategories(categories) && subcategories == DefaultsAfter(old(subcategories), categories, |CategoryData|)
      ensures !conflict ==> links.Keys == old(links).Keys
      ensures !conflict && dryRun ==> links == old(links)
      ensures !conflict && !dryRun ==> links == LinksAfter(old(links), rows, hasOldCategoryField, hasOldTagsField)
      ensures !conflict && !hasOldTagsField ==> tags == old(tags)
      ensures !conflict && hasOldTagsField ==> tags == TagsAfter(old(tags), SortedNames(AllTagNames(rows)))
      ensures !conflict && hasOldTagsField ==> forall n :: n in AllTagNames(rows) ==> TagSlug(n) in tags
    {
      summary := Summary(0, 0, 0, 0, 0);
      var categoryCount, subcategoryCount, migrated;
      categoryCount, subcategoryCount, migrated, conflict := CategorySteps(rows, hasOldCategoryField, dryRun);
      if conflict {
        return;
      }
      var tagCount, tagged := 0, 0;
      if hasOldTagsField {
        tagCount, tagged, conflict := MigrateTags(rows, dryRun);
        if conflict {
          return;
        }
      }
      summary := Summary(categoryCount, subcategoryCount, migrated, tagCount, tagged);
    }

    /**
     * The transaction of `handle` for given values of the two flags that
     * decide whether steps 3 and 5 run. An `IntegrityError` leaves the
     * `atomic` block, which rolls every table back, and the command fails.
     * In dry-run mode the transaction is rolled back too, so only the counts
     * remain.
     */
    method Handle(rows: seq<LegacyRow>, hasOldCategoryField: bool, hasOldTagsField: bool, dryRun: bool)
      returns (r: Result<Summary, MigrationError>)
      modifies this
      ensures r.Err? <==> NameConflict(old(categories), old(tags), rows, hasOldTagsField)
      ensures r.Ok? ==> r.value.categories == |CategoryData| && r.value.subcategories == |CategoryData|
      ensures r.Ok? ==>
        r.value.productsMigrated == if hasOldCategoryField then MigratableCount(rows, CategoryMapping(), old(links).Keys) else 0
      ensures r.Ok? ==> r.value.tags == if hasOldTagsField then |AllTagNames(rows)| else 0
      ensures r.Ok? ==>
        r.value.productsWithTags == if hasOldTagsField then TaggableCount(rows, TagMapFor(AllTagNames(rows)), old(links).Keys) else 0
      ensures dryRun || r.Err? ==> (categories == old(categories) && subcategories == old(subcategories)
                                    && tags == old(tags) && links == old(links))
      ensures !dryRun && r.Ok? ==> categories == CategoriesAfter(old(categories), |CategoryData|)
      ensures !dryRun && r.Ok? ==>
        HasAllCategories(categories) && subcategories == DefaultsAfter(old(subcategories), categories, |CategoryData|)
      ensures links.Keys == old(links).Keys
      ensures !dryRun && r.Ok? ==> links == LinksAfter(old(links), rows, hasOldCategoryField, hasOldTagsField)
      ensures !dryRun && r.Ok? && !hasOldTagsField ==> tags == old(tags)
      ensures !dryRun && r.Ok? && hasOldTagsField ==> tags == TagsAfter(old(tags), SortedNames(AllTagNames(rows)))
      ensures !dryRun && r.Ok? && hasOldTagsField ==> forall n :: n in AllTagNames(rows) ==> TagSlug(n) in tags
    {
      var savedCategories, savedSubcategories, savedTags, savedLinks := categories, subcategories, tags, links;
      var summary, conflict := RunSteps(rows, hasOldCategoryField, hasOldTagsField, dryRun);
      if dryRun || conflict {
        categories, subcategories, tags, links := savedCategories, savedSubcategories, savedTags, savedLinks;
      }
      r := if conflict then Err(IntegrityError) else Ok(summary);
    }

    /**
     * `handle` as written: the flags come from `LegacyColumnAsWritten`, which
     * is always false, so no product is linked to a category or to tags.
     */
    method HandleAsWritten(fields: seq<ModelField>, rows: seq<LegacyRow>, dryRun: bool)
      returns (r: Result<Summary, MigrationError>)
      modifies this
      ensures r.Err? <==> CategoryConflict(old(categories), |CategoryData|)
      ensures r.Ok? ==> r.value == Summary(|CategoryData|, |CategoryData|, 0, 0, 0)
      ensures links == old(links) && tags == old(tags)
      ensures dryRun || r.Err? ==> categories == old(categories) && subcategories == old(subcategories)
      ensures !dryRun && r.Ok? ==> categories == CategoriesAfter(old(categories), |CategoryData|)
      ensures !dryRun && r.Ok? ==>
        HasAllCategories(categories) && subcategories == DefaultsAfter(old(subcategories), categories, |CategoryData|)
    {
      var hasOldCategoryField := LegacyColumnAsWritten(fields, "category");
      var hasOldTagsField := LegacyColumnAsWritten(fields, "tags");
      r := Handle(rows, hasOldCategoryField, hasOldTagsField, dryRun);
    }

    /** `handle` with the legacy columns detected as the comments intend, by `LegacyColumn`. */
    method HandleIntended(fields: seq<ModelField>, rows: seq<LegacyRow>, dryRun: bool)
      returns (r: Result<Summary, MigrationError>)
      modifies this
      ensures r.Err? <==> NameConflict(old(categories), old(tags), rows, LegacyColumn(fields, "tags"))
      ensures r.Ok? ==> r.value.categories == |CategoryData| && r.value.subcategories == |CategoryData|
      ensures r.Ok? ==>
        r.value.productsMigrated == if LegacyColumn(fields, "category") then MigratableCount(rows, CategoryMapping(), old(links).Keys) else 0
      ensures r.Ok? ==> r.value.tags == if LegacyColumn(fields, "tags") then |AllTagNames(rows)| else 0
      ensures r.Ok? ==>
        r.value.productsWithTags == if LegacyColumn(fields, "tags") then TaggableCount(rows, TagMapFor(AllTagNames(rows)), old(links).Keys) else 0
      ensures dryRun || r.Err? ==> (categories == old(categories) && subcategories == old(subcategories)
                                    && tags == old(tags) && links == old(links))
      ensures !dryRun && r.Ok? ==> categories == CategoriesAfter(old(categories), |CategoryData|)
      ensures !dryRun && r.Ok? ==>
        HasAllCategories(categories) && subcategories == DefaultsAfter(old(subcategories), categories, |CategoryData|)
      ensures !dryRun && r.Ok? ==>
        links == LinksAfter(old(links), rows, LegacyColumn(fields, "category"), LegacyColumn(fields, "tags"))
      ensures !dryRun && r.Ok? && LegacyColumn(fields, "tags") ==> tags == TagsAfter(old(tags), SortedNames(AllTagNames(rows)))
      ensures !LegacyColumn(fields, "tags") ==> tags == old(tags)
    {
      r := Handle(rows, LegacyColumn(fields, "category"), LegacyColumn(fields, "tags"), dryRun);
    }
  }
}
