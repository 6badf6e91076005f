/**
 * The content endpoints (backend/apps/content/views.py): lists of the active
 * items ordered by `order`, the About Us and Our Story sections with a
 * built-in fallback, and the blog posts newest first.
 */
module ContentViews {
  import opened Wrappers
  import opened Query

  /**
   * The fields the selection reads from a content row; every content model has
   * `order` and `is_active`, and a blog post also a publication date, held as
   * a day number.
   */
  datatype Item = Item(id: nat, title: string, content: string, order: int, isActive: bool, publishedDate: int)

  predicate Active(i: Item) {
    i.isActive
  }

  function ByOrder(i: Item): Key {
    Key(i.order, 0)
  }

  /** `filter(is_active=True).order_by('order')`: the gifting, testimonial, commitment and gallery lists. */
  function ActiveByOrder(items: seq<Item>): (r: seq<Item>)
    ensures forall i :: 0 <= i < |r| ==> r[i].isActive
    ensures forall x :: x in r <==> x in items && x.isActive
    ensures multiset(r) == multiset(Filter(items, Active))
    ensures forall i, j :: 0 <= i < j < |r| ==> r[i].order <= r[j].order
    ensures (forall i :: 0 <= i < |items| ==> !items[i].isActive) ==> r == []
  {
    SortedActive(Filter(items, Active), items);
    SortBy(Filter(items, Active), ByOrder)
  }

  /** Sorting the active rows by `order` keeps them active, complete and in order. */
  lemma SortedActive(f: seq<Item>, items: seq<Item>)
    requires forall x :: x in f <==> x in items && x.isActive
    ensures var r := SortBy(f, ByOrder);
      && (forall x :: x in r <==> x in items && x.isActive)
      && (forall i :: 0 <= i < |r| ==> r[i].isActive)
      && (forall i, j :: 0 <= i < j < |r| ==> r[i].order <= r[j].order)
      && ((forall i :: 0 <= i < |items| ==> !items[i].isActive) ==> r == [])
  {
    var r := SortBy(f, ByOrder);
    SortByMembers(f, ByOrder);
    forall i | 0 <= i < |r| ensures r[i].isActive {
      assert r[i] in r;
    }
    forall i, j | 0 <= i < j < |r| ensures r[i].order <= r[j].order {
      assert KeyLe(ByOrder(r[i]), ByOrder(r[j]));
    }
    if r != [] {
      assert r[0] in items;
    }
  }

  /** The section a single-section endpoint responds with; the fallback has no id. */
  datatype Section = Section(id: Option<nat>, title: string, content: string, order: int, isActive: bool)

  function AsSection(i: Item): Section {
    Section(Some(i.id), i.title, i.content, i.order, i.isActive)
  }

  const AboutUsDefault: Section := Section(None, "About Us",
    "At Dolce Fiore, we are passionate about creating premium, sustainable gift experiences "
    + "that celebrate health, sustainability, and conscious living. Every product is designed "
    + "to delight while leaving a positive impact on people and the planet. We believe that "
    + "premium gifting can and should be kind to the planet, creating beautiful moments "
    + "without leaving a heavy footprint.",
    0, true)

  const OurStoryDefault: Section := Section(None, "Our Story",
    "Dolce Fiore began as a homegrown venture with a simple dream \U{2014} to craft thoughtful, "
    + "sustainable gifting experiences. What started four years ago with a passion for healthy "
    + "indulgence has grown into a celebration of creativity and conscious living.\n\n"
    + "We proudly partner with local artisans across India, bringing tradition and sustainability "
    + "into every creation. Every hamper is handcrafted with care, featuring organic ingredients, "
    + "air-fried savories, and sugar-free chocolates \U{2014} all wrapped in eco-friendly, reusable packaging.",
    0, true)

  /** `filter(is_active=True).order_by('order').first()`, or `fallback` when there is no active row. */
  function FirstActiveOr(items: seq<Item>, fallback: Section): (r: Section)
    ensures (forall i :: 0 <= i < |items| ==> !items[i].isActive) ==> r == fallback
    ensures (exists i :: 0 <= i < |items| && items[i].isActive) ==>
      exists x :: x in items && x.isActive && r == AsSection(x)
        && forall y :: y in items && y.isActive ==> x.order <= y.order
  {
    var first := First(Filter(items, Active), ByOrder);
    FirstActive(items);
    if first.Some? then AsSection(first.value) else fallback
  }

  /** The first active row by `order` is active, has the least `order`, and exists when some row is active. */
  lemma FirstActive(items: seq<Item>)
    ensures var first := First(Filter(items, Active), ByOrder);
      && (first.None? <==> forall i :: 0 <= i < |items| ==> !items[i].isActive)
      && (first.Some? ==> first.value in items && first.value.isActive)
      && (first.Some? ==> forall y :: y in items && y.isActive ==> first.value.order <= y.order)
  {
    var active := Filter(items, Active);
    var first := First(active, ByOrder);
    if first.Some? {
      forall y | y in items && y.isActive ensures first.value.order <= y.order {
        assert y in active;
        assert KeyLe(ByOrder(first.value), ByOrder(y));
      }
    } else {
      forall i | 0 <= i < |items| ensures !items[i].isActive {
        assert items[i] in items;
      }
    }
  }

  /** `about_us_view`. */
  function AboutUs(items: seq<Item>): (r: Section)
    ensures r.isActive
    ensures r.id.None? ==> r == AboutUsDefault
  {
    FirstActiveOr(items, AboutUsDefault)
  }

  /** `our_story_view`. */
  function OurStory(items: seq<Item>): (r: Section)
    ensures r.isActive
    ensures r.id.None? ==> r == OurStoryDefault
  {
    FirstActiveOr(items, OurStoryDefault)
  }

  /** Both single-section endpoints fall back exactly when no row is active. */
  lemma {:induction false} FallbackExactlyWhenNoneActive(items: seq<Item>)
    ensures AboutUs(items) == AboutUsDefault <==> forall i :: 0 <= i < |items| ==> !items[i].isActive
    ensures OurStory(items) == OurStoryDefault <==> forall i :: 0 <= i < |items| ==> !items[i].isActive
  {
    if exists i :: 0 <= i < |items| && items[i].isActive {
      var x :| x in items && x.isActive && AboutUs(items) == AsSection(x);
      assert AboutUs(items).id.Some?;
      var y :| y in items && y.isActive && OurStory(items) == AsSection(y);
      assert OurStory(items).id.Some?;
    }
  }

  /** `order_by('-published_date', 'order')`. */
  function ByNewestThenOrder(i: Item): Key {
    Key(-i.publishedDate, i.order)
  }

  /** `a` may precede `b` in the blog list. */
  predicate NewerOrEarlierInOrder(a: Item, b: Item) {
    a.publishedDate > b.publishedDate || (a.publishedDate == b.publishedDate && a.order <= b.order)
  }

  /** `blogs_view`: active posts, newest first, equal dates by `order`. */
  function Blogs(posts: seq<Item>): (r: seq<Item>)
    ensures forall x :: x in r <==> x in posts && x.isActive
    ensures multiset(r) == multiset(Filter(posts, Active))
    ensures forall i, j :: 0 <= i < j < |r| ==> NewerOrEarlierInOrder(r[i], r[j])
  {
    var r := SortBy(Filter(posts, Active), ByNewestThenOrder);
    assert forall x :: x in r <==> x in Filter(posts, Active) by {
      forall x ensures x in r <==> x in Filter(posts, Active) {
        assert x in r <==> x in multiset(r);
      }
    }
    assert forall i, j :: 0 <= i < j < |r| ==> NewerOrEarlierInOrder(r[i], r[j]) by {
      forall i, j | 0 <= i < j < |r| ensures NewerOrEarlierInOrder(r[i], r[j]) {
        assert KeyLe(ByNewestThenOrder(r[i]), ByNewestThenOrder(r[j]));
      }
    }
    r
  }
}
