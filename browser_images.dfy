/** The image listing of the browser service (src/browser/handler.rs, `get_images`): the
    `img` elements of the page become `Image` records (src/browser/model.rs), and the list is
    sorted by size, largest first. Widths, heights and sizes are integers here. */
module BrowserImages {
  import opened Wrappers

  /** `Image`: where the image comes from, its alt text and its rendered dimensions. */
  datatype Image = Image(url: string, alt: Option<string>, width: int, height: int, size: int)

  /** The rectangle WebDriver reports for an element. */
  datatype Rect = Rect(width: int, height: int)

  /** What the browser answers, for one `img` element, to the reads the loop makes in order:
      the `src` attribute, the `alt` attribute, then the rectangle twice (once for the width,
      once for the height). A failed read is a Failure carrying WebDriver's error text. */
  datatype ElementReads = ElementReads(
    src: Result<Option<string>, string>,
    alt: Result<Option<string>, string>,
    widthRect: Result<Rect, string>,
    heightRect: Result<Rect, string>)

  /** The record the loop pushes for one element, or None when it skips the element: a failed
      `src` read, an absent `src` or a failed rectangle read skips it; a failed `alt` read only
      leaves the alt text out. */
  function ImageOf(e: ElementReads): (r: Option<Image>)
    ensures r.Some? <==>
              e.src.Success? && e.src.value.Some? && e.widthRect.Success? && e.heightRect.Success?
    ensures r.Some? ==>
              && r.value.url == e.src.value.value
              && r.value.alt == (if e.alt.Success? then e.alt.value else None)
              && r.value.width == e.widthRect.value.width
              && r.value.height == e.heightRect.value.height
              && r.value.size == r.value.width * r.value.height
  {
    if e.src.Failure? || e.src.value.None? || e.widthRect.Failure? || e.heightRect.Failure? then None
    else
      var alt := if e.alt.Success? then e.alt.value else None;
      var width := e.widthRect.value.width;
      var height := e.heightRect.value.height;
      Some(Image(e.src.value.value, alt, width, height, width * height))
  }

  /** The records of the elements, in the order the page listed them. */
  function Collected(elements: seq<ElementReads>): (images: seq<Image>)
    ensures |images| <= |elements|
    decreases |elements|
  {
    if elements == [] then []
    else Collected(elements[..|elements| - 1]) + OptionSeq(ImageOf(elements[|elements| - 1]))
  }

  /** Every listed image is the record of one of the elements. */
  lemma {:induction false} CollectedSound(elements: seq<ElementReads>)
    ensures forall img :: img in Collected(elements) ==> exists e :: e in elements && ImageOf(e) == Some(img)
    decreases |elements|
  {
    if elements != [] {
      var prefix := elements[..|elements| - 1];
      var last := elements[|elements| - 1];
      CollectedSound(prefix);
      forall img | img in Collected(elements)
        ensures exists e :: e in elements && ImageOf(e) == Some(img)
      {
        if img in Collected(prefix) {
          var e :| e in prefix && ImageOf(e) == Some(img);
          assert e in elements;
        } else {
          assert img in OptionSeq(ImageOf(last));
          assert last in elements;
        }
      }
    }
  }

  /** No element the loop keeps is lost. */
  lemma {:induction false} CollectedComplete(elements: seq<ElementReads>)
    ensures forall e :: e in elements && ImageOf(e).Some? ==> ImageOf(e).value in Collected(elements)
    decreases |elements|
  {
    if elements != [] {
      var prefix := elements[..|elements| - 1];
      var last := elements[|elements| - 1];
      CollectedComplete(prefix);
      forall e | e in elements && ImageOf(e).Some?
        ensures ImageOf(e).value in Collected(elements)
      {
        if e != last {
          var i :| 0 <= i < |elements| && elements[i] == e;
          assert e in prefix by { assert prefix[i] == e; }
        }
      }
    }
  }

  /** The loop of `get_images` over the elements `find_all` returned. */
  method CollectImages(elements: seq<ElementReads>) returns (images: seq<Image>)
    ensures images == Collected(elements)
  {
    images := [];
    var i := 0;
    while i < |elements|
      invariant 0 <= i <= |elements|
      invariant images == Collected(elements[..i])
    {
      var element := elements[i];
      assert elements[..i + 1][..i] == elements[..i];
      i := i + 1;
      if element.src.Failure? {
        continue;
      }
      var src := element.src.value;
      var alt := if element.alt.Success? then element.alt.value else None;
      if src.None? {
        continue;
      }
      if element.widthRect.Failure? {
        continue;
      }
      var width := element.widthRect.value.width;
      if element.heightRect.Failure? {
        continue;
      }
      var height := element.heightRect.value.height;
      images := images + [Image(src.value, alt, width, height, width * height)];
    }
    assert elements[..i] == elements;
  }

  /** Largest first: no image is bigger than one before it. */
  predicate SortedBySize(s: seq<Image>) {
    forall i, j :: 0 <= i < j < |s| ==> s[i].size >= s[j].size
  }

  /** The images of size `k`, in their order in `s`. */
  function WithSize(s: seq<Image>, k: int): (r: seq<Image>)
    ensures |r| <= |s|
    decreases |s|
  {
    if s == [] then []
    else (if s[0].size == k then [s[0]] else []) + WithSize(s[1..], k)
  }

  /** `x` placed in front of the first image no bigger than it. */
  function Insert(x: Image, s: seq<Image>): (r: seq<Image>)
    ensures multiset(r) == multiset(s) + multiset{x}
    decreases |s|
  {
    if s == [] || x.size >= s[0].size then [x] + s
    else
      assert s == [s[0]] + s[1..];
      [s[0]] + Insert(x, s[1..])
  }

  /** Inserting keeps every size under a bound that held before. */
  lemma {:induction false} InsertBounded(x: Image, s: seq<Image>, bound: int)
    requires x.size <= bound && forall i :: 0 <= i < |s| ==> s[i].size <= bound
    ensures forall i :: 0 <= i < |Insert(x, s)| ==> Insert(x, s)[i].size <= bound
    decreases |s|
  {
    if s != [] && x.size < s[0].size {
      InsertBounded(x, s[1..], bound);
      var rest := Insert(x, s[1..]);
      assert Insert(x, s) == [s[0]] + rest;
    }
  }

  /** Inserting into a sorted list keeps it sorted. */
  lemma {:induction false} InsertSorted(x: Image, s: seq<Image>)
    requires SortedBySize(s)
    ensures SortedBySize(Insert(x, s))
    decreases |s|
  {
    if s != [] && x.size < s[0].size {
      InsertSorted(x, s[1..]);
      InsertBounded(x, s[1..], s[0].size);
      var rest := Insert(x, s[1..]);
      var r := [s[0]] + rest;
      assert Insert(x, s) == r;
      forall i, j | 0 <= i < j < |r|
        ensures r[i].size >= r[j].size
      {
        assert r[j] == rest[j - 1];
        if i > 0 {
          assert r[i] == rest[i - 1];
        }
      }
    }
  }

  /** `sort_by(|a, b| b.size.partial_cmp(&a.size))`: Rust's stable sort, largest size first. */
  function SortBySize(s: seq<Image>): (r: seq<Image>)
    ensures SortedBySize(r)
    ensures multiset(r) == multiset(s)
    decreases |s|
  {
    if s == [] then []
    else
      assert s == [s[0]] + s[1..];
      var rest := SortBySize(s[1..]);
      InsertSorted(s[0], rest);
      Insert(s[0], rest)
  }

  /** Inserting an image puts it before every image of its own size. */
  lemma {:induction false} InsertWithSize(x: Image, s: seq<Image>, k: int)
    ensures WithSize(Insert(x, s), k) == (if x.size == k then [x] else []) + WithSize(s, k)
    decreases |s|
  {
    if s == [] || x.size >= s[0].size {
      WithSizeCons(x, s, k);
    } else {
      var tail := s[1..];
      var inserted := Insert(x, tail);
      assert Insert(x, s) == [s[0]] + inserted;
      InsertWithSize(x, tail, k);
      WithSizeCons(s[0], inserted, k);
      WithSizeCons(s[0], tail, k);
      assert s == [s[0]] + tail;
      if x.size == k {
        // s[0] is bigger than x, so it is not of size k.
        assert WithSize(Insert(x, s), k) == WithSize(inserted, k) == [x] + WithSize(tail, k);
        assert WithSize(s, k) == WithSize(tail, k);
      } else {
        assert WithSize(inserted, k) == WithSize(tail, k);
      }
    }
  }

  /** The images of size `k` of a list with a new head. */
  lemma WithSizeCons(y: Image, t: seq<Image>, k: int)
    ensures WithSize([y] + t, k) == (if y.size == k then [y] else []) + WithSize(t, k)
  {
    assert ([y] + t)[1..] == t;
  }

  /** The sort is stable: images of the same size keep the order the page listed them in. */
  lemma {:induction false} SortBySizeStable(s: seq<Image>, k: int)
    ensures WithSize(SortBySize(s), k) == WithSize(s, k)
    decreases |s|
  {
    if s != [] {
      SortBySizeStable(s[1..], k);
      InsertWithSize(s[0], SortBySize(s[1..]), k);
    }
  }

  /** A size no image has selects nothing. */
  lemma {:induction false} WithSizeAbsent(s: seq<Image>, k: int)
    ensures (forall i :: 0 <= i < |s| ==> s[i].size != k) ==> WithSize(s, k) == []
    decreases |s|
  {
    if s != [] {
      WithSizeAbsent(s[1..], k);
      if forall i :: 0 <= i < |s| ==> s[i].size != k {
        assert forall i :: 0 <= i < |s[1..]| ==> s[1..][i] == s[i + 1];
      }
    }
  }

  /** Sortedness and stability leave no choice: two lists sorted by size that hold the same
      images of every size, in the same order, are the same list. */
  lemma {:induction false} SortedBySizeUnique(a: seq<Image>, b: seq<Image>)
    requires SortedBySize(a) && SortedBySize(b)
    requires forall k :: WithSize(a, k) == WithSize(b, k)
    ensures a == b
    decreases |a|
  {
    if a != [] && b != [] {
      SameFirst(a, b);
      TailsAgree(a, b);
      SortedBySizeUnique(a[1..], b[1..]);
      assert a == [a[0]] + a[1..];
      assert b == [b[0]] + b[1..];
    } else if a != [] {
      // b is empty, yet a holds an image of a's first size.
      WithSizeOfFirst(a);
      assert false;
    } else if b != [] {
      WithSizeOfFirst(b);
      assert false;
    }
  }

  /** A non-empty list holds an image of its first image's size. */
  lemma WithSizeOfFirst(s: seq<Image>)
    requires s != []
    ensures WithSize(s, s[0].size) != []
  {
  }

  /** Two non-empty sorted lists with the same images of every size start with the same image. */
  lemma SameFirst(a: seq<Image>, b: seq<Image>)
    requires a != [] && b != []
    requires SortedBySize(a) && SortedBySize(b)
    requires forall k :: WithSize(a, k) == WithSize(b, k)
    ensures a[0] == b[0]
  {
    // The list that starts bigger holds an image of a size the other lacks.
    if a[0].size > b[0].size {
      NoneAboveFirst(b, a[0].size);
      WithSizeOfFirst(a);
      assert false;
    } else if b[0].size > a[0].size {
      NoneAboveFirst(a, b[0].size);
      WithSizeOfFirst(b);
      assert false;
    }
    var k := a[0].size;
    WithSizeCons(a[0], a[1..], k);
    WithSizeCons(b[0], b[1..], k);
    assert a == [a[0]] + a[1..];
    assert b == [b[0]] + b[1..];
    assert WithSize(a, k)[0] == a[0];
  }

  /** A list sorted by size holds no image bigger than its first. */
  lemma NoneAboveFirst(s: seq<Image>, k: int)
    requires s != [] && SortedBySize(s) && k > s[0].size
    ensures WithSize(s, k) == []
  {
    assert forall i :: 0 <= i < |s| ==> s[i].size <= s[0].size;
    WithSizeAbsent(s, k);
  }

  /** Dropping a common first image keeps the images of every size equal, and sortedness. */
  lemma TailsAgree(a: seq<Image>, b: seq<Image>)
    requires a != [] && b != [] && a[0] == b[0]
    requires SortedBySize(a) && SortedBySize(b)
    requires forall k :: WithSize(a, k) == WithSize(b, k)
    ensures SortedBySize(a[1..]) && SortedBySize(b[1..])
    ensures forall j :: WithSize(a[1..], j) == WithSize(b[1..], j)
  {
    forall j
      ensures WithSize(a[1..], j) == WithSize(b[1..], j)
    {
      var head := if a[0].size == j then [a[0]] else [];
      assert WithSize(a, j) == head + WithSize(a[1..], j);
      assert WithSize(b, j) == head + WithSize(b[1..], j);
      assert WithSize(a[1..], j) == (head + WithSize(a[1..], j))[|head|..];
      assert WithSize(b[1..], j) == (head + WithSize(b[1..], j))[|head|..];
    }
    assert SortedBySize(a[1..]) by {
      forall i, j | 0 <= i < j < |a[1..]| ensures a[1..][i].size >= a[1..][j].size {
        assert a[1..][i] == a[i + 1] && a[1..][j] == a[j + 1];
      }
    }
    assert SortedBySize(b[1..]) by {
      forall i, j | 0 <= i < j < |b[1..]| ensures b[1..][i].size >= b[1..][j].size {
        assert b[1..][i] == b[i + 1] && b[1..][j] == b[j + 1];
      }
    }
  }

  /** The list `get_images` answers with is the only one that is sorted by size and keeps the
      page's order among images of equal size. */
  lemma StableSortIsUnique(s: seq<Image>, r: seq<Image>)
    requires SortedBySize(r) && forall k :: WithSize(r, k) == WithSize(s, k)
    ensures r == SortBySize(s)
  {
    forall k
      ensures WithSize(r, k) == WithSize(SortBySize(s), k)
    {
      SortBySizeStable(s, k);
    }
    SortedBySizeUnique(r, SortBySize(s));
  }
}
