// `filter_images`: the quality filter applied to the analysed images before a
// game picks from them. Each pass walks a snapshot of the dict and deletes
// the items it rejects; survivors get their path rewritten to the static
// images folder and are dropped when no file exists there.
module ImageFilter {
  import opened CharacterData

  const StaticImages := "static/images/"

  /** The entries of `es`, in order, that `drop` does not reject. */
  function Without(es: seq<Entry>, drop: Entry -> bool): (r: seq<Entry>)
    ensures |r| <= |es|
    ensures forall e :: e in r <==> e in es && !drop(e)
    decreases |es|
  {
    if es == [] then []
    else
      var last := es[|es| - 1];
      Without(es[..|es| - 1], drop) + (if drop(last) then [] else [last])
  }

  /** One deletion pass: `for name, data in list(d.items()): if drop: del d[name]`. */
  method DropWhere(es: seq<Entry>, drop: Entry -> bool) returns (r: seq<Entry>)
    ensures r == Without(es, drop)
  {
    r := [];
    for i := 0 to |es|
      invariant r == Without(es[..i], drop)
    {
      assert es[..i + 1][..i] == es[..i];
      if !drop(es[i]) {
        r := r + [es[i]];
      }
    }
    assert es[..|es|] == es;
  }

  /** The entry with its path pointing into the static images folder. */
  function Relocated(e: Entry): (r: Entry)
    ensures r.name == e.name && r.image.imagePath == StaticImages + e.name
    ensures r.image.(imagePath := e.image.imagePath) == e.image
  {
    Entry(e.name, e.image.(imagePath := StaticImages + e.name))
  }

  function RelocateAll(es: seq<Entry>): (r: seq<Entry>)
    ensures |r| == |es| && forall i :: 0 <= i < |es| ==> r[i] == Relocated(es[i])
    decreases |es|
  {
    if es == [] then [] else RelocateAll(es[..|es| - 1]) + [Relocated(es[|es| - 1])]
  }

  /** The path-rewriting loop. */
  method RelocatePaths(es: seq<Entry>) returns (r: seq<Entry>)
    ensures r == RelocateAll(es)
  {
    r := [];
    for i := 0 to |es|
      invariant r == RelocateAll(es[..i])
    {
      assert es[..i + 1][..i] == es[..i];
      r := r + [Relocated(es[i])];
    }
    assert es[..|es|] == es;
  }

  /** The five quality tests: no error, some objects, some colours, a
      character, and non-empty character details. */
  predicate Acceptable(d: ImageDescription) {
    !StringTruthy(d.error) && d.objects != [] && d.colors != [] && d.isCharacter && DetailsTruthy(d)
  }

  /** Whether an entry survives, given the filesystem's `os.path.exists`. */
  predicate Survives(e: Entry, onDisk: string -> bool) {
    Acceptable(e.image) && onDisk(StaticImages + e.name)
  }

  /** The whole filter in one pass: the surviving entries, relocated, in order. */
  function FilterSpec(es: seq<Entry>, onDisk: string -> bool): (r: seq<Entry>)
    ensures |r| <= |es|
    decreases |es|
  {
    if es == [] then []
    else
      var last := es[|es| - 1];
      FilterSpec(es[..|es| - 1], onDisk) + (if Survives(last, onDisk) then [Relocated(last)] else [])
  }

  /** The rejection test of each pass. */
  predicate HasError(e: Entry) { StringTruthy(e.image.error) }
  predicate NoObjects(e: Entry) { e.image.objects == [] }
  predicate NoColors(e: Entry) { e.image.colors == [] }
  predicate NotCharacter(e: Entry) { !e.image.isCharacter }
  predicate NoDetails(e: Entry) { !DetailsTruthy(e.image) }

  /** `filter_images(images)`; `onDisk` is the filesystem check on a path. */
  method FilterImages(images: seq<Entry>, onDisk: string -> bool) returns (r: seq<Entry>)
    ensures r == FilterSpec(images, onDisk)
  {
    r := DropWhere(images, HasError);
    r := DropWhere(r, NoObjects);
    r := DropWhere(r, NoColors);
    r := DropWhere(r, NotCharacter);
    r := DropWhere(r, NoDetails);
    r := RelocatePaths(r);
    r := DropWhere(r, (e: Entry) => !onDisk(e.image.imagePath));
    PassesAgreeWithSpec(images, onDisk);
  }

  /** The passes done one after another, as the loops above run them. */
  function Passes(es: seq<Entry>, onDisk: string -> bool): seq<Entry> {
    var a := Without(es, HasError);
    var b := Without(a, NoObjects);
    var c := Without(b, NoColors);
    var d := Without(c, NotCharacter);
    var f := Without(d, NoDetails);
    Without(RelocateAll(f), (e: Entry) => !onDisk(e.image.imagePath))
  }

  lemma WithoutSnoc(a: seq<Entry>, x: Entry, drop: Entry -> bool)
    ensures Without(a + [x], drop) == Without(a, drop) + (if drop(x) then [] else [x])
  {
    assert (a + [x])[..|a|] == a;
  }

  lemma RelocateSnoc(a: seq<Entry>, x: Entry)
    ensures RelocateAll(a + [x]) == RelocateAll(a) + [Relocated(x)]
  {
    assert (a + [x])[..|a|] == a;
  }

  /** One pass applied to a filtered prefix followed by at most one entry. */
  lemma PassStep(a: seq<Entry>, t: seq<Entry>, drop: Entry -> bool)
    requires |t| <= 1
    ensures Without(a + t, drop) == Without(a, drop) + Without(t, drop)
  {
    if t == [] {
      assert a + t == a;
    } else {
      WithoutSnoc(a, t[0], drop);
      WithoutSnoc([], t[0], drop);
      assert [] + t == t;
    }
  }

  lemma RelocateStep(a: seq<Entry>, t: seq<Entry>)
    requires |t| <= 1
    ensures RelocateAll(a + t) == RelocateAll(a) + RelocateAll(t)
  {
    if t == [] {
      assert a + t == a;
    } else {
      RelocateSnoc(a, t[0]);
    }
  }

  /** The passes on one more entry: what they did before, then what they do
      to that entry alone. */
  lemma PassesSnoc(init: seq<Entry>, x: Entry, onDisk: string -> bool)
    ensures Passes(init + [x], onDisk) == Passes(init, onDisk) + Passes([x], onDisk)
  {
    var missing := (e: Entry) => !onDisk(e.image.imagePath);
    var a := Without(init, HasError);
    var ta := Without([x], HasError);
    PassStep(init, [x], HasError);
    var b := Without(a, NoObjects);
    var tb := Without(ta, NoObjects);
    PassStep(a, ta, NoObjects);
    var c := Without(b, NoColors);
    var tc := Without(tb, NoColors);
    PassStep(b, tb, NoColors);
    var d := Without(c, NotCharacter);
    var td := Without(tc, NotCharacter);
    PassStep(c, tc, NotCharacter);
    var f := Without(d, NoDetails);
    var tf := Without(td, NoDetails);
    PassStep(d, td, NoDetails);
    RelocateStep(f, tf);
    PassStep(RelocateAll(f), RelocateAll(tf), missing);
  }

  lemma WithoutSingle(x: Entry, drop: Entry -> bool)
    ensures Without([x], drop) == if drop(x) then [] else [x]
  {
    assert [x][..0] == [];
  }

  /** The passes on a single entry keep its relocated copy exactly when it survives. */
  lemma PassesSingle(x: Entry, onDisk: string -> bool)
    ensures Passes([x], onDisk) == if Survives(x, onDisk) then [Relocated(x)] else []
  {
    WithoutSingle(x, HasError);
    WithoutSingle(x, NoObjects);
    WithoutSingle(x, NoColors);
    WithoutSingle(x, NotCharacter);
    WithoutSingle(x, NoDetails);
    var missing := (e: Entry) => !onDisk(e.image.imagePath);
    if Acceptable(x.image) {
      assert RelocateAll([x]) == [Relocated(x)] by {
        assert [x][..0] == [];
      }
      WithoutSingle(Relocated(x), missing);
    } else {
      var f := Without(Without(Without(Without(Without([x], HasError), NoObjects), NoColors), NotCharacter), NoDetails);
      assert f == [];
      assert RelocateAll(f) == [];
    }
  }

  /** Running the passes one after another is the one-pass filter. */
  lemma {:induction false} PassesAgreeWithSpec(es: seq<Entry>, onDisk: string -> bool)
    ensures Passes(es, onDisk) == FilterSpec(es, onDisk)
    decreases |es|
  {
    if es != [] {
      var init := es[..|es| - 1];
      var x := es[|es| - 1];
      assert es == init + [x];
      PassesAgreeWithSpec(init, onDisk);
      PassesSnoc(init, x, onDisk);
      PassesSingle(x, onDisk);
    }
  }

  /** An entry is in the result exactly when it is the relocated copy of an
      input entry that passes every test. */
  lemma {:induction false} FilterMembership(es: seq<Entry>, onDisk: string -> bool, x: Entry)
    ensures x in FilterSpec(es, onDisk) <==> exists e :: e in es && Survives(e, onDisk) && x == Relocated(e)
    decreases |es|
  {
    if es != [] {
      var init := es[..|es| - 1];
      FilterMembership(init, onDisk, x);
      assert es == init + [es[|es| - 1]];
    }
  }

  /** Every survivor passed the quality tests, keeps its key and now points
      into the static images folder; no new key appears. */
  lemma FilterSurvivors(es: seq<Entry>, onDisk: string -> bool)
    ensures forall x :: x in FilterSpec(es, onDisk) ==>
      Acceptable(x.image) && x.image.imagePath == StaticImages + x.name
      && onDisk(x.image.imagePath)
      && exists e :: e in es && e.name == x.name
  {
    forall x | x in FilterSpec(es, onDisk)
      ensures Acceptable(x.image) && x.image.imagePath == StaticImages + x.name
      ensures onDisk(x.image.imagePath)
      ensures exists e :: e in es && e.name == x.name
    {
      FilterMembership(es, onDisk, x);
      var e :| e in es && Survives(e, onDisk) && x == Relocated(e);
    }
  }

  /** Filtering an already filtered dict changes nothing. */
  lemma {:induction false} FilterIdempotent(es: seq<Entry>, onDisk: string -> bool)
    ensures FilterSpec(FilterSpec(es, onDisk), onDisk) == FilterSpec(es, onDisk)
    decreases |es|
  {
    if es != [] {
      var init := es[..|es| - 1];
      var last := es[|es| - 1];
      FilterIdempotent(init, onDisk);
      var a := FilterSpec(init, onDisk);
      if Survives(last, onDisk) {
        var x := Relocated(last);
        var r := a + [x];
        assert FilterSpec(es, onDisk) == r;
        assert r[..|r| - 1] == a && r[|r| - 1] == x;
        assert Survives(x, onDisk) && Relocated(x) == x;
        assert FilterSpec(r, onDisk) == FilterSpec(a, onDisk) + [x];
      } else {
        assert FilterSpec(es, onDisk) == a;
      }
    }
  }

  /** The filter keeps the order and distinctness of the keys. */
  lemma {:induction false} FilterKeepsDistinctKeys(es: seq<Entry>, onDisk: string -> bool)
    requires DistinctKeys(es)
    ensures DistinctKeys(FilterSpec(es, onDisk))
    decreases |es|
  {
    if es != [] {
      var init := es[..|es| - 1];
      var last := es[|es| - 1];
      FilterKeepsDistinctKeys(init, onDisk);
      var a := FilterSpec(init, onDisk);
      forall x | x in a
        ensures x.name != last.name
      {
        FilterMembership(init, onDisk, x);
        var e :| e in init && Survives(e, onDisk) && x == Relocated(e);
        var k :| 0 <= k < |init| && init[k] == e;
        assert es[k] == e;
      }
    }
  }
}
