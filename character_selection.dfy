// `compute_character_attributes` and `select_balanced_characters`: every
// image with a character name gets a set of "key:value" attribute strings;
// the game then picks one representative image per distinct name, greedily,
// by a score. The shuffle and the floating-point scores are parameters: the
// structural guarantees (how many, which names, which image of each name)
// hold whatever they are.
module CharacterSelection {
  import opened Wrappers
  import opened CharacterData
  import Text

  /** A non-empty "name" detail, when there is one. */
  predicate HasNameDetail(d: ImageDescription) {
    d.characterDetails.Some? && "name" in d.characterDetails.value && d.characterDetails.value["name"] != ""
  }

  /** The character name of an image: a non-empty "name" detail, else the
      first object's name; images where both are empty have none. */
  function CharacterName(d: ImageDescription): (r: Option<string>)
    ensures r.Some? ==> r.value != ""
  {
    var fromDetails :=
      if d.characterDetails.Some? && "name" in d.characterDetails.value then d.characterDetails.value["name"] else "";
    var name := if fromDetails == "" && d.objects != [] then d.objects[0].name else fromDetails;
    if name != "" then Some(name) else None
  }

  /** The name detail wins; the first object's name is the fallback; an
      image has no name exactly when both are missing or empty. */
  lemma CharacterNameChoice(d: ImageDescription)
    ensures HasNameDetail(d) ==> CharacterName(d) == Some(d.characterDetails.value["name"])
    ensures !HasNameDetail(d) && d.objects != [] && d.objects[0].name != "" ==> CharacterName(d) == Some(d.objects[0].name)
    ensures CharacterName(d).None? <==> !HasNameDetail(d) && (d.objects == [] || d.objects[0].name == "")
  {
  }

  /** `f"{attr.name}:{attr.value}"` for each attribute of one object. */
  function AttrStrings(attrs: seq<ObjectAttribute>): (r: set<string>)
    ensures forall a :: a in attrs ==> a.name + ":" + a.value in r
    ensures forall s :: s in r ==> exists a :: a in attrs && s == a.name + ":" + a.value
    decreases |attrs|
  {
    if attrs == [] then {}
    else
      var last := attrs[|attrs| - 1];
      AttrStrings(attrs[..|attrs| - 1]) + {last.name + ":" + last.value}
  }

  /** The attribute strings of every detected object. */
  function ObjectAttrs(objs: seq<DetectedObject>): (r: set<string>)
    ensures forall i, a :: 0 <= i < |objs| && a in objs[i].attributes ==> a.name + ":" + a.value in r
    ensures forall s :: s in r ==> exists i, a :: 0 <= i < |objs| && a in objs[i].attributes && s == a.name + ":" + a.value
    decreases |objs|
  {
    if objs == [] then {}
    else
      var init := objs[..|objs| - 1];
      var r := ObjectAttrs(init) + AttrStrings(objs[|objs| - 1].attributes);
      SnocCovers(objs, init, ObjectAttrs(init), r);
      SnocFrom(objs, init, ObjectAttrs(init), r);
      r
  }

  /** Every string of the others' and of the last object's comes from some
      attribute of some object. */
  lemma SnocFrom(objs: seq<DetectedObject>, init: seq<DetectedObject>, pre: set<string>, r: set<string>)
    requires objs != [] && init == objs[..|objs| - 1]
    requires r == pre + AttrStrings(objs[|objs| - 1].attributes)
    requires forall s :: s in pre ==> exists i, a :: 0 <= i < |init| && a in init[i].attributes && s == a.name + ":" + a.value
    ensures forall s :: s in r ==> exists i, a :: 0 <= i < |objs| && a in objs[i].attributes && s == a.name + ":" + a.value
  {
    forall s | s in r
      ensures exists i, a :: 0 <= i < |objs| && a in objs[i].attributes && s == a.name + ":" + a.value
    {
      if s in pre {
        var i, a :| 0 <= i < |init| && a in init[i].attributes && s == a.name + ":" + a.value;
        assert objs[i] == init[i];
      } else {
        var a :| a in objs[|objs| - 1].attributes && s == a.name + ":" + a.value;
        assert 0 <= |objs| - 1 < |objs|;
      }
    }
  }

  /** Adding the last object's strings to those of the others covers every
      attribute of every object. */
  lemma SnocCovers(objs: seq<DetectedObject>, init: seq<DetectedObject>, pre: set<string>, r: set<string>)
    requires objs != [] && init == objs[..|objs| - 1]
    requires r == pre + AttrStrings(objs[|objs| - 1].attributes)
    requires forall i, a :: 0 <= i < |init| && a in init[i].attributes ==> a.name + ":" + a.value in pre
    ensures forall i, a :: 0 <= i < |objs| && a in objs[i].attributes ==> a.name + ":" + a.value in r
  {
    forall i, a | 0 <= i < |objs| && a in objs[i].attributes
      ensures a.name + ":" + a.value in r
    {
      if i < |init| {
        assert objs[i] == init[i];
      }
    }
  }

  /** `f"character_{key}:{value}"` for every detail but the name. */
  function DetailAttrs(d: ImageDescription): set<string> {
    if d.characterDetails.None? then {}
    else
      var details := d.characterDetails.value;
      set k | k in details && k != "name" :: "character_" + k + ":" + details[k]
  }

  function SceneAttrs(d: ImageDescription): set<string> {
    {"scene:" + d.scene, "setting:" + d.setting, "time_of_day:" + d.timeOfDay}
  }

  function ColorAttrs(d: ImageDescription): set<string> {
    set c | c in DominantColors(d, 2) :: "color:" + c.name
  }

  /** The attribute set of one image: objects' attributes, character details,
      the three scene entries and the two dominant colours. */
  function Attributes(d: ImageDescription): (r: set<string>)
    ensures "scene:" + d.scene in r && "setting:" + d.setting in r && "time_of_day:" + d.timeOfDay in r
  {
    ObjectAttrs(d.objects) + DetailAttrs(d) + SceneAttrs(d) + ColorAttrs(d)
  }

  /** The nested object/attribute loops. */
  method CollectObjectAttrs(objs: seq<DetectedObject>) returns (attrs: set<string>)
    ensures attrs == ObjectAttrs(objs)
  {
    attrs := {};
    for i := 0 to |objs|
      invariant attrs == ObjectAttrs(objs[..i])
    {
      assert objs[..i + 1][..i] == objs[..i];
      attrs := AddAttrStrings(attrs, objs[i].attributes);
    }
    assert objs[..|objs|] == objs;
  }

  /** The inner loop over one object's attributes. */
  method AddAttrStrings(start: set<string>, attributes: seq<ObjectAttribute>) returns (attrs: set<string>)
    ensures attrs == start + AttrStrings(attributes)
  {
    attrs := start;
    for j := 0 to |attributes|
      invariant attrs == start + AttrStrings(attributes[..j])
    {
      assert attributes[..j + 1][..j] == attributes[..j];
      var attr := attributes[j];
      attrs := attrs + {attr.name + ":" + attr.value};
    }
    assert attributes[..|attributes|] == attributes;
  }

  /** The character-details loop; a dict's items are visited in some order,
      which a set does not record. */
  method CollectDetailAttrs(d: ImageDescription) returns (attrs: set<string>)
    ensures attrs == DetailAttrs(d)
  {
    attrs := {};
    if d.characterDetails.Some? && |d.characterDetails.value| > 0 {
      var details := d.characterDetails.value;
      var todo := details.Keys;
      while todo != {}
        invariant todo <= details.Keys
        invariant attrs == set k | k in details && k !in todo && k != "name" :: "character_" + k + ":" + details[k]
        decreases todo
      {
        var key :| key in todo;
        if key != "name" {
          attrs := attrs + {"character_" + key + ":" + details[key]};
        }
        todo := todo - {key};
      }
    }
  }

  /** The dominant-colours loop. */
  method CollectColorAttrs(d: ImageDescription) returns (attrs: set<string>)
    ensures attrs == ColorAttrs(d)
  {
    var dom := DominantColors(d, 2);
    attrs := {};
    for i := 0 to |dom|
      invariant attrs == set c | c in dom[..i] :: "color:" + c.name
    {
      assert forall c :: c in dom[..i + 1] <==> c in dom[..i] || c == dom[i];
      attrs := attrs + {"color:" + dom[i].name};
    }
    assert dom[..|dom|] == dom;
  }

  /** The attribute collection for one named image. */
  method ComputeAttributes(d: ImageDescription) returns (attrs: set<string>)
    ensures attrs == Attributes(d)
  {
    var objects := CollectObjectAttrs(d.objects);
    var details := CollectDetailAttrs(d);
    attrs := objects + details;
    attrs := attrs + {"scene:" + d.scene};
    attrs := attrs + {"setting:" + d.setting};
    attrs := attrs + {"time_of_day:" + d.timeOfDay};
    assert attrs == objects + details + SceneAttrs(d);
    var colors := CollectColorAttrs(d);
    attrs := attrs + colors;
  }

  /** One value of `character_attributes`: the image's key, its character
      name, its attribute set and the description itself. */
  datatype CharacterInfo = CharacterInfo(imageName: string, name: string, attributes: set<string>, image: ImageDescription)

  function InfoOf(e: Entry): (r: CharacterInfo)
    requires CharacterName(e.image).Some?
    ensures r.imageName == e.name && r.image == e.image && r.name == CharacterName(e.image).value
  {
    CharacterInfo(e.name, CharacterName(e.image).value, Attributes(e.image), e.image)
  }

  /** `compute_character_attributes(images)`: an info for every named image, in order. */
  function Infos(es: seq<Entry>): (r: seq<CharacterInfo>)
    ensures |r| <= |es|
    ensures forall i :: 0 <= i < |r| ==>
      CharacterName(r[i].image) == Some(r[i].name) && r[i].attributes == Attributes(r[i].image)
    decreases |es|
  {
    if es == [] then []
    else
      var last := es[|es| - 1];
      Infos(es[..|es| - 1]) + (if CharacterName(last.image).Some? then [InfoOf(last)] else [])
  }

  /** The infos of one more entry. */
  lemma InfosSnoc(es: seq<Entry>)
    requires es != []
    ensures var last := es[|es| - 1];
      Infos(es) == Infos(es[..|es| - 1]) + (if CharacterName(last.image).Some? then [InfoOf(last)] else [])
  {
  }

  /** Every info comes from an entry of the input. */
  lemma {:induction false} InfosFromEntries(es: seq<Entry>)
    ensures forall i :: 0 <= i < |Infos(es)| ==>
      exists k :: 0 <= k < |es| && es[k] == Entry(Infos(es)[i].imageName, Infos(es)[i].image)
    decreases |es|
  {
    if es != [] {
      var init := es[..|es| - 1];
      var last := es[|es| - 1];
      InfosFromEntries(init);
      InfosSnoc(es);
      var a := Infos(init);
      var r := Infos(es);
      forall i | 0 <= i < |r|
        ensures exists k :: 0 <= k < |es| && es[k] == Entry(r[i].imageName, r[i].image)
      {
        if i < |a| {
          assert r[i] == a[i];
          var k :| 0 <= k < |init| && init[k] == Entry(a[i].imageName, a[i].image);
          assert es[k] == init[k];
        } else {
          assert r[i] == InfoOf(last);
          assert es[|es| - 1] == Entry(r[i].imageName, r[i].image);
        }
      }
    } else {
      assert Infos(es) == [];
    }
  }

  /** Every named entry of the input has an info. */
  lemma {:induction false} InfosComplete(es: seq<Entry>)
    ensures forall k :: 0 <= k < |es| && CharacterName(es[k].image).Some? ==>
      exists i :: 0 <= i < |Infos(es)| && Infos(es)[i].imageName == es[k].name && Infos(es)[i].image == es[k].image
    decreases |es|
  {
    if es != [] {
      var init := es[..|es| - 1];
      var last := es[|es| - 1];
      InfosComplete(init);
      InfosSnoc(es);
      var tail := if CharacterName(last.image).Some? then [InfoOf(last)] else [];
      CompleteSnoc(es, init, Infos(init), tail, Infos(es));
    }
  }

  /** Completeness carries over when the last entry's info (if any) is appended. */
  lemma CompleteSnoc(es: seq<Entry>, init: seq<Entry>, a: seq<CharacterInfo>, tail: seq<CharacterInfo>, r: seq<CharacterInfo>)
    requires es != [] && init == es[..|es| - 1] && r == a + tail
    requires forall k :: 0 <= k < |init| && CharacterName(init[k].image).Some? ==>
      exists i :: 0 <= i < |a| && a[i].imageName == init[k].name && a[i].image == init[k].image
    requires CharacterName(es[|es| - 1].image).Some? ==>
      |tail| == 1 && tail[0].imageName == es[|es| - 1].name && tail[0].image == es[|es| - 1].image
    ensures forall k :: 0 <= k < |es| && CharacterName(es[k].image).Some? ==>
      exists i :: 0 <= i < |r| && r[i].imageName == es[k].name && r[i].image == es[k].image
  {
    forall k | 0 <= k < |es| && CharacterName(es[k].image).Some?
      ensures exists i :: 0 <= i < |r| && r[i].imageName == es[k].name && r[i].image == es[k].image
    {
      if k < |init| {
        assert init[k] == es[k];
        var i :| 0 <= i < |a| && a[i].imageName == init[k].name && a[i].image == init[k].image;
        assert r[i] == a[i];
      } else {
        assert r[|a|] == tail[0];
      }
    }
  }

  method ComputeCharacterAttributes(es: seq<Entry>) returns (infos: seq<CharacterInfo>)
    ensures infos == Infos(es)
  {
    infos := [];
    for i := 0 to |es|
      invariant infos == Infos(es[..i])
    {
      assert es[..i + 1][..i] == es[..i];
      var d := es[i].image;
      var name := CharacterName(d);
      if name.Some? {
        var attrs := ComputeAttributes(d);
        infos := infos + [CharacterInfo(es[i].name, name.value, attrs, d)];
      }
    }
    assert es[..|es|] == es;
  }

  /** An object attribute entry begins with "character_name:" only when the
      attribute's name begins with "character_name". */
  lemma ObjectEntryPrefix(n: string, v: string)
    requires Text.StartsWith(n + ":" + v, "character_name:")
    ensures Text.StartsWith(n, "character_name")
  {
    var s := n + ":" + v;
    assert s[|n|] == ':';
    assert forall j :: 0 <= j < 14 ==> "character_name:"[j] != ':';
    if |n| >= 14 {
      assert n[..14] == s[..14];
    }
  }

  /** A detail entry begins with "character_name:" only when the detail's key
      begins with "name:". */
  lemma DetailEntryPrefix(k: string, v: string)
    requires k != "name"
    requires Text.StartsWith("character_" + k + ":" + v, "character_name:")
    ensures Text.StartsWith(k, "name:")
  {
    var s := "character_" + k + ":" + v;
    assert s[10..10 + |k|] == k;
    assert s[10 + |k|] == ':';
    KeyAfterCharacterPrefix(s, k);
  }

  /** A key stored right after "character_" and followed by ':' in a text
      that begins with "character_name:" is "name" or begins with "name:". */
  lemma KeyAfterCharacterPrefix(s: string, k: string)
    requires 10 + |k| < |s| && s[10..10 + |k|] == k && s[10 + |k|] == ':'
    requires Text.StartsWith(s, "character_name:")
    requires k != "name"
    ensures Text.StartsWith(k, "name:")
  {
    assert s[10..15] == "name:";
    assert |k| >= 4;
    assert s[10..14] == "name";
    assert |k| != 4;
    assert k[..5] == s[10..15];
  }

  /** No object attribute is itself named "character_name…". */
  predicate NoCharacterNameAttribute(d: ImageDescription) {
    forall i, a :: 0 <= i < |d.objects| && a in d.objects[i].attributes ==> !Text.StartsWith(a.name, "character_name")
  }

  /** No detail key starts with "name:". */
  predicate NoNamePrefixedDetail(d: ImageDescription) {
    d.characterDetails.Some? ==> forall k :: k in d.characterDetails.value ==> !Text.StartsWith(k, "name:")
  }

  lemma ObjectAttrsNoCharacterName(d: ImageDescription, s: string)
    requires NoCharacterNameAttribute(d) && s in ObjectAttrs(d.objects)
    ensures !Text.StartsWith(s, "character_name:")
  {
    var i, a :| 0 <= i < |d.objects| && a in d.objects[i].attributes && s == a.name + ":" + a.value;
    if Text.StartsWith(s, "character_name:") {
      ObjectEntryPrefix(a.name, a.value);
    }
  }

  lemma DetailAttrsNoCharacterName(d: ImageDescription, s: string)
    requires NoNamePrefixedDetail(d) && s in DetailAttrs(d)
    ensures !Text.StartsWith(s, "character_name:")
  {
    var details := d.characterDetails.value;
    var k :| k in details && k != "name" && s == "character_" + k + ":" + details[k];
    if Text.StartsWith(s, "character_name:") {
      DetailEntryPrefix(k, details[k]);
    }
  }

  /** An entry that does not begin with "ch" does not begin with "character_name:". */
  lemma NotCharacterNameHead(s: string)
    requires |s| >= 2 && (s[0] != 'c' || s[1] != 'h')
    ensures !Text.StartsWith(s, "character_name:")
  {
    if |s| >= 15 {
      assert s[..15][0] == s[0] && s[..15][1] == s[1];
    }
  }

  /** An entry whose fixed head does not begin with "ch" does not begin with "character_name:". */
  lemma HeadedNotCharacterName(head: string, rest: string)
    requires |head| >= 2 && (head[0] != 'c' || head[1] != 'h')
    ensures !Text.StartsWith(head + rest, "character_name:")
  {
    assert (head + rest)[0] == head[0] && (head + rest)[1] == head[1];
    NotCharacterNameHead(head + rest);
  }

  lemma ColorAttrsNoCharacterName(d: ImageDescription, s: string)
    requires s in ColorAttrs(d)
    ensures !Text.StartsWith(s, "character_name:")
  {
    var c :| c in DominantColors(d, 2) && s == "color:" + c.name;
    HeadedNotCharacterName("color:", c.name);
  }

  lemma SceneAttrsNoCharacterName(d: ImageDescription, s: string)
    requires s in SceneAttrs(d)
    ensures !Text.StartsWith(s, "character_name:")
  {
    if s == "scene:" + d.scene {
      HeadedNotCharacterName("scene:", d.scene);
    } else if s == "setting:" + d.setting {
      HeadedNotCharacterName("setting:", d.setting);
    } else {
      HeadedNotCharacterName("time_of_day:", d.timeOfDay);
    }
  }

  lemma FixedAttrsNoCharacterName(d: ImageDescription, s: string)
    requires s in SceneAttrs(d) + ColorAttrs(d)
    ensures !Text.StartsWith(s, "character_name:")
  {
    if s in ColorAttrs(d) {
      ColorAttrsNoCharacterName(d, s);
    } else {
      SceneAttrsNoCharacterName(d, s);
    }
  }

  /** Under the condition that no object attribute is itself named
      "character_name…" and no detail key starts with "name:", the name
      detail never reaches an attribute set: no entry begins with
      "character_name:". */
  lemma NoCharacterNameEntry(d: ImageDescription)
    requires NoCharacterNameAttribute(d) && NoNamePrefixedDetail(d)
    ensures forall s :: s in Attributes(d) ==> !Text.StartsWith(s, "character_name:")
  {
    forall s | s in Attributes(d)
      ensures !Text.StartsWith(s, "character_name:")
    {
      if s in ObjectAttrs(d.objects) {
        ObjectAttrsNoCharacterName(d, s);
      } else if s in DetailAttrs(d) {
        DetailAttrsNoCharacterName(d, s);
      } else {
        FixedAttrsNoCharacterName(d, s);
      }
    }
  }

  /** Without that condition the claim fails: an object attribute called
      "character_name" puts a "character_name:" entry in the set. */
  lemma CharacterNameEntryFromObject(d: ImageDescription, value: string)
    requires d.objects != [] && ObjectAttribute("character_name", value) in d.objects[0].attributes
    ensures "character_name:" + value in Attributes(d)
    ensures Text.StartsWith("character_name:" + value, "character_name:")
  {
    assert ("character_name" + ":" + value) == "character_name:" + value;
    assert ("character_name:" + value)[..15] == "character_name:";
  }

  predicate Distinct<T(==)>(s: seq<T>) {
    forall i, j :: 0 <= i < j < |s| ==> s[i] != s[j]
  }

  /** The index of the first info with character name `nm`, if any. */
  function FirstWithName(infos: seq<CharacterInfo>, nm: string): (r: Option<nat>)
    ensures r.Some? ==> (r.value < |infos| && infos[r.value].name == nm
      && forall j :: 0 <= j < r.value ==> infos[j].name != nm)
    ensures r.None? ==> forall j :: 0 <= j < |infos| ==> infos[j].name != nm
    decreases |infos|
  {
    if infos == [] then None
    else
      var init := infos[..|infos| - 1];
      var f := FirstWithName(init, nm);
      if f.Some? then f
      else if infos[|infos| - 1].name == nm then Some(|infos| - 1)
      else None
  }

  /** The keys of `character_groups`: each character name once, in the order
      it is first met. */
  function GroupNames(infos: seq<CharacterInfo>): (r: seq<string>)
    ensures forall nm :: nm in r <==> FirstWithName(infos, nm).Some?
    ensures Distinct(r)
    decreases |infos|
  {
    if infos == [] then []
    else
      var init := infos[..|infos| - 1];
      var nm := infos[|infos| - 1].name;
      var names := GroupNames(init);
      if nm in names then names else names + [nm]
  }

  /** `character_groups[nm]`: the image keys of that character, in order. */
  function GroupImages(infos: seq<CharacterInfo>, nm: string): (r: seq<string>)
    ensures forall x :: x in r ==> exists j :: 0 <= j < |infos| && infos[j].name == nm && infos[j].imageName == x
    ensures r == [] <==> FirstWithName(infos, nm).None?
    decreases |infos|
  {
    if infos == [] then []
    else
      var last := infos[|infos| - 1];
      var init := infos[..|infos| - 1];
      var g := GroupImages(init, nm);
      assert forall j :: 0 <= j < |init| ==> init[j] == infos[j];
      if last.name == nm then g + [last.imageName] else g
  }

  /** A group's first image is the first image with that name. */
  lemma {:induction false} GroupImagesHead(infos: seq<CharacterInfo>, nm: string)
    requires FirstWithName(infos, nm).Some?
    ensures GroupImages(infos, nm) != []
    ensures GroupImages(infos, nm)[0] == infos[FirstWithName(infos, nm).value].imageName
    decreases |infos|
  {
    var init := infos[..|infos| - 1];
    if FirstWithName(init, nm).Some? {
      GroupImagesHead(init, nm);
    }
  }

  /** The index of the info with image key `key` (`character_attributes[key]`). */
  function Lookup(infos: seq<CharacterInfo>, key: string): (r: Option<nat>)
    ensures r.Some? ==> r.value < |infos| && infos[r.value].imageName == key
    ensures r.None? ==> forall j :: 0 <= j < |infos| ==> infos[j].imageName != key
    decreases |infos|
  {
    if infos == [] then None
    else if infos[|infos| - 1].imageName == key then Some(|infos| - 1)
    else Lookup(infos[..|infos| - 1], key)
  }

  predicate DistinctImageNames(infos: seq<CharacterInfo>) {
    forall i, j :: 0 <= i < j < |infos| ==> infos[i].imageName != infos[j].imageName
  }

  /** Distinct image keys give distinct info keys. */
  lemma {:induction false} InfosDistinct(es: seq<Entry>)
    requires DistinctKeys(es)
    ensures DistinctImageNames(Infos(es))
    decreases |es|
  {
    if es != [] {
      var init := es[..|es| - 1];
      var last := es[|es| - 1];
      assert DistinctKeys(init);
      InfosDistinct(init);
      LastKeyIsNew(es, init);
      InfosSnoc(es);
      var tail := if CharacterName(last.image).Some? then [InfoOf(last)] else [];
      DistinctAppend(Infos(init), tail, last.name);
    }
  }

  /** No info of the earlier entries has the last entry's key. */
  lemma LastKeyIsNew(es: seq<Entry>, init: seq<Entry>)
    requires es != [] && DistinctKeys(es) && init == es[..|es| - 1]
    ensures forall j :: 0 <= j < |Infos(init)| ==> Infos(init)[j].imageName != es[|es| - 1].name
  {
    InfosFromEntries(init);
    var a := Infos(init);
    forall j | 0 <= j < |a|
      ensures a[j].imageName != es[|es| - 1].name
    {
      var k :| 0 <= k < |init| && init[k] == Entry(a[j].imageName, a[j].image);
      assert es[k] == init[k];
    }
  }

  /** Appending at most one info with a new key keeps the keys distinct. */
  lemma DistinctAppend(a: seq<CharacterInfo>, tail: seq<CharacterInfo>, key: string)
    requires DistinctImageNames(a) && |tail| <= 1
    requires forall t :: 0 <= t < |tail| ==> tail[t].imageName == key
    requires forall j :: 0 <= j < |a| ==> a[j].imageName != key
    ensures DistinctImageNames(a + tail)
  {
    var r := a + tail;
    forall i, j | 0 <= i < j < |r|
      ensures r[i].imageName != r[j].imageName
    {
      assert r[i] == a[i];
      if j < |a| {
        assert r[j] == a[j];
      } else {
        assert r[j] == tail[j - |a|];
      }
    }
  }

  /** An image is the first of its character in `es`. */
  predicate IsFirstOfName(es: seq<Entry>, d: ImageDescription) {
    CharacterName(d).Some?
    && exists k :: (0 <= k < |es| && es[k].image == d
      && forall j :: 0 <= j < k ==> CharacterName(es[j].image) != CharacterName(d))
  }

  /** The first info with a name describes the first image with that name. */
  lemma {:induction false} FirstInfoIsFirstImage(es: seq<Entry>, nm: string)
    requires FirstWithName(Infos(es), nm).Some?
    ensures var d := Infos(es)[FirstWithName(Infos(es), nm).value].image;
      CharacterName(d) == Some(nm) && IsFirstOfName(es, d)
    decreases |es|
  {
    var init := es[..|es| - 1];
    var last := es[|es| - 1];
    var a := Infos(init);
    var r := Infos(es);
    var f := FirstWithName(r, nm).value;
    InfosSnoc(es);
    if FirstWithName(a, nm).Some? {
      FirstInfoIsFirstImage(init, nm);
      var g := FirstWithName(a, nm).value;
      FirstWithNameExtends(a, r, nm);
      IsFirstExtends(es, a[g].image);
    } else {
      NoEarlierName(es, nm);
      assert r == a + [InfoOf(last)];
      assert f == |a|;
      IsFirstLast(es);
    }
  }

  lemma IsFirstExtends(es: seq<Entry>, d: ImageDescription)
    requires es != [] && IsFirstOfName(es[..|es| - 1], d)
    ensures IsFirstOfName(es, d)
  {
    var init := es[..|es| - 1];
    var k :| 0 <= k < |init| && init[k].image == d
      && forall j :: 0 <= j < k ==> CharacterName(init[j].image) != CharacterName(d);
    assert es[k] == init[k];
    assert forall j :: 0 <= j < k ==> es[j] == init[j];
  }

  lemma IsFirstLast(es: seq<Entry>)
    requires es != [] && CharacterName(es[|es| - 1].image).Some?
    requires forall j :: 0 <= j < |es| - 1 ==> CharacterName(es[j].image) != CharacterName(es[|es| - 1].image)
    ensures IsFirstOfName(es, es[|es| - 1].image)
  {
  }

  /** Appending infos does not move the first one with a name. */
  lemma {:induction false} FirstWithNameExtends(a: seq<CharacterInfo>, r: seq<CharacterInfo>, nm: string)
    requires FirstWithName(a, nm).Some? && |a| <= |r| && r[..|a|] == a
    ensures FirstWithName(r, nm) == FirstWithName(a, nm)
    decreases |r|
  {
    if |r| == |a| {
      assert r == r[..|a|];
    } else {
      var init := r[..|r| - 1];
      assert init[..|a|] == a;
      FirstWithNameExtends(a, init, nm);
    }
  }

  /** When no info of the prefix has the name, no entry of the prefix does. */
  lemma NoEarlierName(es: seq<Entry>, nm: string)
    requires es != [] && FirstWithName(Infos(es[..|es| - 1]), nm).None?
    ensures forall j :: 0 <= j < |es| - 1 ==> CharacterName(es[j].image) != Some(nm)
  {
    var init := es[..|es| - 1];
    var a := Infos(init);
    InfosComplete(init);
    forall j | 0 <= j < |init|
      ensures CharacterName(es[j].image) != Some(nm)
    {
      assert es[j] == init[j];
      if CharacterName(init[j].image).Some? {
        var i :| 0 <= i < |a| && a[i].imageName == init[j].name && a[i].image == init[j].image;
        assert CharacterName(a[i].image) == Some(a[i].name);
      }
    }
  }

  /** `character_groups` built by the grouping loop: the names in the order
      they are first met, and the image keys of each. */
  method GroupByName(infos: seq<CharacterInfo>) returns (order: seq<string>, groups: map<string, seq<string>>)
    ensures order == GroupNames(infos)
    ensures forall nm :: nm in groups <==> nm in order
    ensures forall nm :: nm in groups ==> groups[nm] == GroupImages(infos, nm)
  {
    order := [];
    groups := map[];
    for i := 0 to |infos|
      invariant order == GroupNames(infos[..i])
      invariant forall nm :: nm in groups <==> nm in order
      invariant forall nm :: nm in groups ==> groups[nm] == GroupImages(infos[..i], nm)
    {
      assert infos[..i + 1][..i] == infos[..i];
      var name := infos[i].name;
      if name !in groups {
        assert GroupImages(infos[..i], name) == [];
        groups := groups[name := []];
        order := order + [name];
      }
      groups := groups[name := groups[name] + [infos[i].imageName]];
    }
    assert infos[..|infos|] == infos;
  }

  /** `max(char_scores.items(), key=...)`: the first candidate of highest score. */
  method PickBest(candidates: seq<string>, selected: seq<string>, score: (seq<string>, string) -> real) returns (best: nat)
    requires candidates != []
    ensures best < |candidates|
    ensures forall j :: 0 <= j < |candidates| ==> score(selected, candidates[j]) <= score(selected, candidates[best])
    ensures forall j :: 0 <= j < best ==> score(selected, candidates[j]) < score(selected, candidates[best])
  {
    best := 0;
    for i := 1 to |candidates|
      invariant best < i
      invariant forall j :: 0 <= j < i ==> score(selected, candidates[j]) <= score(selected, candidates[best])
      invariant forall j :: 0 <= j < best ==> score(selected, candidates[j]) < score(selected, candidates[best])
    {
      if score(selected, candidates[i]) > score(selected, candidates[best]) {
        best := i;
      }
    }
  }

  /** `list.remove(x)`: drop the first occurrence of `x`. */
  function RemoveFirst(s: seq<string>, x: string): (r: seq<string>)
    ensures x in s ==> multiset(r) == multiset(s) - multiset{x} && |r| == |s| - 1
    ensures x !in s ==> r == s
    decreases |s|
  {
    if s == [] then []
    else if s[0] == x then (assert s == [s[0]] + s[1..]; s[1..])
    else (assert s == [s[0]] + s[1..]; [s[0]] + RemoveFirst(s[1..], x))
  }

  /** A list has no duplicates exactly when it holds every value at most once. */
  lemma {:induction false} DistinctCounts(s: seq<string>)
    ensures Distinct(s) <==> forall x :: multiset(s)[x] <= 1
    decreases |s|
  {
    if s != [] {
      var init := s[..|s| - 1];
      var last := s[|s| - 1];
      assert s == init + [last];
      DistinctCounts(init);
      if Distinct(s) {
        assert Distinct(init);
      } else {
        var i, j :| 0 <= i < j < |s| && s[i] == s[j];
        assert s == s[..j] + [s[j]] + s[j + 1..];
        assert s[i] in s[..j];
        assert multiset(s)[s[j]] >= multiset(s[..j])[s[j]] + 1;
      }
    }
  }

  function Min(a: int, b: int): int {
    if a < b then a else b
  }

  /** Every distinct name is the name of some image ... */
  lemma GroupNameHasImage(es: seq<Entry>, nm: string)
    requires nm in GroupNames(Infos(es))
    ensures exists k :: 0 <= k < |es| && CharacterName(es[k].image) == Some(nm)
  {
    var infos := Infos(es);
    InfosFromEntries(es);
    var f := FirstWithName(infos, nm).value;
    assert CharacterName(infos[f].image) == Some(nm);
  }

  /** ... and the name of every named image is among them. */
  lemma ImageNameIsGroupName(es: seq<Entry>, k: nat)
    requires k < |es| && CharacterName(es[k].image).Some?
    ensures CharacterName(es[k].image).value in GroupNames(Infos(es))
  {
    var infos := Infos(es);
    NamedImageHasInfo(es, infos, k);
    var i :| 0 <= i < |infos| && infos[i].name == CharacterName(es[k].image).value;
    NamedInfoHasFirst(infos, i);
  }

  /** A named image has an info carrying its name. */
  lemma NamedImageHasInfo(es: seq<Entry>, infos: seq<CharacterInfo>, k: nat)
    requires infos == Infos(es) && k < |es| && CharacterName(es[k].image).Some?
    ensures exists i :: 0 <= i < |infos| && infos[i].name == CharacterName(es[k].image).value
  {
    InfosComplete(es);
    var i :| 0 <= i < |infos| && infos[i].imageName == es[k].name && infos[i].image == es[k].image;
    assert CharacterName(infos[i].image) == Some(infos[i].name);
  }

  /** A name some info carries has a first info. */
  lemma NamedInfoHasFirst(infos: seq<CharacterInfo>, i: nat)
    requires i < |infos|
    ensures FirstWithName(infos, infos[i].name).Some?
  {
  }

  /** The representative of a name (`character_groups[nm][0]` looked up in
      `character_attributes`) is the first image with that name. */
  lemma Representative(es: seq<Entry>, infos: seq<CharacterInfo>, nm: string)
    requires DistinctKeys(es) && infos == Infos(es) && nm in GroupNames(infos)
    ensures GroupImages(infos, nm) != []
    ensures Lookup(infos, GroupImages(infos, nm)[0]).Some?
    ensures var d := infos[Lookup(infos, GroupImages(infos, nm)[0]).value].image;
      CharacterName(d) == Some(nm) && IsFirstOfName(es, d)
  {
    var f := FirstWithName(infos, nm).value;
    GroupImagesHead(infos, nm);
    InfosDistinct(es);
    FirstInfoIsFirstImage(es, nm);
    var l := Lookup(infos, infos[f].imageName);
    assert l.Some? && l.value == f;
  }

  /** One greedy pick: the first best-scoring remaining name, its group's
      first image appended to `selected`, the name removed. */
  method TakeBest(remaining: seq<string>, selected: seq<string>, groups: map<string, seq<string>>,
                  score: (seq<string>, string) -> real)
    returns (pick: string, rest: seq<string>, chosen: seq<string>)
    requires remaining != []
    requires forall nm :: nm in remaining ==> nm in groups && groups[nm] != []
    ensures pick in remaining && rest == RemoveFirst(remaining, pick)
    ensures chosen == selected + [groups[pick][0]]
    ensures forall nm :: nm in remaining ==> score(selected, nm) <= score(selected, pick)
  {
    var best := PickBest(remaining, selected, score);
    pick := remaining[best];
    chosen := selected + [groups[pick][0]];
    rest := RemoveFirst(remaining, pick);
  }

  /** The picking loop: `count` names taken from `remaining` (the shuffled
      names), and for each the first image key of its group. The first pick,
      written separately in the source, is the loop's first round: with
      nothing selected yet the combined score ranks candidates as the rarity
      score alone does. */
  method GreedySelect(order: seq<string>, groups: map<string, seq<string>>, count: nat,
                      remaining: seq<string>, score: (seq<string>, string) -> real)
    returns (selected: seq<string>, picked: seq<string>)
    requires multiset(remaining) == multiset(order) && count <= |order|
    requires forall nm :: nm in order ==> nm in groups && groups[nm] != []
    ensures |selected| == |picked| == count
    ensures multiset(picked) <= multiset(order)
    ensures forall k :: 0 <= k < |picked| ==> picked[k] in groups && groups[picked[k]] != [] && selected[k] == groups[picked[k]][0]
  {
    var left := remaining;
    selected := [];
    picked := [];
    while |selected| < count && left != []
      invariant multiset(left) + multiset(picked) == multiset(order)
      invariant |selected| == |picked| <= count
      invariant forall k :: 0 <= k < |picked| ==> picked[k] in groups && groups[picked[k]] != [] && selected[k] == groups[picked[k]][0]
      decreases |left|
    {
      LeftHaveGroups(left, picked, order, groups);
      var pick, rest, chosen := TakeBest(left, selected, groups, score);
      MovePick(left, rest, picked, pick, order);
      left, selected, picked := rest, chosen, picked + [pick];
    }
    if left == [] {
      assert multiset(left) == multiset{};
      SameMultisetSameLength(picked, order);
    }
  }

  /** The names still to pick all have a non-empty group. */
  lemma LeftHaveGroups(left: seq<string>, picked: seq<string>, order: seq<string>, groups: map<string, seq<string>>)
    requires multiset(left) + multiset(picked) == multiset(order)
    requires forall nm :: nm in order ==> nm in groups && groups[nm] != []
    ensures forall nm :: nm in left ==> nm in groups && groups[nm] != []
  {
    forall nm | nm in left
      ensures nm in groups && groups[nm] != []
    {
      assert nm in multiset(order);
    }
  }

  /** Moving the pick from the remaining names to the picked ones keeps the
      two together a permutation of the shuffled names. */
  lemma MovePick(left: seq<string>, rest: seq<string>, picked: seq<string>, pick: string, order: seq<string>)
    requires pick in left && rest == RemoveFirst(left, pick)
    requires multiset(left) + multiset(picked) == multiset(order)
    ensures multiset(rest) + multiset(picked + [pick]) == multiset(order)
  {
    assert multiset(left)[pick] > 0;
  }

  lemma SameMultisetSameLength(a: seq<string>, b: seq<string>)
    requires multiset(a) == multiset(b)
    ensures |a| == |b|
  {
    assert multiset(a) == multiset(b);
    assert |multiset(a)| == |multiset(b)|;
  }

  /** Names picked from a list without duplicates have no duplicates. */
  lemma PickedDistinct(order: seq<string>, picked: seq<string>)
    requires Distinct(order) && multiset(picked) <= multiset(order)
    ensures Distinct(picked) && forall nm :: nm in picked ==> nm in order
  {
    DistinctCounts(order);
    DistinctCounts(picked);
    forall nm | nm in picked
      ensures nm in order
    {
      assert nm in multiset(order);
    }
  }

  /** `d` is the first image of `images` whose character is `nm`. */
  predicate Represents(images: seq<Entry>, d: ImageDescription, nm: string) {
    CharacterName(d) == Some(nm) && IsFirstOfName(images, d)
  }

  /** The representative stored for the `k`-th pick. */
  lemma RepresentativeAt(images: seq<Entry>, infos: seq<CharacterInfo>, selected: seq<string>, picked: seq<string>, k: nat)
    requires DistinctKeys(images) && infos == Infos(images)
    requires k < |selected| == |picked|
    requires picked[k] in GroupNames(infos)
    requires GroupImages(infos, picked[k]) != [] && selected[k] == GroupImages(infos, picked[k])[0]
    ensures Lookup(infos, selected[k]).Some?
    ensures Represents(images, infos[Lookup(infos, selected[k]).value].image, picked[k])
  {
    Representative(images, infos, picked[k]);
  }

  /** `[character_attributes[img]["image_data"] for img in selected]`: the
      description stored under each selected image name, in order. */
  method ImagesOf(infos: seq<CharacterInfo>, selected: seq<string>) returns (r: seq<ImageDescription>)
    requires forall k :: 0 <= k < |selected| ==> Lookup(infos, selected[k]).Some?
    ensures |r| == |selected|
    ensures forall m :: 0 <= m < |r| ==>
      infos[Lookup(infos, selected[m]).value].imageName == selected[m] && r[m] == infos[Lookup(infos, selected[m]).value].image
  {
    r := [];
    for k := 0 to |selected|
      invariant |r| == k
      invariant forall m :: 0 <= m < k ==> r[m] == infos[Lookup(infos, selected[m]).value].image
    {
      r := r + [infos[Lookup(infos, selected[k]).value].image];
    }
  }

  /** `select_balanced_characters(n, images)`, with `random.shuffle` as
      `shuffle` (any permutation) and the rarity/dissimilarity score of a
      candidate name against the images selected so far as `score`. */
  method SelectBalancedCharacters(numCharacters: int, images: seq<Entry>,
                                  shuffle: seq<string> -> seq<string>,
                                  score: (seq<string>, string) -> real)
    returns (r: seq<ImageDescription>)
    requires DistinctKeys(images)
    requires forall s :: multiset(shuffle(s)) == multiset(s)
    ensures numCharacters <= 0 || images == [] ==> r == []
    ensures numCharacters > 0 && images != [] ==> |r| == Min(numCharacters, |GroupNames(Infos(images))|)
    ensures forall i, j :: 0 <= i < j < |r| ==> CharacterName(r[i]) != CharacterName(r[j])
    ensures forall i :: 0 <= i < |r| ==> IsFirstOfName(images, r[i])
  {
    if numCharacters <= 0 || images == [] {
      return [];
    }
    var infos := ComputeCharacterAttributes(images);
    var order, groups := GroupByName(infos);
    var count := numCharacters;
    if |order| < count {
      count := |order|;
    }
    var remaining := shuffle(order);
    var selected, picked := GreedySelect(order, groups, count, remaining, score);
    PickedDistinct(order, picked);
    forall k | 0 <= k < |selected|
      ensures Lookup(infos, selected[k]).Some?
      ensures Represents(images, infos[Lookup(infos, selected[k]).value].image, picked[k])
    {
      RepresentativeAt(images, infos, selected, picked, k);
    }
    r := ImagesOf(infos, selected);
  }
}
