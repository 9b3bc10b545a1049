// The analysed-image record the character pipeline works on, and its three
// query methods: the dominant colours, the concatenated text, and the key
// attributes used for comparison. Python dictionaries whose order matters
// are sequences of (key, value) pairs; `character_details`, only ever
// looked up or iterated into a set or a dict, is a map.
module CharacterData {
  import opened Wrappers
  import Text

  datatype ObjectAttribute = ObjectAttribute(name: string, value: string)

  datatype DetectedObject = DetectedObject(name: string, attributes: seq<ObjectAttribute>)

  /** A colour; `prominence` is the model's float, compared but never computed with. */
  datatype Color = Color(name: string, prominence: real)

  datatype TextElement = TextElement(content: string)

  datatype ImageDescription = ImageDescription(
    summary: string,
    objects: seq<DetectedObject>,
    scene: string,
    colors: seq<Color>,
    textElements: Option<seq<TextElement>>,
    timeOfDay: string,
    setting: string,
    isCharacter: bool,
    characterDetails: Option<map<string, string>>,
    imagePath: string,
    error: Option<string>)

  /** One `name -> description` item of a Python dict of images; the dict's
      insertion order is the sequence order and its keys are distinct. */
  datatype Entry = Entry(name: string, image: ImageDescription)

  predicate DistinctKeys(es: seq<Entry>) {
    forall i, j :: 0 <= i < j < |es| ==> es[i].name != es[j].name
  }

  /** Python truthiness of an optional string and of an optional dict. */
  predicate StringTruthy(s: Option<string>) {
    s.Some? && s.value != ""
  }

  predicate DetailsTruthy(d: ImageDescription) {
    d.characterDetails.Some? && |d.characterDetails.value| > 0
  }

  predicate SortedByProminence(cs: seq<Color>) {
    forall i, j :: 0 <= i < j < |cs| ==> cs[i].prominence >= cs[j].prominence
  }

  /** Insert `c` after every colour at least as prominent, so equal colours
      keep their order. */
  function InsertByProminence(cs: seq<Color>, c: Color): (r: seq<Color>)
    ensures multiset(r) == multiset(cs) + multiset{c} && |r| == |cs| + 1
    decreases |cs|
  {
    if cs == [] then [c]
    else if cs[0].prominence < c.prominence then [c] + cs
    else
      assert cs == [cs[0]] + cs[1..];
      [cs[0]] + InsertByProminence(cs[1..], c)
  }

  /** Inserting never brings in a colour more prominent than a bound the
      list and the new colour respect. */
  lemma {:induction false} InsertBounded(cs: seq<Color>, c: Color, b: real)
    requires forall i :: 0 <= i < |cs| ==> cs[i].prominence <= b
    requires c.prominence <= b
    ensures forall i :: 0 <= i < |InsertByProminence(cs, c)| ==> InsertByProminence(cs, c)[i].prominence <= b
    decreases |cs|
  {
    if cs != [] && cs[0].prominence >= c.prominence {
      InsertBounded(cs[1..], c, b);
    }
  }

  lemma {:induction false} InsertSorted(cs: seq<Color>, c: Color)
    requires SortedByProminence(cs)
    ensures SortedByProminence(InsertByProminence(cs, c))
    decreases |cs|
  {
    if cs != [] && cs[0].prominence >= c.prominence {
      InsertSorted(cs[1..], c);
      InsertBounded(cs[1..], c, cs[0].prominence);
    }
  }

  /** `sorted(colors, key=lambda c: c.prominence, reverse=True)`, an insertion sort. */
  function SortByProminence(cs: seq<Color>): (r: seq<Color>)
    ensures SortedByProminence(r)
    ensures multiset(r) == multiset(cs) && |r| == |cs|
    decreases |cs|
  {
    if cs == [] then []
    else
      var init := cs[..|cs| - 1];
      assert cs == init + [cs[|cs| - 1]];
      InsertSorted(SortByProminence(init), cs[|cs| - 1]);
      InsertByProminence(SortByProminence(init), cs[|cs| - 1])
  }

  /** The colours of `cs` whose prominence is exactly `p`, in order. */
  function WithProminence(cs: seq<Color>, p: real): (r: seq<Color>)
    ensures |r| <= |cs|
    ensures forall c :: c in r ==> c in cs && c.prominence == p
    decreases |cs|
  {
    if cs == [] then []
    else (if cs[0].prominence == p then [cs[0]] else []) + WithProminence(cs[1..], p)
  }

  lemma {:induction false} WithProminenceAppend(a: seq<Color>, b: seq<Color>, p: real)
    ensures WithProminence(a + b, p) == WithProminence(a, p) + WithProminence(b, p)
    decreases |a|
  {
    if a == [] {
      assert a + b == b;
    } else {
      assert (a + b)[0] == a[0] && (a + b)[1..] == a[1..] + b;
      WithProminenceAppend(a[1..], b, p);
    }
  }

  /** The colours of one prominence in a list with a given head. */
  lemma WithProminenceCons(x: Color, tail: seq<Color>, p: real)
    ensures WithProminence([x] + tail, p) == (if x.prominence == p then [x] else []) + WithProminence(tail, p)
  {
    assert ([x] + tail)[0] == x && ([x] + tail)[1..] == tail;
  }

  /** Putting the same colour in front of two lists keeps a relation between
      their colours of one prominence. */
  lemma ConsKeeps(x: Color, tail: seq<Color>, rest: seq<Color>, p: real, extra: seq<Color>)
    requires WithProminence(rest, p) == WithProminence(tail, p) + extra
    ensures WithProminence([x] + rest, p) == WithProminence([x] + tail, p) + extra
  {
    WithProminenceCons(x, rest, p);
    WithProminenceCons(x, tail, p);
  }

  /** Inserting into a sorted list puts the new colour after every colour of
      the same prominence. */
  lemma {:induction false} InsertStable(cs: seq<Color>, c: Color, p: real)
    requires SortedByProminence(cs)
    ensures WithProminence(InsertByProminence(cs, c), p)
      == WithProminence(cs, p) + (if c.prominence == p then [c] else [])
    decreases |cs|
  {
    if cs == [] {
      WithProminenceCons(c, [], p);
    } else if cs[0].prominence < c.prominence {
      WithProminenceCons(c, cs, p);
      if c.prominence == p {
        NoneWithProminence(cs, p);
      }
    } else {
      InsertStable(cs[1..], c, p);
      assert cs == [cs[0]] + cs[1..];
      ConsKeeps(cs[0], cs[1..], InsertByProminence(cs[1..], c), p, if c.prominence == p then [c] else []);
    }
  }

  /** A colour more prominent than the head of a sorted list has no equal in it. */
  lemma {:induction false} NoneWithProminence(cs: seq<Color>, p: real)
    requires SortedByProminence(cs) && cs != [] && cs[0].prominence < p
    ensures WithProminence(cs, p) == []
    decreases |cs|
  {
    if |cs| > 1 {
      assert cs[1..][0] == cs[1];
      NoneWithProminence(cs[1..], p);
    }
  }

  /** The sort is stable, as Python's `sorted` is: colours of equal prominence
      come out in their input order. */
  lemma {:induction false} SortStable(cs: seq<Color>, p: real)
    ensures WithProminence(SortByProminence(cs), p) == WithProminence(cs, p)
    decreases |cs|
  {
    if cs != [] {
      var init := cs[..|cs| - 1];
      var last := cs[|cs| - 1];
      var sorted := SortByProminence(init);
      assert cs == init + [last];
      assert SortByProminence(cs) == InsertByProminence(sorted, last);
      SortStable(init, p);
      InsertStable(sorted, last, p);
      WithProminenceAppend(init, [last], p);
      WithProminenceCons(last, [], p);
      assert [last] + [] == [last];
    }
  }

  /** How many items `xs[:limit]` keeps, negative limits counting from the end. */
  function PrefixLength(n: nat, limit: int): (k: nat)
    ensures k <= n
    ensures limit >= 0 ==> k == (if limit < n then limit else n)
    ensures limit < 0 ==> k == (if n + limit > 0 then n + limit else 0)
  {
    if limit >= 0 then (if limit < n then limit else n)
    else if n + limit > 0 then n + limit else 0
  }

  /** `get_dominant_colors(limit)`: the first `limit` colours by prominence,
      most prominent first. */
  function DominantColors(d: ImageDescription, limit: int): (r: seq<Color>)
    ensures |r| == PrefixLength(|d.colors|, limit)
    ensures SortedByProminence(r)
    ensures multiset(r) <= multiset(d.colors)
  {
    var s := SortByProminence(d.colors);
    var k := PrefixLength(|d.colors|, limit);
    assert s == s[..k] + s[k..];
    s[..k]
  }

  /** In a sorted list every colour after position `k` is at most as
      prominent as every colour before it. */
  lemma SortedSplit(s: seq<Color>, k: nat)
    requires SortedByProminence(s) && k <= |s|
    ensures forall c, x :: c in s[k..] && x in s[..k] ==> c.prominence <= x.prominence
  {
    forall c, x | c in s[k..] && x in s[..k]
      ensures c.prominence <= x.prominence
    {
      var j :| 0 <= j < |s[k..]| && s[k..][j] == c;
      var i :| 0 <= i < k && s[..k][i] == x;
      assert s[i] == x && s[k + j] == c;
    }
  }

  /** Removing a prefix's colours from a list leaves those of its suffix. */
  lemma PrefixRemoved(s: seq<Color>, k: nat)
    requires k <= |s|
    ensures multiset(s) - multiset(s[..k]) == multiset(s[k..])
  {
    assert s == s[..k] + s[k..];
  }

  /** In a sorted list, nothing outside the first `k` colours of any
      reordering of it outranks one of those `k`. */
  lemma LeftOutNotMoreProminent(all: seq<Color>, s: seq<Color>, k: nat)
    requires SortedByProminence(s) && k <= |s| && multiset(s) == multiset(all)
    ensures forall c, x :: c in multiset(all) - multiset(s[..k]) && x in s[..k] ==> c.prominence <= x.prominence
  {
    PrefixRemoved(s, k);
    SortedSplit(s, k);
    forall c, x | c in multiset(all) - multiset(s[..k]) && x in s[..k]
      ensures c.prominence <= x.prominence
    {
      assert c in multiset(s[k..]);
    }
  }

  /** No colour left out is more prominent than one kept. */
  lemma DominantColorsAreTop(d: ImageDescription, limit: int)
    ensures var r := DominantColors(d, limit);
      forall c, x :: c in multiset(d.colors) - multiset(r) && x in r ==> c.prominence <= x.prominence
  {
    var s := SortByProminence(d.colors);
    var k := PrefixLength(|d.colors|, limit);
    assert DominantColors(d, limit) == s[..k];
    LeftOutNotMoreProminent(d.colors, s, k);
  }

  /** `" ".join(parts)` */
  function Join(parts: seq<string>): (r: string)
    ensures parts == [] ==> r == ""
    ensures |parts| == 1 ==> r == parts[0]
    decreases |parts|
  {
    if parts == [] then ""
    else if |parts| == 1 then parts[0]
    else Join(parts[..|parts| - 1]) + " " + parts[|parts| - 1]
  }

  function TotalLength(parts: seq<string>): nat
    decreases |parts|
  {
    if parts == [] then 0 else TotalLength(parts[..|parts| - 1]) + |parts[|parts| - 1]|
  }

  /** On a tie the colours kept are the earliest in the input: for every
      prominence, the kept colours of that prominence are a prefix of the
      input's colours of that prominence. */
  lemma DominantColorsStable(d: ImageDescription, limit: int, p: real)
    ensures WithProminence(DominantColors(d, limit), p) <= WithProminence(d.colors, p)
  {
    var s := SortByProminence(d.colors);
    var k := PrefixLength(|d.colors|, limit);
    assert s == s[..k] + s[k..];
    WithProminenceAppend(s[..k], s[k..], p);
    SortStable(d.colors, p);
  }

  /** The joined text is as long as the parts together plus one space
      between each pair of neighbours. */
  lemma {:induction false} JoinLength(parts: seq<string>)
    requires parts != []
    ensures |Join(parts)| == TotalLength(parts) + |parts| - 1
    decreases |parts|
  {
    if |parts| > 1 {
      JoinLength(parts[..|parts| - 1]);
    }
  }

  /** Cutting the parts anywhere cuts the joined text at one space: the
      first `k` parts joined, a space, the rest joined. */
  lemma {:induction false} JoinSplit(parts: seq<string>, k: nat)
    requires 0 < k < |parts|
    ensures Join(parts) == Join(parts[..k]) + " " + Join(parts[k..])
    decreases |parts|
  {
    var n := |parts|;
    var init := parts[..n - 1];
    if k == n - 1 {
      assert parts[..k] == init;
      assert parts[k..] == [parts[n - 1]];
    } else {
      JoinSplit(init, k);
      assert init[..k] == parts[..k];
      assert parts[k..][..|parts[k..]| - 1] == init[k..];
      assert parts[k..][|parts[k..]| - 1] == parts[n - 1];
      assert Join(parts[k..]) == Join(init[k..]) + " " + parts[n - 1];
    }
  }

  /** Each inner part sits in the joined text between its neighbours' texts,
      with one space on either side. */
  lemma JoinPartAt(parts: seq<string>, i: nat)
    requires 0 < i < |parts| - 1
    ensures Join(parts) == Join(parts[..i]) + " " + parts[i] + " " + Join(parts[i + 1..])
  {
    var tail := parts[i..];
    JoinSplit(parts, i);
    JoinHead(tail);
    assert tail[0] == parts[i] && tail[1..] == parts[i + 1..];
    Regroup(Join(parts[..i]), " ", parts[i], " ", Join(parts[i + 1..]));
  }

  lemma Regroup(a: string, b: string, c: string, d: string, e: string)
    ensures a + b + (c + d + e) == a + b + c + d + e
  {
  }

  /** The first part, a space, and the others joined. */
  lemma JoinHead(parts: seq<string>)
    requires |parts| > 1
    ensures Join(parts) == parts[0] + " " + Join(parts[1..])
  {
    JoinSplit(parts, 1);
    assert parts[..1] == [parts[0]];
  }

  function Contents(ts: seq<TextElement>): (r: seq<string>)
    ensures |r| == |ts| && forall i :: 0 <= i < |ts| ==> r[i] == ts[i].content
    decreases |ts|
  {
    if ts == [] then [] else Contents(ts[..|ts| - 1]) + [ts[|ts| - 1].content]
  }

  /** `get_text_content`: "" when there are no text elements, else their
      contents joined with single spaces. */
  function TextContent(d: ImageDescription): (r: string)
    ensures d.textElements.None? || d.textElements.value == [] ==> r == ""
    ensures d.textElements.Some? && |d.textElements.value| == 1 ==> r == d.textElements.value[0].content
  {
    if d.textElements.None? || d.textElements.value == [] then ""
    else Join(Contents(d.textElements.value))
  }

  lemma TextContentLength(d: ImageDescription)
    requires d.textElements.Some? && d.textElements.value != []
    ensures |TextContent(d)| == TotalLength(Contents(d.textElements.value)) + |d.textElements.value| - 1
  {
    JoinLength(Contents(d.textElements.value));
  }

  /** The text of the first `k` elements, a space, and the text of the rest. */
  lemma TextContentSplit(d: ImageDescription, k: nat)
    requires d.textElements.Some? && 0 < k < |d.textElements.value|
    ensures TextContent(d) == Join(Contents(d.textElements.value)[..k]) + " " + Join(Contents(d.textElements.value)[k..])
  {
    JoinSplit(Contents(d.textElements.value), k);
  }

  /** A key that starts with "char_". */
  predicate IsCharKey(key: string) {
    |key| >= 5 && key[0] == 'c' && key[1] == 'h' && key[2] == 'a' && key[3] == 'r' && key[4] == '_'
  }

  /** `"char_" + key` for every detail but the name. */
  function CharEntries(details: map<string, string>): (r: map<string, string>)
    ensures forall k :: k in details && k != "name" ==> "char_" + k in r && r["char_" + k] == details[k]
    ensures forall key :: key in r ==> IsCharKey(key) && key[5..] in details && key[5..] != "name"
  {
    var r := map key | key in (set k | k in details && k != "name" :: "char_" + k) :: details[key[5..]];
    assert forall k :: k in details && k != "name" ==> ("char_" + k)[5..] == k;
    r
  }

  /** What a truthy `character_details` adds: the name (or "Unknown") under
      "character" and every other detail under its "char_" key. */
  function DetailEntries(d: ImageDescription): (r: map<string, string>)
    ensures "character" in r <==> DetailsTruthy(d)
    ensures forall key :: key in r && key != "character" ==> IsCharKey(key) && key[5..] != "name"
    ensures DetailsTruthy(d) ==> var details := d.characterDetails.value;
      && r["character"] == (if "name" in details then details["name"] else "Unknown")
      && forall k :: k in details && k != "name" ==> "char_" + k in r && r["char_" + k] == details[k]
  {
    if DetailsTruthy(d) then
      var details := d.characterDetails.value;
      assert !IsCharKey("character");
      map["character" := if "name" in details then details["name"] else "Unknown"] + CharEntries(details)
    else map[]
  }

  /** The names of the (at most two) most prominent colours. */
  function ColorEntries(d: ImageDescription): (r: map<string, string>)
    ensures "dom_color1" in r <==> |d.colors| >= 1
    ensures "dom_color2" in r <==> |d.colors| >= 2
    ensures forall key :: key in r ==> key == "dom_color1" || key == "dom_color2"
    ensures |d.colors| >= 1 ==> r["dom_color1"] == DominantColors(d, 2)[0].name
    ensures |d.colors| >= 2 ==> r["dom_color2"] == DominantColors(d, 2)[1].name
  {
    var dom := DominantColors(d, 2);
    if |dom| == 0 then map[]
    else if |dom| == 1 then map["dom_color1" := dom[0].name]
    else map["dom_color1" := dom[0].name, "dom_color2" := dom[1].name]
  }

  /** `get_key_attributes`: the four scene keys, then the character's details,
      then the dominant colours, each later entry overriding an earlier one. */
  function KeyAttributes(d: ImageDescription): map<string, string> {
    map["summary" := d.summary, "scene" := d.scene, "setting" := d.setting, "time_of_day" := d.timeOfDay]
      + DetailEntries(d) + ColorEntries(d)
  }

  /** A scene key is neither a "char_" key nor a colour key. */
  lemma SceneKeyNotOverridden(d: ImageDescription, key: string)
    requires key == "summary" || key == "scene" || key == "setting" || key == "time_of_day"
    ensures key !in DetailEntries(d) && key !in ColorEntries(d)
  {
    assert !IsCharKey(key) && key != "character";
  }

  /** The scene keys always hold the description's own fields. */
  lemma KeyAttributesScene(d: ImageDescription)
    ensures var r := KeyAttributes(d);
      && r["summary"] == d.summary && r["scene"] == d.scene
      && r["setting"] == d.setting && r["time_of_day"] == d.timeOfDay
  {
    SceneKeyNotOverridden(d, "summary");
    SceneKeyNotOverridden(d, "scene");
    SceneKeyNotOverridden(d, "setting");
    SceneKeyNotOverridden(d, "time_of_day");
  }

  /** The name detail is never copied under a "char_" key. */
  lemma KeyAttributesNoCharName(d: ImageDescription)
    ensures "char_name" !in KeyAttributes(d)
  {
    var de := DetailEntries(d);
    assert "char_name"[5..] == "name";
    assert "char_name" !in de;
  }

  /** The colour entries never override a character entry. */
  lemma DetailKeyNotColor(d: ImageDescription, key: string)
    requires key == "character" || IsCharKey(key)
    ensures key !in ColorEntries(d)
  {
    assert !IsCharKey("dom_color1") && !IsCharKey("dom_color2");
  }

  /** The character keys: present exactly when the details are truthy. */
  lemma KeyAttributesCharacter(d: ImageDescription)
    ensures var r := KeyAttributes(d);
      && ("character" in r <==> DetailsTruthy(d))
      && (DetailsTruthy(d) ==> var details := d.characterDetails.value;
            && r["character"] == (if "name" in details then details["name"] else "Unknown")
            && forall k :: k in details && k != "name" ==> r["char_" + k] == details[k])
  {
    DetailKeyNotColor(d, "character");
    if DetailsTruthy(d) {
      var details := d.characterDetails.value;
      forall k | k in details && k != "name"
        ensures KeyAttributes(d)["char_" + k] == details[k]
      {
        DetailKeyNotColor(d, "char_" + k);
      }
    }
  }

  /** The colour keys: the names of the top two colours, when there are that many. */
  lemma KeyAttributesColors(d: ImageDescription)
    ensures var r := KeyAttributes(d);
      && ("dom_color1" in r <==> |d.colors| >= 1)
      && ("dom_color2" in r <==> |d.colors| >= 2)
      && (|d.colors| >= 1 ==> r["dom_color1"] == DominantColors(d, 2)[0].name)
      && (|d.colors| >= 2 ==> r["dom_color2"] == DominantColors(d, 2)[1].name)
  {
    var de := DetailEntries(d);
    assert !IsCharKey("dom_color1") && !IsCharKey("dom_color2");
    assert "dom_color1" !in de && "dom_color2" !in de;
  }
}
