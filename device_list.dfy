/** The main list view: dropping results that have not loaded, grouping by
    type or room, the title-case group labels, the uniqueness check for new
    IDs, and the view's own state (group-by toggle, form visibility). */
module DeviceList {
  import opened Values

  // ---------------------------------------------------------------------
  // Results that have not loaded

  /** `data.filter((result) => result !== undefined)`. */
  function Present(data: seq<Option<Device>>): (ds: seq<Device>)
    ensures |ds| <= |data|
    ensures forall d :: d in ds <==> Some(d) in data
  {
    if data == [] then []
    else
      var rest := Present(data[1..]);
      assert forall x :: x in data[1..] ==> x in data;
      assert data == [data[0]] + data[1..];
      if data[0].Some? then [data[0].value] + rest else rest
  }

  /** Filtering keeps the relative order: it distributes over concatenation. */
  lemma {:induction false} PresentAppend(a: seq<Option<Device>>, b: seq<Option<Device>>)
    ensures Present(a + b) == Present(a) + Present(b)
    decreases |a|
  {
    if a == [] {
      assert a + b == b;
    } else {
      assert (a + b)[1..] == a[1..] + b;
      PresentAppend(a[1..], b);
    }
  }

  // ---------------------------------------------------------------------
  // Grouping

  /** `device.type ?? null` (or `device.room ?? null`) used as an object key:
      a missing value becomes the key "null". */
  function PropertyKey(v: Option<string>): (k: string)
    ensures v.Some? ==> k == v.value
    ensures v.None? ==> k == "null"
  {
    v.GetOr("null")
  }

  datatype GroupMode = ByType | ByRoom

  /** The key a device is grouped under. */
  function GroupKey(d: Device, mode: GroupMode): (k: string)
    ensures var field := if mode == ByType then d.deviceType else d.room;
      (field.Some? ==> k == field.value) && (field.None? ==> k == "null")
  {
    PropertyKey(if mode == ByType then d.deviceType else d.room)
  }

  /** The devices of `ds` whose key is `k`, in their order in `ds`. */
  function Members(ds: seq<Device>, mode: GroupMode, k: string): seq<Device> {
    if ds == [] then []
    else Members(ds[..|ds| - 1], mode, k) + (if GroupKey(ds[|ds| - 1], mode) == k then [ds[|ds| - 1]] else [])
  }

  /** `Object.groupBy`: each group, keyed by the devices' key, lists its
      devices in their original order, and there is a group for exactly the
      keys that occur. */
  function GroupBy(ds: seq<Device>, mode: GroupMode): (g: map<string, seq<Device>>)
    ensures g.Keys == set d | d in ds :: GroupKey(d, mode)
    ensures forall k :: k in g ==> g[k] == Members(ds, mode, k)
  {
    if ds == [] then map[]
    else
      var init := ds[..|ds| - 1];
      var d := ds[|ds| - 1];
      var g0 := GroupBy(init, mode);
      var k := GroupKey(d, mode);
      assert ds == init + [d];
      GroupByStep(init, d, mode, g0);
      g0[k := (if k in g0 then g0[k] else []) + [d]]
  }

  /** Appending one device to its key's group (a new group when the key is
      new) turns the grouping of `init` into the grouping of `init + [d]`. */
  lemma {:induction false} GroupByStep(init: seq<Device>, d: Device, mode: GroupMode, g0: map<string, seq<Device>>)
    requires g0.Keys == set x | x in init :: GroupKey(x, mode)
    requires forall j :: j in g0 ==> g0[j] == Members(init, mode, j)
    ensures var k := GroupKey(d, mode);
      var g := g0[k := (if k in g0 then g0[k] else []) + [d]];
      && g.Keys == (set x | x in init + [d] :: GroupKey(x, mode))
      && forall j :: j in g ==> g[j] == Members(init + [d], mode, j)
  {
    var k := GroupKey(d, mode);
    var g := g0[k := (if k in g0 then g0[k] else []) + [d]];
    var ds := init + [d];
    assert ds[..|ds| - 1] == init && ds[|ds| - 1] == d;
    forall y
      ensures y in (set x | x in ds :: GroupKey(x, mode)) <==> y in g0.Keys + {k}
    {
      if y in (set x | x in ds :: GroupKey(x, mode)) {
        var x :| x in ds && GroupKey(x, mode) == y;
        if x != d {
          assert x in init;
        }
      }
      if y in g0.Keys {
        var x :| x in init && GroupKey(x, mode) == y;
        assert x in ds;
      }
    }
    if k !in g0 {
      MembersEmpty(init, mode, k);
    }
  }

  /** No device of `ds` has key `k` exactly when its group is empty. */
  lemma {:induction false} MembersEmpty(ds: seq<Device>, mode: GroupMode, k: string)
    ensures Members(ds, mode, k) == [] <==> forall d :: d in ds ==> GroupKey(d, mode) != k
    decreases |ds|
  {
    if ds != [] {
      var init := ds[..|ds| - 1];
      assert ds == init + [ds[|ds| - 1]];
      MembersEmpty(init, mode, k);
    }
  }

  /** A device is in a group exactly when it occurs in the input with that
      group's key: every device lands in exactly one group. */
  lemma {:induction false} MembersExact(ds: seq<Device>, mode: GroupMode, k: string, d: Device)
    ensures d in Members(ds, mode, k) <==> d in ds && GroupKey(d, mode) == k
    decreases |ds|
  {
    if ds != [] {
      var init := ds[..|ds| - 1];
      assert ds == init + [ds[|ds| - 1]];
      MembersExact(init, mode, k, d);
    }
  }

  /** Group sizes add up to the number of devices grouped. */
  lemma {:induction false} GroupSizesAddUp(ds: seq<Device>, mode: GroupMode, k: string)
    ensures |Members(ds, mode, k)| + |Others(ds, mode, k)| == |ds|
    decreases |ds|
  {
    if ds != [] {
      GroupSizesAddUp(ds[..|ds| - 1], mode, k);
    }
  }

  /** The devices of `ds` whose key is not `k`. */
  function Others(ds: seq<Device>, mode: GroupMode, k: string): seq<Device> {
    if ds == [] then []
    else Others(ds[..|ds| - 1], mode, k) + (if GroupKey(ds[|ds| - 1], mode) != k then [ds[|ds| - 1]] else [])
  }

  /** The groups the view renders for its `groupBy` setting; `None` is the
      "Error: Unknown groupBy" page. */
  function GroupsFor(data: seq<Option<Device>>, groupBy: string): (r: Option<map<string, seq<Device>>>)
    ensures r.Some? <==> groupBy == "type" || groupBy == "room"
    ensures groupBy == "type" ==> r.value == GroupBy(Present(data), ByType)
    ensures groupBy == "room" ==> r.value == GroupBy(Present(data), ByRoom)
  {
    if groupBy == "type" then Some(GroupBy(Present(data), ByType))
    else if groupBy == "room" then Some(GroupBy(Present(data), ByRoom))
    else None
  }

  // ---------------------------------------------------------------------
  // Group labels

  function ToUpper(c: char): char {
    if 'a' <= c <= 'z' then (c as int - 32) as char else c
  }

  function ToLower(c: char): char {
    if 'A' <= c <= 'Z' then (c as int + 32) as char else c
  }

  function Lowered(s: string): (r: string)
    ensures |r| == |s| && forall i :: 0 <= i < |s| ==> r[i] == ToLower(s[i])
  {
    if s == [] then [] else [ToLower(s[0])] + Lowered(s[1..])
  }

  /** `string.replace(/_/, " ")`: the pattern has no `g` flag, so only the
      first underscore becomes a space. */
  function ReplaceFirstUnderscore(s: string): (r: string)
    ensures |r| == |s|
    ensures '_' !in s ==> r == s
    ensures '_' in s ==> r[IndexOf(s, '_')] == ' '
    ensures forall i :: 0 <= i < |s| && s[i] != '_' ==> r[i] == s[i]
    ensures '_' in s ==> forall i :: 0 <= i < |s| && i != IndexOf(s, '_') ==> r[i] == s[i]
    ensures forall i :: 0 <= i < |s| && r[i] == '_' ==> '_' in s && IndexOf(s, '_') < i
  {
    if '_' in s then
      var k := IndexOf(s, '_');
      s[..k] + " " + s[k + 1..]
    else s
  }

  /** Position of the first occurrence of `c`. */
  function IndexOf(t: string, c: char): (i: nat)
    requires c in t
    ensures i < |t| && t[i] == c && c !in t[..i]
  {
    if t[0] == c then 0
    else
      var j := IndexOf(t[1..], c);
      assert t[..j + 1] == [t[0]] + t[1..][..j];
      j + 1
  }

  /** In `a + [c] + b`, where `a` has no `c`, the first `c` is the one after `a`. */
  lemma IndexOfAfter(a: string, c: char, b: string)
    requires c !in a
    ensures c in a + [c] + b && IndexOf(a + [c] + b, c) == |a|
  {
    var t := a + [c] + b;
    assert t[|a|] == c && t[..|a|] == a;
  }

  /** `words.join(" ")`. */
  function Join(ws: seq<string>): string
    requires |ws| >= 1
  {
    if |ws| == 1 then ws[0] else ws[0] + " " + Join(ws[1..])
  }

  /** `t.split(" ")`: the words between spaces, empty ones included. */
  function Split(t: string): (ws: seq<string>)
    ensures |ws| >= 1
    ensures forall w :: w in ws ==> ' ' !in w
    ensures Join(ws) == t
    decreases |t|
  {
    if ' ' !in t then [t]
    else
      var i := IndexOf(t, ' ');
      var rest := Split(t[i + 1..]);
      assert t == t[..i] + " " + t[i + 1..];
      [t[..i]] + rest
  }

  /** `word[0].toUpperCase() + word.slice(1).toLowerCase()`. */
  function TitleWord(w: string): string
    requires w != ""
  {
    [ToUpper(w[0])] + Lowered(w[1..])
  }

  function TitleWords(ws: seq<string>): (r: seq<string>)
    requires "" !in ws
    ensures |r| == |ws|
  {
    if ws == [] then [] else [TitleWord(ws[0])] + TitleWords(ws[1..])
  }

  /** `capitalize`. An empty word makes `word[0]` undefined and the call
      throws; that is `None`. */
  function Capitalize(s: string): (r: Option<string>)
    ensures r.Some? <==> !HasEmptyWord(ReplaceFirstUnderscore(s))
    ensures r.Some? ==> |r.value| == |s|
  {
    var t := ReplaceFirstUnderscore(s);
    var words := Split(t);
    EmptyWordIff(t);
    if "" in words then None
    else
      TitleCaseByCharacter(t);
      Some(Join(TitleWords(words)))
  }

  /** The title-case character at position `i` of `t`: upper case at the start
      of a word, lower case elsewhere. */
  function TitleChar(t: string, i: nat): char
    requires i < |t|
  {
    if i == 0 || t[i - 1] == ' ' then ToUpper(t[i]) else ToLower(t[i])
  }

  /** A character's title case depends only on it and on whether a word
      starts there. */
  lemma TitleCharLocal(t: string, i: nat, u: string, j: nat)
    requires i < |t| && j < |u| && t[i] == u[j]
    requires (i == 0 || t[i - 1] == ' ') <==> (j == 0 || u[j - 1] == ' ')
    ensures TitleChar(t, i) == TitleChar(u, j)
  {
  }

  /** A word without spaces is title-cased character by character. */
  lemma {:induction false} TitleWordByCharacter(w: string)
    requires w != "" && ' ' !in w
    ensures |TitleWord(w)| == |w|
    ensures forall i :: 0 <= i < |w| ==> TitleWord(w)[i] == TitleChar(w, i)
  {
    forall i | 0 <= i < |w| ensures TitleWord(w)[i] == TitleChar(w, i) {
      if i > 0 {
        assert w[i - 1] in w;
      }
    }
  }

  /** Title-casing word by word is title-casing character by character. */
  lemma {:induction false} TitleCaseByCharacter(t: string)
    requires "" !in Split(t)
    ensures |Join(TitleWords(Split(t)))| == |t|
    ensures forall i :: 0 <= i < |t| ==> Join(TitleWords(Split(t)))[i] == TitleChar(t, i)
    decreases |t|
  {
    if ' ' !in t {
      assert Split(t) == [t];
      assert TitleWords(Split(t)) == [TitleWord(t)];
      TitleWordByCharacter(t);
    } else {
      var k := IndexOf(t, ' ');
      var w, rest := t[..k], t[k + 1..];
      assert Split(t) == [w] + Split(rest);
      assert w != "" && ' ' !in w && "" !in Split(rest);
      TitleWordByCharacter(w);
      TitleCaseByCharacter(rest);
      var tw, rr := TitleWord(w), Join(TitleWords(Split(rest)));
      assert TitleWords(Split(t)) == [tw] + TitleWords(Split(rest));
      assert Join(TitleWords(Split(t))) == tw + " " + rr;
      TitleCaseAroundSpace(t, k, tw, rr);
    }
  }

  /** Title-casing the text before a space and the text after it, and
      putting the space back, title-cases the whole text. */
  lemma {:induction false} TitleCaseAroundSpace(t: string, k: nat, tw: string, rr: string)
    requires k < |t| && t[k] == ' '
    requires |tw| == k && forall i :: 0 <= i < k ==> tw[i] == TitleChar(t[..k], i)
    requires |rr| == |t| - k - 1 && forall i :: 0 <= i < |rr| ==> rr[i] == TitleChar(t[k + 1..], i)
    ensures |tw + " " + rr| == |t|
    ensures forall i :: 0 <= i < |t| ==> (tw + " " + rr)[i] == TitleChar(t, i)
  {
    var w, rest, r := t[..k], t[k + 1..], tw + " " + rr;
    forall i | 0 <= i < |t| ensures r[i] == TitleChar(t, i) {
      if i < k {
        assert r[i] == tw[i] == TitleChar(w, i);
        TitleCharLocal(t, i, w, i);
      } else if i == k {
        assert r[i] == ' ' == t[i];
      } else {
        assert r[i] == rr[i - k - 1] == TitleChar(rest, i - k - 1);
        TitleCharLocal(t, i, rest, i - k - 1);
      }
    }
  }

  /** Two spaces in a row somewhere in `t`. */
  predicate DoubleSpace(t: string) {
    exists i :: 0 <= i < |t| - 1 && DoubleSpaceAt(t, i)
  }

  /** Spaces at positions `i` and `i + 1` of `t`. */
  predicate DoubleSpaceAt(t: string, i: int) {
    0 <= i < |t| - 1 && t[i] == ' ' && t[i + 1] == ' '
  }

  /** The texts whose split has an empty word. */
  predicate HasEmptyWord(t: string) {
    t == "" || t[0] == ' ' || t[|t| - 1] == ' ' || DoubleSpace(t)
  }

  /** No space comes before the first one. */
  lemma FirstSpaceIsFirst(t: string, k: nat, i: nat)
    requires ' ' in t && k == IndexOf(t, ' ')
    requires i < |t| && t[i] == ' '
    ensures k <= i
  {
    if i < k {
      assert false;
    }
  }

  /** A double space lies at or after the first space `k`: either right after
      it or inside the rest of the text. */
  lemma {:induction false} DoubleSpaceAfterFirst(t: string, k: nat)
    requires ' ' in t && k == IndexOf(t, ' ')
    ensures DoubleSpace(t) <==> (k + 1 < |t| && t[k + 1] == ' ') || DoubleSpace(t[k + 1..])
  {
    var rest := t[k + 1..];
    if k + 1 < |t| && t[k + 1] == ' ' {
      assert DoubleSpaceAt(t, k);
    }
    if DoubleSpace(rest) {
      var i :| 0 <= i < |rest| - 1 && DoubleSpaceAt(rest, i);
      assert t[k + 1 + i] == rest[i] && t[k + 2 + i] == rest[i + 1];
      assert DoubleSpaceAt(t, k + 1 + i);
    }
    if DoubleSpace(t) {
      var i :| 0 <= i < |t| - 1 && DoubleSpaceAt(t, i);
      FirstSpaceIsFirst(t, k, i);
      if i > k {
        assert DoubleSpaceAt(rest, i - k - 1);
      }
    }
  }

  /** Splitting yields an empty word exactly when the text is empty, starts
      or ends with a space, or has two spaces in a row. */
  lemma {:induction false} EmptyWordIff(t: string)
    ensures "" in Split(t) <==> HasEmptyWord(t)
    decreases |t|
  {
    if ' ' in t {
      var k := IndexOf(t, ' ');
      var rest := t[k + 1..];
      assert Split(t) == [t[..k]] + Split(rest);
      assert "" in Split(t) <==> k == 0 || "" in Split(rest);
      EmptyWordIff(rest);
      HasEmptyWordAfterFirst(t, k);
    }
  }

  /** The text has an empty word exactly when its first space opens it or
      the text after that space has one. */
  lemma {:induction false} HasEmptyWordAfterFirst(t: string, k: nat)
    requires ' ' in t && k == IndexOf(t, ' ')
    ensures HasEmptyWord(t) <==> k == 0 || HasEmptyWord(t[k + 1..])
  {
    var rest := t[k + 1..];
    DoubleSpaceAfterFirst(t, k);
    if t[0] == ' ' {
      FirstSpaceIsFirst(t, k, 0);
    }
    if rest == [] {
      assert t[|t| - 1] == ' ';
    } else {
      assert t[|t| - 1] == rest[|rest| - 1] && t[k + 1] == rest[0];
    }
  }

  /** `capitalize` succeeds exactly when the text, after its first underscore
      is replaced, has no empty word; it then keeps the length, upper-cases
      the first letter of every word and lower-cases the rest. */
  lemma {:induction false} CapitalizeSpec(s: string)
    ensures var t := ReplaceFirstUnderscore(s);
      && (Capitalize(s).Some? <==> !HasEmptyWord(t))
      && (Capitalize(s).Some? ==>
            |Capitalize(s).value| == |s| &&
            forall i :: 0 <= i < |s| ==> Capitalize(s).value[i] == TitleChar(t, i))
  {
    var t := ReplaceFirstUnderscore(s);
    EmptyWordIff(t);
    if "" !in Split(t) {
      TitleCaseByCharacter(t);
    }
  }

  /** Two words with one space between them split into those two words. */
  lemma {:induction false} SplitTwoWords(a: string, b: string)
    requires ' ' !in a && ' ' !in b
    ensures Split(a + " " + b) == [a, b]
  {
    var t := a + " " + b;
    IndexOfAfter(a, ' ', b);
    assert t[|a| + 1..] == b && t[..|a|] == a;
  }

  /** A name with one underscore becomes two capitalised words. */
  lemma {:induction false} CapitalizeSnakePair(a: string, b: string)
    requires a != "" && b != ""
    requires '_' !in a && ' ' !in a && ' ' !in b
    ensures Capitalize(a + "_" + b) == Some(TitleWord(a) + " " + TitleWord(b))
  {
    IndexOfAfter(a, '_', b);
    var t := a + "_" + b;
    assert t[..|a|] == a && t[|a| + 1..] == b;
    assert ReplaceFirstUnderscore(t) == a + " " + b;
    SplitTwoWords(a, b);
    assert "" !in [a, b];
    assert TitleWords([a, b]) == [TitleWord(a), TitleWord(b)];
    assert Join([TitleWord(a), TitleWord(b)]) == TitleWord(a) + " " + Join([TitleWord(b)]);
  }

  /** Only the first underscore is replaced before title-casing:
      "water_heater" is labelled "Water Heater". */
  lemma TypeLabelExample()
    ensures Capitalize("water" + "_" + "heater") == Some("Water" + " " + "Heater")
  {
    calc {
      Capitalize("water" + "_" + "heater");
    == { CapitalizeSnakePair("water", "heater"); }
      Some(TitleWord("water") + " " + TitleWord("heater"));
    == { TitleWordExamples(); }
      Some("Water" + " " + "Heater");
    }
  }

  lemma TitleWordExamples()
    ensures TitleWord("water") == "Water" && TitleWord("heater") == "Heater"
  {
    assert Lowered("ater") == "ater";
    assert Lowered("eater") == "eater";
  }

  /** Devices without the grouping field are shown under "Null"; an empty
      label throws. */
  lemma NullAndEmptyLabels()
    ensures Capitalize("null") == Some("Null")
    ensures Capitalize("") == None
  {
    assert ReplaceFirstUnderscore("null") == "null";
    assert Split("null") == ["null"];
    assert TitleWord("null") == "Null";
    assert Split("") == [""];
  }

  /** One rendered group: its object key, its display label and its devices. */
  datatype GroupView = GroupView(key: string, title: string, devices: seq<Device>)

  /** The `for (const label in groups)` loop that builds the group list.
      `labels` is the order in which the engine enumerates the keys of
      `groups`: each key once, and nothing else. Every key is a string, so
      `label !== null` always holds; `None` means `capitalize` threw on some
      label. Otherwise every group appears exactly once, under its own key. */
  method BuildGroupViews(groups: map<string, seq<Device>>, labels: seq<string>) returns (r: Option<seq<GroupView>>)
    requires forall i :: 0 <= i < |labels| ==> labels[i] in groups
    requires forall k :: k in groups ==> k in labels
    requires forall i, j :: 0 <= i < j < |labels| ==> labels[i] != labels[j]
    ensures r.Some? <==> forall i :: 0 <= i < |labels| ==> Capitalize(labels[i]).Some?
    ensures r.Some? ==> |r.value| == |labels|
    ensures r.Some? ==> forall i :: 0 <= i < |labels| ==>
      r.value[i] == GroupView(labels[i], Capitalize(labels[i]).value, groups[labels[i]])
    ensures r.Some? ==> forall k :: k in groups ==>
      exists i :: 0 <= i < |r.value| && r.value[i].key == k && r.value[i].devices == groups[k]
    ensures r.Some? ==> forall i, j :: 0 <= i < j < |r.value| ==> r.value[i].key != r.value[j].key
  {
    r := ViewsInOrder(groups, labels, Capitalize);
    if r.Some? {
      EveryGroupListedOnce(groups, labels, r.value);
    }
  }

  /** The body of that loop, for any function that labels a key: one view
      per key in enumeration order, and `None` at the first key whose label
      throws. */
  method ViewsInOrder(groups: map<string, seq<Device>>, labels: seq<string>, title: string -> Option<string>)
    returns (r: Option<seq<GroupView>>)
    requires forall i :: 0 <= i < |labels| ==> labels[i] in groups
    ensures r.Some? <==> forall i :: 0 <= i < |labels| ==> title(labels[i]).Some?
    ensures r.Some? ==> |r.value| == |labels|
    ensures r.Some? ==> forall i :: 0 <= i < |labels| ==>
      r.value[i] == GroupView(labels[i], title(labels[i]).value, groups[labels[i]])
  {
    var deviceGroups: seq<GroupView> := [];
    var n := 0;
    while n < |labels|
      invariant 0 <= n <= |labels|
      invariant |deviceGroups| == n
      invariant forall i :: 0 <= i < n ==> title(labels[i]).Some?
      invariant forall i :: 0 <= i < n ==>
        deviceGroups[i] == GroupView(labels[i], title(labels[i]).value, groups[labels[i]])
    {
      var key := labels[n];
      var shown := title(key);
      if shown.None? {
        return None;
      }
      deviceGroups := deviceGroups + [GroupView(key, shown.value, groups[key])];
      n := n + 1;
    }
    r := Some(deviceGroups);
  }

  /** Views that follow an enumeration of the keys of `groups` list every
      group, each under a different key. */
  lemma {:induction false} EveryGroupListedOnce(groups: map<string, seq<Device>>, labels: seq<string>, views: seq<GroupView>)
    requires forall i :: 0 <= i < |labels| ==> labels[i] in groups
    requires forall k :: k in groups ==> k in labels
    requires forall i, j :: 0 <= i < j < |labels| ==> labels[i] != labels[j]
    requires |views| == |labels|
    requires forall i :: 0 <= i < |labels| ==> views[i].key == labels[i] && views[i].devices == groups[labels[i]]
    ensures forall k :: k in groups ==>
      exists i :: 0 <= i < |views| && views[i].key == k && views[i].devices == groups[k]
    ensures forall i, j :: 0 <= i < j < |views| ==> views[i].key != views[j].key
  {
    forall k | k in groups
      ensures exists i :: 0 <= i < |views| && views[i].key == k && views[i].devices == groups[k]
    {
      var i :| 0 <= i < |labels| && labels[i] == k;
      assert views[i].key == k && views[i].devices == groups[k];
    }
  }

  // ---------------------------------------------------------------------
  // Uniqueness of new IDs

  /** The `verifyId` callback: scan the loaded results in order and return
      false at the first device with `newId`. Reading `device.id` of a result
      that has not loaded throws; that is `None`. */
  method VerifyId(data: seq<Option<Device>>, newId: string) returns (r: Option<bool>)
    ensures r == Some(false) <==>
      (exists i :: 0 <= i < |data| && data[i].Some? && data[i].value.id == newId &&
                   forall j :: 0 <= j < i ==> data[j].Some?)
    ensures r == None <==>
      (exists i :: 0 <= i < |data| && data[i].None? &&
                   forall j :: 0 <= j < i ==> data[j].Some? && data[j].value.id != newId)
    ensures r == Some(true) <==> forall i :: 0 <= i < |data| ==> data[i].Some? && data[i].value.id != newId
  {
    var n := 0;
    while n < |data|
      invariant 0 <= n <= |data|
      invariant forall j :: 0 <= j < n ==> data[j].Some? && data[j].value.id != newId
    {
      var device := data[n];
      if device.None? {
        return None;
      }
      if device.value.id == newId {
        return Some(false);
      }
      n := n + 1;
    }
    return Some(true);
  }

  // ---------------------------------------------------------------------
  // View state

  /** The list view's own state. */
  class ListView {
    var groupBy: string
    var showForm: bool

    /** Only the two known group-by settings are ever stored. */
    ghost predicate Valid()
      reads this
    {
      groupBy == "type" || groupBy == "room"
    }

    constructor ()
      ensures Valid() && groupBy == "type" && !showForm
    {
      groupBy := "type";
      showForm := false;
    }

    /** The group-by button alternates between "room" and "type". */
    method ToggleGroupBy()
      requires Valid()
      modifies this`groupBy
      ensures Valid() && groupBy != old(groupBy)
    {
      groupBy := if groupBy == "room" then "type" else "room";
    }

    /** "Add device" shows the form; it is idempotent. */
    method OpenForm()
      modifies this`showForm
      ensures showForm
    {
      if !showForm {
        showForm := true;
      }
    }

    /** The `resetForm` callback run after a device was created. */
    method CloseForm()
      modifies this`showForm
      ensures !showForm
    {
      showForm := false;
    }

    /** With a valid setting the view always groups, never showing the
        "Unknown groupBy" error. */
    function Groups(data: seq<Option<Device>>): (g: map<string, seq<Device>>)
      reads this
      requires Valid()
      ensures g == GroupBy(Present(data), if groupBy == "type" then ByType else ByRoom)
    {
      GroupsFor(data, groupBy).value
    }
  }
}
