/** The "average mood" of the week: a frequency map over the window's mood
    labels (a JavaScript `Map`, which iterates in first-insertion order), a
    scan that only replaces the leader on a strictly greater count, and a
    glyph table with a default. */
module DominantMood {
  import opened Common
  import opened Activity

  /** The position of the first occurrence of `x` in `s`. */
  function FirstIndex(s: seq<string>, x: string): (i: nat)
    requires x in s
    ensures i < |s| && s[i] == x
    ensures forall j :: 0 <= j < i ==> s[j] != x
  {
    if s[0] == x then 0 else 1 + FirstIndex(s[1..], x)
  }

  /** Any index satisfying `FirstIndex`'s contract is the first index. */
  lemma FirstIndexUnique(s: seq<string>, x: string, i: nat)
    requires i < |s| && s[i] == x
    requires forall j :: 0 <= j < i ==> s[j] != x
    ensures FirstIndex(s, x) == i
  {
    var f := FirstIndex(s, x);
    assert s[f] == x && s[i] == x;
  }

  /** Appending does not move a first occurrence. */
  lemma FirstIndexSnoc(s: seq<string>, y: string, x: string)
    requires x in s
    ensures FirstIndex(s + [y], x) == FirstIndex(s, x)
  {
    var f := FirstIndex(s, x);
    FirstIndexUnique(s + [y], x, f);
  }

  /** The keys of the frequency map in iteration order: each label once, at
      the place it was first seen. */
  function Distinct(labels: seq<string>): (keys: seq<string>)
    ensures forall x :: x in keys <==> x in labels
    decreases |labels|
  {
    if labels == [] then []
    else
      var init := labels[..|labels| - 1];
      var last := labels[|labels| - 1];
      assert labels == init + [last];
      if last in Distinct(init) then Distinct(init) else Distinct(init) + [last]
  }

  /** The keys come in the order of their first occurrence in the labels;
      in particular no key repeats. */
  lemma {:induction false} DistinctOrder(labels: seq<string>)
    ensures forall i, j :: 0 <= i < j < |Distinct(labels)| ==>
              FirstIndex(labels, Distinct(labels)[i]) < FirstIndex(labels, Distinct(labels)[j])
    decreases |labels|
  {
    if labels != [] {
      var init := labels[..|labels| - 1];
      var last := labels[|labels| - 1];
      assert labels == init + [last];
      DistinctOrder(init);
      var keys := Distinct(init);
      forall k | k in keys
        ensures FirstIndex(labels, k) == FirstIndex(init, k)
      {
        FirstIndexSnoc(init, last, k);
      }
      if last !in keys {
        FirstIndexUnique(labels, last, |init|);
      }
    }
  }

  /** The state of the scan: `top` and `best`. */
  datatype Leader = Leader(top: Option<string>, best: nat)

  /** `freq.forEach((v, k) => { if (v > best) { best = v; top = k; } })`
      over `keys`, with `count` giving each key's frequency. */
  function Best(keys: seq<string>, count: multiset<string>): (r: Leader)
    ensures forall k :: k in keys ==> count[k] <= r.best
    ensures r.top.None? <==> r.best == 0
    ensures r.top.Some? ==> r.top.value in keys && count[r.top.value] == r.best
    ensures r.top.Some? ==>
              forall i :: (0 <= i < |keys| && keys[i] != r.top.value && count[keys[i]] == r.best)
                ==> r.top.value in keys[..i]
    decreases |keys|
  {
    if keys == [] then Leader(None, 0)
    else
      var init := keys[..|keys| - 1];
      var last := keys[|keys| - 1];
      assert keys == init + [last];
      var r := Best(init, count);
      if count[last] > r.best then Leader(Some(last), count[last])
      else
        assert forall i :: 0 <= i < |init| ==> keys[..i] == init[..i];
        r
  }

  /** The label the dashboard reports, before the glyph lookup: absent only
      for an empty window, and otherwise one of the window's labels. */
  function Dominant(labels: seq<string>): (top: Option<string>)
    ensures top.None? <==> labels == []
    ensures top.Some? ==> top.value in labels
  {
    var keys := Distinct(labels);
    if labels != [] then
      assert labels[0] in keys && multiset(labels)[labels[0]] > 0;
      Best(keys, multiset(labels)).top
    else
      Best(keys, multiset(labels)).top
  }

  /** The dominant label is a most frequent label, and among equally
      frequent labels it is the one seen first. */
  lemma DominantIsFirstMostFrequent(labels: seq<string>)
    ensures Dominant(labels).Some? ==>
              forall l :: multiset(labels)[l] <= multiset(labels)[Dominant(labels).value]
    ensures Dominant(labels).Some? ==>
              forall l :: l in labels && multiset(labels)[l] == multiset(labels)[Dominant(labels).value]
                ==> FirstIndex(labels, Dominant(labels).value) <= FirstIndex(labels, l)
  {
    var keys := Distinct(labels);
    var m := multiset(labels);
    var r := Best(keys, m);
    if r.top.Some? {
      forall l | l in labels && m[l] == m[r.top.value] && l != r.top.value
        ensures FirstIndex(labels, r.top.value) < FirstIndex(labels, l)
      {
        TieGoesToFirst(labels, l);
      }
    }
  }

  /** A key tied with the scan's winner was first seen after it. */
  lemma TieGoesToFirst(labels: seq<string>, l: string)
    requires Dominant(labels).Some?
    requires l in labels && l != Dominant(labels).value
    requires multiset(labels)[l] == multiset(labels)[Dominant(labels).value]
    ensures FirstIndex(labels, Dominant(labels).value) < FirstIndex(labels, l)
  {
    var keys := Distinct(labels);
    var m := multiset(labels);
    var r := Best(keys, m);
    var t := r.top.value;
    assert l in keys;
    var i :| 0 <= i < |keys| && keys[i] == l;
    assert m[keys[i]] == r.best;
    assert t in keys[..i];
    var j := InPrefix(keys, i, t);
    DistinctOrder(labels);
  }

  /** A position of `x` before `i`, given that `x` occurs in `s[..i]`. */
  lemma InPrefix(s: seq<string>, i: nat, x: string) returns (j: nat)
    requires i <= |s| && x in s[..i]
    ensures j < i && s[j] == x
  {
    j := FirstIndex(s[..i], x);
  }

  /** The number of times each key was seen. */
  function CountOf(freq: map<string, nat>, key: string): nat {
    if key in freq then freq[key] else 0
  }

  /** Seeing a label adds it to the keys only the first time. */
  lemma DistinctSnoc(labels: seq<string>, x: string)
    ensures Distinct(labels + [x]) == if x in labels then Distinct(labels) else Distinct(labels) + [x]
  {
    assert (labels + [x])[..|labels|] == labels;
  }

  /** `moods.forEach((m) => freq.set(m, (freq.get(m) || 0) + 1))`, with
      `order` recording the map's insertion order. */
  method CountMoods(moods: seq<string>) returns (freq: map<string, nat>, order: seq<string>)
    ensures order == Distinct(moods)
    ensures forall k :: k in order ==> CountOf(freq, k) == multiset(moods)[k]
  {
    freq := map[];
    order := [];
    var i := 0;
    while i < |moods|
      invariant 0 <= i <= |moods|
      invariant order == Distinct(moods[..i])
      invariant forall k :: k in freq <==> k in moods[..i]
      invariant forall k :: CountOf(freq, k) == multiset(moods[..i])[k]
    {
      var m := moods[i];
      DistinctSnoc(moods[..i], m);
      assert moods[..i + 1] == moods[..i] + [m];
      if m !in freq {
        order := order + [m];
      }
      freq := freq[m := CountOf(freq, m) + 1];
      i := i + 1;
    }
    assert moods[..i] == moods;
  }

  /** The dominant label as the dashboard computes it: count, then keep the
      first key with the strictly highest count. */
  method ComputeDominant(moods: seq<string>) returns (top: Option<string>)
    ensures top == Dominant(moods)
  {
    var freq, order := CountMoods(moods);
    var best: nat := 0;
    top := None;
    var j := 0;
    while j < |order|
      invariant 0 <= j <= |order|
      invariant Leader(top, best) == Best(order[..j], multiset(moods))
    {
      var k := order[j];
      assert order[..j + 1] == order[..j] + [k];
      if CountOf(freq, k) > best {
        best := CountOf(freq, k);
        top := Some(k);
      }
      j := j + 1;
    }
    assert order[..j] == order;
  }

  const DefaultGlyph := "\U{1F60A}"

  /** The label-to-emoji table. */
  const Glyphs: map<string, string> := map[
    "\U{D3}timo" := "\U{1F60A}",
    "Bem" := "\U{1F642}",
    "Ok" := "\U{1F610}",
    "Baixo" := "\U{1F614}",
    "Dif\U{ED}cil" := "\U{1F622}"
  ]

  /** `(top && map[top]) || "😊"`: a mapped label gets its own glyph; no
      label, or a label outside the table, gets the default. */
  function AverageMood(top: Option<string>): (g: string)
    ensures g in Glyphs.Values
    ensures top.Some? && top.value in Glyphs ==> g == Glyphs[top.value]
    ensures top.Some? && top.value !in Glyphs ==> g == DefaultGlyph
    ensures top.None? ==> g == DefaultGlyph
  {
    assert Glyphs["\U{D3}timo"] == DefaultGlyph;
    if top.Some? && top.value in Glyphs then Glyphs[top.value] else DefaultGlyph
  }

  /** `averageMood` in the weekly numbers: the glyph of the dominant label
      among the week's check-ins. It is always a glyph of the table; a week
      without check-ins shows the default, and any other glyph shown is the
      glyph of a mood someone logged inside the window. */
  function ShownMood(moods: seq<Mood>, cutoff: int): (g: string)
    ensures g == AverageMood(Dominant(WindowMoods(moods, cutoff)))
    ensures g in Glyphs.Values
    ensures CheckinsThisWeek(moods, cutoff) == 0 ==> g == DefaultGlyph
    ensures g != DefaultGlyph ==>
              exists m :: m in moods && m.instant >= cutoff && m.mood in Glyphs && Glyphs[m.mood] == g
  {
    var labels := WindowMoods(moods, cutoff);
    var top := Dominant(labels);
    if top.Some? && top.value in Glyphs && Glyphs[top.value] != DefaultGlyph then
      var i :| 0 <= i < |labels| && labels[i] == top.value;
      var w := Filter(moods, MoodInWindow(cutoff));
      assert w[i] in w && w[i].mood == top.value;
      AverageMood(top)
    else
      AverageMood(top)
  }

  /** A label that strictly outnumbers every other check-in label of the
      week decides the glyph shown: its own when it is in the table, the
      default otherwise. */
  lemma {:induction false} StrictLeaderIsShown(moods: seq<Mood>, cutoff: int, l: string)
    requires l in WindowMoods(moods, cutoff)
    requires forall k :: k != l ==>
               multiset(WindowMoods(moods, cutoff))[k] < multiset(WindowMoods(moods, cutoff))[l]
    ensures Dominant(WindowMoods(moods, cutoff)) == Some(l)
    ensures ShownMood(moods, cutoff) == if l in Glyphs then Glyphs[l] else DefaultGlyph
  {
    var labels := WindowMoods(moods, cutoff);
    DominantIsFirstMostFrequent(labels);
    var d := Dominant(labels).value;
    assert multiset(labels)[l] <= multiset(labels)[d];
  }

  /** Two "Bem" against one "Ok" give "Bem". */
  lemma MajorityExample()
    ensures Dominant(["Ok", "Bem", "Bem"]) == Some("Bem")
  {
    var a := ["Ok", "Bem", "Bem"];
    assert a[..2] == ["Ok", "Bem"] && a[..2][..1] == ["Ok"] && ["Ok"][..0] == [];
    assert Distinct(["Ok"]) == ["Ok"];
    assert Distinct(a) == ["Ok", "Bem"];
    var m := multiset(a);
    assert m["Ok"] == 1 && m["Bem"] == 2;
    assert ["Ok", "Bem"][..1] == ["Ok"];
    assert Best(["Ok"], m) == Leader(Some("Ok"), 1);
  }

  /** A one-to-one tie goes to the label seen first. */
  lemma TieExample()
    ensures Dominant(["Baixo", "Ok"]) == Some("Baixo")
  {
    var b := ["Baixo", "Ok"];
    DominantIsFirstMostFrequent(b);
    assert multiset(b)["Ok"] == 1 && multiset(b)["Baixo"] == 1;
    FirstIndexUnique(b, "Baixo", 0);
    FirstIndexUnique(b, "Ok", 1);
  }

  /** An unknown label can win, and then the default glyph is shown. */
  lemma UnknownLabelExample()
    ensures Dominant(["zen"]) == Some("zen") && AverageMood(Dominant(["zen"])) == DefaultGlyph
  {
    assert ["zen"][..0] == [];
    assert Distinct(["zen"]) == ["zen"];
    assert multiset(["zen"])["zen"] == 1;
  }
}
