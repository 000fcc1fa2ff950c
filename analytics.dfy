/** The admin analytics screen: the headline counts, the total of media
    views, and the pie chart of media types, built by counting rows into an
    object keyed by type and listing its entries with capitalised labels.
    The chart colours cycle through a palette of four. */
module Analytics {
  import opened Js
  import opened Text
  import opened Schema
  import Seqs

  // -------------------------------------------------------------------
  // Totals
  // -------------------------------------------------------------------

  /** `sum + (m.view_count || 0)` folded from zero. */
  function SumViews(counts: seq<Option<int>>): int {
    if counts == [] then 0 else SumViews(counts[..|counts| - 1]) + Last(counts).GetOr(0)
  }

  /** `media.data?.reduce(...) || 0`: no data counts as zero. */
  function TotalMediaViews(data: Option<seq<Option<int>>>): (r: int)
    ensures data.None? ==> r == 0
  {
    if data.None? then 0 else SumViews(data.value)
  }

  /** The total of two batches of rows is the sum of their totals. */
  lemma {:induction false} SumViewsAppend(a: seq<Option<int>>, b: seq<Option<int>>)
    ensures SumViews(a + b) == SumViews(a) + SumViews(b)
    decreases |b|
  {
    if b == [] {
      assert a + b == a;
    } else {
      assert (a + b)[..|a + b| - 1] == a + b[..|b| - 1];
      SumViewsAppend(a, b[..|b| - 1]);
    }
  }

  /** Rows without a view count add nothing; with non-negative counts the
      total is at least any one row's count. */
  lemma {:induction false} SumViewsBounds(counts: seq<Option<int>>)
    requires forall i :: 0 <= i < |counts| ==> counts[i].GetOr(0) >= 0
    ensures SumViews(counts) >= 0
    ensures forall i :: 0 <= i < |counts| ==> SumViews(counts) >= counts[i].GetOr(0)
    decreases |counts|
  {
    if counts != [] {
      SumViewsBounds(counts[..|counts| - 1]);
    }
  }

  /** The five headline numbers; a count the database did not return shows 0. */
  datatype Stats = Stats(totalUsers: nat, totalStreams: nat, totalPrayerSessions: nat, totalMediaViews: int)

  function StatsOf(users: Option<nat>, streams: Option<nat>, prayers: Option<nat>,
                   views: Option<seq<Option<int>>>): (s: Stats)
    ensures users.None? ==> s.totalUsers == 0
    ensures users.Some? ==> s.totalUsers == users.value
    ensures streams.None? ==> s.totalStreams == 0
    ensures streams.Some? ==> s.totalStreams == streams.value
    ensures prayers.None? ==> s.totalPrayerSessions == 0
    ensures prayers.Some? ==> s.totalPrayerSessions == prayers.value
    ensures s.totalMediaViews == TotalMediaViews(views)
  {
    Stats(users.GetOr(0), streams.GetOr(0), prayers.GetOr(0), TotalMediaViews(views))
  }

  // -------------------------------------------------------------------
  // The media-type histogram
  // -------------------------------------------------------------------

  function Is(t: MediaType): MediaType -> bool {
    (x: MediaType) => x == t
  }

  /** How many rows have type `t`. */
  function CountOf(types: seq<MediaType>, t: MediaType): nat {
    Seqs.Count(types, Is(t))
  }

  /** The keys of the counting object in insertion order: each type at its
      first occurrence. */
  function Occurring(types: seq<MediaType>): (keys: seq<MediaType>)
    ensures forall t :: t in keys <==> t in types
    ensures forall i, j :: 0 <= i < j < |keys| ==> keys[i] != keys[j]
  {
    if types == [] then []
    else
      var keys := Occurring(types[..|types| - 1]);
      assert types == types[..|types| - 1] + [Last(types)];
      if Last(types) in keys then keys else keys + [Last(types)]
  }

  /** The chart's data before labelling: each occurring type with its count. */
  function Histogram(types: seq<MediaType>): (h: seq<(MediaType, nat)>)
    ensures |h| == |Occurring(types)|
    ensures forall i :: 0 <= i < |h| ==> h[i] == (Occurring(types)[i], CountOf(types, Occurring(types)[i]))
  {
    var keys := Occurring(types);
    seq(|keys|, i requires 0 <= i < |keys| => (keys[i], CountOf(types, keys[i])))
  }

  /** `name.charAt(0).toUpperCase() + name.slice(1)`. */
  function Capitalized(name: string): (r: string)
    ensures |r| == |name|
    ensures name != [] ==> r[0] == UpperChar(name[0]) && r[1..] == name[1..]
  {
    if name == [] then [] else [UpperChar(name[0])] + name[1..]
  }

  /** The chart's data: each entry labelled with its capitalised type name. */
  function Labelled(h: seq<(MediaType, nat)>): (r: seq<(string, nat)>)
    ensures |r| == |h|
    ensures forall i :: 0 <= i < |h| ==> r[i] == (Capitalized(MediaTypeName(h[i].0)), h[i].1)
  {
    seq(|h|, i requires 0 <= i < |h| => (Capitalized(MediaTypeName(h[i].0)), h[i].1))
  }

  /** The labels of the four types. */
  lemma Labels()
    ensures Capitalized(MediaTypeName(VideoMedia)) == "Video"
    ensures Capitalized(MediaTypeName(AudioMedia)) == "Audio"
    ensures Capitalized(MediaTypeName(PdfMedia)) == "Pdf"
    ensures Capitalized(MediaTypeName(TextMedia)) == "Text"
  {
  }

  /** Counting one more row adds one to its own type only. */
  lemma CountOfSnoc(types: seq<MediaType>, x: MediaType, t: MediaType)
    ensures CountOf(types + [x], t) == CountOf(types, t) + (if x == t then 1 else 0)
  {
    Seqs.CountAppend(types, [x], Is(t));
  }

  /** A type without rows counts zero. */
  lemma CountOfAbsent(types: seq<MediaType>, t: MediaType)
    requires t !in types
    ensures CountOf(types, t) == 0
  {
    Seqs.CountIsFilterLength(types, Is(t));
    Seqs.FilterNone(types, Is(t));
  }

  /** The sum of the counts of a list of types. */
  function Total(keys: seq<MediaType>, types: seq<MediaType>): nat {
    if keys == [] then 0 else Total(keys[..|keys| - 1], types) + CountOf(types, Last(keys))
  }

  lemma {:induction false} TotalSnoc(keys: seq<MediaType>, types: seq<MediaType>, x: MediaType)
    requires forall i, j :: 0 <= i < j < |keys| ==> keys[i] != keys[j]
    ensures Total(keys, types + [x]) == Total(keys, types) + (if x in keys then 1 else 0)
    decreases |keys|
  {
    if keys != [] {
      var init := keys[..|keys| - 1];
      TotalSnoc(init, types, x);
      CountOfSnoc(types, x, Last(keys));
      assert keys == init + [Last(keys)];
      assert x in keys <==> x in init || x == Last(keys);
      assert Last(keys) !in init;
    }
  }

  lemma {:induction false} TotalAppendKey(keys: seq<MediaType>, types: seq<MediaType>, k: MediaType)
    ensures Total(keys + [k], types) == Total(keys, types) + CountOf(types, k)
  {
    assert (keys + [k])[..|keys + [k]| - 1] == keys;
  }

  /** Every row is counted exactly once: the counts of the chart add up to
      the number of rows. */
  lemma {:induction false} CountsAddUp(types: seq<MediaType>)
    ensures Total(Occurring(types), types) == |types|
    decreases |types|
  {
    if types != [] {
      var init, x := types[..|types| - 1], Last(types);
      assert types == init + [x];
      var keys := Occurring(init);
      CountsAddUp(init);
      TotalSnoc(keys, init, x);
      if x !in keys {
        TotalAppendKey(keys, types, x);
        CountOfSnoc(init, x, x);
        CountOfAbsent(init, x);
      }
    }
  }

  /** The counting object and its key order after the rows `pre`. */
  ghost predicate CountedAs(pre: seq<MediaType>, counts: map<MediaType, nat>, keys: seq<MediaType>) {
    && keys == Occurring(pre)
    && (forall t :: t in counts <==> t in pre)
    && (forall t :: t in counts ==> counts[t] == CountOf(pre, t))
  }

  /** One row more of a type already counted: its count goes up by one and
      the key order stays. */
  lemma CountedAsSnocPresent(pre: seq<MediaType>, x: MediaType, counts: map<MediaType, nat>, keys: seq<MediaType>)
    requires CountedAs(pre, counts, keys) && x in counts
    ensures CountedAs(pre + [x], counts[x := counts[x] + 1], keys)
  {
    var pre', counts' := pre + [x], counts[x := counts[x] + 1];
    assert Occurring(pre') == keys by {
      assert pre'[..|pre|] == pre;
    }
    assert forall t :: t in counts' <==> t in pre';
    forall t | t in counts'
      ensures counts'[t] == CountOf(pre', t)
    {
      CountOfSnoc(pre, x, t);
    }
  }

  /** One row more of a new type: it starts at one and joins the key order. */
  lemma CountedAsSnocAbsent(pre: seq<MediaType>, x: MediaType, counts: map<MediaType, nat>, keys: seq<MediaType>)
    requires CountedAs(pre, counts, keys) && x !in counts
    ensures CountedAs(pre + [x], counts[x := 1], keys + [x])
  {
    var pre', counts' := pre + [x], counts[x := 1];
    assert Occurring(pre') == keys + [x] by {
      assert pre'[..|pre|] == pre;
    }
    assert forall t :: t in counts' <==> t in pre';
    forall t | t in counts'
      ensures counts'[t] == CountOf(pre', t)
    {
      CountOfSnoc(pre, x, t);
      if t == x {
        CountOfAbsent(pre, x);
      }
    }
  }

  /** The counting `reduce`: counts rows into an object keyed by
      type, creating a key at its first row. */
  method TypeCounts(types: seq<MediaType>) returns (counts: map<MediaType, nat>, keys: seq<MediaType>)
    ensures keys == Occurring(types)
    ensures forall t :: t in counts <==> t in types
    ensures forall t :: t in counts ==> counts[t] == CountOf(types, t)
  {
    counts, keys := map[], [];
    var i := 0;
    while i < |types|
      invariant 0 <= i <= |types|
      invariant CountedAs(types[..i], counts, keys)
    {
      var x := types[i];
      assert types[..i + 1] == types[..i] + [x];
      if x in counts {
        CountedAsSnocPresent(types[..i], x, counts, keys);
        counts := counts[x := counts[x] + 1];
      } else {
        CountedAsSnocAbsent(types[..i], x, counts, keys);
        counts := counts[x := 1];
        keys := keys + [x];
      }
      i := i + 1;
    }
    assert types[..i] == types;
  }

  /** The chart is read off the counting object: an entry per key, in key
      order, with the key's count. */
  lemma ChartOfCounts(types: seq<MediaType>, counts: map<MediaType, nat>, keys: seq<MediaType>,
                      entries: seq<(string, nat)>)
    requires CountedAs(types, counts, keys) && |entries| == |keys|
    requires forall j :: 0 <= j < |keys| ==>
      keys[j] in counts && entries[j] == (Capitalized(MediaTypeName(keys[j])), counts[keys[j]])
    ensures entries == Labelled(Histogram(types))
  {
    var chart := Labelled(Histogram(types));
    forall j | 0 <= j < |keys|
      ensures entries[j] == chart[j]
    {
      assert keys[j] in types;
    }
  }

  /** `setMediaTypeData(Object.entries(typeCounts).map(...))`. */
  method MediaTypeData(types: seq<MediaType>) returns (entries: seq<(string, nat)>)
    ensures entries == Labelled(Histogram(types))
  {
    var counts, keys := TypeCounts(types);
    assert forall k :: k in keys ==> k in counts;
    entries := [];
    var i := 0;
    while i < |keys|
      invariant 0 <= i <= |keys|
      invariant |entries| == i
      invariant forall j :: 0 <= j < i ==>
        keys[j] in counts && entries[j] == (Capitalized(MediaTypeName(keys[j])), counts[keys[j]])
    {
      entries := entries + [(Capitalized(MediaTypeName(keys[i])), counts[keys[i]])];
      i := i + 1;
    }
    ChartOfCounts(types, counts, keys, entries);
  }

  // -------------------------------------------------------------------
  // Colours
  // -------------------------------------------------------------------

  const Colors: seq<string> := ["hsl(40, 82%, 56%)", "hsl(228, 50%, 35%)", "hsl(0, 72%, 51%)", "hsl(228, 20%, 94%)"]

  /** `COLORS[index % COLORS.length]`: always one of the palette's colours,
      and neighbouring slices never share one. */
  function ColorFor(index: nat): (c: string)
    ensures c in Colors
  {
    Colors[index % |Colors|]
  }

  lemma NeighboursDiffer(index: nat)
    ensures ColorFor(index) != ColorFor(index + 1)
  {
    var a, b := index % 4, (index + 1) % 4;
    assert b == if a == 3 then 0 else a + 1;
    assert Colors[0] != Colors[1] && Colors[1] != Colors[2] && Colors[2] != Colors[3] && Colors[3] != Colors[0] by {
      assert Colors[0][5] != Colors[1][5];
      assert Colors[1][4] != Colors[2][4];
      assert Colors[2][4] != Colors[3][4];
      assert Colors[3][5] != Colors[0][5];
    }
  }
}
