/** The "Popular Movies of the Week" carousel: the top ten trending movies of the week,
    each with its rank, poster and a genre label built from the fixed genre table. */
module PopularOfWeek {
  import opened JsValue
  import opened JsArray
  import opened JsString
  import opened Media

  /** `GENRE_MAP`: the metadata API's movie genre ids and their names. */
  const GenreMap: map<int, string> := map[
    28 := "Action",
    12 := "Adventure",
    16 := "Animation",
    35 := "Comedy",
    80 := "Crime",
    99 := "Documentary",
    18 := "Drama",
    10751 := "Family",
    14 := "Fantasy",
    36 := "History",
    27 := "Horror",
    10402 := "Music",
    9648 := "Mystery",
    10749 := "Romance",
    878 := "Science Fiction",
    10770 := "TV Movie",
    53 := "Thriller",
    10752 := "War",
    37 := "Western"]

  /** The table has exactly these nineteen ids. */
  lemma GenreMapKeys()
    ensures GenreMap.Keys ==
      {28, 12, 16, 35, 80, 99, 18, 10751, 14, 36, 27, 10402, 9648, 10749, 878, 10770, 53, 10752, 37}
  {
  }

  /** No name in the table is empty, contains '+' or reads "Unknown". */
  lemma GenreNamesPlain()
    ensures forall id :: id in GenreMap ==> GenreMap[id] != "" && '+' !in GenreMap[id]
    ensures forall id :: id in GenreMap ==> GenreMap[id] != "Unknown"
  {
  }

  /** `GENRE_MAP[id]`: `undefined` for an id the table does not have. */
  function Lookup(id: int): (r: Option<string>)
    ensures r.Some? <==> id in GenreMap
    ensures r.Some? ==> r.value == GenreMap[id]
  {
    if id in GenreMap then Some(GenreMap[id]) else None
  }

  /** `.filter(Boolean)` over looked-up names: drops the missing and the empty ones. */
  function Compact(xs: seq<Option<string>>): (r: seq<string>)
    ensures |r| <= |xs|
    ensures forall i :: 0 <= i < |r| ==> r[i] != ""
  {
    if xs == [] then []
    else (if Truthy(xs[0]) then [xs[0].value] else []) + Compact(xs[1..])
  }

  /** `genre_ids.map(id => GENRE_MAP[id]).filter(Boolean)`. */
  function GenreNames(ids: seq<int>): seq<string> {
    Compact(Map(Lookup, ids))
  }

  /** `genre_ids.map(...).filter(Boolean).slice(0, 2).join(" + ")`. */
  function GenreLabel(ids: seq<int>): (text: string)
    ensures var names := GenreNames(ids);
      && (names == [] ==> text == "")
      && (|names| == 1 ==> text == names[0])
      && (|names| >= 2 ==> text == names[0] + " + " + names[1])
  {
    var names := GenreNames(ids);
    if |names| >= 2 then
      assert Slice(names, 2) == [names[0], names[1]];
      assert Join([names[1]], " + ") == names[1];
      Join(Slice(names, 2), " + ")
    else Join(Slice(names, 2), " + ")
  }

  predicate IsKnown(id: int) {
    id in GenreMap
  }

  /** The name of a known id. */
  function Name(id: int): string {
    if id in GenreMap then GenreMap[id] else ""
  }

  /** The reference reading: the names of the known ids, in `genre_ids` order. */
  function KnownNames(ids: seq<int>): seq<string> {
    Map(Name, Filter(IsKnown, ids))
  }

  /** Looking up and dropping the misses is the same as keeping the known ids and
      naming them. */
  lemma {:induction false} GenreNamesAreKnownNames(ids: seq<int>)
    ensures GenreNames(ids) == KnownNames(ids)
  {
    GenreNamesPlain();
    if ids != [] {
      GenreNamesAreKnownNames(ids[1..]);
      var looked := Map(Lookup, ids);
      assert looked[1..] == Map(Lookup, ids[1..]);
      assert GenreNames(ids) == (if Truthy(Lookup(ids[0])) then [Name(ids[0])] else []) + GenreNames(ids[1..]);
      var kept := Filter(IsKnown, ids);
      assert kept == (if IsKnown(ids[0]) then [ids[0]] else []) + Filter(IsKnown, ids[1..]);
      MapAppend(Name, if IsKnown(ids[0]) then [ids[0]] else [], Filter(IsKnown, ids[1..]));
    }
  }

  /** `map` distributes over concatenation. */
  lemma {:induction false} MapAppend<A, B>(f: A -> B, a: seq<A>, b: seq<A>)
    ensures Map(f, a + b) == Map(f, a) + Map(f, b)
  {
    var l := Map(f, a + b);
    var r := Map(f, a) + Map(f, b);
    assert |l| == |r|;
    forall i | 0 <= i < |l|
      ensures l[i] == r[i]
    {
      if i < |a| {
        assert (a + b)[i] == a[i];
      } else {
        assert (a + b)[i] == b[i - |a|];
      }
    }
  }

  /** The label joins the names of the first two known ids, in `genre_ids` order, with
      " + ". */
  lemma GenreLabelSpec(ids: seq<int>)
    ensures GenreLabel(ids) == Join(Slice(KnownNames(ids), 2), " + ")
  {
    GenreNamesAreKnownNames(ids);
  }

  /** Each of the at most two names of the label is the table's name of a known id of
      the movie, and they come in `genre_ids` order. */
  lemma GenreLabelNames(ids: seq<int>) returns (idx: seq<nat>)
    ensures var names := Slice(GenreNames(ids), 2);
      && |names| <= 2 && |idx| == |names|
      && (forall k :: 0 <= k < |idx| ==> idx[k] < |ids| && ids[idx[k]] in GenreMap && names[k] == GenreMap[ids[idx[k]]])
      && (forall k, l :: 0 <= k < l < |idx| ==> idx[k] < idx[l])
  {
    GenreNamesAreKnownNames(ids);
    var all := FilterEmbedding(IsKnown, ids);
    var names := Slice(GenreNames(ids), 2);
    idx := all[..|names|];
    forall k | 0 <= k < |idx|
      ensures idx[k] < |ids| && ids[idx[k]] in GenreMap && names[k] == GenreMap[ids[idx[k]]]
    {
      var kept := Filter(IsKnown, ids);
      assert kept[k] == ids[idx[k]];
      assert IsKnown(kept[k]);
    }
  }

  /** The label is empty exactly when none of the movie's genre ids is in the table. */
  lemma {:induction false} GenreLabelEmpty(ids: seq<int>)
    ensures GenreLabel(ids) == "" <==> forall i :: 0 <= i < |ids| ==> ids[i] !in GenreMap
  {
    GenreNamesEmpty(ids);
    var names := Slice(GenreNames(ids), 2);
    if names != [] {
      assert names[0] != "";
      if |names| == 1 {
        assert GenreLabel(ids) == names[0];
      } else {
        assert GenreLabel(ids) == names[0] + " + " + Join(names[1..], " + ");
        assert |GenreLabel(ids)| > 0;
      }
    }
  }

  /** No names come out exactly when no id is known. */
  lemma {:induction false} GenreNamesEmpty(ids: seq<int>)
    ensures GenreNames(ids) == [] <==> forall i :: 0 <= i < |ids| ==> ids[i] !in GenreMap
  {
    GenreNamesPlain();
    if ids != [] {
      GenreNamesEmpty(ids[1..]);
      assert Map(Lookup, ids)[1..] == Map(Lookup, ids[1..]);
      assert GenreNames(ids) ==
        (if Truthy(Lookup(ids[0])) then [GenreMap[ids[0]]] else []) + GenreNames(ids[1..]);
      if GenreNames(ids) == [] {
        forall i | 0 < i < |ids|
          ensures ids[i] !in GenreMap
        {
          assert ids[i] == ids[1..][i - 1];
        }
      }
      if forall i :: 0 <= i < |ids| ==> ids[i] !in GenreMap {
        forall i | 0 <= i < |ids[1..]|
          ensures ids[1..][i] !in GenreMap
        {
          assert ids[1..][i] == ids[i + 1];
        }
      }
    }
  }

  /** `genres || "Unknown"`. */
  function GenreDisplay(ids: seq<int>): (s: string)
    ensures s == "Unknown" <==> forall i :: 0 <= i < |ids| ==> ids[i] !in GenreMap
    ensures s != "Unknown" ==> s == GenreLabel(ids)
  {
    GenreLabelEmpty(ids);
    UnknownIsNoLabel(ids);
    if GenreLabel(ids) != "" then GenreLabel(ids) else "Unknown"
  }

  /** No label reads "Unknown": a label is one table name, none of which is "Unknown",
      or two of them around a '+'. */
  lemma UnknownIsNoLabel(ids: seq<int>)
    ensures GenreLabel(ids) != "Unknown"
  {
    GenreNamesPlain();
    var names := Slice(GenreNames(ids), 2);
    var idx := GenreLabelNames(ids);
    var l := GenreLabel(ids);
    if |names| == 0 {
      assert l == "";
    } else if |names| == 1 {
      assert l == names[0] == GenreMap[ids[idx[0]]];
    } else {
      assert Join(names[1..], " + ") == names[1];
      assert l == names[0] + " + " + names[1];
      assert l[|names[0]| + 1] == '+';
      assert '+' !in "Unknown";
    }
  }

  /** The genre pill: `genres.split(" + ")[0]`, shown only for a non-empty label. */
  function Pill(ids: seq<int>): (r: Option<string>)
    ensures r.Some? <==> GenreLabel(ids) != ""
  {
    var text := GenreLabel(ids);
    if text != "" then Some(BeforeFirst(text, " + ")) else None
  }

  /** The pill shows the first known genre of the movie. */
  lemma PillShowsFirstGenre(ids: seq<int>)
    requires Pill(ids).Some?
    ensures GenreNames(ids) != []
    ensures Pill(ids).value == GenreNames(ids)[0]
  {
    GenreNamesPlain();
    var idx := GenreLabelNames(ids);
    var names := Slice(GenreNames(ids), 2);
    assert names != [];
    assert '+' !in names[0] by { assert names[0] == GenreMap[ids[idx[0]]]; }
    SplitJoinFirst(names);
  }

  /** Splitting a " + "-joined list at " + " gives back its first entry when that entry
      has no '+'. */
  lemma SplitJoinFirst(names: seq<string>)
    requires names != [] && '+' !in names[0]
    ensures BeforeFirst(Join(names, " + "), " + ") == names[0]
  {
    var sep := " + ";
    var a := names[0];
    var t := if |names| == 1 then "" else sep + Join(names[1..], sep);
    assert Join(names, sep) == a + t;
    var s := a + t;
    forall i | 0 <= i < |a|
      ensures !OccursAt(sep, s, i)
    {
      if i + 3 <= |s| {
        // the middle character of any " + " at i would be s[i + 1], which is not '+'
        if i + 1 < |a| {
          assert s[i + 1] == a[i + 1];
          assert s[i + 1] != '+';
        } else {
          assert t != "" && s[i + 1] == t[0] == ' ';
        }
        assert s[i..i + 3][1] == s[i + 1];
      }
    }
    if t != "" {
      assert t[..3] == sep;
    }
    BeforeFirstStops(a, t, sep);
  }

  /** The carousel's movies after the weekly trending request: the first ten results; a
      failed request, or a body without `results` (its `slice` throws and the error is
      caught), keeps the initial empty list. */
  function Loaded(outcome: Settled<ListPage>): (r: seq<Item>)
    ensures |r| <= 10
    ensures outcome.Resolved? && outcome.value.results.Some? ==>
      var rs := outcome.value.results.value;
      |r| <= |rs| && r == rs[..|r|] && (|r| == 10 || r == rs)
    ensures outcome.Rejected? || outcome.value.results.None? ==> r == []
  {
    match outcome
    case Resolved(data) =>
      (match data.results
       case Some(rs) => Slice(rs, 10)
       case None => [])
    case Rejected => []
  }

  /** A carousel card: its rank (position plus one), poster, year, label and pill, and
      the movie route it opens. */
  datatype Card = Card(rank: nat, poster: string, year: Option<string>, genres: string,
                       pill: Option<string>, route: Route)

  function Cards(movies: seq<Item>): (r: seq<Card>)
    ensures |r| == |movies|
    ensures forall i :: 0 <= i < |r| ==>
      && r[i].rank == i + 1
      && r[i].route == MovieRoute(movies[i].id)
      && r[i].genres == GenreDisplay(movies[i].genreIds)
      && r[i].pill == Pill(movies[i].genreIds)
      && r[i].poster == ImageUrl(TmdbW300, movies[i].posterPath, Placeholder)
      && (r[i].year.Some? <==> movies[i].releaseDate.Some?)
      && (r[i].year.Some? ==> r[i].year.value == Slice(movies[i].releaseDate.value, 4))
  {
    seq(|movies|, i requires 0 <= i < |movies| =>
      var m := movies[i];
      Card(i + 1, ImageUrl(TmdbW300, m.posterPath, Placeholder),
           match m.releaseDate case Some(d) => Some(Slice(d, 4)) case None => None,
           GenreDisplay(m.genreIds), Pill(m.genreIds), MovieRoute(m.id)))
  }
}
