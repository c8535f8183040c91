/**
 * The document-store queries the newest server issues, over songs held in
 * insertion order: lookup by id, equality queries, removal, replacement and
 * the listing sorted by title.
 */
module SongQueries {
  import opened Wrappers
  import opened Text
  import opened SongSchema
  import opened Sequences

  /** The first song with this id, as `findById` returns it. */
  function FindById(songs: seq<Song>, id: nat): (r: Option<Song>)
    ensures r.Some? <==> exists i :: 0 <= i < |songs| && songs[i].id == id
    ensures r.Some? ==> r.value in songs && r.value.id == id
  {
    if songs == [] then None
    else if songs[0].id == id then Some(songs[0])
    else FindById(songs[1..], id)
  }

  /** The songs without the ones with this id, order kept, as `findByIdAndDelete` leaves them. */
  function RemoveById(songs: seq<Song>, id: nat): (r: seq<Song>)
    ensures |r| <= |songs|
    ensures forall s :: s in r <==> s in songs && s.id != id
    ensures (forall s :: s in songs ==> s.id != id) ==> r == songs
  {
    if songs == [] then []
    else (if songs[0].id == id then [] else [songs[0]]) + RemoveById(songs[1..], id)
  }

  /** Removal keeps the order of the remaining songs: a prefix's survivors come first. */
  lemma {:induction false} RemoveByIdAppend(a: seq<Song>, b: seq<Song>, id: nat)
    ensures RemoveById(a + b, id) == RemoveById(a, id) + RemoveById(b, id)
  {
    if a == [] {
      assert a + b == b;
    } else {
      assert (a + b)[0] == a[0] && (a + b)[1..] == a[1..] + b;
      RemoveByIdAppend(a[1..], b, id);
    }
  }

  /** The songs with the one whose id is `updated.id` replaced by `updated`. */
  function ReplaceById(songs: seq<Song>, updated: Song): (r: seq<Song>)
    ensures |r| == |songs|
    ensures forall i :: 0 <= i < |songs| ==> r[i] == if songs[i].id == updated.id then updated else songs[i]
  {
    seq(|songs|, i requires 0 <= i < |songs| => if songs[i].id == updated.id then updated else songs[i])
  }

  /** An equality query: each path it names must hold exactly the given value. */
  type Query = map<Path, string>

  predicate Matches(s: Song, query: Query) {
    forall p :: p in query ==> Field(s, p) == Some(query[p])
  }

  /** `find(query)`: the matching songs, in insertion order. */
  function FindAll(songs: seq<Song>, query: Query): (r: seq<Song>)
    ensures |r| <= |songs|
    ensures forall s :: s in r <==> s in songs && Matches(s, query)
    ensures query == map[] ==> r == songs
  {
    if songs == [] then []
    else (if Matches(songs[0], query) then [songs[0]] else []) + FindAll(songs[1..], query)
  }

  /** Each matching song occurs in the result as often as it is stored; no other song occurs. */
  lemma {:induction false} FindAllCount(songs: seq<Song>, query: Query, s: Song)
    ensures multiset(FindAll(songs, query))[s] == if Matches(s, query) then multiset(songs)[s] else 0
  {
    if songs != [] {
      var head: seq<Song> := if Matches(songs[0], query) then [songs[0]] else [];
      var rest := FindAll(songs[1..], query);
      FindAllCount(songs[1..], query, s);
      SplitHead(songs, []);
      assert FindAll(songs, query) == head + rest;
      assert multiset(head + rest)[s] == multiset(head)[s] + multiset(rest)[s];
      assert multiset(songs)[s] == multiset([songs[0]])[s] + multiset(songs[1..])[s];
    }
  }

  /** Matches keep their insertion order: those of a prefix come before those of the rest. */
  lemma {:induction false} FindAllAppend(a: seq<Song>, b: seq<Song>, query: Query)
    ensures FindAll(a + b, query) == FindAll(a, query) + FindAll(b, query)
  {
    if a == [] {
      assert a + b == b;
    } else {
      assert (a + b)[0] == a[0] && (a + b)[1..] == a[1..] + b;
      FindAllAppend(a[1..], b, query);
    }
  }

  /** Ascending by title, in the store's binary string order. */
  predicate SortedByTitle(songs: seq<Song>) {
    forall i, j :: 0 <= i < j < |songs| ==> LexLeq(songs[i].titulo, songs[j].titulo)
  }

  function InsertByTitle(x: Song, songs: seq<Song>): (r: seq<Song>)
    ensures multiset(r) == multiset(songs) + multiset{x}
  {
    if songs == [] || LexLeq(x.titulo, songs[0].titulo) then [x] + songs
    else
      assert songs == [songs[0]] + songs[1..];
      [songs[0]] + InsertByTitle(x, songs[1..])
  }

  /** `find().sort({ titulo: 1 })`: the same songs, ordered by title. */
  function SortByTitle(songs: seq<Song>): (r: seq<Song>)
    ensures multiset(r) == multiset(songs)
  {
    if songs == [] then []
    else
      assert songs == [songs[0]] + songs[1..];
      InsertByTitle(songs[0], SortByTitle(songs[1..]))
  }

  /** A song no later than every song of a sorted sequence can go in front of it. */
  lemma ConsSorted(h: Song, t: seq<Song>)
    requires SortedByTitle(t)
    requires forall j :: 0 <= j < |t| ==> LexLeq(h.titulo, t[j].titulo)
    ensures SortedByTitle([h] + t)
  {
    var r := [h] + t;
    forall i, j | 0 <= i < j < |r| ensures LexLeq(r[i].titulo, r[j].titulo) {
      if i > 0 {
        assert r[i] == t[i - 1] && r[j] == t[j - 1];
      }
    }
  }

  lemma {:induction false} InsertByTitleSorted(x: Song, songs: seq<Song>)
    requires SortedByTitle(songs)
    ensures SortedByTitle(InsertByTitle(x, songs))
  {
    if songs == [] || LexLeq(x.titulo, songs[0].titulo) {
      forall j | 0 < j < |songs| ensures LexLeq(x.titulo, songs[j].titulo) {
        LexLeqTransitive(x.titulo, songs[0].titulo, songs[j].titulo);
      }
      ConsSorted(x, songs);
    } else {
      var head := songs[0];
      var tail := InsertByTitle(x, songs[1..]);
      InsertByTitleSorted(x, songs[1..]);
      LexLeqTotal(x.titulo, head.titulo);
      forall j | 0 <= j < |tail| ensures LexLeq(head.titulo, tail[j].titulo) {
        assert tail[j] in multiset(tail);
        if tail[j] != x {
          assert tail[j] in songs[1..];
        }
      }
      ConsSorted(head, tail);
    }
  }

  /** The listing is ordered by title and holds exactly the stored songs. */
  lemma {:induction false} SortByTitleCorrect(songs: seq<Song>)
    ensures SortedByTitle(SortByTitle(songs))
    ensures multiset(SortByTitle(songs)) == multiset(songs)
  {
    if songs != [] {
      SortByTitleCorrect(songs[1..]);
      InsertByTitleSorted(songs[0], SortByTitle(songs[1..]));
    }
  }
}
