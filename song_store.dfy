/**
 * The song collection of the newest server and its request handlers, with
 * the document store replaced by songs held in insertion order. Protected
 * handlers first pass the bearer-token gate; every error answer leaves the
 * collection as it was.
 */
module SongStore {
  import opened Wrappers
  import opened Text
  import opened Http
  import opened SongSchema
  import opened SongQueries
  import opened Access

  /** The moments of the celebration, in the order the repertoire lists them. */
  const MassOrder: seq<string> := [
    "Entrada", "Ato Penitencial", "Glória", "Salmo", "Aclamação",
    "Ofertório", "Santo", "Cordeiro", "Comunhão", "Final"]

  /** One entry of a repertoire: a moment and the song drawn for it, or null. */
  datatype Slot = Slot(moment: string, song: Option<Song>)

  /** `Math.floor(u * count)` for a draw `u` of `Math.random()`: an index below `count`. */
  function Draw(u: real, count: nat): (k: nat)
    requires 0.0 <= u < 1.0 && count > 0
    ensures k < count
    ensures count == 1 ==> k == 0
  {
    var x := u * count as real;
    assert x < count as real;
    x.Floor
  }

  /** The query the public filter builds: a constraint for each non-empty parameter. */
  function SearchQuery(tempo: Option<string>, momento: Option<string>): (q: Query)
    ensures Tempo in q <==> tempo.Some? && tempo.value != []
    ensures Momento in q <==> momento.Some? && momento.value != []
    ensures forall p :: p in q ==> p == Tempo || p == Momento
    ensures Tempo in q ==> q[Tempo] == tempo.value
    ensures Momento in q ==> q[Momento] == momento.value
  {
    var q1: Query := if tempo.Some? && tempo.value != [] then map[Tempo := tempo.value] else map[];
    if momento.Some? && momento.value != [] then q1[Momento := momento.value] else q1
  }

  /** The songs of one liturgical time and one moment, in insertion order. */
  function Matching(songs: seq<Song>, tempo: string, momento: string): (r: seq<Song>)
    ensures forall s :: s in r <==> s in songs && s.tempo == tempo && s.momento == momento
  {
    MatchesTempoMomento(tempo, momento);
    FindAll(songs, map[Tempo := tempo, Momento := momento])
  }

  /** Each song of that time and moment occurs as often as it is stored, so `|Matching|` counts the stored matches. */
  lemma MatchingCount(songs: seq<Song>, tempo: string, momento: string, s: Song)
    ensures multiset(Matching(songs, tempo, momento))[s] ==
      if s.tempo == tempo && s.momento == momento then multiset(songs)[s] else 0
  {
    MatchesTempoMomento(tempo, momento);
    FindAllCount(songs, map[Tempo := tempo, Momento := momento], s);
  }

  lemma MatchesTempoMomento(tempo: string, momento: string)
    ensures forall s: Song :: Matches(s, map[Tempo := tempo, Momento := momento]) <==> s.tempo == tempo && s.momento == momento
  {
    var q: Query := map[Tempo := tempo, Momento := momento];
    forall s: Song | s.tempo == tempo && s.momento == momento ensures Matches(s, q) {
      forall p | p in q ensures Field(s, p) == Some(q[p]) {
        assert p == Tempo || p == Momento;
      }
    }
    forall s: Song | Matches(s, q) ensures s.tempo == tempo && s.momento == momento {
      assert Field(s, Tempo) == Some(q[Tempo]);
      assert Field(s, Momento) == Some(q[Momento]);
    }
  }

  /** Distinct songs in a collection have distinct ids. */
  ghost predicate DistinctIds(songs: seq<Song>) {
    forall i, j :: 0 <= i < j < |songs| ==> songs[i].id != songs[j].id
  }

  /** The collection invariant: ids distinct and already issued, every song well formed. */
  ghost predicate ValidSongs(songs: seq<Song>, nextId: nat) {
    && (forall s :: s in songs ==> s.id < nextId && WellFormed(s))
    && DistinctIds(songs)
  }

  /**
   * What an update request decides, in the order the server checks: a sent
   * required field that is blank is a validation error, before the lookup;
   * then an absent id is NotFound; otherwise the stored song merged with the
   * sent fields.
   */
  function UpdateOutcome(songs: seq<Song>, id: nat, f: Fields): (r: Result<Song, Error>)
    ensures Blanked(f, RequiredPaths) != [] ==> r == Failure(Invalid(Keys(Blanked(f, RequiredPaths))))
    ensures r == Failure(NotFound) <==> Blanked(f, RequiredPaths) == [] && forall s :: s in songs ==> s.id != id
    ensures r.Success? <==> Blanked(f, RequiredPaths) == [] && exists s :: s in songs && s.id == id
    ensures r.Success? ==> r == ApplyUpdate(FindById(songs, id).value, f) && r.value.id == id
  {
    var blank := Blanked(f, RequiredPaths);
    if blank != [] then Failure(Invalid(Keys(blank)))
    else
      match FindById(songs, id)
      case None => Failure(NotFound)
      case Some(s) =>
        assert forall p :: p in RequiredPaths && p in f ==> Filled(f, p);
        ApplyUpdate(s, f)
  }

  /** A successful update keeps the collection invariant, and the merged song is found under its id. */
  lemma UpdateKeepsValid(songs: seq<Song>, nextId: nat, id: nat, f: Fields)
    requires ValidSongs(songs, nextId)
    requires UpdateOutcome(songs, id, f).Success?
    ensures var updated := UpdateOutcome(songs, id, f).value;
      ValidSongs(ReplaceById(songs, updated), nextId) && FindById(ReplaceById(songs, updated), id) == Some(updated)
  {
    var s := FindById(songs, id).value;
    assert WellFormed(s);
    ApplyUpdateMerges(s, f);
    ReplaceByIdKeepsValid(songs, nextId, UpdateOutcome(songs, id, f).value);
  }

  class SongCollection {
    /** The stored songs, in insertion order. */
    var songs: seq<Song>
    /** The id the next created song receives. */
    var nextId: nat

    /** Ids are distinct and already issued, and every song passed the schema. */
    ghost predicate Valid()
      reads this
    {
      ValidSongs(songs, nextId)
    }

    constructor()
      ensures Valid() && songs == [] && nextId == 0
    {
      songs := [];
      nextId := 0;
    }

    /** `GET /api/musicas/all`: every song, ordered by title. */
    method ListAll(header: Option<string>, verify: string -> bool) returns (r: Result<seq<Song>, Error>)
      ensures Gate(header, verify).Failure? ==> r == Failure(Gate(header, verify).error)
      ensures Gate(header, verify).Success? ==> r.Success?
      ensures r.Success? ==> SortedByTitle(r.value) && multiset(r.value) == multiset(songs)
    {
      var g := Gate(header, verify);
      if g.Failure? {
        return Failure(g.error);
      }
      SortByTitleCorrect(songs);
      r := Success(SortByTitle(songs));
    }

    /**
     * `GET /api/musicas`: public; the songs whose `tempo` and `momento`
     * equal the non-empty parameters, in insertion order.
     */
    method Search(tempo: Option<string>, momento: Option<string>) returns (r: seq<Song>)
      ensures forall s :: s in r <==>
        && s in songs
        && (tempo.Some? && tempo.value != [] ==> s.tempo == tempo.value)
        && (momento.Some? && momento.value != [] ==> s.momento == momento.value)
      ensures (tempo.None? || tempo.value == []) && (momento.None? || momento.value == []) ==> r == songs
      ensures r == FindAll(songs, SearchQuery(tempo, momento))
    {
      var query: Query := map[];
      if tempo.Some? && tempo.value != [] {
        query := query[Tempo := tempo.value];
      }
      if momento.Some? && momento.value != [] {
        query := query[Momento := momento.value];
      }
      assert query == SearchQuery(tempo, momento);
      r := FindAll(songs, query);
      forall s | s in songs
        ensures Matches(s, query) <==>
          && (tempo.Some? && tempo.value != [] ==> s.tempo == tempo.value)
          && (momento.Some? && momento.value != [] ==> s.momento == momento.value)
      {
        assert Field(s, Tempo) == Some(s.tempo) && Field(s, Momento) == Some(s.momento);
      }
    }

    /** `GET /api/musicas/:id`: the song with this id, or 404. */
    method Get(header: Option<string>, verify: string -> bool, id: nat) returns (r: Result<Song, Error>)
      ensures Gate(header, verify).Failure? ==> r == Failure(Gate(header, verify).error)
      ensures Gate(header, verify).Success? ==>
        (r == Failure(NotFound) <==> forall s :: s in songs ==> s.id != id)
      ensures Gate(header, verify).Success? ==> (r.Success? <==> exists s :: s in songs && s.id == id)
      ensures r.Success? ==> r.value in songs && r.value.id == id
    {
      var g := Gate(header, verify);
      if g.Failure? {
        return Failure(g.error);
      }
      match FindById(songs, id)
      case None => r := Failure(NotFound);
      case Some(s) => r := Success(s);
    }

    /**
     * `POST /api/musicas`: the body, cut down to the schema and trimmed,
     * becomes a new song with a fresh id; a missing or blank required field
     * is a 400 naming the failing paths.
     */
    method Create(header: Option<string>, verify: string -> bool, body: Body) returns (r: Result<Song, Error>)
      requires Valid()
      modifies this
      ensures Valid()
      ensures Gate(header, verify).Failure? ==> r == Failure(Gate(header, verify).error)
      ensures Gate(header, verify).Success? ==> r == NewSong(old(nextId), SchemaFields(body))
      ensures r.Failure? ==> songs == old(songs) && nextId == old(nextId)
      ensures r.Success? ==> songs == old(songs) + [r.value] && nextId == old(nextId) + 1
      ensures r.Success? ==> FindById(songs, r.value.id) == Some(r.value)
      ensures r.Success? ==> forall s :: s in old(songs) ==> s.id != r.value.id
    {
      var g := Gate(header, verify);
      if g.Failure? {
        return Failure(g.error);
      }
      var f := SchemaFields(body);
      r := NewSong(nextId, f);
      if r.Success? {
        NewSongFields(nextId, f);
        AppendKeepsValid(songs, nextId, r.value);
        songs := songs + [r.value];
        nextId := nextId + 1;
      }
    }

    /**
     * `PUT /api/musicas/:id` with update validators: the outcome
     * `UpdateOutcome` decides; on success the merged song replaces the
     * stored one.
     */
    method Update(header: Option<string>, verify: string -> bool, id: nat, body: Body) returns (r: Result<Song, Error>)
      requires Valid()
      modifies this
      ensures Valid()
      ensures nextId == old(nextId)
      ensures Gate(header, verify).Failure? ==> r == Failure(Gate(header, verify).error)
      ensures Gate(header, verify).Success? ==> r == UpdateOutcome(old(songs), id, SchemaFields(body))
      ensures r.Failure? ==> songs == old(songs)
      ensures r.Success? ==> songs == ReplaceById(old(songs), r.value) && FindById(songs, id) == Some(r.value)
    {
      var g := Gate(header, verify);
      if g.Failure? {
        return Failure(g.error);
      }
      r := UpdateOutcome(songs, id, SchemaFields(body));
      if r.Success? {
        UpdateKeepsValid(songs, nextId, id, SchemaFields(body));
        songs := ReplaceById(songs, r.value);
      }
    }

    /**
     * `DELETE /api/musicas/:id`: removes the song with this id, or answers
     * 404; afterwards no song has that id.
     */
    method Delete(header: Option<string>, verify: string -> bool, id: nat) returns (r: Result<Song, Error>)
      requires Valid()
      modifies this
      ensures Valid()
      ensures nextId == old(nextId)
      ensures Gate(header, verify).Failure? ==> r == Failure(Gate(header, verify).error)
      ensures Gate(header, verify).Success? ==> (r == Failure(NotFound) <==> forall s :: s in old(songs) ==> s.id != id)
      ensures Gate(header, verify).Success? ==> (r.Success? <==> exists s :: s in old(songs) && s.id == id)
      ensures r.Failure? ==> songs == old(songs)
      ensures r.Success? ==> r.value in old(songs) && r.value.id == id && songs == RemoveById(old(songs), id)
      ensures r.Success? ==> FindById(songs, id).None? && |songs| == |old(songs)| - 1
    {
      var g := Gate(header, verify);
      if g.Failure? {
        return Failure(g.error);
      }
      match FindById(songs, id)
      case None =>
        r := Failure(NotFound);
      case Some(s) =>
        r := Success(s);
        RemoveByIdKeepsValid(songs, nextId, id);
        songs := RemoveById(songs, id);
    }

    /**
     * `GET /api/repertorio-aleatorio`: public; for each moment of the mass in
     * order, a song of the requested time drawn with `draws[i]`, or null when
     * there is none. A missing or empty `tempo` is a 400 before any lookup.
     */
    method RandomRepertoire(tempo: Option<string>, draws: seq<real>) returns (r: Result<seq<Slot>, Error>)
      requires |draws| == |MassOrder|
      requires forall i :: 0 <= i < |draws| ==> 0.0 <= draws[i] < 1.0
      ensures r.Failure? <==> tempo.None? || tempo.value == []
      ensures r.Failure? ==> r.error == MissingParameter
      ensures r.Success? ==> |r.value| == |MassOrder|
      ensures r.Success? ==> forall i :: 0 <= i < |MassOrder| ==>
        var matches := Matching(songs, tempo.value, MassOrder[i]);
        && r.value[i].moment == MassOrder[i]
        && (r.value[i].song.None? <==> matches == [])
        && (r.value[i].song.Some? ==> r.value[i].song.value == matches[Draw(draws[i], |matches|)])
      ensures r.Success? ==> forall i :: 0 <= i < |MassOrder| && r.value[i].song.Some? ==>
        var s := r.value[i].song.value;
        s in songs && s.tempo == tempo.value && s.momento == MassOrder[i]
      ensures r.Success? ==> forall i :: 0 <= i < |MassOrder| ==>
        |Matching(songs, tempo.value, MassOrder[i])| == 1 ==>
          r.value[i].song == Some(Matching(songs, tempo.value, MassOrder[i])[0])
    {
      if tempo.None? || tempo.value == [] {
        return Failure(MissingParameter);
      }
      var t := tempo.value;
      var slots: seq<Slot> := [];
      for n := 0 to |MassOrder|
        invariant |slots| == n
        invariant forall i :: 0 <= i < n ==>
          var matches := Matching(songs, t, MassOrder[i]);
          && slots[i].moment == MassOrder[i]
          && (slots[i].song.None? <==> matches == [])
          && (slots[i].song.Some? ==> slots[i].song.value == matches[Draw(draws[i], |matches|)])
      {
        var moment := MassOrder[n];
        var matches := Matching(songs, t, moment);
        var count := |matches|;
        if count > 0 {
          var k := Draw(draws[n], count);
          slots := slots + [Slot(moment, Some(matches[k]))];
        } else {
          slots := slots + [Slot(moment, None)];
        }
      }
      forall i | 0 <= i < |MassOrder| && slots[i].song.Some?
        ensures slots[i].song.value in Matching(songs, t, MassOrder[i])
      {
      }
      r := Success(slots);
    }
  }

  /** Appending a well-formed song under the next id keeps the invariant and makes it the one found under that id. */
  lemma AppendKeepsValid(songs: seq<Song>, nextId: nat, x: Song)
    requires ValidSongs(songs, nextId)
    requires x.id == nextId && WellFormed(x)
    ensures ValidSongs(songs + [x], nextId + 1)
    ensures FindById(songs + [x], x.id) == Some(x)
    ensures forall s :: s in songs ==> s.id != x.id
  {
    forall s | s in songs + [x] ensures s.id < nextId + 1 && WellFormed(s) {
      if s != x { assert s in songs; }
    }
    forall i | 0 <= i < |songs| ensures songs[i].id != x.id {
      assert songs[i] in songs;
    }
    FindByIdAppend(songs, x);
  }

  /** Appending a song with a fresh id makes it the one found under that id. */
  lemma {:induction false} FindByIdAppend(songs: seq<Song>, x: Song)
    requires forall i :: 0 <= i < |songs| ==> songs[i].id != x.id
    ensures FindById(songs + [x], x.id) == Some(x)
  {
    if songs != [] {
      assert (songs + [x])[1..] == songs[1..] + [x];
      FindByIdAppend(songs[1..], x);
    }
  }

  /** In a sequence with distinct ids, the song at any index is the one found under its id. */
  lemma {:induction false} FindByIdIn(songs: seq<Song>, k: nat)
    requires k < |songs|
    requires DistinctIds(songs)
    ensures FindById(songs, songs[k].id) == Some(songs[k])
  {
    if k > 0 {
      assert songs[0].id != songs[k].id;
      FindByIdIn(songs[1..], k - 1);
    }
  }

  /** Replacing by id keeps every id in place, so distinct ids stay distinct. */
  lemma ReplaceByIdDistinct(songs: seq<Song>, updated: Song)
    requires DistinctIds(songs)
    ensures DistinctIds(ReplaceById(songs, updated))
  {
    var r := ReplaceById(songs, updated);
    assert forall i :: 0 <= i < |r| ==> r[i].id == songs[i].id;
  }

  /** Every song after a replacement is the replacement or was already stored. */
  lemma ReplaceByIdMembers(songs: seq<Song>, updated: Song)
    ensures forall s :: s in ReplaceById(songs, updated) ==> s == updated || s in songs
  {
    var r := ReplaceById(songs, updated);
    forall s | s in r ensures s == updated || s in songs {
      var i :| 0 <= i < |r| && r[i] == s;
      assert songs[i] in songs;
    }
  }

  /** Replacing the song with `updated`'s id by a well-formed `updated` keeps the invariant and finds the new song. */
  lemma ReplaceByIdKeepsValid(songs: seq<Song>, nextId: nat, updated: Song)
    requires ValidSongs(songs, nextId)
    requires FindById(songs, updated.id).Some? && WellFormed(updated)
    ensures ValidSongs(ReplaceById(songs, updated), nextId)
    ensures FindById(ReplaceById(songs, updated), updated.id) == Some(updated)
  {
    var r := ReplaceById(songs, updated);
    var k :| 0 <= k < |songs| && songs[k].id == updated.id;
    assert songs[k] in songs;
    ReplaceByIdMembers(songs, updated);
    ReplaceByIdDistinct(songs, updated);
    assert r[k] == updated;
    FindByIdIn(r, k);
  }

  lemma DistinctTail(songs: seq<Song>)
    requires songs != [] && DistinctIds(songs)
    ensures DistinctIds(songs[1..])
    ensures forall s :: s in songs[1..] ==> s.id != songs[0].id
  {
    forall s | s in songs[1..] ensures s.id != songs[0].id {
      var k :| 0 <= k < |songs[1..]| && songs[1..][k] == s;
      assert songs[k + 1] == s;
    }
  }

  /** A song whose id no song of a distinct-id sequence has can go in front of it. */
  lemma ConsDistinct(x: Song, tail: seq<Song>)
    requires DistinctIds(tail)
    requires forall s :: s in tail ==> s.id != x.id
    ensures DistinctIds([x] + tail)
  {
    var r := [x] + tail;
    forall i, j | 0 <= i < j < |r| ensures r[i].id != r[j].id {
      if i == 0 {
        assert r[j] == tail[j - 1];
        assert tail[j - 1] in tail;
      } else {
        assert r[i] == tail[i - 1] && r[j] == tail[j - 1];
      }
    }
  }

  /** Removing by id keeps the ids distinct. */
  lemma {:induction false} RemoveByIdDistinct(songs: seq<Song>, id: nat)
    requires DistinctIds(songs)
    ensures DistinctIds(RemoveById(songs, id))
  {
    if songs != [] {
      DistinctTail(songs);
      var tail := RemoveById(songs[1..], id);
      RemoveByIdDistinct(songs[1..], id);
      if songs[0].id == id {
        assert RemoveById(songs, id) == tail;
      } else {
        assert RemoveById(songs, id) == [songs[0]] + tail;
        ConsDistinct(songs[0], tail);
      }
    }
  }

  /** Removing an id that is present, once, drops exactly one song. */
  lemma {:induction false} RemoveByIdCount(songs: seq<Song>, id: nat)
    requires DistinctIds(songs)
    requires exists i :: 0 <= i < |songs| && songs[i].id == id
    ensures |RemoveById(songs, id)| == |songs| - 1
  {
    DistinctTail(songs);
    if songs[0].id != id {
      var i :| 0 <= i < |songs| && songs[i].id == id;
      assert songs[1..][i - 1].id == id;
      RemoveByIdCount(songs[1..], id);
    }
  }

  /** Removing a present id keeps the invariant, drops one song and leaves none with that id. */
  lemma RemoveByIdKeepsValid(songs: seq<Song>, nextId: nat, id: nat)
    requires ValidSongs(songs, nextId)
    requires FindById(songs, id).Some?
    ensures ValidSongs(RemoveById(songs, id), nextId)
    ensures FindById(RemoveById(songs, id), id).None?
    ensures |RemoveById(songs, id)| == |songs| - 1
  {
    RemoveByIdDistinct(songs, id);
    RemoveByIdCount(songs, id);
  }
}
