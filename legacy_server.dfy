/**
 * The earlier revision of the server: six untyped, unvalidated song fields,
 * a filter that needs both parameters and compares them case-insensitively,
 * create/read/update/delete without a token, and a plaintext login.
 */
module LegacyServer {
  import opened Wrappers
  import opened Text
  import opened Http
  import opened Sequences

  /** A body's values, keyed by field name. */
  type Body = map<string, string>

  /** A stored song: each of the six schema fields may be absent. */
  datatype LegacySong = LegacySong(
    id: nat,
    titulo: Option<string>, tempo: Option<string>, momento: Option<string>,
    downloadUrl: Option<string>, artista: Option<string>, tom: Option<string>)

  /** The six schema fields, with the JSON key of each. */
  datatype LegacyPath = LTitulo | LTempo | LMomento | LDownloadUrl | LArtista | LTom
  {
    function Key(): string {
      match this
      case LTitulo => "titulo"
      case LTempo => "tempo"
      case LMomento => "momento"
      case LDownloadUrl => "downloadUrl"
      case LArtista => "artista"
      case LTom => "tom"
    }
  }

  const LegacyPaths: seq<LegacyPath> := [LTitulo, LTempo, LMomento, LDownloadUrl, LArtista, LTom]

  /** The six paths are all there are. */
  lemma EveryPath()
    ensures forall p: LegacyPath :: p in LegacyPaths
  {
    forall p: LegacyPath ensures p in LegacyPaths {
      match p
      case LTitulo => case LTempo => case LMomento =>
      case LDownloadUrl => case LArtista => case LTom =>
    }
  }

  function Field(s: LegacySong, p: LegacyPath): Option<string> {
    match p
    case LTitulo => s.titulo
    case LTempo => s.tempo
    case LMomento => s.momento
    case LDownloadUrl => s.downloadUrl
    case LArtista => s.artista
    case LTom => s.tom
  }

  /** The value a body gives to a path, if it names it. */
  function Given(body: Body, p: LegacyPath): Option<string> {
    if p.Key() in body then Some(body[p.Key()]) else None
  }

  /**
   * `new Musica({ titulo: req.body.titulo, … })`: the six named fields of
   * the body are copied and every other key is dropped.
   */
  function FromBody(id: nat, body: Body): (s: LegacySong)
    ensures s.id == id
    ensures forall p :: Field(s, p) == Given(body, p)
  {
    var s := LegacySong(id,
      Given(body, LTitulo), Given(body, LTempo), Given(body, LMomento),
      Given(body, LDownloadUrl), Given(body, LArtista), Given(body, LTom));
    EveryPath();
    s
  }

  /** The value a path holds after an update with this body. */
  function Updated(s: LegacySong, body: Body, p: LegacyPath): Option<string> {
    if p.Key() in body then Given(body, p) else Field(s, p)
  }

  /** `findByIdAndUpdate(id, req.body)`: the fields the body names are replaced, the rest kept. */
  function Merge(s: LegacySong, body: Body): (r: LegacySong)
    ensures r.id == s.id
    ensures forall p :: Field(r, p) == Updated(s, body, p)
  {
    var r := LegacySong(s.id,
      Updated(s, body, LTitulo), Updated(s, body, LTempo), Updated(s, body, LMomento),
      Updated(s, body, LDownloadUrl), Updated(s, body, LArtista), Updated(s, body, LTom));
    EveryPath();
    r
  }

  /** Two songs with the same id and the same value on every path are the same song. */
  lemma FieldsDetermineSong(a: LegacySong, b: LegacySong)
    requires a.id == b.id
    requires forall p :: Field(a, p) == Field(b, p)
    ensures a == b
  {
    assert Field(a, LTitulo) == Field(b, LTitulo) && Field(a, LTempo) == Field(b, LTempo);
    assert Field(a, LMomento) == Field(b, LMomento) && Field(a, LDownloadUrl) == Field(b, LDownloadUrl);
    assert Field(a, LArtista) == Field(b, LArtista) && Field(a, LTom) == Field(b, LTom);
  }

  /** Keys outside the six fields have no effect on creation. */
  lemma FromBodyIgnoresOtherKeys(id: nat, b1: Body, b2: Body)
    requires forall p: LegacyPath :: Given(b1, p) == Given(b2, p)
    ensures FromBody(id, b1) == FromBody(id, b2)
  {
    FieldsDetermineSong(FromBody(id, b1), FromBody(id, b2));
  }

  /** Merging a body that names no field leaves the song unchanged. */
  lemma MergeNothing(s: LegacySong, body: Body)
    requires forall p: LegacyPath :: p.Key() !in body
    ensures Merge(s, body) == s
  {
    FieldsDetermineSong(Merge(s, body), s);
  }

  /** Merging the same body twice is merging it once. */
  lemma MergeIdempotent(s: LegacySong, body: Body)
    ensures Merge(Merge(s, body), body) == Merge(s, body)
  {
    FieldsDetermineSong(Merge(Merge(s, body), body), Merge(s, body));
  }

  /** A field matches a parameter when it is present and equal to it up to case. */
  function FieldMatches(v: Option<string>, param: string): (m: bool)
    ensures m ==> v.Some? && |v.value| == |param|
    ensures v == Some(param) ==> m
  {
    v.Some? && EqualsIgnoringCase(v.value, param)
  }

  /** The songs whose `tempo` and `momento` equal the parameters up to case, in insertion order. */
  function Filter(songs: seq<LegacySong>, tempo: string, momento: string): (r: seq<LegacySong>)
    ensures |r| <= |songs|
    ensures forall s :: s in r <==> s in songs && FieldMatches(s.tempo, tempo) && FieldMatches(s.momento, momento)
  {
    if songs == [] then []
    else
      (if FieldMatches(songs[0].tempo, tempo) && FieldMatches(songs[0].momento, momento) then [songs[0]] else [])
      + Filter(songs[1..], tempo, momento)
  }

  /** Each matching song occurs in the result as often as it is stored; no other song occurs. */
  lemma {:induction false} FilterCount(songs: seq<LegacySong>, tempo: string, momento: string, s: LegacySong)
    ensures multiset(Filter(songs, tempo, momento))[s] ==
      if FieldMatches(s.tempo, tempo) && FieldMatches(s.momento, momento) then multiset(songs)[s] else 0
  {
    if songs != [] {
      var head: seq<LegacySong> :=
        if FieldMatches(songs[0].tempo, tempo) && FieldMatches(songs[0].momento, momento) then [songs[0]] else [];
      var rest := Filter(songs[1..], tempo, momento);
      FilterCount(songs[1..], tempo, momento, s);
      SplitHead(songs, []);
      FilterCons(songs[0], songs[1..], tempo, momento);
      assert multiset(head + rest)[s] == multiset(head)[s] + multiset(rest)[s];
      assert multiset(songs)[s] == multiset([songs[0]])[s] + multiset(songs[1..])[s];
    }
  }

  /** One step of `Filter` on a song put in front. */
  lemma FilterCons(x: LegacySong, rest: seq<LegacySong>, tempo: string, momento: string)
    ensures Filter([x] + rest, tempo, momento) ==
      (if FieldMatches(x.tempo, tempo) && FieldMatches(x.momento, momento) then [x] else []) + Filter(rest, tempo, momento)
  {
    assert ([x] + rest)[0] == x && ([x] + rest)[1..] == rest;
  }

  /** Matches keep their insertion order: those of a prefix come before those of the rest. */
  lemma {:induction false} FilterAppend(a: seq<LegacySong>, b: seq<LegacySong>, tempo: string, momento: string)
    ensures Filter(a + b, tempo, momento) == Filter(a, tempo, momento) + Filter(b, tempo, momento)
  {
    if a == [] {
      assert a + b == b;
    } else {
      FilterAppend(a[1..], b, tempo, momento);
      SplitHead(a, b);
      FilterCons(a[0], a[1..], tempo, momento);
      FilterCons(a[0], a[1..] + b, tempo, momento);
      PrependAssociates(
        if FieldMatches(a[0].tempo, tempo) && FieldMatches(a[0].momento, momento) then [a[0]] else [],
        Filter(a[1..], tempo, momento), Filter(b, tempo, momento));
    }
  }

  /** Parameters equal up to case select the same songs, in the same order. */
  lemma {:induction false} FilterIgnoresCase(songs: seq<LegacySong>, t1: string, m1: string, t2: string, m2: string)
    requires EqualsIgnoringCase(t1, t2) && EqualsIgnoringCase(m1, m2)
    ensures Filter(songs, t1, m1) == Filter(songs, t2, m2)
  {
    if songs != [] {
      FilterIgnoresCase(songs[1..], t1, m1, t2, m2);
    }
  }

  /** The first song with this id. */
  function FindById(songs: seq<LegacySong>, id: nat): (r: Option<LegacySong>)
    ensures r.Some? <==> exists i :: 0 <= i < |songs| && songs[i].id == id
    ensures r.Some? ==> r.value in songs && r.value.id == id
  {
    if songs == [] then None
    else if songs[0].id == id then Some(songs[0])
    else FindById(songs[1..], id)
  }

  /** The songs without the ones with this id, order kept. */
  function RemoveById(songs: seq<LegacySong>, id: nat): (r: seq<LegacySong>)
    ensures forall s :: s in r <==> s in songs && s.id != id
  {
    if songs == [] then []
    else (if songs[0].id == id then [] else [songs[0]]) + RemoveById(songs[1..], id)
  }

  /** The songs with the one whose id is `updated.id` replaced by `updated`. */
  function ReplaceById(songs: seq<LegacySong>, updated: LegacySong): (r: seq<LegacySong>)
    ensures |r| == |songs|
    ensures forall i :: 0 <= i < |songs| ==> r[i] == if songs[i].id == updated.id then updated else songs[i]
  {
    seq(|songs|, i requires 0 <= i < |songs| => if songs[i].id == updated.id then updated else songs[i])
  }

  /** Every song without that id stays, as often as it was stored; none with it stays. */
  lemma {:induction false} RemoveByIdCount(songs: seq<LegacySong>, id: nat, s: LegacySong)
    ensures multiset(RemoveById(songs, id))[s] == if s.id != id then multiset(songs)[s] else 0
  {
    if songs != [] {
      RemoveByIdCount(songs[1..], id, s);
      assert songs == [songs[0]] + songs[1..];
    }
  }

  /** Removal keeps the order of the remaining songs: a prefix's survivors come first. */
  lemma {:induction false} RemoveByIdAppend(a: seq<LegacySong>, b: seq<LegacySong>, id: nat)
    ensures RemoveById(a + b, id) == RemoveById(a, id) + RemoveById(b, id)
  {
    if a == [] {
      assert a + b == b;
    } else {
      assert (a + b)[0] == a[0] && (a + b)[1..] == a[1..] + b;
      RemoveByIdAppend(a[1..], b, id);
    }
  }

  /** Ids already issued. */
  ghost predicate IdsBelow(songs: seq<LegacySong>, nextId: nat) {
    forall s :: s in songs ==> s.id < nextId
  }

  /** No two stored songs share an id, as MongoDB's unique `_id` index guarantees. */
  ghost predicate DistinctIds(songs: seq<LegacySong>) {
    forall i, j :: 0 <= i < j < |songs| ==> songs[i].id != songs[j].id
  }

  /** Appending a song whose id no stored song has keeps the ids distinct. */
  lemma AppendFreshDistinct(songs: seq<LegacySong>, x: LegacySong)
    requires DistinctIds(songs)
    requires forall s :: s in songs ==> s.id != x.id
    ensures DistinctIds(songs + [x])
  {
    var r := songs + [x];
    forall i, j | 0 <= i < j < |r| ensures r[i].id != r[j].id {
      assert r[i] == songs[i];
      if j == |songs| {
        assert songs[i] in songs;
      } else {
        assert r[j] == songs[j];
      }
    }
  }

  /** The tail of a distinct-id sequence has distinct ids, none equal to the head's. */
  lemma DistinctTail(songs: seq<LegacySong>)
    requires songs != [] && DistinctIds(songs)
    ensures DistinctIds(songs[1..])
    ensures forall s :: s in songs[1..] ==> s.id != songs[0].id
  {
    forall s | s in songs[1..] ensures s.id != songs[0].id {
      var k :| 0 <= k < |songs[1..]| && songs[1..][k] == s;
      assert songs[k + 1] == s;
    }
  }

  /** A song whose id no song of a distinct-id sequence has can go in front of it. */
  lemma ConsDistinct(x: LegacySong, tail: seq<LegacySong>)
    requires DistinctIds(tail)
    requires forall s :: s in tail ==> s.id != x.id
    ensures DistinctIds([x] + tail)
  {
    var r := [x] + tail;
    forall i, j | 0 <= i < j < |r| ensures r[i].id != r[j].id {
      assert r[j] == tail[j - 1] && tail[j - 1] in tail;
      if i > 0 {
        assert r[i] == tail[i - 1];
      }
    }
  }

  /**
   * With distinct ids, removing one that is present drops exactly one song
   * and leaves the remaining ids distinct.
   */
  lemma {:induction false} RemoveByIdOne(songs: seq<LegacySong>, id: nat)
    requires DistinctIds(songs)
    requires exists i :: 0 <= i < |songs| && songs[i].id == id
    ensures |RemoveById(songs, id)| == |songs| - 1
    ensures DistinctIds(RemoveById(songs, id))
  {
    var tail := songs[1..];
    DistinctTail(songs);
    if songs[0].id == id {
      RemoveByIdAbsent(tail, id);
    } else {
      var i :| 0 <= i < |songs| && songs[i].id == id;
      assert tail[i - 1].id == id;
      RemoveByIdOne(tail, id);
      ConsDistinct(songs[0], RemoveById(tail, id));
    }
  }

  /** Removing an id no song has changes nothing. */
  lemma {:induction false} RemoveByIdAbsent(songs: seq<LegacySong>, id: nat)
    requires forall s :: s in songs ==> s.id != id
    ensures RemoveById(songs, id) == songs
  {
    if songs != [] {
      assert songs[0] in songs;
      assert forall s :: s in songs[1..] ==> s in songs;
      RemoveByIdAbsent(songs[1..], id);
      assert songs == [songs[0]] + songs[1..];
    }
  }

  /** After replacing by id, the song found under that id is the replacement. */
  lemma {:induction false} FindByIdReplaced(songs: seq<LegacySong>, updated: LegacySong)
    requires exists i :: 0 <= i < |songs| && songs[i].id == updated.id
    ensures FindById(ReplaceById(songs, updated), updated.id) == Some(updated)
  {
    var r := ReplaceById(songs, updated);
    if songs[0].id != updated.id {
      var i :| 0 <= i < |songs| && songs[i].id == updated.id;
      assert songs[1..][i - 1].id == updated.id;
      FindByIdReplaced(songs[1..], updated);
      assert r[1..] == ReplaceById(songs[1..], updated);
    }
  }

  /** Appending a song with a fresh id makes it the one found under that id. */
  lemma {:induction false} FindByIdAppend(songs: seq<LegacySong>, x: LegacySong)
    requires forall s :: s in songs ==> s.id != x.id
    ensures FindById(songs + [x], x.id) == Some(x)
  {
    if songs != [] {
      assert (songs + [x])[1..] == songs[1..] + [x];
      assert songs[0] in songs;
      FindByIdAppend(songs[1..], x);
    }
  }

  class LegacyCollection {
    /** The stored songs, in insertion order. */
    var songs: seq<LegacySong>
    /** The id the next created song receives. */
    var nextId: nat

    ghost predicate Valid()
      reads this
    {
      IdsBelow(songs, nextId) && DistinctIds(songs)
    }

    constructor()
      ensures Valid() && songs == [] && nextId == 0
    {
      songs := [];
      nextId := 0;
    }

    /**
     * `GET /api/musicas`: a 400 unless both parameters are present and
     * non-empty; otherwise the songs matching both, ignoring case.
     */
    method Search(tempo: Option<string>, momento: Option<string>) returns (r: Result<seq<LegacySong>, Error>)
      ensures r.Failure? <==> tempo.None? || tempo.value == [] || momento.None? || momento.value == []
      ensures r.Failure? ==> r.error == MissingParameter
      ensures r.Success? ==> forall s :: s in r.value <==>
        s in songs && FieldMatches(s.tempo, tempo.value) && FieldMatches(s.momento, momento.value)
      ensures r.Success? ==> r.value == Filter(songs, tempo.value, momento.value)
    {
      if tempo.None? || tempo.value == [] || momento.None? || momento.value == [] {
        return Failure(MissingParameter);
      }
      r := Success(Filter(songs, tempo.value, momento.value));
    }

    /** `POST /api/musicas`: always stored, with only the six schema fields. */
    method Create(body: Body) returns (created: LegacySong)
      requires Valid()
      modifies this
      ensures Valid()
      ensures created == FromBody(old(nextId), body)
      ensures songs == old(songs) + [created] && nextId == old(nextId) + 1
      ensures FindById(songs, created.id) == Some(created)
    {
      created := FromBody(nextId, body);
      FindByIdAppend(songs, created);
      AppendFreshDistinct(songs, created);
      songs := songs + [created];
      nextId := nextId + 1;
    }

    /** `GET /api/musicas/all`: every stored song, unfiltered and in insertion order. */
    method All() returns (r: seq<LegacySong>)
      ensures r == songs
    {
      r := songs;
    }

    /** `GET /api/musicas/:id`: the song with this id, or 404. */
    method Get(id: nat) returns (r: Result<LegacySong, Error>)
      ensures r == Failure(NotFound) <==> forall s :: s in songs ==> s.id != id
      ensures r.Failure? ==> r == Failure(NotFound)
      ensures r.Success? ==> r.value in songs && r.value.id == id
    {
      match FindById(songs, id)
      case None => r := Failure(NotFound);
      case Some(s) => r := Success(s);
    }

    /** `DELETE /api/musicas/:id`: removes the song with this id, or answers 404. */
    method Delete(id: nat) returns (r: Result<LegacySong, Error>)
      requires Valid()
      modifies this
      ensures Valid() && nextId == old(nextId)
      ensures r == Failure(NotFound) <==> forall s :: s in old(songs) ==> s.id != id
      ensures r.Failure? ==> r == Failure(NotFound) && songs == old(songs)
      ensures r.Success? ==> r.value in old(songs) && r.value.id == id && songs == RemoveById(old(songs), id)
      ensures r.Success? ==> FindById(songs, id).None? && |songs| == |old(songs)| - 1
    {
      match FindById(songs, id)
      case None =>
        r := Failure(NotFound);
      case Some(s) =>
        r := Success(s);
        RemoveByIdOne(songs, id);
        songs := RemoveById(songs, id);
    }

    /**
     * `PUT /api/musicas/:id`: the fields the body names replace the stored
     * ones, unvalidated; the updated song is returned, or 404.
     */
    method Update(id: nat, body: Body) returns (r: Result<LegacySong, Error>)
      requires Valid()
      modifies this
      ensures Valid() && nextId == old(nextId)
      ensures r == Failure(NotFound) <==> forall s :: s in old(songs) ==> s.id != id
      ensures r.Failure? ==> r == Failure(NotFound) && songs == old(songs)
      ensures r.Success? ==> r.value == Merge(FindById(old(songs), id).value, body)
      ensures r.Success? ==> songs == ReplaceById(old(songs), r.value) && FindById(songs, id) == Some(r.value)
    {
      match FindById(songs, id)
      case None =>
        r := Failure(NotFound);
      case Some(s) =>
        var updated := Merge(s, body);
        r := Success(updated);
        FindByIdReplaced(songs, updated);
        forall t | t in ReplaceById(songs, updated) ensures t.id < nextId {
          var i :| 0 <= i < |songs| && ReplaceById(songs, updated)[i] == t;
          assert songs[i] in songs;
        }
        assert forall i :: 0 <= i < |songs| ==> ReplaceById(songs, updated)[i].id == songs[i].id;
        songs := ReplaceById(songs, updated);
    }
  }

  /**
   * `/api/login`: 200 exactly when both the username and the password equal
   * the configured ones, compared as plain values; an unset configuration
   * value or an absent body field is `None`.
   */
  function Login(username: Option<string>, password: Option<string>,
                 adminUser: Option<string>, adminPassword: Option<string>): (r: Result<(), Error>)
    ensures r.Success? <==> username == adminUser && password == adminPassword
    ensures r.Failure? ==> r.error == Unauthorized
  {
    if username == adminUser && password == adminPassword then Success(()) else Failure(Unauthorized)
  }

  /** With no credentials configured, a request that sends none is let in. */
  lemma LoginUnconfigured()
    ensures Login(None, None, None, None).Success?
    ensures forall u: Option<string>, p: Option<string> :: u.Some? ==> Login(u, p, None, None).Failure?
  {
  }
}
