/**
 * The song schema of the newest server: four required text fields and six
 * optional links, every one trimmed when set. Creating validates the whole
 * document; updating merges only the fields sent and validates only those.
 */
module SongSchema {
  import opened Wrappers
  import opened Text
  import opened Http

  /** A JSON request body with string values, keyed by field name. */
  type Body = map<string, string>

  /** The schema fields of a body, the others dropped. */
  type Fields = map<Path, string>

  datatype Song = Song(
    id: nat,
    titulo: string, artista: string, tempo: string, momento: string,
    tom: Option<string>, downloadUrl: Option<string>, letraUrl: Option<string>,
    cifraUrl: Option<string>, imageUrl: Option<string>, previewUrl: Option<string>)

  /** The schema's paths, each with the JSON key it is stored under. */
  datatype Path =
    | Titulo | Artista | Tempo | Momento
    | Tom | DownloadUrl | LetraUrl | CifraUrl | ImageUrl | PreviewUrl
  {
    function Key(): string {
      match this
      case Titulo => "titulo"
      case Artista => "artista"
      case Tempo => "tempo"
      case Momento => "momento"
      case Tom => "tom"
      case DownloadUrl => "downloadUrl"
      case LetraUrl => "letraUrl"
      case CifraUrl => "cifraUrl"
      case ImageUrl => "imageUrl"
      case PreviewUrl => "previewUrl"
    }
  }

  const RequiredPaths: seq<Path> := [Titulo, Artista, Tempo, Momento]
  const AllPaths: seq<Path> := RequiredPaths + [Tom, DownloadUrl, LetraUrl, CifraUrl, ImageUrl, PreviewUrl]

  /**
   * Strict mode: a body becomes a document through the schema, so a key that
   * names no schema path is dropped.
   */
  function SchemaFields(body: Body): (f: Fields)
    ensures forall p: Path :: p in f <==> p.Key() in body
    ensures forall p :: p in f ==> f[p] == body[p.Key()]
  {
    AllPathsListed();
    map p | p in AllPaths && p.Key() in body :: body[p.Key()]
  }

  lemma AllPathsListed()
    ensures forall p: Path :: p in AllPaths
  {
    forall p: Path ensures p in AllPaths {
      match p
      case Titulo => case Artista => case Tempo => case Momento =>
      case Tom => case DownloadUrl => case LetraUrl => case CifraUrl =>
      case ImageUrl => case PreviewUrl =>
    }
  }

  function Keys(paths: seq<Path>): (keys: seq<string>)
    ensures |keys| == |paths|
    ensures forall i :: 0 <= i < |paths| ==> keys[i] == paths[i].Key()
  {
    seq(|paths|, i requires 0 <= i < |paths| => paths[i].Key())
  }

  /** The value stored under `path`. */
  function Field(s: Song, path: Path): (v: Option<string>)
    ensures path in RequiredPaths ==> v.Some?
  {
    match path
    case Titulo => Some(s.titulo)
    case Artista => Some(s.artista)
    case Tempo => Some(s.tempo)
    case Momento => Some(s.momento)
    case Tom => s.tom
    case DownloadUrl => s.downloadUrl
    case LetraUrl => s.letraUrl
    case CifraUrl => s.cifraUrl
    case ImageUrl => s.imageUrl
    case PreviewUrl => s.previewUrl
  }

  /** What the trim setter makes of the field sent for `path`. */
  function Sent(f: Fields, path: Path): (v: Option<string>)
    ensures v.Some? <==> path in f
    ensures v.Some? ==> IsTrimmed(v.value) && v.value == Trim(f[path])
    ensures v.Some? ==> (v.value != [] <==> Filled(f, path))
  {
    if path in f then Some(Trim(f[path])) else None
  }

  /** A required field passes validation when it is sent and non-empty once trimmed. */
  predicate Filled(f: Fields, path: Path) {
    path in f && Trim(f[path]) != []
  }

  /** Every stored value is trimmed and the required ones are non-empty. */
  ghost predicate WellFormed(s: Song) {
    forall path: Path :: Field(s, path).Some? ==>
      IsTrimmed(Field(s, path).value) && (path in RequiredPaths ==> Field(s, path).value != [])
  }

  /** The paths among `paths` whose required validator fails, in order. */
  function Unfilled(f: Fields, paths: seq<Path>): (r: seq<Path>)
    ensures forall p :: p in r <==> p in paths && !Filled(f, p)
  {
    if paths == [] then []
    else (if Filled(f, paths[0]) then [] else [paths[0]]) + Unfilled(f, paths[1..])
  }

  /** The paths among `paths` that are sent but blank: an update's required validator fails on them. */
  function Blanked(f: Fields, paths: seq<Path>): (r: seq<Path>)
    ensures forall p :: p in r <==> p in paths && p in f && !Filled(f, p)
  {
    if paths == [] then []
    else (if paths[0] in f && !Filled(f, paths[0]) then [paths[0]] else []) + Blanked(f, paths[1..])
  }

  /** The sent value of `path`, or the one already stored. */
  function Merged(s: Song, f: Fields, path: Path): Option<string> {
    if path in f then Sent(f, path) else Field(s, path)
  }

  /**
   * `new Musica(req.body)` followed by validation: fields outside the schema
   * are dropped, every field is trimmed, and a missing or blank required
   * field is a validation error naming it.
   */
  function NewSong(id: nat, f: Fields): (r: Result<Song, Error>)
    ensures r.Success? <==> forall p :: p in RequiredPaths ==> Filled(f, p)
    ensures r.Failure? ==> r.error == Invalid(Keys(Unfilled(f, RequiredPaths))) && r.error.paths != []
    ensures r.Success? ==> r.value.id == id
  {
    var missing := Unfilled(f, RequiredPaths);
    if missing != [] then
      assert missing[0] in missing;
      Failure(Invalid(Keys(missing)))
    else
      assert Filled(f, Titulo) && Filled(f, Artista) && Filled(f, Tempo) && Filled(f, Momento);
      Success(Song(id,
        Sent(f, Titulo).value, Sent(f, Artista).value, Sent(f, Tempo).value, Sent(f, Momento).value,
        Sent(f, Tom), Sent(f, DownloadUrl), Sent(f, LetraUrl),
        Sent(f, CifraUrl), Sent(f, ImageUrl), Sent(f, PreviewUrl)))
  }

  /**
   * A created song holds exactly what was sent for each schema path,
   * trimmed, and nothing else; so it is well formed.
   */
  lemma NewSongFields(id: nat, f: Fields)
    requires NewSong(id, f).Success?
    ensures forall p: Path :: Field(NewSong(id, f).value, p) == Sent(f, p)
    ensures WellFormed(NewSong(id, f).value)
  {
    var s := NewSong(id, f).value;
    forall p: Path ensures Field(s, p) == Sent(f, p) {
      match p
      case Titulo => assert Filled(f, Titulo);
      case Artista => assert Filled(f, Artista);
      case Tempo => assert Filled(f, Tempo);
      case Momento => assert Filled(f, Momento);
      case _ =>
    }
    assert forall p: Path :: Field(s, p) == Sent(f, p);
    forall p: Path | Field(s, p).Some?
      ensures IsTrimmed(Field(s, p).value) && (p in RequiredPaths ==> Field(s, p).value != [])
    {
      if p in RequiredPaths {
        assert Filled(f, p);
      }
    }
  }

  /**
   * `findByIdAndUpdate(id, req.body, { runValidators: true })` on one song:
   * the sent schema fields replace the stored ones (trimmed), the others stay
   * as they were; only the sent required fields are validated.
   */
  function ApplyUpdate(s: Song, f: Fields): (r: Result<Song, Error>)
    ensures r.Failure? <==> exists p :: p in RequiredPaths && p in f && !Filled(f, p)
    ensures r.Failure? ==> r.error == Invalid(Keys(Blanked(f, RequiredPaths)))
    ensures r.Success? ==> r.value.id == s.id
  {
    var blank := Blanked(f, RequiredPaths);
    if blank != [] then
      assert blank[0] in blank;
      Failure(Invalid(Keys(blank)))
    else
      Success(Song(s.id,
        Merged(s, f, Titulo).value, Merged(s, f, Artista).value,
        Merged(s, f, Tempo).value, Merged(s, f, Momento).value,
        Merged(s, f, Tom), Merged(s, f, DownloadUrl), Merged(s, f, LetraUrl),
        Merged(s, f, CifraUrl), Merged(s, f, ImageUrl), Merged(s, f, PreviewUrl)))
  }

  /** After a successful update every path holds the value sent for it, or else the value it held before. */
  lemma ApplyUpdateFields(s: Song, f: Fields)
    requires ApplyUpdate(s, f).Success?
    ensures forall p: Path :: Field(ApplyUpdate(s, f).value, p) == Merged(s, f, p)
  {
    var r := ApplyUpdate(s, f).value;
    forall p: Path ensures Field(r, p) == Merged(s, f, p) {
      match p
      case Titulo => assert Titulo in f ==> Filled(f, Titulo);
      case Artista => assert Artista in f ==> Filled(f, Artista);
      case Tempo => assert Tempo in f ==> Filled(f, Tempo);
      case Momento => assert Momento in f ==> Filled(f, Momento);
      case _ =>
    }
  }

  /**
   * The partial-merge law: after a successful update every path holds the
   * value sent for it, or else the value it held before; a well-formed song
   * stays well formed.
   */
  lemma ApplyUpdateMerges(s: Song, f: Fields)
    requires ApplyUpdate(s, f).Success?
    ensures forall p: Path :: Field(ApplyUpdate(s, f).value, p) == Merged(s, f, p)
    ensures WellFormed(s) ==> WellFormed(ApplyUpdate(s, f).value)
  {
    var r := ApplyUpdate(s, f).value;
    ApplyUpdateFields(s, f);
    if WellFormed(s) {
      forall p: Path | Field(r, p).Some?
        ensures IsTrimmed(Field(r, p).value) && (p in RequiredPaths ==> Field(r, p).value != [])
      {
        assert Field(r, p) == Merged(s, f, p);
        if p in f && p in RequiredPaths {
          assert Filled(f, p);
        }
      }
    }
  }

  /** Two songs with the same id and the same value on every path are the same song. */
  lemma FieldsDetermineSong(a: Song, b: Song)
    requires a.id == b.id
    requires forall p: Path :: Field(a, p) == Field(b, p)
    ensures a == b
  {
    assert Field(a, Titulo) == Field(b, Titulo) && Field(a, Artista) == Field(b, Artista);
    assert Field(a, Tempo) == Field(b, Tempo) && Field(a, Momento) == Field(b, Momento);
    assert Field(a, Tom) == Field(b, Tom) && Field(a, DownloadUrl) == Field(b, DownloadUrl);
    assert Field(a, LetraUrl) == Field(b, LetraUrl) && Field(a, CifraUrl) == Field(b, CifraUrl);
    assert Field(a, ImageUrl) == Field(b, ImageUrl) && Field(a, PreviewUrl) == Field(b, PreviewUrl);
  }

  /** An update with nothing to set leaves the song as it is. */
  lemma EmptyUpdateIsIdentity(s: Song)
    ensures ApplyUpdate(s, map[]) == Success(s)
  {
    ApplyUpdateMerges(s, map[]);
    FieldsDetermineSong(ApplyUpdate(s, map[]).value, s);
  }
}
