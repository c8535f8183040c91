/**
 * The song schema of the 1.0 backend: a required, trimmed title, an
 * optional trimmed author, two closed enumerations that default to
 * "Outro", and two unconstrained optional texts. Saving a record fills in
 * the defaults, applies the trim setters and then runs the validators.
 */
module MusicaSchema {
  import opened Wrappers
  import opened Text
  import opened Http

  const LiturgicalTimes: seq<string> :=
    ["Advento", "Natal", "Quaresma", "Páscoa", "Tempo Comum", "Pentecostes", "Outro"]

  const MassParts: seq<string> :=
    ["Entrada", "Ato Penitencial", "Glória", "Aclamação", "Ofertório", "Santo", "Comunhão", "Final", "Outro"]

  /** The value both enumerations default to. */
  const Default: string := "Outro"

  /** A record as submitted: any field may be absent. */
  datatype MusicaInput = MusicaInput(
    titulo: Option<string>, autor: Option<string>,
    tempoLiturgico: Option<string>, parteDaMissa: Option<string>,
    linkYoutube: Option<string>, letra: Option<string>)

  /** A record as stored: the title and both enumerations are always present. */
  datatype Musica = Musica(
    titulo: string, autor: Option<string>,
    tempoLiturgico: string, parteDaMissa: string,
    linkYoutube: Option<string>, letra: Option<string>)

  /** The trim setter on an optional field. */
  function TrimmedOption(v: Option<string>): (r: Option<string>)
    ensures r.Some? <==> v.Some?
    ensures r.Some? ==> IsTrimmed(r.value) && r.value == Trim(v.value)
  {
    if v.Some? then Some(Trim(v.value)) else None
  }

  /** The default-filling of an enumerated field. */
  function WithDefault(v: Option<string>): (r: string)
    ensures v.Some? ==> r == v.value
    ensures v.None? ==> r == Default
  {
    if v.Some? then v.value else Default
  }

  /** The required validator on `titulo`, which sees the trimmed value. */
  predicate TituloValid(m: MusicaInput) {
    m.titulo.Some? && Trim(m.titulo.value) != []
  }

  /** The enum validator passes an absent value (it is defaulted) and a listed one. */
  predicate InEnum(v: Option<string>, values: seq<string>) {
    v.None? || v.value in values
  }

  /** The paths whose validator fails, in schema order. */
  function FailingPaths(m: MusicaInput): (paths: seq<string>)
    ensures paths == [] <==> TituloValid(m) && InEnum(m.tempoLiturgico, LiturgicalTimes) && InEnum(m.parteDaMissa, MassParts)
    ensures "titulo" in paths <==> !TituloValid(m)
    ensures "tempoLiturgico" in paths <==> !InEnum(m.tempoLiturgico, LiturgicalTimes)
    ensures "parteDaMissa" in paths <==> !InEnum(m.parteDaMissa, MassParts)
  {
    (if TituloValid(m) then [] else ["titulo"])
    + (if InEnum(m.tempoLiturgico, LiturgicalTimes) then [] else ["tempoLiturgico"])
    + (if InEnum(m.parteDaMissa, MassParts) then [] else ["parteDaMissa"])
  }

  /** What every stored record satisfies. */
  predicate StoredValid(s: Musica) {
    && s.titulo != [] && IsTrimmed(s.titulo)
    && (s.autor.Some? ==> IsTrimmed(s.autor.value))
    && s.tempoLiturgico in LiturgicalTimes
    && s.parteDaMissa in MassParts
  }

  /**
   * `new Musica(input)` then validation: the defaults are filled in, `titulo`
   * and `autor` trimmed, and a failing validator is an error naming every
   * failing path.
   */
  function Validate(m: MusicaInput): (r: Result<Musica, Error>)
    ensures r.Success? <==> TituloValid(m) && InEnum(m.tempoLiturgico, LiturgicalTimes) && InEnum(m.parteDaMissa, MassParts)
    ensures r.Failure? ==> r.error == Invalid(FailingPaths(m)) && r.error.paths != []
    ensures r.Success? ==> StoredValid(r.value)
    ensures r.Success? ==> r.value.titulo == Trim(m.titulo.value) && r.value.autor == TrimmedOption(m.autor)
    ensures r.Success? ==> r.value.tempoLiturgico == WithDefault(m.tempoLiturgico)
    ensures r.Success? ==> r.value.parteDaMissa == WithDefault(m.parteDaMissa)
    ensures r.Success? ==> r.value.linkYoutube == m.linkYoutube && r.value.letra == m.letra
  {
    var failing := FailingPaths(m);
    if failing != [] then Failure(Invalid(failing))
    else
      Success(Musica(
        Trim(m.titulo.value), TrimmedOption(m.autor),
        WithDefault(m.tempoLiturgico), WithDefault(m.parteDaMissa),
        m.linkYoutube, m.letra))
  }

  /** The stored record written back as a submission, every field present as stored. */
  function AsInput(s: Musica): (m: MusicaInput)
    ensures m.titulo == Some(s.titulo) && m.autor == s.autor
  {
    MusicaInput(Some(s.titulo), s.autor, Some(s.tempoLiturgico), Some(s.parteDaMissa), s.linkYoutube, s.letra)
  }

  /** Both defaults are members of their enumerations. */
  lemma DefaultsListed()
    ensures Default in LiturgicalTimes && Default in MassParts
  {
    assert LiturgicalTimes[6] == Default;
    assert MassParts[8] == Default;
  }

  /** A record holding only a non-blank title is accepted, its title trimmed and both enumerations defaulted. */
  lemma OnlyTitleAccepted(t: string)
    requires Trim(t) != []
    ensures Validate(MusicaInput(Some(t), None, None, None, None, None))
      == Success(Musica(Trim(t), None, Default, Default, None, None))
  {
  }

  /** A record with no title, or a blank one, is rejected whatever else it holds. */
  lemma BlankTitleRejected(m: MusicaInput)
    requires m.titulo.None? || forall i :: 0 <= i < |m.titulo.value| ==> IsWhitespace(m.titulo.value[i])
    ensures Validate(m).Failure? && "titulo" in Validate(m).error.paths
  {
  }

  /** Every stored record passes validation again unchanged: validation is a projection onto valid records. */
  lemma StoredRevalidates(s: Musica)
    requires StoredValid(s)
    ensures Validate(AsInput(s)) == Success(s)
  {
    if s.autor.Some? {
      assert Trim(s.autor.value) == s.autor.value;
    }
  }

  /** Validating a stored record's submission again gives the same record. */
  lemma ValidateIdempotent(m: MusicaInput)
    requires Validate(m).Success?
    ensures Validate(AsInput(Validate(m).value)) == Validate(m)
  {
    StoredRevalidates(Validate(m).value);
  }
}
