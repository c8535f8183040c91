/**
 * The admin page's form normalisation: title-casing of free text, the fixed
 * table of moment suggestions per category, and the payload the add and edit
 * forms send to the server.
 */
module AdminForm {
  import opened Text

  /** A word with its first character upper-cased and the rest lower-cased. */
  function Capitalize(w: string): (r: string)
    ensures |r| == |w|
  {
    if w == [] then [] else [ToUpper(w[0])] + LowerCase(w[1..])
  }

  /** `Capitalize` applied to every piece. */
  function CapitalizeAll(pieces: seq<string>): (r: seq<string>)
    ensures |r| == |pieces|
    ensures forall i :: 0 <= i < |pieces| ==> r[i] == Capitalize(pieces[i])
  {
    seq(|pieces|, i requires 0 <= i < |pieces| => Capitalize(pieces[i]))
  }

  /**
   * `formatarTexto`: an empty input gives the empty string; otherwise the
   * input is trimmed, split on single spaces, every piece capitalised, and the
   * pieces joined with single spaces again.
   */
  function FormatText(s: string): (r: string)
    ensures s == [] ==> r == []
  {
    if s == [] then [] else Join(CapitalizeAll(Split(Trim(s), ' ')), ' ')
  }

  /**
   * An independent, character-by-character description of the same result:
   * a character is upper-cased when it opens a word (it comes first, or right
   * after a space) and lower-cased otherwise.
   */
  function CaseByPosition(t: string, atWordStart: bool): (r: string)
    ensures |r| == |t|
  {
    if t == [] then []
    else [if atWordStart then ToUpper(t[0]) else ToLower(t[0])] + CaseByPosition(t[1..], t[0] == ' ')
  }

  /** The pieces as `CaseByPosition` cases them: the first one capitalised or wholly lower-cased. */
  function CasePieces(pieces: seq<string>, atWordStart: bool): (r: seq<string>)
    requires |pieces| >= 1
    ensures |r| == |pieces|
  {
    [if atWordStart then Capitalize(pieces[0]) else LowerCase(pieces[0])] + CapitalizeAll(pieces[1..])
  }

  lemma CasePiecesAtWordStart(pieces: seq<string>)
    requires |pieces| >= 1
    ensures CasePieces(pieces, true) == CapitalizeAll(pieces)
  {
  }

  /** Splitting a string that opens with a space: an empty first piece. */
  lemma CasePiecesAfterSpace(qs: seq<string>, atWordStart: bool)
    requires |qs| >= 1
    ensures CasePieces([[]] + qs, atWordStart) == [[]] + CapitalizeAll(qs)
  {
    assert ([[]] + qs)[1..] == qs;
  }

  /** Splitting a string that opens with character `c`, not a space: `c` joins the first piece. */
  lemma CasePiecesWithFirst(c: char, qs: seq<string>, atWordStart: bool)
    requires |qs| >= 1
    ensures var x := if atWordStart then ToUpper(c) else ToLower(c);
      CasePieces([[c] + qs[0]] + qs[1..], atWordStart) == [[x] + LowerCase(qs[0])] + CasePieces(qs, false)[1..]
  {
    var w := [c] + qs[0];
    assert w[1..] == qs[0];
    assert LowerCase(w) == [ToLower(c)] + LowerCase(qs[0]);
    assert ([w] + qs[1..])[1..] == qs[1..];
    assert CasePieces(qs, false)[1..] == CapitalizeAll(qs[1..]);
  }

  lemma JoinAfterEmpty(ys: seq<string>)
    requires |ys| >= 1
    ensures Join([[]] + ys, ' ') == [' '] + Join(ys, ' ')
  {
    assert ([[]] + ys)[1..] == ys;
  }

  lemma {:induction false} JoinCasePieces(t: string, atWordStart: bool)
    ensures Join(CasePieces(Split(t, ' '), atWordStart), ' ') == CaseByPosition(t, atWordStart)
  {
    if t != [] {
      var c := t[0];
      var qs := Split(t[1..], ' ');
      JoinCasePieces(t[1..], c == ' ');
      SplitCons(t, ' ');
      var x := if atWordStart then ToUpper(c) else ToLower(c);
      assert CaseByPosition(t, atWordStart) == [x] + CaseByPosition(t[1..], c == ' ');
      if c == ' ' {
        CasePiecesAfterSpace(qs, atWordStart);
        CasePiecesAtWordStart(qs);
        JoinAfterEmpty(CapitalizeAll(qs));
      } else {
        CasePiecesWithFirst(c, qs, atWordStart);
        var ys := CasePieces(qs, false);
        assert ys == [LowerCase(qs[0])] + ys[1..];
        JoinConsFirst(x, LowerCase(qs[0]), ys[1..], ' ');
      }
    }
  }

  lemma {:induction false} SplitCaseByPosition(t: string, atWordStart: bool)
    ensures Split(CaseByPosition(t, atWordStart), ' ') == CasePieces(Split(t, ' '), atWordStart)
  {
    if t != [] {
      var c := t[0];
      var qs := Split(t[1..], ' ');
      var u := CaseByPosition(t, atWordStart);
      SplitCaseByPosition(t[1..], c == ' ');
      SplitCons(t, ' ');
      SplitCons(u, ' ');
      var x := if atWordStart then ToUpper(c) else ToLower(c);
      assert u[0] == x && u[1..] == CaseByPosition(t[1..], c == ' ');
      if c == ' ' {
        CasePiecesAfterSpace(qs, atWordStart);
        CasePiecesAtWordStart(qs);
      } else {
        CasePiecesWithFirst(c, qs, atWordStart);
      }
    }
  }

  /** Character `i` of `CaseByPosition`: upper-cased exactly at a word start. */
  lemma {:induction false} CaseByPositionAt(t: string, atWordStart: bool, i: nat)
    requires i < |t|
    ensures CaseByPosition(t, atWordStart)[i]
         == if (if i == 0 then atWordStart else t[i - 1] == ' ') then ToUpper(t[i]) else ToLower(t[i])
  {
    if i > 0 {
      CaseByPositionAt(t[1..], t[0] == ' ', i - 1);
    }
  }

  lemma {:induction false} CaseByPositionIdempotent(t: string, atWordStart: bool)
    ensures CaseByPosition(CaseByPosition(t, atWordStart), atWordStart) == CaseByPosition(t, atWordStart)
  {
    if t != [] {
      var u := CaseByPosition(t, atWordStart);
      assert u[1..] == CaseByPosition(t[1..], t[0] == ' ');
      CaseIdempotent(t[0]);
      CaseByPositionIdempotent(t[1..], t[0] == ' ');
    }
  }

  /** `formatarTexto` agrees with the character-by-character description on the trimmed input. */
  lemma FormatTextByPosition(s: string)
    ensures FormatText(s) == CaseByPosition(Trim(s), true)
  {
    var t := Trim(s);
    if s != [] {
      var ps := Split(t, ' ');
      assert FormatText(s) == Join(CapitalizeAll(ps), ' ');
      CasePiecesAtWordStart(ps);
      JoinCasePieces(t, true);
    }
  }

  /**
   * The result is as long as the trimmed input, and its character `i` is
   * character `i` of the trimmed input, upper-cased when it opens a word and
   * lower-cased otherwise.
   */
  lemma FormatTextAt(s: string, i: nat)
    requires i < |Trim(s)|
    ensures |FormatText(s)| == |Trim(s)|
    ensures var t := Trim(s);
      FormatText(s)[i] == if i == 0 || t[i - 1] == ' ' then ToUpper(t[i]) else ToLower(t[i])
  {
    FormatTextByPosition(s);
    CaseByPositionAt(Trim(s), true, i);
  }

  /**
   * Splitting the result on spaces gives the trimmed input's pieces, each
   * capitalised: as many pieces as before, empty ones from double spaces
   * included.
   */
  lemma FormatTextPieces(s: string)
    ensures Split(FormatText(s), ' ') == CapitalizeAll(Split(Trim(s), ' '))
    ensures |Split(FormatText(s), ' ')| == |Split(Trim(s), ' ')|
  {
    var t := Trim(s);
    var ps := Split(t, ' ');
    FormatTextByPosition(s);
    SplitCaseByPosition(t, true);
    CasePiecesAtWordStart(ps);
  }

  /** The result is as long as the trimmed input and itself needs no trimming. */
  lemma FormatTextTrimmed(s: string)
    ensures |FormatText(s)| == |Trim(s)|
    ensures IsTrimmed(FormatText(s))
  {
    var t := Trim(s);
    FormatTextByPosition(s);
    if t != [] {
      CaseByPositionAt(t, true, 0);
      CaseByPositionAt(t, true, |t| - 1);
    }
  }

  /** Formatting an already formatted string changes nothing. */
  lemma FormatTextIdempotent(s: string)
    ensures FormatText(FormatText(s)) == FormatText(s)
  {
    var r := FormatText(s);
    FormatTextTrimmed(s);
    FormatTextByPosition(s);
    FormatTextByPosition(r);
    CaseByPositionIdempotent(Trim(s), true);
  }

  /** `momentosPorCategoria`: the moments suggested for each category, in display order. */
  const MomentsByCategory: map<string, seq<string>> := map[
    "Advento" := ["Entrada", "Ato Penitencial", "Glória", "Aclamação", "Ofertório", "Santo", "Comunhão", "Final"],
    "Natal" := ["Entrada", "Ato Penitencial", "Glória", "Aclamação", "Ofertório", "Santo", "Comunhão", "Final"],
    "Quaresma" := ["Entrada", "Ato Penitencial", "Aclamação", "Ofertório", "Santo", "Comunhão", "Final"],
    "Páscoa" := ["Entrada", "Ato Penitencial", "Glória", "Aclamação", "Ofertório", "Santo", "Comunhão", "Final"],
    "Tempo Comum" := ["Entrada", "Ato Penitencial", "Glória", "Aclamação", "Ofertório", "Santo", "Comunhão", "Final"],
    "Corpus Christi" := ["Entrada", "Ato Penitencial", "Glória", "Aclamação", "Ofertório", "Santo", "Comunhão", "Final"],
    "Grupo de Oração" := ["Animação", "Louvor", "Espírito Santo", "Adoração", "Perdão", "Pós-pregação", "Mariana"]
  ]

  /**
   * The lookup in `atualizarSugestoesDeMomento`: a known category gives its
   * row of the table, in order; any other category gives no suggestion.
   */
  function SuggestMoments(category: string): (moments: seq<string>)
    ensures category in MomentsByCategory ==> moments == MomentsByCategory[category]
    ensures moments == [] <==> category !in MomentsByCategory
  {
    if category in MomentsByCategory then MomentsByCategory[category] else []
  }

  /** The values of the add form and of the edit form, one field per input. */
  datatype MusicForm = MusicForm(
    titulo: string, artista: string, tempo: string, momento: string,
    tom: string, downloadUrl: string, letraUrl: string, cifraUrl: string)

  /**
   * The object both forms send: title, artist and moment through
   * `formatarTexto`, the key trimmed and upper-cased, the three links
   * trimmed, the category as selected.
   */
  function Payload(f: MusicForm): (p: MusicForm)
    ensures p.tempo == f.tempo
    ensures p.downloadUrl == Trim(f.downloadUrl) && p.letraUrl == Trim(f.letraUrl) && p.cifraUrl == Trim(f.cifraUrl)
    ensures |p.tom| == |Trim(f.tom)| && forall i :: 0 <= i < |p.tom| ==> p.tom[i] == ToUpper(Trim(f.tom)[i])
    ensures p.titulo == FormatText(f.titulo) && p.artista == FormatText(f.artista) && p.momento == FormatText(f.momento)
    ensures |p.titulo| == |Trim(f.titulo)| && |p.artista| == |Trim(f.artista)| && |p.momento| == |Trim(f.momento)|
  {
    FormatTextTrimmed(f.titulo);
    FormatTextTrimmed(f.artista);
    FormatTextTrimmed(f.momento);
    MusicForm(
      FormatText(f.titulo), FormatText(f.artista), f.tempo, FormatText(f.momento),
      UpperCase(Trim(f.tom)), Trim(f.downloadUrl), Trim(f.letraUrl), Trim(f.cifraUrl))
  }

  /** Every field of the payload except the category needs no trimming. */
  lemma PayloadTrimmed(f: MusicForm)
    ensures var p := Payload(f);
      && IsTrimmed(p.titulo) && IsTrimmed(p.artista) && IsTrimmed(p.momento)
      && IsTrimmed(p.tom) && IsTrimmed(p.downloadUrl) && IsTrimmed(p.letraUrl) && IsTrimmed(p.cifraUrl)
  {
    FormatTextTrimmed(f.titulo);
    FormatTextTrimmed(f.artista);
    FormatTextTrimmed(f.momento);
    UpperCaseTrimmed(Trim(f.tom));
  }

  /** Normalising a payload a second time changes nothing. */
  lemma PayloadIdempotent(f: MusicForm)
    ensures Payload(Payload(f)) == Payload(f)
  {
    FormatTextIdempotent(f.titulo);
    FormatTextIdempotent(f.artista);
    FormatTextIdempotent(f.momento);
    UpperCaseTrimmed(Trim(f.tom));
  }
}
