/**
 * The highlights ("destaques") of the newest server: a store of documents,
 * each holding the list of slides the front page rotates through. Both
 * routes are protected by the bearer-token gate.
 */
module Highlights {
  import opened Wrappers
  import opened Http
  import opened Access

  /** One slide: an image and the page it links to, either possibly absent. */
  datatype Slide = Slide(imageUrl: Option<string>, linkUrl: Option<string>)

  /** What a read shows for these stored documents: the first one's slides, or none. */
  function Shown(documents: seq<seq<Slide>>): (slides: seq<Slide>)
    ensures documents == [] ==> slides == []
    ensures documents != [] ==> slides == documents[0]
  {
    if documents == [] then [] else documents[0]
  }

  class HighlightStore {
    /** The stored highlight documents, in insertion order. */
    var documents: seq<seq<Slide>>

    /** At most one document, and never an empty one: what replacing leaves behind. */
    ghost predicate Valid()
      reads this
    {
      |documents| <= 1 && forall d :: d in documents ==> d != []
    }

    constructor()
      ensures Valid() && documents == []
    {
      documents := [];
    }

    /**
     * `GET /api/destaques`: the slides of the first document, or `[]`. Under
     * the invariant that document is the only one, and nothing is shown
     * exactly when nothing is stored.
     */
    method Read(header: Option<string>, verify: string -> bool) returns (r: Result<seq<Slide>, Error>)
      ensures Gate(header, verify).Failure? ==> r == Failure(Gate(header, verify).error)
      ensures Gate(header, verify).Success? ==> r == Success(Shown(documents))
      ensures Valid() && r.Success? ==> (r.value == [] <==> documents == []) && (documents != [] ==> documents == [r.value])
    {
      var g := Gate(header, verify);
      if g.Failure? {
        return Failure(g.error);
      }
      if documents == [] {
        r := Success([]);
      } else {
        assert documents[0] in documents;
        r := Success(documents[0]);
      }
    }

    /**
     * `POST /api/destaques`: every stored document is deleted, then the new
     * slide list is saved when it is present and non-empty. `saved` is
     * whether the store accepts that save; when it refuses, the answer is a
     * 400 and the old slides are already gone.
     */
    method Replace(header: Option<string>, verify: string -> bool, slides: Option<seq<Slide>>, saved: bool)
      returns (r: Result<(), Error>)
      requires Valid()
      modifies this
      ensures Valid()
      ensures Gate(header, verify).Failure? ==> r == Failure(Gate(header, verify).error) && documents == old(documents)
      ensures Gate(header, verify).Success? ==>
        if slides.Some? && slides.value != [] && saved then documents == [slides.value] && r.Success?
        else documents == [] && (r.Failure? <==> slides.Some? && slides.value != []) && (r.Failure? ==> r.error == SaveRejected)
    {
      var g := Gate(header, verify);
      if g.Failure? {
        return Failure(g.error);
      }
      documents := [];
      if slides.Some? && slides.value != [] {
        if saved {
          documents := documents + [slides.value];
        } else {
          return Failure(SaveRejected);
        }
      }
      r := Success(());
    }
  }

  /**
   * A replacement followed by a read, both past the gate: the read shows the
   * new slides when they were non-empty and saved, and `[]` otherwise; in
   * particular none of the old slides survive.
   */
  method ReplaceThenRead(store: HighlightStore, header: Option<string>, verify: string -> bool,
                         slides: Option<seq<Slide>>, saved: bool)
    returns (shown: Result<seq<Slide>, Error>)
    requires store.Valid()
    requires Gate(header, verify).Success?
    modifies store
    ensures store.Valid()
    ensures shown.Success?
    ensures shown.value == if slides.Some? && slides.value != [] && saved then slides.value else []
  {
    var _ := store.Replace(header, verify, slides, saved);
    shown := store.Read(header, verify);
  }
}
