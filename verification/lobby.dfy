/** The puzzle menu (the `Menu` component): a random batch of at most six
    catalog entries or the whole catalog, and the card text of each entry. */
module Lobby {
  import opened Basics
  import opened Puzzles

  /** How many characters of the question a card shows before cutting. */
  const PreviewLimit := 60
  const Ellipsis := "..."
  /** The heading of a card whose puzzle has no title. */
  const UntitledLabel := "无题档案"
  /** How many entries a refresh shows. */
  const BatchSize := 6

  /** The card's preview of a question: the question itself when it is at
      most 60 characters long, otherwise its first 60 characters and an
      ellipsis. It is never longer than 63 characters, always begins with
      the question's first (up to) 60 characters, and is longer than 60
      exactly when the question was cut. */
  function Preview(question: string): (p: string)
    ensures |question| <= PreviewLimit ==> p == question
    ensures |p| <= PreviewLimit + |Ellipsis|
    ensures |p| > PreviewLimit <==> |question| > PreviewLimit
    ensures p[..Min(|question|, PreviewLimit)] == question[..Min(|question|, PreviewLimit)]
    ensures |question| > PreviewLimit ==> p[PreviewLimit..] == Ellipsis
  {
    if |question| > PreviewLimit then question[..PreviewLimit] + Ellipsis else question
  }

  /** The card's heading: the title when it is truthy (present and
      non-empty), otherwise the fixed fallback. The heading is never empty. */
  function Heading(title: Option<string>): (h: string)
    ensures title.Some? && title.value != "" ==> h == title.value
    ensures title.None? || title.value == "" ==> h == UntitledLabel
    ensures h != ""
  {
    match title
    case Some(t) => if t != "" then t else UntitledLabel
    case None => UntitledLabel
  }

  /** A prefix of a permutation of the catalog takes no entry more often
      than the catalog holds it. */
  lemma {:induction false} PrefixOfShuffleDrawsFromCatalog(shuffled: seq<Puzzle>, catalog: seq<Puzzle>, k: nat)
    requires multiset(shuffled) == multiset(catalog)
    requires k <= |shuffled|
    ensures multiset(shuffled[..k]) <= multiset(catalog)
  {
    assert shuffled == shuffled[..k] + shuffled[k..];
    assert multiset(shuffled) == multiset(shuffled[..k]) + multiset(shuffled[k..]);
  }

  class Menu {
    /** The bundled catalog (`PUZZLE_DATA`). */
    const catalog: seq<Puzzle>
    var puzzles: seq<Puzzle>

    /** Mounting: the list starts empty and the mount effect refreshes it
        with the shuffle `shuffled`. */
    constructor (catalog: seq<Puzzle>, shuffled: seq<Puzzle>)
      requires multiset(shuffled) == multiset(catalog)
      ensures this.catalog == catalog
      ensures puzzles == shuffled[..Min(BatchSize, |shuffled|)]
    {
      this.catalog := catalog;
      puzzles := [];
      new;
      Refresh(shuffled);
    }

    /** "Another batch": the first six entries of a shuffled copy of the
        catalog (the shuffle is the parameter; any permutation is possible).
        The list then holds at most six entries, all from the catalog. */
    method Refresh(shuffled: seq<Puzzle>)
      requires multiset(shuffled) == multiset(catalog)
      modifies this
      ensures puzzles == shuffled[..Min(BatchSize, |shuffled|)]
      ensures |puzzles| == Min(BatchSize, |catalog|)
      ensures multiset(puzzles) <= multiset(catalog)
    {
      assert |shuffled| == |multiset(shuffled)| == |multiset(catalog)| == |catalog|;
      PrefixOfShuffleDrawsFromCatalog(shuffled, catalog, Min(BatchSize, |shuffled|));
      puzzles := shuffled[..Min(BatchSize, |shuffled|)];
    }

    /** "Whole catalog": the list becomes the catalog, in catalog order. */
    method ViewAll()
      modifies this
      ensures puzzles == catalog
    {
      puzzles := catalog;
    }
  }
}
