/** The roadmap catalogue page (src/pages/Roadmaps.tsx): the search filter, the
    difficulty colours, and which cards can be opened. */
module Roadmaps {
  import opened Wrappers
  import opened Text

  datatype Card = Card(id: string, title: string, progress: int, difficulty: string)

  /** The one card whose detail view exists. */
  const OpenableId := "web-dev"

  /** A card matches a query when its lower-cased title contains the lower-cased query:
      the empty query matches every card, a query longer than the title matches none, and
      a query found verbatim in the title always matches. */
  function Matches(c: Card, query: string): (b: bool)
    ensures query == "" ==> b
    ensures b ==> |query| <= |c.title|
    ensures Contains(c.title, query) ==> b
  {
    EmptyContained(Lower(c.title));
    LowerContains(c.title, query);
    Contains(Lower(c.title), Lower(query))
  }

  lemma EmptyContained(s: string)
    ensures Contains(s, "")
  {
    assert OccursAt(s, "", 0);
  }

  /** Lower-casing both sides keeps an occurrence where it was. */
  lemma LowerContains(s: string, t: string)
    ensures Contains(s, t) ==> Contains(Lower(s), Lower(t))
  {
    if Contains(s, t) {
      var i :| 0 <= i <= |s| && OccursAt(s, t, i);
      assert Lower(s)[i..i + |t|] == Lower(t);
      assert OccursAt(Lower(s), Lower(t), i);
    }
  }

  /** `xs` is `ys` with some elements left out, the rest in their original order. */
  ghost predicate IsSubsequence(xs: seq<Card>, ys: seq<Card>) {
    exists idx: seq<nat> :: Embeds(xs, ys, idx)
  }

  /** `idx` lists, in increasing order, the positions in `ys` that `xs` is taken from. */
  ghost predicate Embeds(xs: seq<Card>, ys: seq<Card>, idx: seq<nat>) {
    && |idx| == |xs|
    && (forall i :: 0 <= i < |idx| ==> idx[i] < |ys| && xs[i] == ys[idx[i]])
    && (forall i, j :: 0 <= i < j < |idx| ==> idx[i] < idx[j])
  }

  /** `roadmaps.filter(r => r.title.toLowerCase().includes(searchQuery.toLowerCase()))`. */
  function Filter(cards: seq<Card>, query: string): (r: seq<Card>)
    ensures forall c :: c in r <==> c in cards && Matches(c, query)
    ensures |r| <= |cards|
  {
    if |cards| == 0 then []
    else (if Matches(cards[0], query) then [cards[0]] else []) + Filter(cards[1..], query)
  }

  /** The filter keeps the catalogue's order: its result is a subsequence of the catalogue. */
  lemma {:induction false} FilterIsSubsequence(cards: seq<Card>, query: string)
    ensures IsSubsequence(Filter(cards, query), cards)
  {
    if |cards| == 0 {
      assert Embeds([], cards, []);
    } else {
      FilterIsSubsequence(cards[1..], query);
      var rest := Filter(cards[1..], query);
      var idx: seq<nat> :| Embeds(rest, cards[1..], idx);
      EmbedsShift(rest, cards, idx);
      if Matches(cards[0], query) {
        assert Filter(cards, query) == [cards[0]] + rest;
      } else {
        assert Filter(cards, query) == rest;
      }
    }
  }

  /** An embedding into the tail of `ys` is one into `ys`, and `ys`'s head can be put
      in front of it. */
  lemma {:induction false} EmbedsShift(xs: seq<Card>, ys: seq<Card>, idx: seq<nat>)
    requires |ys| > 0 && Embeds(xs, ys[1..], idx)
    ensures IsSubsequence(xs, ys)
    ensures IsSubsequence([ys[0]] + xs, ys)
  {
    var shifted: seq<nat> := seq(|idx|, i requires 0 <= i < |idx| => idx[i] + 1);
    assert Embeds(xs, ys, shifted);
    var withHead: seq<nat> := [0] + shifted;
    assert Embeds([ys[0]] + xs, ys, withHead);
  }

  /** An empty query keeps every card. */
  lemma {:induction false} EmptyQueryKeepsAll(cards: seq<Card>)
    ensures Filter(cards, "") == cards
  {
    if |cards| > 0 {
      assert OccursAt(Lower(cards[0].title), Lower(""), 0);
      EmptyQueryKeepsAll(cards[1..]);
    }
  }

  /** Filtering again with the same query changes nothing. */
  lemma {:induction false} FilterIdempotent(cards: seq<Card>, query: string)
    ensures Filter(Filter(cards, query), query) == Filter(cards, query)
  {
    if |cards| > 0 {
      FilterIdempotent(cards[1..], query);
      var r := Filter(cards, query);
      if Matches(cards[0], query) {
        assert r == [cards[0]] + Filter(cards[1..], query);
        assert r[1..] == Filter(cards[1..], query);
        assert Filter(r, query) == [cards[0]] + Filter(r[1..], query);
      } else {
        assert r == Filter(cards[1..], query);
      }
    }
  }

  /** The query's letter case does not matter: queries that lower-case alike select
      alike. */
  lemma {:induction false} FilterIgnoresCase(cards: seq<Card>, q1: string, q2: string)
    requires Lower(q1) == Lower(q2)
    ensures Filter(cards, q1) == Filter(cards, q2)
  {
    if |cards| > 0 {
      FilterIgnoresCase(cards[1..], q1, q2);
    }
  }

  /** Upper-casing any letters of a title does not change whether the card matches. */
  lemma TitleCaseIgnored(c: Card, title: string, query: string)
    requires Lower(title) == Lower(c.title)
    ensures Matches(c.(title := title), query) <==> Matches(c, query)
  {
  }

  /** Beginner, Intermediate and Advanced map to the success, warning and destructive
      tones, anything else to the muted tone. */
  function DifficultyColor(difficulty: string): (r: string)
    ensures r == "text-success" <==> difficulty == "Beginner"
    ensures r == "text-warning" <==> difficulty == "Intermediate"
    ensures r == "text-destructive" <==> difficulty == "Advanced"
    ensures r == "text-muted-foreground" <==> difficulty !in {"Beginner", "Intermediate", "Advanced"}
  {
    match difficulty
    case "Beginner" => "text-success"
    case "Intermediate" => "text-warning"
    case "Advanced" => "text-destructive"
    case _ => "text-muted-foreground"
  }

  /** Clicking a card opens the detail view only for the web development card; any other
      click leaves the selection as it was. */
  function ClickCard(selected: Option<string>, c: Card): (r: Option<string>)
    ensures r != selected ==> c.id == OpenableId && r == Some(OpenableId)
    ensures c.id == OpenableId ==> r == Some(OpenableId)
  {
    if c.id == OpenableId then Some(c.id) else selected
  }

  /** How a card's action button looks. */
  datatype Button = Button(caption: string, variant: string, enabled: bool)

  /** Only the web development card's button is enabled; the label and style follow
      whether the roadmap has been started. */
  function CardButton(c: Card): (b: Button)
    ensures b.enabled <==> c.id == OpenableId
    ensures b.caption == "Continue Learning" <==> c.progress > 0
    ensures b.caption == "Start Roadmap" <==> c.progress <= 0
    ensures b.variant == "hero" <==> c.progress > 0
  {
    Button(if c.progress > 0 then "Continue Learning" else "Start Roadmap",
           if c.progress > 0 then "hero" else "default",
           c.id == OpenableId)
  }

  /** Whether the progress figure and bar are drawn on the card. */
  function ShowsProgress(c: Card): (b: bool)
    ensures b <==> CardButton(c).caption == "Continue Learning"
  {
    c.progress > 0
  }
}
