/**
 * A flashcard study session: a position in the deck, the ids marked as
 * known and as to be reviewed, autoplay, and the completion report shown
 * once the position moves past the last card.
 */
module FlashcardView {
  import opened Opt
  import opened Text

  datatype FlashcardData = FlashcardData(id: string, front: string, back: string)

  /** The results handed to `onComplete` and the statistics of the completion dialog. */
  datatype Report = Report(known: seq<string>, unknown: seq<string>, total: nat)

  /**
   * `handleNext`'s index rule: one step forward while a card is shown (the
   * step from the last card leads to completion), no step past the end.
   */
  function Advance(index: nat, n: nat): (r: nat)
    requires index <= n
    ensures r <= n
    ensures index < n ==> r == index + 1
    ensures index == n ==> r == n
  {
    if index < n - 1 then index + 1
    else if index == n - 1 then index + 1
    else index
  }

  /** `handlePrevious`'s index rule: one step back, never below the first card. */
  function Retreat(index: nat): (r: nat)
    ensures index > 0 ==> r == index - 1
    ensures index == 0 ==> r == 0
  {
    if index > 0 then index - 1 else index
  }

  /** Going back after going forward returns to a card that was shown. */
  lemma RetreatAfterAdvance(index: nat, n: nat)
    requires index < n
    ensures Retreat(Advance(index, n)) == index
  {
  }

  /** The position the header shows: the current card's number, or n once past the end. */
  function ShownPosition(index: nat, n: nat): (p: nat)
    requires index <= n
    ensures p <= n
    ensures n > 0 ==> 1 <= p
    ensures index < n ==> p == index + 1
  {
    if index < n then index + 1 else n
  }

  /** The header's "k/n cards" counter. */
  function CounterLabel(index: nat, n: nat): string
    requires index <= n
  {
    NatToString(ShownPosition(index, n)) + "/" + NatToString(n) + " cards"
  }

  /** Distinct shown cards give distinct counters. */
  lemma CounterLabelDistinct(i: nat, j: nat, n: nat)
    requires i < n && j < n && i != j
    ensures CounterLabel(i, n) != CounterLabel(j, n)
  {
    var a, b := NatToString(i + 1), NatToString(j + 1);
    var rest := "/" + NatToString(n) + " cards";
    NatToStringInjective(i + 1, j + 1);
    assert CounterLabel(i, n) == a + rest;
    assert CounterLabel(j, n) == b + rest;
    if |a| == |b| {
      assert (a + rest)[..|a|] == a && (b + rest)[..|b|] == b;
    } else {
      assert |a + rest| != |b + rest|;
    }
  }

  /** The state of the flashcard view. */
  class FlashcardSession {
    const cards: seq<FlashcardData>
    var index: nat
    var known: seq<string>
    var unknown: seq<string>
    var playing: bool
    var showCompletion: bool

    predicate Valid()
      reads this
    {
      index <= |cards|
    }

    constructor(cards: seq<FlashcardData>)
      ensures Valid() && this.cards == cards
      ensures index == 0 && known == [] && unknown == [] && !playing && !showCompletion
    {
      this.cards := cards;
      index := 0;
      known := [];
      unknown := [];
      playing := false;
      showCompletion := false;
    }

    /** `handleNext`. */
    method Next()
      requires Valid()
      modifies this
      ensures Valid() && index == Advance(old(index), |cards|)
      ensures known == old(known) && unknown == old(unknown)
      ensures playing == old(playing) && showCompletion == old(showCompletion)
    {
      if index < |cards| - 1 {
        index := index + 1;
      } else if index == |cards| - 1 {
        index := index + 1;
      }
    }

    /** `handlePrevious`. */
    method Previous()
      requires Valid()
      modifies this
      ensures Valid() && index == Retreat(old(index))
      ensures known == old(known) && unknown == old(unknown)
      ensures playing == old(playing) && showCompletion == old(showCompletion)
    {
      if index > 0 {
        index := index - 1;
      }
    }

    /** `handleMarkLearned`: records the current card as known and moves on; nothing past the end. */
    method MarkLearned()
      requires Valid()
      modifies this
      ensures Valid()
      ensures old(index) < |cards| ==>
        known == old(known) + [cards[old(index)].id] && index == old(index) + 1
      ensures old(index) == |cards| ==> known == old(known) && index == old(index)
      ensures unknown == old(unknown) && playing == old(playing) && showCompletion == old(showCompletion)
    {
      if index < |cards| {
        known := known + [cards[index].id];
        Next();
      }
    }

    /** `handleMarkReview`: records the current card for review and moves on; nothing past the end. */
    method MarkReview()
      requires Valid()
      modifies this
      ensures Valid()
      ensures old(index) < |cards| ==>
        unknown == old(unknown) + [cards[old(index)].id] && index == old(index) + 1
      ensures old(index) == |cards| ==> unknown == old(unknown) && index == old(index)
      ensures known == old(known) && playing == old(playing) && showCompletion == old(showCompletion)
    {
      if index < |cards| {
        unknown := unknown + [cards[index].id];
        Next();
      }
    }

    /** `handleReset`: back to the first card with no marks, autoplay stopped. */
    method Reset()
      modifies this
      ensures Valid() && index == 0 && known == [] && unknown == [] && !playing
      ensures showCompletion == old(showCompletion)
    {
      index := 0;
      known := [];
      unknown := [];
      playing := false;
    }

    /** `handleTogglePlay`. */
    method TogglePlay()
      modifies this
      ensures playing == !old(playing)
      ensures index == old(index) && known == old(known) && unknown == old(unknown)
      ensures showCompletion == old(showCompletion)
    {
      playing := !playing;
    }

    /**
     * The completion effect: once the position is past the last card of a
     * non-empty deck, autoplay stops, the dialog opens and the report holds
     * both lists and the deck size.
     */
    method CheckCompletion() returns (report: Option<Report>)
      requires Valid()
      modifies this
      ensures Valid()
      ensures report.Some? <==> old(index) == |cards| && |cards| > 0
      ensures report.Some? ==>
        report.value == Report(known, unknown, |cards|) && !playing && showCompletion
      ensures report.None? ==> playing == old(playing) && showCompletion == old(showCompletion)
      ensures index == old(index) && known == old(known) && unknown == old(unknown)
    {
      if index >= |cards| && |cards| > 0 {
        showCompletion := true;
        playing := false;
        report := Some(Report(known, unknown, |cards|));
      } else {
        report := None;
      }
    }

    /** `handleCloseCompletionDialog`: closes the dialog and resets the session. */
    method CloseCompletionDialog()
      modifies this
      ensures Valid() && !showCompletion && index == 0 && known == [] && unknown == [] && !playing
    {
      showCompletion := false;
      Reset();
    }
  }
}
