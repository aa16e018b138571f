/** The fixed catalogue of drama events: a two-slot text template and an outcome each. */
module Events {
  import opened Characters
  import opened Formatting

  /**
   * What an event does to the ordered pair (a, b): `a` is charged some
   * popularity and `b` is credited some.
   */
  datatype Outcome = Argument | Rejection
  {
    /** The popularity the first participant loses. */
    function Charge(): int
    {
      match this
      case Argument => 10
      case Rejection => 5
    }

    /** The popularity the second participant gains. */
    function Credit(): int
    {
      match this
      case Argument => 5
      case Rejection => 10
    }

    /**
     * Charges `a` and then credits `b`. Only the two popularity fields may
     * change. The stated deltas hold for two different participants; when
     * both are the same object, both updates land on it.
     */
    method Apply(a: Character, b: Character)
      modifies a`popularity, b`popularity
      ensures a != b ==> a.popularity == old(a.popularity) - Charge()
      ensures a != b ==> b.popularity == old(b.popularity) + Credit()
      ensures a == b ==> a.popularity == old(a.popularity) - Charge() + Credit()
    {
      match this
      case Argument =>
        a.popularity := a.popularity - 10;
        b.popularity := b.popularity + 5;
      case Rejection =>
        a.popularity := a.popularity - 5;
        b.popularity := b.popularity + 10;
    }
  }

  /** An event: the text shown and the outcome applied. */
  datatype DramaEvent = DramaEvent(description: string, outcome: Outcome)

  const ArgumentMiddle: string := " got into an argument with "
  const ArgumentEnd: string := " over who left dishes in the sink."
  const RejectionMiddle: string := " confessed feelings to "
  const RejectionEnd: string := "... but got rejected!"

  /** "{0} got into an argument with {1} over who left dishes in the sink." */
  const ArgumentEvent: DramaEvent :=
    DramaEvent("{0}" + ArgumentMiddle + "{1}" + ArgumentEnd, Argument)
  /** "{0} confessed feelings to {1}... but got rejected!" */
  const RejectionEvent: DramaEvent :=
    DramaEvent("{0}" + RejectionMiddle + "{1}" + RejectionEnd, Rejection)

  /** The events in the order they are added: the argument first, then the rejection. */
  function Catalog(): (events: seq<DramaEvent>)
    ensures |events| == 2
    ensures events[0].outcome == Argument && events[1].outcome == Rejection
  {
    [ArgumentEvent, RejectionEvent]
  }

  /** The catalogue holds one event per outcome, each outcome exactly once. */
  lemma CatalogCoversOutcomes(o: Outcome)
    ensures |Catalog()| == 2
    ensures exists i :: 0 <= i < |Catalog()| && Catalog()[i].outcome == o
    ensures Catalog()[0].outcome != Catalog()[1].outcome
    ensures Catalog()[0].outcome == Argument && Catalog()[1].outcome == Rejection
  {
    if o == Argument {
      assert Catalog()[0].outcome == o;
    } else {
      assert Catalog()[1].outcome == o;
    }
  }

  /** The argument text names the first participant, then the second. */
  lemma RenderArgument(nameA: string, nameB: string)
    ensures Format(ArgumentEvent.description, nameA, nameB) == nameA + ArgumentMiddle + nameB + ArgumentEnd
  {
    FormatSlotsInOrder(ArgumentMiddle, ArgumentEnd, nameA, nameB);
  }

  /** The rejection text names the first participant, then the second. */
  lemma RenderRejection(nameA: string, nameB: string)
    ensures Format(RejectionEvent.description, nameA, nameB) == nameA + RejectionMiddle + nameB + RejectionEnd
  {
    FormatSlotsInOrder(RejectionMiddle, RejectionEnd, nameA, nameB);
  }

  /**
   * Popularity is not clamped: outcomes applied repeatedly push one
   * contestant below 0 and another above 100.
   */
  method PopularityIsUnbounded() returns (low: int, high: int)
    ensures low < 0 && high > 100
  {
    var a := new Character("A", Hothead);
    var b := new Character("B", Romantic);
    Argument.Apply(a, b);
    Argument.Apply(a, b);
    Argument.Apply(a, b);
    Argument.Apply(a, b);
    Argument.Apply(a, b);
    Argument.Apply(a, b);
    Rejection.Apply(a, b);
    Rejection.Apply(a, b);
    Rejection.Apply(a, b);
    low, high := a.popularity, b.popularity;
  }
}
