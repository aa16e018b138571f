/**
 * One round of drama: set up the cast and the events, draw two different
 * contestants, draw an event, apply its outcome and render its text.
 *
 * The random generator is replaced by the draws it would have produced,
 * supplied by the caller: `drawA` for the first contestant, `drawsB` for the
 * second contestant's first draw and every redraw, in order, and
 * `drawEvent` for the event. Draws are plain integers; indexing a list with
 * one outside its bounds is the list's out-of-range failure.
 */
module Drama {
  import opened Characters
  import opened Formatting
  import opened Events

  /** Why a round produced no drama. */
  datatype Fault =
    | ArgumentOutOfRange  // a list was indexed outside its bounds: the exception the list indexer throws
    | DrawsExhausted   // the supplied draws ended while the redraw loop was still running

  datatype Result<T> = Ok(value: T) | Err(error: Fault)

  /** The ordered pair of participants: the outcome charges `a` and credits `b`. */
  datatype Pair = Pair(a: Character, b: Character)

  /** What a successful round picked. */
  datatype Selection = Selection(pair: Pair, event: DramaEvent)

  /** Every draw lies in `[0, n)`, as the generator's exclusive upper bound promises. */
  predicate AllBelow(draws: seq<int>, n: int)
  {
    forall k :: 0 <= k < |draws| ==> 0 <= draws[k] < n
  }

  /** The first drawn contestant who is not `a`, drawing from `draws` in order. */
  function Redraw(cast: seq<Character>, a: Character, draws: seq<int>): (r: Result<Character>)
    ensures r.Ok? ==> r.value != a && r.value in cast
    decreases |draws|
  {
    if draws == [] then Err(DrawsExhausted)
    else if !(0 <= draws[0] < |cast|) then Err(ArgumentOutOfRange)
    else if cast[draws[0]] != a then Ok(cast[draws[0]])
    else Redraw(cast, a, draws[1..])
  }

  /** The pair the selection loop ends with: `cast[drawA]`, then the first later draw that differs. */
  function PairSpec(cast: seq<Character>, drawA: int, drawsB: seq<int>): (r: Result<Pair>)
    ensures r.Ok? ==> r.value.a != r.value.b && r.value.a in cast && r.value.b in cast
  {
    if !(0 <= drawA < |cast|) then Err(ArgumentOutOfRange)
    else
      match Redraw(cast, cast[drawA], drawsB)
      case Ok(b) => Ok(Pair(cast[drawA], b))
      case Err(e) => Err(e)
  }

  /** The event a draw picks from the list; a draw outside it faults like the list indexer. */
  function SelectEvent(events: seq<DramaEvent>, drawEvent: int): (r: Result<DramaEvent>)
    ensures r.Ok? <==> 0 <= drawEvent < |events|
    ensures r.Ok? ==> r.value in events
    ensures r.Err? ==> r.error == ArgumentOutOfRange
  {
    if 0 <= drawEvent < |events| then Ok(events[drawEvent]) else Err(ArgumentOutOfRange)
  }

  /** What a whole round picks: the pair first, then the event. */
  function SelectionSpec(cast: seq<Character>, events: seq<DramaEvent>, drawA: int, drawsB: seq<int>, drawEvent: int)
    : (r: Result<Selection>)
    ensures r.Ok? <==> PairSpec(cast, drawA, drawsB).Ok? && 0 <= drawEvent < |events|
    ensures r.Ok? ==> r.value.pair.a != r.value.pair.b && r.value.pair.a in cast && r.value.pair.b in cast
    ensures r.Ok? ==> r.value.event in events
    ensures PairSpec(cast, drawA, drawsB).Err? ==> r == Err(PairSpec(cast, drawA, drawsB).error)
  {
    match PairSpec(cast, drawA, drawsB)
    case Err(e) => Err(e)
    case Ok(p) =>
      match SelectEvent(events, drawEvent)
      case Err(e) => Err(e)
      case Ok(ev) => Ok(Selection(p, ev))
  }

  /**
   * Draws the first contestant, then keeps drawing the second until the two
   * are different objects.
   */
  method PickDistinctPair(cast: seq<Character>, drawA: int, drawsB: seq<int>) returns (r: Result<Pair>)
    ensures r == PairSpec(cast, drawA, drawsB)
    ensures r.Ok? ==> r.value.a != r.value.b
  {
    if !(0 <= drawA < |cast|) {
      return Err(ArgumentOutOfRange);
    }
    var charA := cast[drawA];
    if drawsB == [] {
      return Err(DrawsExhausted);
    }
    if !(0 <= drawsB[0] < |cast|) {
      return Err(ArgumentOutOfRange);
    }
    var charB := cast[drawsB[0]];
    var k := 1;
    while charA == charB
      invariant 1 <= k <= |drawsB|
      invariant charB in cast
      invariant Redraw(cast, charA, drawsB) ==
                (if charB == charA then Redraw(cast, charA, drawsB[k..]) else Ok(charB))
      decreases |drawsB| - k
    {
      if k == |drawsB| {
        return Err(DrawsExhausted);
      }
      if !(0 <= drawsB[k] < |cast|) {
        return Err(ArgumentOutOfRange);
      }
      charB := cast[drawsB[k]];
      k := k + 1;
    }
    return Ok(Pair(charA, charB));
  }

  /** Draws inside the cast's bounds never make the redraw loop index outside it. */
  lemma {:induction false} RedrawInBounds(cast: seq<Character>, a: Character, draws: seq<int>)
    requires AllBelow(draws, |cast|)
    ensures Redraw(cast, a, draws) != Err(ArgumentOutOfRange)
    decreases |draws|
  {
    if draws != [] && cast[draws[0]] == a {
      assert AllBelow(draws[1..], |cast|) by {
        forall k | 0 <= k < |draws[1..]| ensures 0 <= draws[1..][k] < |cast| {
          assert draws[1..][k] == draws[k + 1];
        }
      }
      RedrawInBounds(cast, a, draws[1..]);
    }
  }

  /**
   * Once some draw names a contestant other than `a`, the loop stops there
   * or earlier, and the contestant it returns is drawn at or before that point.
   */
  lemma {:induction false} RedrawFindsOther(cast: seq<Character>, a: Character, draws: seq<int>, j: nat)
    requires AllBelow(draws, |cast|)
    requires j < |draws| && cast[draws[j]] != a
    ensures Redraw(cast, a, draws).Ok?
    ensures exists i :: 0 <= i <= j && Redraw(cast, a, draws).value == cast[draws[i]]
    decreases j
  {
    if cast[draws[0]] != a {
      assert Redraw(cast, a, draws).value == cast[draws[0]];
    } else {
      assert j > 0;
      var rest := draws[1..];
      assert AllBelow(rest, |cast|) by {
        forall k | 0 <= k < |rest| ensures 0 <= rest[k] < |cast| {
          assert rest[k] == draws[k + 1];
        }
      }
      assert rest[j - 1] == draws[j];
      RedrawFindsOther(cast, a, rest, j - 1);
      var i :| 0 <= i <= j - 1 && Redraw(cast, a, rest).value == cast[rest[i]];
      assert rest[i] == draws[i + 1];
    }
  }

  /** The redraw loop passes over exactly the draws that name `a` again. */
  lemma {:induction false} RedrawSkipsRepeats(cast: seq<Character>, a: Character, draws: seq<int>, j: nat)
    requires AllBelow(draws, |cast|)
    requires j < |draws| && cast[draws[j]] != a
    requires forall i :: 0 <= i < j ==> cast[draws[i]] == a
    ensures Redraw(cast, a, draws) == Ok(cast[draws[j]])
    decreases j
  {
    if j > 0 {
      var rest := draws[1..];
      assert AllBelow(rest, |cast|) by {
        forall k | 0 <= k < |rest| ensures 0 <= rest[k] < |cast| {
          assert rest[k] == draws[k + 1];
        }
      }
      assert cast[draws[0]] == a;
      forall i | 0 <= i < j - 1 ensures cast[rest[i]] == a {
        assert rest[i] == draws[i + 1];
      }
      assert rest[j - 1] == draws[j];
      RedrawSkipsRepeats(cast, a, rest, j - 1);
    }
  }

  /**
   * With draws in bounds, the pair selection cannot fail on an index; it
   * succeeds exactly when some draw for the second contestant names someone
   * other than the first.
   */
  lemma PairSpecSucceeds(cast: seq<Character>, drawA: int, drawsB: seq<int>)
    requires 0 <= drawA < |cast| && AllBelow(drawsB, |cast|)
    ensures PairSpec(cast, drawA, drawsB) != Err(ArgumentOutOfRange)
    ensures PairSpec(cast, drawA, drawsB).Ok? <==>
            exists j :: 0 <= j < |drawsB| && cast[drawsB[j]] != cast[drawA]
  {
    RedrawInBounds(cast, cast[drawA], drawsB);
    if exists j :: 0 <= j < |drawsB| && cast[drawsB[j]] != cast[drawA] {
      var j :| 0 <= j < |drawsB| && cast[drawsB[j]] != cast[drawA];
      RedrawFindsOther(cast, cast[drawA], drawsB, j);
    } else if PairSpec(cast, drawA, drawsB).Ok? {
      RedrawDrawn(cast, cast[drawA], drawsB);
    }
  }

  /** A contestant the redraw loop returns was named by one of the draws. */
  lemma {:induction false} RedrawDrawn(cast: seq<Character>, a: Character, draws: seq<int>)
    requires Redraw(cast, a, draws).Ok?
    ensures exists j :: 0 <= j < |draws| && 0 <= draws[j] < |cast| && Redraw(cast, a, draws).value == cast[draws[j]]
    decreases |draws|
  {
    if cast[draws[0]] != a {
      assert Redraw(cast, a, draws).value == cast[draws[0]];
    } else {
      RedrawDrawn(cast, a, draws[1..]);
      var j :| 0 <= j < |draws[1..]| && 0 <= draws[1..][j] < |cast| && Redraw(cast, a, draws[1..]).value == cast[draws[1..][j]];
      assert draws[1..][j] == draws[j + 1];
    }
  }

  /** A cast in which everyone is the same contestant never yields a pair: the loop would not end. */
  lemma SingleContestantNeverPairs(cast: seq<Character>, drawA: int, drawsB: seq<int>)
    requires forall i :: 0 <= i < |cast| ==> cast[i] == cast[0]
    ensures !PairSpec(cast, drawA, drawsB).Ok?
  {
  }

  /**
   * With every draw inside the bounds of the list it indexes, a round can
   * only stop for lack of draws, never on an index.
   */
  lemma SelectionInBounds(cast: seq<Character>, events: seq<DramaEvent>, drawA: int, drawsB: seq<int>, drawEvent: int)
    requires 0 <= drawA < |cast| && AllBelow(drawsB, |cast|) && 0 <= drawEvent < |events|
    ensures SelectionSpec(cast, events, drawA, drawsB, drawEvent) != Err(ArgumentOutOfRange)
    ensures SelectionSpec(cast, events, drawA, drawsB, drawEvent).Ok? ==>
            SelectionSpec(cast, events, drawA, drawsB, drawEvent).value.event == events[drawEvent]
  {
    PairSpecSucceeds(cast, drawA, drawsB);
  }

  /** The event draw picks the argument for 0 and the rejection for 1. */
  lemma CatalogSelection(drawEvent: int)
    ensures SelectEvent(Catalog(), drawEvent).Ok? <==> 0 <= drawEvent < 2
    ensures drawEvent == 0 ==> SelectEvent(Catalog(), drawEvent) == Ok(ArgumentEvent)
    ensures drawEvent == 1 ==> SelectEvent(Catalog(), drawEvent) == Ok(RejectionEvent)
  {
  }

  /** The scene component: the cast, the events and the text shown in the dialogue box. */
  class DramaManager {
    var cast: seq<Character>
    var dramaEvents: seq<DramaEvent>
    /** The text of the on-screen dialogue box. */
    var dialogueText: string

    constructor ()
      ensures cast == [] && dramaEvents == []
    {
      cast := [];
      dramaEvents := [];
    }

    /** The three contestants the round is set up with: Tasha, Liam and Zoe, all at the starting popularity. */
    ghost predicate CastIsSetUp()
      reads this, cast
    {
      |cast| == 3 &&
      cast[0] != cast[1] && cast[0] != cast[2] && cast[1] != cast[2] &&
      cast[0].name == "Tasha" && cast[0].personality == Hothead &&
      cast[1].name == "Liam" && cast[1].personality == Loyalist &&
      cast[2].name == "Zoe" && cast[2].personality == Romantic
    }

    /**
     * One round: adds the cast and the events, picks a pair and an event,
     * applies the event's outcome to the pair and shows its text. On a fault
     * no outcome is applied and the dialogue box keeps its text.
     */
    method Start(drawA: int, drawsB: seq<int>, drawEvent: int) returns (r: Result<Selection>)
      requires cast == [] && dramaEvents == []
      modifies this
      ensures CastIsSetUp()
      ensures fresh(cast[0]) && fresh(cast[1]) && fresh(cast[2])
      ensures dramaEvents == Catalog()
      ensures r == SelectionSpec(cast, dramaEvents, drawA, drawsB, drawEvent)
      ensures r.Ok? ==>
        var a, b, o := r.value.pair.a, r.value.pair.b, r.value.event.outcome;
        a.popularity == StartingPopularity - o.Charge() &&
        b.popularity == StartingPopularity + o.Credit() &&
        (forall c :: c in cast && c != a && c != b ==> c.popularity == StartingPopularity) &&
        dialogueText == Format(r.value.event.description, a.name, b.name)
      ensures r.Err? ==>
        (forall c :: c in cast ==> c.popularity == StartingPopularity) &&
        dialogueText == old(dialogueText)
    {
      var tasha := new Character("Tasha", Hothead);
      var liam := new Character("Liam", Loyalist);
      var zoe := new Character("Zoe", Romantic);
      cast := cast + [tasha];
      cast := cast + [liam];
      cast := cast + [zoe];

      dramaEvents := dramaEvents + [ArgumentEvent];
      dramaEvents := dramaEvents + [RejectionEvent];

      var pick := PickDistinctPair(cast, drawA, drawsB);
      if pick.Err? {
        return Err(pick.error);
      }
      var charA, charB := pick.value.a, pick.value.b;

      if !(0 <= drawEvent < |dramaEvents|) {
        return Err(ArgumentOutOfRange);
      }
      var selectedEvent := dramaEvents[drawEvent];

      selectedEvent.outcome.Apply(charA, charB);

      dialogueText := Format(selectedEvent.description, charA.name, charB.name);
      r := Ok(Selection(pick.value, selectedEvent));
    }
  }

  /** Tasha argues with Liam: Tasha drops to 40, Liam rises to 55, Zoe stays at 50. */
  method ArgumentScenario() returns (text: string, tasha: int, liam: int, zoe: int)
    ensures text == "Tasha" + ArgumentMiddle + "Liam" + ArgumentEnd
    ensures tasha == 40 && liam == 55 && zoe == 50
  {
    var manager := new DramaManager();
    var r := manager.Start(0, [1], 0);
    assert manager.cast[1] != manager.cast[0];
    assert r.Ok?;
    RenderArgument("Tasha", "Liam");
    text := manager.dialogueText;
    tasha, liam, zoe := manager.cast[0].popularity, manager.cast[1].popularity, manager.cast[2].popularity;
  }

  /**
   * The second draw names Tasha again twice before naming Zoe; Zoe rejects
   * Tasha: Tasha drops to 45, Zoe rises to 60, Liam stays at 50.
   */
  method RedrawScenario() returns (text: string, tasha: int, liam: int, zoe: int)
    ensures text == "Tasha" + RejectionMiddle + "Zoe" + RejectionEnd
    ensures tasha == 45 && liam == 50 && zoe == 60
  {
    var manager := new DramaManager();
    var r := manager.Start(0, [0, 0, 2], 1);
    ghost var cast := manager.cast;
    RedrawSkipsRepeats(cast, cast[0], [0, 0, 2], 2);
    assert r.Ok?;
    RenderRejection("Tasha", "Zoe");
    text := manager.dialogueText;
    tasha, liam, zoe := manager.cast[0].popularity, manager.cast[1].popularity, manager.cast[2].popularity;
  }
}
