# Reality House drama round, in Dafny

This project models the one drama round a Reality House scene runs when it starts.
Three contestants are added to the cast: Tasha (Hothead), Liam (Loyalist) and Zoe (Romantic), each at popularity 50.
Two events are added to the catalogue: an argument over the dishes and a romantic rejection.
The round draws a first contestant, then redraws a second one until it is a different contestant.
It then draws an event, applies the event's outcome to the ordered pair and shows the event's text with the two names filled in.

Modules, one per file:

- `Characters` (`character.dfy`): the five personalities and the mutable `Character` class.
  In the model its `popularity` is an unbounded mathematical integer; the source's 32-bit width is discussed under "## Left out".
- `Formatting` (`format.dfy`): the `{0}`/`{1}` slot filling the templates need.
- `Events` (`events.dfy`): the two outcomes as a tagged variant `Outcome = Argument | Rejection`.
  Its method `Apply(a, b)` changes the two popularity fields in place.
  The module also holds the event records, the catalogue and the rendered texts.
- `Drama` (`drama_manager.dfy`): the distinct-pair loop, event selection, and the `DramaManager` class whose `Start` runs the round.

The random generator is replaced by the draws it would have produced, supplied by the caller:

- `drawA` is the first contestant's draw.
- `drawsB` is the second contestant's first draw followed by every redraw, in order.
- `drawEvent` is the event draw.

Every property is proved for all draws. A draw outside the list's bounds models the list indexer's out-of-range failure (`ArgumentOutOfRange`, the exception the `List<T>` indexer throws).
`SelectionInBounds` proves that draws obeying the generator's exclusive upper bound never cause that failure.
The loop cannot end when every remaining draw names the first contestant again. Because the model's draw list is finite, it then returns `DrawsExhausted`.

## Model

| member | source | states |
|---|---|---|
| Characters.Ordinal | Assets/Scripts/Character.cs:9-16 | each personality sits at its declaration position (0 to 4) in the list of the five personalities; the round never uses these values, they serve only to count the enumeration |
| Characters.FromOrdinal | Assets/Scripts/Character.cs:9-16 | each value 0 to 4 names a personality whose position is that value (round trip with `Ordinal`) |
| Characters.PersonalityHasFiveValues | Assets/Scripts/Character.cs:9-16 | there are exactly five personalities, all different, and every personality is one of them |
| Characters.Character.constructor | Assets/Scripts/Character.cs:25-30 | stores the given name and personality unchanged and sets popularity to exactly 50 |
| Events.Outcome.Apply | Assets/Scripts/DramaManager.cs:31-46 | may change only the popularity of `a` and `b`; for distinct participants Argument takes 10 from `a` and gives 5 to `b`, Rejection takes 5 and gives 10; if `a` and `b` are one object, that object gets both changes |
| Events.Catalog | Assets/Scripts/DramaManager.cs:31-46 | the event list the setup builds: two events, the argument at index 0 and the rejection at index 1 |
| Events.CatalogCoversOutcomes | Assets/Scripts/DramaManager.cs:31-46 | the catalogue has two events, argument first and rejection second, and each outcome occurs in it exactly once |
| Events.RenderArgument | Assets/Scripts/DramaManager.cs:32 | the argument text shows the first participant's name, then the second's, around the fixed wording |
| Events.RenderRejection | Assets/Scripts/DramaManager.cs:41 | the rejection text shows the first participant's name, then the second's, around the fixed wording |
| Events.PopularityIsUnbounded | Assets/Scripts/Character.cs:22 | popularity is not clamped: repeated outcomes take one contestant below 0 and another above 100 |
| Formatting.Format | Assets/Scripts/DramaManager.cs:63 | a template with no brace renders as itself |
| Formatting.FormatLiteralPrefix | Assets/Scripts/DramaManager.cs:63 | literal text before the rest of a template is copied through unchanged |
| Formatting.FormatSlotPrefix | Assets/Scripts/DramaManager.cs:63 | a leading `{0}` becomes the first argument and a leading `{1}` the second |
| Formatting.FormatTwoSlots | Assets/Scripts/DramaManager.cs:63 | literal text around `{0}` then `{1}` renders with the first argument in the first slot and the second in the second, whatever the arguments contain |
| Formatting.FormatSlotsInOrder | Assets/Scripts/DramaManager.cs:63 | the same for the shape both templates have, with the slots first and second |
| Drama.Redraw | Assets/Scripts/DramaManager.cs:50-54 | the contestant the redraw loop settles on is in the cast and differs from the first contestant |
| Drama.PairSpec | Assets/Scripts/DramaManager.cs:49-54 | a selected pair is two different members of the cast |
| Drama.PickDistinctPair | Assets/Scripts/DramaManager.cs:49-54 | the loop returns exactly the pair the reference definition selects, so its two contestants differ |
| Drama.RedrawInBounds | Assets/Scripts/DramaManager.cs:50-54 | redraws inside `[0, cast.Count)` never index outside the cast |
| Drama.RedrawFindsOther | Assets/Scripts/DramaManager.cs:51-54 | the loop ends once a draw names someone other than the first contestant, no later than that draw, with a contestant drawn on the way |
| Drama.RedrawSkipsRepeats | Assets/Scripts/DramaManager.cs:51-54 | draws that name the first contestant again are skipped, and the loop settles on the first draw that does not |
| Drama.RedrawDrawn | Assets/Scripts/DramaManager.cs:50-54 | the contestant the loop settles on was named by one of the draws |
| Drama.PairSpecSucceeds | Assets/Scripts/DramaManager.cs:49-54 | with in-range draws, selection never fails on an index, and it succeeds if and only if some draw for the second contestant names someone other than the first |
| Drama.SingleContestantNeverPairs | Assets/Scripts/DramaManager.cs:51-54 | when the cast is one contestant, no pair is ever selected: the loop needs at least two contestants to end |
| Drama.SelectEvent | Assets/Scripts/DramaManager.cs:57 | the event pick succeeds exactly for a draw in `[0, events.Count)`, returns an event of the list, and otherwise faults with the indexer's out-of-range exception |
| Drama.SelectionSpec | Assets/Scripts/DramaManager.cs:49-57 | the reference definition of a round's picks: it succeeds exactly when the pair selection succeeds and the event draw is in range; its pair is two different cast members and its event is in the list; a pair fault is passed on unchanged |
| Drama.SelectionInBounds | Assets/Scripts/DramaManager.cs:49-57 | with every draw inside its list's bounds, a round never fails on an index, and the event chosen is the one at the event draw |
| Drama.CatalogSelection | Assets/Scripts/DramaManager.cs:57 | an event draw succeeds exactly in `[0, 2)`: 0 picks the argument and 1 the rejection |
| Drama.DramaManager.constructor | Assets/Scripts/DramaManager.cs:17-21 | the cast and the event list start empty; nothing is promised about the dialogue box's initial text |
| Drama.DramaManager.Start | Assets/Scripts/DramaManager.cs:23-64 | afterwards the cast is exactly Tasha/Hothead, Liam/Loyalist and Zoe/Romantic as three new objects, and the events are the catalogue; the result is the reference selection; on success exactly one outcome is applied: `a` loses the charge, `b` gains the credit, the third contestant keeps 50, and the dialogue text is the template with `a`'s name in `{0}` and `b`'s in `{1}`; on a fault no popularity changes and the text stays |
| Drama.ArgumentScenario | Assets/Scripts/DramaManager.cs:26-63 | Tasha arguing with Liam leaves Tasha at 40, Liam at 55 and Zoe at 50, with the argument text naming Tasha and then Liam |
| Drama.RedrawScenario | Assets/Scripts/DramaManager.cs:49-63 | when the second draw names Tasha twice before Zoe, Zoe is chosen; the rejection leaves Tasha at 45, Zoe at 60 and Liam at 50 |

## Left out

- Events.Outcome.Apply: does not model 32-bit wrap-around. The source's `popularity` is a C# `int` whose updates wrap under unchecked arithmetic near `int.MinValue` and `int.MaxValue`; the model uses unbounded integers. In the one round `Start` runs, every value starts at 50 and ends between 40 and 60, so wrap-around cannot occur there.
- The engine lifecycle: `Start` is called by the engine once, on a new component whose lists are empty. The model's `Start` therefore requires empty lists and does not cover a second call.
- The on-screen text box is modelled as its text only (`dialogueText`).
- The random generator is replaced by caller-supplied draws, as described above. No distribution is modelled.
- Formatting.Format: it models only the slots `{0}` and `{1}`. Brace escaping, other slot numbers, alignment, format specifiers and the format-error exception are not modelled, because neither template uses them.
- The redraw loop of the source runs until a differing draw arrives. The model's finite draw list turns "never arrives" into `DrawsExhausted`.
- `Assets/Scripts/DramaEventData.cs` is not modelled: nothing in the round builds or reads it.
- `Assets/Scripts/DramaEvent.cs` is modelled by the `DramaEvent` datatype: a description and an `Outcome` variant in place of the closure.
- Relationship flags, eligibility filtering, tiers, evolution rules, several rounds and elimination are not modelled. The round's code does none of them.
