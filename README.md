# ConcertClips feed cell, modelled in Dafny

ConcertClips shows a vertically scrolling feed of concert clips. Each clip plays in
a reusable `FeedViewCell` (`ConcertClips/Views/FeedViewCell.swift`). This project models
that cell as a state machine:

- it binds a clip (`configure(with:)`, `configureVideo`), creating a muted, playing
  `AVPlayer`, one player layer and one loop observer;
- it is recycled (`prepareForReuse`), which empties its four labels;
- the volume button toggles mute through the clip's `volumeButtonTappedCount`;
- the loop observer, at the end of a player item, seeks to zero, plays, mutes and
  resets the count;
- the like button notifies the delegate and queries the signed-in user's
  `likeButtonSelected` flags, and the query's completion decides whether the button
  is selected;
- the details button notifies the delegate;
- the owner assigns the weak `delegate`, or it is released.

There are three modules:

- `CellSpec` (`cell_spec.dfy`) is the cell as a value. `CellState` holds the bound
  clip, every player the cell has created (the last one is the current player), the
  number of layers added, the label texts, the like flag, whether a delegate is
  attached, and the log of effects on the outside world (delegate notifications and
  like queries). There is one function per event, plus `Step` and `Run` over
  sequences of `Event`s.
- `CellTraces` (`cell_traces.dfy`) proves properties of whole event sequences: the
  invariant every event keeps, that nothing is ever released, that the like button
  follows the last completed query, and the volume and loop scenarios.
- `FeedCell` (`feed_view_cell.dfy`) is the class `FeedViewCell`, with the source's
  fields and handlers updating them in place. Each handler is proved to do to
  `Abstract()` exactly what the matching `CellSpec` function does, and to keep
  `Valid()`.

The model follows the code as written. In particular, in the code:

- binding again does not destroy the earlier player;
- reuse releases no player, cancels no observer and removes no layer, because the
  `playerView` field is never assigned: line 213 declares a local of the same name;
- the loop observers are registered for the end of any item (`object: nil`), so one
  item ending restarts every player the cell ever created;
- a like completion arriving after reuse is applied all the same; there is no
  stale-completion check;
- the like tap only reads the user's flags, and nothing is written back to the store;
- the button's new state is `flags != ["true"]`, decided from the fetched list alone;
- a bad media URL or a failed query is not reported to the delegate.

## Model

| member | source | states |
|---|---|---|
| CellSpec.Initial | ConcertClips/Views/FeedViewCell.swift:85-90 | a new cell has nothing bound, no player, no effects and empty labels, its like button is unselected, it has the given delegate, and it keeps the invariant |
| CellSpec.UserKey | ConcertClips/Views/FeedViewCell.swift:113 | the like query uses the signed-in user's ID, or "default_user_id" when nobody is signed in |
| CellSpec.Notify | ConcertClips/Views/FeedViewCell.swift:111 | the delegate is notified exactly when one is attached |
| CellSpec.Configure | ConcertClips/Views/FeedViewCell.swift:194-202 | binding stores the clip and appends a new player for its URL that is muted, playing and at zero, with one more layer; earlier players are kept; caption, section and event show the clip, and the audio label, like flag and effects are unchanged |
| CellSpec.PrepareForReuse | ConcertClips/Views/FeedViewCell.swift:185-192 | reuse empties the four labels and changes nothing else: the clip, every player, the layer count and the like flag stay as they were |
| CellSpec.SetCurrentVolume | ConcertClips/Views/FeedViewCell.swift:150-155 | only the current player's volume is set; every other player is unchanged |
| CellSpec.TapVolume | ConcertClips/Views/FeedViewCell.swift:148-160 | a bound clip's count becomes 1 exactly when it was 0, and 0 otherwise; the current player's volume equals the new count, or is 0 when nothing is bound; only a bound cell notifies the delegate, with the updated clip |
| CellSpec.Restart | ConcertClips/Views/FeedViewCell.swift:225-227 | a looping player keeps its URL and is at position zero, playing and muted |
| CellSpec.RestartAll | ConcertClips/Views/FeedViewCell.swift:224-227 | every player is restarted, in place and in order |
| CellSpec.LoopEnd | ConcertClips/Views/FeedViewCell.swift:224-229 | at the end of an item, every player the cell created is at zero, playing and muted, and a bound clip's count is 0, whatever it was before; with no observer nothing happens |
| CellSpec.TapLike | ConcertClips/Views/FeedViewCell.swift:109-118 | with no clip, nothing happens; otherwise the delegate is notified first, then one like query is issued for the user key; nothing else changes |
| CellSpec.LikeSelected | ConcertClips/Views/FeedViewCell.swift:128-133 | the like button is unselected exactly when the fetched list is the single flag "true" |
| CellSpec.CompleteLikeQuery | ConcertClips/Views/FeedViewCell.swift:118-133 | an error changes nothing; fetched flags set the like flag to LikeSelected(flags) whatever it was, and change nothing else |
| CellSpec.TapDetails | ConcertClips/Views/FeedViewCell.swift:143-146 | with no clip, nothing happens; otherwise the delegate is notified, and nothing else changes |
| CellSpec.AttachDelegate | ConcertClips/Views/FeedViewCell.swift:77 | assigning or releasing the weak delegate sets whether one is attached and changes nothing else |
| CellTraces.StepPreservesInv | ConcertClips/Views/FeedViewCell.swift:148-229 | every event keeps the invariant: the cell is bound exactly when it has a player, it has one layer per player, and every volume is 0 or 1 |
| CellTraces.RunPreservesInv | ConcertClips/Views/FeedViewCell.swift:148-229 | any sequence of events keeps the invariant |
| CellTraces.StepKeepsPlayers | ConcertClips/Views/FeedViewCell.swift:185-229 | one event adds a player and a layer exactly when it is a bind, and keeps the URL of every existing player |
| CellTraces.PlayersNeverReleased | ConcertClips/Views/FeedViewCell.swift:185-229 | over any sequence of events, the players and layers number the initial ones plus one per bind; no player, observer or layer is ever released, and earlier players keep their URLs |
| CellTraces.LikeFollowsLastResponse | ConcertClips/Views/FeedViewCell.swift:118-133 | after any sequence of events, the like flag is the decision of the last query that completed without error, or is unchanged if none did; the last response wins, not the last request |
| CellTraces.TwoVolumeTapsRestore | ConcertClips/Views/FeedViewCell.swift:148-156 | from a bound count of 0, one tap gives count 1 and volume 1, and a second tap gives count 0 and volume 0 |
| CellTraces.VolumeMatchesCountAfterTap | ConcertClips/Views/FeedViewCell.swift:149-156 | after any history ending in a volume tap, a bound clip's count is 0 or 1 and the current player's volume equals it |
| CellTraces.UnmuteEndsAtLoop | ConcertClips/Views/FeedViewCell.swift:224-229 | after any history ending in a loop end, a bound count is 0 and every player is at zero, playing and muted |
| CellTraces.BindTapLoopScenario | ConcertClips/Views/FeedViewCell.swift:148-229 | bind, then volume tap, gives volume 1 and count 1; the following loop end gives volume 0 and count 0, with the player at zero and playing |
| CellTraces.ReuseKeepsSession | ConcertClips/Views/FeedViewCell.swift:185-202 | after bind then reuse, the clip and its playing player remain and only the labels are empty; a second reuse changes nothing more |
| CellTraces.RebindKeepsBothPlayers | ConcertClips/Views/FeedViewCell.swift:194-221 | binding twice leaves both players playing, each with its own layer; the second is current |
| CellTraces.RebindKeepsUnmutedPlayer | ConcertClips/Views/FeedViewCell.swift:148-229 | after a volume tap that unmutes and a second bind, the earlier player is still playing at volume 1 beside the new muted one, until the next end of an item mutes it |
| CellTraces.StaleCompletionApplies | ConcertClips/Views/FeedViewCell.swift:118-133 | a like query that completes after the cell was reused and bound to another clip still sets the like button, now shown for the new clip |
| CellTraces.LikeDecisionExamples | ConcertClips/Views/FeedViewCell.swift:128-133 | the lists [], ["true", "true"] and ["false"] select the button; ["true"] unselects it, whatever it showed before |
| FeedCell.RemoveLayer | ConcertClips/Views/FeedViewCell.swift:191 | removing the layer of an empty `playerView` removes nothing; otherwise exactly the layers showing that player are removed, every other layer kept once, in its order |
| FeedCell.FeedViewCell.constructor | ConcertClips/Views/FeedViewCell.swift:85-90 | a new cell is valid and equals CellSpec.Initial, with no player, observer or layer |
| FeedCell.FeedViewCell.SetDelegate | ConcertClips/Views/FeedViewCell.swift:77 | the cell changes as CellSpec.AttachDelegate says: only whether a delegate is attached |
| FeedCell.FeedViewCell.LoopVideo | ConcertClips/Views/FeedViewCell.swift:223-230 | appends exactly one observer, which captures the given player; nothing else changes |
| FeedCell.FeedViewCell.ConfigureVideo | ConcertClips/Views/FeedViewCell.swift:204-221 | with no clip, nothing happens; otherwise a player for the clip's URL is appended, muted, playing and at zero, with its layer and its observer, and it becomes the current player |
| FeedCell.FeedViewCell.Configure | ConcertClips/Views/FeedViewCell.swift:194-202 | the cell changes as CellSpec.Configure says; the new player is current, and one observer and one layer are appended for it |
| FeedCell.FeedViewCell.PrepareForReuse | ConcertClips/Views/FeedViewCell.swift:185-192 | the cell changes as CellSpec.PrepareForReuse says; the labels are empty, and the layers, observers, players and clip are unchanged |
| FeedCell.FeedViewCell.DidTapVolumeButton | ConcertClips/Views/FeedViewCell.swift:148-160 | the cell changes as CellSpec.TapVolume says: count 0 gives count 1 and volume 1, and anything else gives count 0 and volume 0 |
| FeedCell.FeedViewCell.LoopObserver | ConcertClips/Views/FeedViewCell.swift:224-229 | one observer's closure restarts the player it captured and resets a bound clip's count to 0; nothing else changes |
| FeedCell.FeedViewCell.PlayerItemDidPlayToEnd | ConcertClips/Views/FeedViewCell.swift:224-229 | every registered observer runs, so the cell changes as CellSpec.LoopEnd says: every player is at zero, playing and muted |
| FeedCell.FeedViewCell.DidTapLikeButton | ConcertClips/Views/FeedViewCell.swift:109-118 | the cell changes as CellSpec.TapLike says: with no clip nothing happens; otherwise the delegate is notified, then the user's flags are queried |
| FeedCell.FeedViewCell.LikeQueryCompleted | ConcertClips/Views/FeedViewCell.swift:118-133 | the cell changes as CellSpec.CompleteLikeQuery says: an error keeps the like flag, and fetched flags set it to LikeSelected(flags) |
| FeedCell.FeedViewCell.DidTapDetailsButton | ConcertClips/Views/FeedViewCell.swift:143-146 | the cell changes as CellSpec.TapDetails says: a bound cell notifies the delegate |

## Left out

- Layout (`layoutSubviews`, lines 162-183) and the construction of labels, buttons and the video container (lines 27-74, 92-107). These are presentation only.
- AVFoundation: decoding, video gravity and the layer's frame. A player is only its URL, its volume (0 or 1), whether it plays, and its position reset.
- Players are entries of the cell's own registry, named by index, not separate objects. Each observer and layer refers to its player by that index. Nothing outside the cell holds a player, so no aliasing is lost.
- Firestore: query construction and transport (lines 114, 118). Issuing the query is an effect, and its completion is an input event carrying either an error or the fetched list.
- GoogleSignIn: the signed-in user is a parameter of the like tap.
- The `serialized` string (line 116) is computed but never used.
- Logging with `print` (lines 120, 135-136).
- NotificationCenter delivery: a loop end is handled as one sequential event in which every observer runs in registration order. Queues and threading are not modelled.
- The ordering of completions: a completion is an event that can arrive at any point in a sequence.
- The crash paths of the force unwraps are not modelled. These are an unparsable URL (`NSURL(string:)!`, line 210) and `player!` (line 220).
- CellSpec.CompleteLikeQuery: a query that finds no document, or finds `likeButtonSelected` not a list of strings, crashes at line 125. `QueryResult` has no case for it.
- `VideoModel` is treated as a value. Its declaration is not part of this model, so any sharing of one clip object between the cell and the feed is not captured.
- `clipsManagerViewModel` and `usersManagerViewModel` are only used to reach the store.
- The `EventFeedView` screen has no cell logic.
- Behaviour the code does not have is not modelled: the stale-completion check, observer cancellation, releasing the player on reuse or rebind, writing the like back, and reporting a bad URL or failed sync to the delegate.
