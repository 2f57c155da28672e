/**
 What holds of a cell over whole sequences of events: the invariant every event
 keeps, that players, observers and layers are never released, that the like button
 shows the last completed query's answer, and the volume and loop scenarios.
 */
module CellTraces {
  import opened CellSpec

  /** The number of Bind events in `events`. */
  function BindCount(events: seq<Event>): nat
    decreases |events|
  {
    if events == [] then 0 else (if events[0].Bind? then 1 else 0) + BindCount(events[1..])
  }

  /** The flags of the last like query in `events` that completed without an error. */
  function LastFetched(events: seq<Event>): Option<seq<string>>
    decreases |events|
  {
    if events == [] then None
    else
      match LastFetched(events[1..])
      case Some(flags) => Some(flags)
      case None =>
        if events[0].LikeQueryDone? && events[0].result.FlagsFetched?
        then Some(events[0].result.flags) else None
  }

  /** Every event keeps the cell invariant. */
  lemma StepPreservesInv(s: CellState, e: Event)
    requires Inv(s)
    ensures Inv(Step(s, e))
  {
  }

  /** Any sequence of events keeps the cell invariant. */
  lemma {:induction false} RunPreservesInv(s: CellState, events: seq<Event>)
    requires Inv(s)
    ensures Inv(Run(s, events))
    decreases |events|
  {
    if events != [] {
      StepPreservesInv(s, events[0]);
      RunPreservesInv(Step(s, events[0]), events[1..]);
    }
  }

  /** Handling `a` then `b` is handling `a + b`. */
  lemma {:induction false} RunAppend(s: CellState, a: seq<Event>, b: seq<Event>)
    ensures Run(s, a + b) == Run(Run(s, a), b)
    decreases |a|
  {
    if a != [] {
      assert (a + b)[0] == a[0];
      assert (a + b)[1..] == a[1..] + b;
      RunAppend(Step(s, a[0]), a[1..], b);
    } else {
      assert a + b == b;
    }
  }

  /** One event adds a player and a layer exactly when it is a Bind, and keeps the
      URL of every player already there. */
  lemma StepKeepsPlayers(s: CellState, e: Event)
    ensures |Step(s, e).players| == |s.players| + (if e.Bind? then 1 else 0)
    ensures Step(s, e).layers == s.layers + (if e.Bind? then 1 else 0)
    ensures forall i :: 0 <= i < |s.players| ==> Step(s, e).players[i].url == s.players[i].url
  {
  }

  /** No event releases a player, cancels a loop observer or removes a layer: each
      Bind adds exactly one of each, and every earlier player keeps its URL. */
  lemma {:induction false} PlayersNeverReleased(s: CellState, events: seq<Event>)
    ensures |Run(s, events).players| == |s.players| + BindCount(events)
    ensures Run(s, events).layers == s.layers + BindCount(events)
    ensures forall i :: 0 <= i < |s.players| ==> Run(s, events).players[i].url == s.players[i].url
    decreases |events|
  {
    if events != [] {
      var t := Step(s, events[0]);
      StepKeepsPlayers(s, events[0]);
      PlayersNeverReleased(t, events[1..]);
    }
  }

  /** The like button shows the answer of the last like query that completed without
      an error, whatever the order the queries were issued in; if none completed, it
      is unchanged. */
  lemma {:induction false} LikeFollowsLastResponse(s: CellState, events: seq<Event>)
    ensures Run(s, events).likeSelected ==
      match LastFetched(events)
      case Some(flags) => LikeSelected(flags)
      case None => s.likeSelected
    decreases |events|
  {
    if events != [] {
      LikeFollowsLastResponse(Step(s, events[0]), events[1..]);
    }
  }

  /** Two volume taps on a bound clip whose count is 0 unmute and then mute again:
      count and current volume are back at 0. */
  lemma TwoVolumeTapsRestore(s: CellState)
    requires Inv(s) && s.model.Some? && s.model.value.volumeButtonTappedCount == 0
    ensures TapVolume(s).model.value.volumeButtonTappedCount == 1
    ensures Current(TapVolume(s)).value.volume == 1
    ensures TapVolume(TapVolume(s)).model.value.volumeButtonTappedCount == 0
    ensures Current(TapVolume(TapVolume(s))).value.volume == 0
  {
  }

  /** After any history ending in a volume tap, a bound clip's count is 0 or 1 and the
      current player's volume equals it. */
  lemma VolumeMatchesCountAfterTap(s: CellState, events: seq<Event>)
    requires Inv(s)
    ensures var r := Run(s, events + [VolumeTap]);
      r.model.Some? ==>
        IsVolume(r.model.value.volumeButtonTappedCount)
        && Current(r).Some?
        && Current(r).value.volume == r.model.value.volumeButtonTappedCount
  {
    RunAppend(s, events, [VolumeTap]);
    RunPreservesInv(s, events);
  }

  /** Unmuting never survives a loop: after any history ending in the end of an item, a
      bound clip's count is 0 and every player, the current one included, is back at
      position zero, playing and muted. */
  lemma UnmuteEndsAtLoop(s: CellState, events: seq<Event>)
    requires Inv(s)
    ensures var r := Run(s, events + [PlayedToEnd]);
      && (r.model.Some? ==> r.model.value.volumeButtonTappedCount == 0)
      && forall i :: 0 <= i < |r.players| ==>
           r.players[i].volume == 0 && r.players[i].playing && r.players[i].position == 0
  {
    RunAppend(s, events, [PlayedToEnd]);
    RunPreservesInv(s, events);
  }

  /** Bind a clip, tap volume, reach the end: unmuted (volume 1, count 1) after the tap,
      muted again (volume 0, count 0) after the loop. */
  lemma BindTapLoopScenario(s: CellState, m: VideoModel)
    requires Inv(s) && m.volumeButtonTappedCount == 0
    ensures var bound := Configure(s, m);
      var tapped := TapVolume(bound);
      var looped := LoopEnd(tapped);
      && Current(tapped).value.volume == 1 && tapped.model.value.volumeButtonTappedCount == 1
      && Current(looped).value.volume == 0 && looped.model.value.volumeButtonTappedCount == 0
      && Current(looped).value.position == 0 && Current(looped).value.playing
  {
  }

  /** Reuse releases nothing: a bound cell that is prepared for reuse keeps its clip,
      its player (still playing) and its observer; only the labels are emptied.
      Emptying them twice is emptying them once. */
  lemma ReuseKeepsSession(s: CellState, m: VideoModel)
    ensures var r := PrepareForReuse(Configure(s, m));
      && r.model == Some(m)
      && |r.players| == |s.players| + 1
      && Current(r) == Some(PlayerState(m.videoURL, 0, true, 0))
      && r.labels == NoLabels
      && PrepareForReuse(r) == r
  {
  }

  /** Binding twice without reuse leaves both players alive and playing, each with its
      own observer and layer; the second is the current one. */
  lemma RebindKeepsBothPlayers(s: CellState, m1: VideoModel, m2: VideoModel)
    ensures var r := Configure(Configure(s, m1), m2);
      && |r.players| == |s.players| + 2
      && r.layers == s.layers + 2
      && r.players[|s.players|] == PlayerState(m1.videoURL, 0, true, 0)
      && Current(r) == Some(PlayerState(m2.videoURL, 0, true, 0))
      && r.model == Some(m2)
  {
  }

  /** Handling four events is stepping through them in order. */
  lemma RunFour(s: CellState, a: Event, b: Event, c: Event, d: Event)
    ensures Run(s, [a, b, c, d]) == Step(Step(Step(Step(s, a), b), c), d)
  {
    var s1 := Step(s, a);
    var s2 := Step(s1, b);
    var s3 := Step(s2, c);
    assert [d][1..] == [];
    assert Run(s3, [d]) == Step(s3, d);
    assert [c, d][1..] == [d];
    assert Run(s2, [c, d]) == Run(s3, [d]);
    assert [b, c, d][1..] == [c, d];
    assert Run(s1, [b, c, d]) == Run(s2, [c, d]);
    assert [a, b, c, d][1..] == [b, c, d];
  }

  /** A like tap, a reuse, a bind and the tap's completion, handled in that order. */
  lemma StaleRun(s: CellState, user: Option<string>, m2: VideoModel, result: QueryResult)
    ensures Run(s, [LikeTap(user), Reuse, Bind(m2), LikeQueryDone(result)])
      == CompleteLikeQuery(Configure(PrepareForReuse(TapLike(s, user)), m2), result)
  {
    RunFour(s, LikeTap(user), Reuse, Bind(m2), LikeQueryDone(result));
  }

  /** A like query that completes after the cell was reused and bound to another
      clip still sets the like button, now shown for the new clip: nothing discards
      a stale completion. */
  lemma StaleCompletionApplies(s: CellState, user: Option<string>, m2: VideoModel, flags: seq<string>)
    requires s.model.Some?
    ensures var r := Run(s, [LikeTap(user), Reuse, Bind(m2), LikeQueryDone(FlagsFetched(flags))]);
      r.model == Some(m2) && r.likeSelected == LikeSelected(flags)
  {
    StaleRun(s, user, m2, FlagsFetched(flags));
  }

  /** Tapping volume and then binding another clip leaves the earlier player playing
      unmuted beside the new, muted one: the old clip stays audible until the next end
      of an item, which mutes every player. */
  lemma RebindKeepsUnmutedPlayer(s: CellState, m1: VideoModel, m2: VideoModel)
    requires Inv(s) && m1.volumeButtonTappedCount == 0
    ensures var r := Configure(TapVolume(Configure(s, m1)), m2);
      && r.players[|s.players|] == PlayerState(m1.videoURL, 1, true, 0)
      && Current(r) == Some(PlayerState(m2.videoURL, 0, true, 0))
      && LoopEnd(r).players[|s.players|].volume == 0
  {
  }

  /** The fetched list decides the like button: [] and ["true", "true"] select it,
      ["true"] unselects it, whatever it showed before. */
  lemma LikeDecisionExamples(s: CellState)
    ensures CompleteLikeQuery(s, FlagsFetched([])).likeSelected
    ensures CompleteLikeQuery(s, FlagsFetched(["true", "true"])).likeSelected
    ensures CompleteLikeQuery(s, FlagsFetched(["false"])).likeSelected
    ensures !CompleteLikeQuery(s, FlagsFetched(["true"])).likeSelected
  {
  }
}
