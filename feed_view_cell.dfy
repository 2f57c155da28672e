/**
 The feed cell as the object it is: fields updated in place by its event handlers.

 The cell keeps a registry of every player it has created, in creation order; a
 player is named by its index there. `player` is the current one, `observers` lists
 the player captured by each registered loop observer and `layers` the player shown
 by each layer added to the video container, both in the order they were added. The
 `playerView` field is declared but never assigned (configureVideo binds a local of
 the same name), so it stays empty. Every handler is proved to do to the cell what
 the matching CellSpec function does to its abstract value.
 */
module FeedCell {
  import opened CellSpec
  import CellTraces

  /** The indices 0 .. n - 1, in order. */
  function Upto(n: nat): (r: seq<nat>)
    ensures |r| == n
    ensures forall i :: 0 <= i < n ==> r[i] == i
  {
    if n == 0 then [] else Upto(n - 1) + [n - 1]
  }

  /** `a` is `b` with some elements left out, the rest kept in their order. */
  predicate Subsequence(a: seq<nat>, b: seq<nat>)
    decreases |b|
  {
    if a == [] then true
    else if b == [] then false
    else if a[0] == b[0] then Subsequence(a[1..], b[1..])
    else Subsequence(a, b[1..])
  }

  /** The layers left after removing the layer showing `layer`; removing no layer
      removes nothing. */
  function RemoveLayer(layers: seq<nat>, layer: Option<nat>): (r: seq<nat>)
    ensures layer.None? ==> r == layers
    ensures |r| <= |layers|
    ensures layer.Some? ==> multiset(r) == multiset(layers)[layer.value := 0]
    ensures Subsequence(r, layers)
  {
    if layers == [] then []
    else
      var rest := RemoveLayer(layers[1..], layer);
      assert layers == [layers[0]] + layers[1..];
      if Some(layers[0]) == layer then
        assert rest != [] ==> rest[0] in multiset(rest);
        rest
      else
        assert ([layers[0]] + rest)[1..] == rest;
        [layers[0]] + rest
  }

  class FeedViewCell {
    var model: Option<VideoModel>
    var players: seq<PlayerState>
    var player: Option<nat>
    var playerView: Option<nat>
    var observers: seq<nat>
    var layers: seq<nat>
    var labels: Labels
    var likeSelected: bool
    var hasDelegate: bool
    var effects: seq<Effect>

    /** The registries: every player created has exactly one loop observer and one
        layer, registered in creation order; the current player is the last one
        created; `playerView` is empty. */
    ghost predicate Registry()
      reads this
    {
      && observers == Upto(|players|)
      && layers == observers
      && playerView.None?
      && (player.None? <==> players == [])
      && (player.Some? ==> player.value == |players| - 1)
    }

    ghost function Abstract(): CellState
      reads this
    {
      CellState(model, players, |layers|, labels, likeSelected, hasDelegate, effects)
    }

    /** The cell invariant: the registries are in order and the abstract cell keeps
        CellSpec.Inv (bound exactly when it has a player, every volume 0 or 1). */
    ghost predicate Valid()
      reads this
      ensures Valid() ==> (model.Some? <==> player.Some?)
    {
      Registry() && Inv(Abstract())
    }

    /** init(frame:): nothing bound, no player, empty labels, like button unselected. */
    constructor ()
      ensures Valid() && Abstract() == Initial(false)
      ensures player.None? && playerView.None? && observers == [] && layers == []
    {
      model := None;
      players := [];
      player := None;
      playerView := None;
      observers := [];
      layers := [];
      labels := NoLabels;
      likeSelected := false;
      hasDelegate := false;
      effects := [];
    }

    /** The owner assigns the weak `delegate` (or it is released): only whether a
        delegate is attached changes. */
    method SetDelegate(present: bool)
      requires Valid()
      modifies this
      ensures Valid()
      ensures Abstract() == AttachDelegate(old(Abstract()), present)
      ensures player == old(player) && observers == old(observers) && layers == old(layers)
      ensures playerView == old(playerView)
    {
      hasDelegate := present;
    }

    /** loopVideo: register one more loop observer, capturing player `videoPlayer`. */
    method LoopVideo(videoPlayer: nat)
      modifies this
      ensures observers == old(observers) + [videoPlayer]
      ensures model == old(model) && players == old(players) && player == old(player)
      ensures playerView == old(playerView) && layers == old(layers) && labels == old(labels)
      ensures likeSelected == old(likeSelected) && hasDelegate == old(hasDelegate)
      ensures effects == old(effects)
    {
      observers := observers + [videoPlayer];
    }

    /** configureVideo: for a bound clip, create a player for its URL, add a layer
        showing it, mute it, play it and register its loop observer; for an unbound
        cell do nothing. */
    method ConfigureVideo()
      requires Registry()
      modifies this
      ensures Registry()
      ensures old(model).None? ==> players == old(players)
      ensures old(model).Some? ==>
        players == old(players) + [PlayerState(old(model).value.videoURL, 0, true, 0)]
      ensures model == old(model) && playerView == old(playerView) && labels == old(labels)
      ensures likeSelected == old(likeSelected) && hasDelegate == old(hasDelegate)
      ensures effects == old(effects)
    {
      if model.None? {
        return;
      }
      // AVPlayer(url:) starts at full volume, paused, at the beginning.
      var created := |players|;
      players := players + [PlayerState(model.value.videoURL, 1, false, 0)];
      player := Some(created);
      layers := layers + [created];
      players := players[created := players[created].(volume := 0)];
      players := players[created := players[created].(playing := true)];
      LoopVideo(created);
    }

    /** configure(with:): bind `m`, set up a new player for it and show its caption,
        section and event; the audio label, the like button and the earlier players
        are left as they were. */
    method Configure(m: VideoModel)
      requires Valid()
      modifies this
      ensures Valid()
      ensures Abstract() == CellSpec.Configure(old(Abstract()), m)
      ensures player == Some(|old(players)|)
      ensures observers == old(observers) + [|old(players)|]
      ensures layers == old(layers) + [|old(players)|]
      ensures playerView == old(playerView)
    {
      ghost var s := Abstract();
      model := Some(m);
      ConfigureVideo();
      labels := labels.(caption := Some(m.caption), section := Some(m.section), event := Some(m.event));
      CellTraces.StepPreservesInv(s, Bind(m));
    }

    /** prepareForReuse: empty the four labels and remove `playerView`'s layer, which
        is none because that field is never assigned. The clip, the players, their
        observers and the like button stay as they were. */
    method PrepareForReuse()
      requires Valid()
      modifies this
      ensures Valid()
      ensures Abstract() == CellSpec.PrepareForReuse(old(Abstract()))
      ensures labels == NoLabels
      ensures layers == old(layers) && observers == old(observers)
      ensures model == old(model) && players == old(players) && player == old(player)
      ensures playerView == old(playerView)
    {
      labels := NoLabels;
      layers := RemoveLayer(layers, playerView);
    }

    /** didTapVolumeButton: unmute when a clip is bound with count 0 (count and current
        volume 1), otherwise mute (count 0 if bound, current volume 0); a bound cell
        then notifies the delegate with the updated clip. */
    method DidTapVolumeButton()
      requires Valid()
      modifies this
      ensures Valid()
      ensures Abstract() == TapVolume(old(Abstract()))
      ensures old(model).Some? && old(model).value.volumeButtonTappedCount == 0 ==>
        model == Some(old(model).value.(volumeButtonTappedCount := 1))
        && players[player.value].volume == 1
      ensures !(old(model).Some? && old(model).value.volumeButtonTappedCount == 0) ==>
        && model == (if old(model).Some? then Some(old(model).value.(volumeButtonTappedCount := 0)) else None)
        && (player.Some? ==> players[player.value].volume == 0)
      ensures player == old(player) && observers == old(observers) && layers == old(layers)
      ensures playerView == old(playerView)
    {
      ghost var s := Abstract();
      if model.Some? && model.value.volumeButtonTappedCount == 0 {
        if player.Some? {
          players := players[player.value := players[player.value].(volume := 1)];
        }
        model := Some(model.value.(volumeButtonTappedCount := 1));
      } else {
        if model.Some? {
          model := Some(model.value.(volumeButtonTappedCount := 0));
        }
        if player.Some? {
          players := players[player.value := players[player.value].(volume := 0)];
        }
      }
      if model.Some? && hasDelegate {
        effects := effects + [VolumeTapped(model.value)];
      }
      CellTraces.StepPreservesInv(s, VolumeTap);
    }

    /** The closure loopVideo registers, run for the player it captured: seek it to
        zero, play it, mute it, and reset the bound clip's count to 0. */
    method LoopObserver(videoPlayer: nat)
      requires videoPlayer < |players|
      modifies this
      ensures players == old(players)[videoPlayer := Restart(old(players)[videoPlayer])]
      ensures model == (if old(model).Some? then Some(old(model).value.(volumeButtonTappedCount := 0)) else None)
      ensures player == old(player) && playerView == old(playerView)
      ensures observers == old(observers) && layers == old(layers) && labels == old(labels)
      ensures likeSelected == old(likeSelected) && hasDelegate == old(hasDelegate)
      ensures effects == old(effects)
    {
      players := players[videoPlayer := players[videoPlayer].(position := 0)];
      players := players[videoPlayer := players[videoPlayer].(playing := true)];
      players := players[videoPlayer := players[videoPlayer].(volume := 0)];
      if model.Some? {
        model := Some(model.value.(volumeButtonTappedCount := 0));
      }
    }

    /** The end of any player item. Every loop observer was registered for the end of
        every item, so each one runs, in the order they were registered: every player
        the cell created restarts muted and the bound clip's count is reset to 0. */
    method PlayerItemDidPlayToEnd()
      requires Valid()
      modifies this
      ensures Valid()
      ensures Abstract() == LoopEnd(old(Abstract()))
      ensures forall i :: 0 <= i < |players| ==>
        players[i].position == 0 && players[i].playing && players[i].volume == 0
      ensures player == old(player) && observers == old(observers) && layers == old(layers)
      ensures playerView == old(playerView)
    {
      ghost var s := Abstract();
      ghost var reset := if model.Some? then Some(model.value.(volumeButtonTappedCount := 0)) else None;
      for k := 0 to |observers|
        invariant Registry() && |players| == |s.players|
        invariant labels == s.labels && likeSelected == s.likeSelected
        invariant hasDelegate == s.hasDelegate && effects == s.effects
        invariant model == if k == 0 then s.model else reset
        invariant forall i :: 0 <= i < k ==> players[i] == Restart(s.players[i])
        invariant forall i :: k <= i < |players| ==> players[i] == s.players[i]
      {
        LoopObserver(observers[k]);
      }
      assert players == RestartAll(s.players);
      CellTraces.StepPreservesInv(s, PlayedToEnd);
    }

    /** didTapLikeButton, up to the query: an unbound cell does nothing; a bound one
        notifies the delegate and then queries the signed-in user's like flags (the
        default identity when nobody is signed in). */
    method DidTapLikeButton(signedIn: Option<string>)
      requires Valid()
      modifies this
      ensures Valid()
      ensures Abstract() == TapLike(old(Abstract()), signedIn)
      ensures old(model).None? ==> effects == old(effects)
      ensures old(model).Some? ==>
        effects == old(effects) + (if hasDelegate then [LikeTapped(model.value)] else [])
                                + [LikesQueried(UserKey(signedIn))]
      ensures player == old(player) && observers == old(observers) && layers == old(layers)
      ensures playerView == old(playerView)
    {
      if model.None? {
        return;
      }
      var m := model.value;
      if hasDelegate {
        effects := effects + [LikeTapped(m)];
      }
      var userID := UserKey(signedIn);
      effects := effects + [LikesQueried(userID)];
    }

    /** The like query's completion handler: an error is only logged; fetched flags set
        the like button to selected unless they are exactly ["true"]. */
    method LikeQueryCompleted(result: QueryResult)
      requires Valid()
      modifies this
      ensures Valid()
      ensures Abstract() == CompleteLikeQuery(old(Abstract()), result)
      ensures result.QueryFailed? ==> likeSelected == old(likeSelected)
      ensures result.FlagsFetched? ==> likeSelected == LikeSelected(result.flags)
      ensures player == old(player) && observers == old(observers) && layers == old(layers)
      ensures playerView == old(playerView)
    {
      match result
      case QueryFailed =>
      case FlagsFetched(selected) =>
        if selected == ["true"] {
          likeSelected := false;
        } else {
          likeSelected := true;
        }
    }

    /** didTapDetailsButton: a bound cell notifies the delegate; nothing else changes. */
    method DidTapDetailsButton()
      requires Valid()
      modifies this
      ensures Valid()
      ensures Abstract() == TapDetails(old(Abstract()))
      ensures old(model).None? ==> effects == old(effects)
      ensures old(model).Some? ==>
        effects == old(effects) + (if hasDelegate then [DetailsTapped(model.value)] else [])
      ensures player == old(player) && observers == old(observers) && layers == old(layers)
      ensures playerView == old(playerView)
    {
      if model.None? {
        return;
      }
      if hasDelegate {
        effects := effects + [DetailsTapped(model.value)];
      }
    }
  }
}
