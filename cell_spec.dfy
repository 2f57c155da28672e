/**
 The state machine of one feed cell, as values.

 A cell holds the clip it is bound to, every player it has created (each one still
 held by the loop observer that captured it, the last one being the cell's current
 player), the number of player layers it has added to its video container, its four
 label texts, the like button's selected flag and the log of what it has told the
 outside world (delegate notifications and like queries). Each event the cell
 handles is one function from state to state; FeedCell.FeedViewCell implements
 them in place and is proved against them.
 */
module CellSpec {

  datatype Option<T> = None | Some(value: T)

  /** The clip a cell is bound to. Only the volume-tap counter is ever changed by a cell. */
  datatype VideoModel = VideoModel(
    videoURL: string,
    caption: string,
    section: string,
    event: string,
    volumeButtonTappedCount: int)

  /** A player, abstracted to its media URL, its volume (only ever 0 or 1), whether it
      plays, and its playback position. */
  datatype PlayerState = PlayerState(url: string, volume: int, playing: bool, position: nat)

  /** The texts of the caption, audio, section and event labels; None is an empty label. */
  datatype Labels = Labels(
    caption: Option<string>,
    audio: Option<string>,
    section: Option<string>,
    event: Option<string>)

  /** What the cell does to the world outside it: a delegate notification or a query of
      the user's like flags. There is no write to the store: the cell never writes one. */
  datatype Effect =
    | LikeTapped(clip: VideoModel)
    | DetailsTapped(clip: VideoModel)
    | VolumeTapped(clip: VideoModel)
    | LikesQueried(userID: string)

  /** How a like query completes: with an error, or with the `likeButtonSelected`
      list of the user's first document. */
  datatype QueryResult = QueryFailed | FlagsFetched(flags: seq<string>)

  datatype CellState = CellState(
    model: Option<VideoModel>,
    players: seq<PlayerState>,
    layers: nat,
    labels: Labels,
    likeSelected: bool,
    hasDelegate: bool,
    effects: seq<Effect>)

  /** The identity used for a like query when nobody is signed in. */
  const DefaultUserID: string := "default_user_id"

  const NoLabels: Labels := Labels(None, None, None, None)

  predicate IsVolume(v: int) {
    v == 0 || v == 1
  }

  function Last<T>(s: seq<T>): T
    requires |s| > 0
  {
    s[|s| - 1]
  }

  function Front<T>(s: seq<T>): seq<T>
    requires |s| > 0
  {
    s[..|s| - 1]
  }

  /** The cell's current player, if it has one. */
  function Current(s: CellState): Option<PlayerState> {
    if |s.players| == 0 then None else Some(Last(s.players))
  }

  /** The state every cell keeps: it is bound exactly when it has a player, it has
      added one layer per player, and every player's volume is 0 or 1. */
  ghost predicate Inv(s: CellState) {
    && (s.model.Some? <==> |s.players| > 0)
    && s.layers == |s.players|
    && forall i :: 0 <= i < |s.players| ==> IsVolume(s.players[i].volume)
  }

  /** A fresh cell: nothing bound, no player, empty labels, like button unselected. */
  function Initial(hasDelegate: bool): (s: CellState)
    ensures Inv(s) && s.model.None? && s.players == [] && s.effects == []
    ensures s.labels == NoLabels && !s.likeSelected && s.hasDelegate == hasDelegate
  {
    CellState(None, [], 0, NoLabels, false, hasDelegate, [])
  }

  /** The user key a like query is made with: the signed-in user's ID, or the default
      identity when nobody is signed in. */
  function UserKey(signedIn: Option<string>): (key: string)
    ensures signedIn.Some? ==> key == signedIn.value
    ensures signedIn.None? ==> key == DefaultUserID
  {
    match signedIn
    case Some(id) => id
    case None => DefaultUserID
  }

  /** The delegate notification for `e`, if a delegate is attached. */
  function Notify(s: CellState, e: Effect): (r: seq<Effect>)
    ensures s.hasDelegate <==> r == [e]
    ensures !s.hasDelegate <==> r == []
  {
    if s.hasDelegate then [e] else []
  }

  /** configure(with:): bind the clip, create a new player for its URL, muted and
      playing, with one more layer and one more loop observer; the earlier players are
      kept, and the caption, section and event labels show the clip. */
  function Configure(s: CellState, m: VideoModel): (r: CellState)
    ensures r.model == Some(m)
    ensures |r.players| == |s.players| + 1 && Front(r.players) == s.players
    ensures Current(r) == Some(PlayerState(m.videoURL, 0, true, 0))
    ensures r.layers == s.layers + 1
    ensures r.labels.caption == Some(m.caption) && r.labels.section == Some(m.section)
    ensures r.labels.event == Some(m.event) && r.labels.audio == s.labels.audio
    ensures r.likeSelected == s.likeSelected && r.hasDelegate == s.hasDelegate
    ensures r.effects == s.effects
  {
    var player := PlayerState(m.videoURL, 0, true, 0);
    s.(model := Some(m),
       players := s.players + [player],
       layers := s.layers + 1,
       labels := s.labels.(caption := Some(m.caption), section := Some(m.section), event := Some(m.event)))
  }

  /** prepareForReuse: empty the four labels; nothing else changes (no player is
      released, no observer cancelled, no layer removed). */
  function PrepareForReuse(s: CellState): (r: CellState)
    ensures r.labels == NoLabels
    ensures r.model == s.model && r.players == s.players && r.layers == s.layers
    ensures r.likeSelected == s.likeSelected && r.effects == s.effects
    ensures r.hasDelegate == s.hasDelegate
  {
    s.(labels := NoLabels)
  }

  /** The players with the current (last) one set to volume `v`. */
  function SetCurrentVolume(ps: seq<PlayerState>, v: int): (r: seq<PlayerState>)
    ensures |r| == |ps|
    ensures |ps| > 0 ==> Front(r) == Front(ps) && Last(r) == Last(ps).(volume := v)
  {
    if ps == [] then [] else Front(ps) + [Last(ps).(volume := v)]
  }

  /** didTapVolumeButton: a bound clip whose count is 0 is unmuted (count 1, current
      player at volume 1); anything else, an unbound cell included, is muted (count 0
      if bound, current player at volume 0). Only a bound cell notifies the delegate,
      with the updated clip. */
  function TapVolume(s: CellState): (r: CellState)
    ensures r.model.Some? <==> s.model.Some?
    ensures s.model.Some? ==>
      && r.model.value == s.model.value.(volumeButtonTappedCount := r.model.value.volumeButtonTappedCount)
      && IsVolume(r.model.value.volumeButtonTappedCount)
      && (r.model.value.volumeButtonTappedCount == 1 <==> s.model.value.volumeButtonTappedCount == 0)
    ensures |r.players| == |s.players|
    ensures |s.players| > 0 ==>
      && Front(r.players) == Front(s.players)
      && Last(r.players) == Last(s.players).(volume := Last(r.players).volume)
      && Last(r.players).volume == (if r.model.Some? then r.model.value.volumeButtonTappedCount else 0)
    ensures s.model.None? ==> r.effects == s.effects
    ensures s.model.Some? ==> r.effects == s.effects + Notify(s, VolumeTapped(r.model.value))
    ensures r.labels == s.labels && r.layers == s.layers
    ensures r.likeSelected == s.likeSelected && r.hasDelegate == s.hasDelegate
  {
    var level := if s.model.Some? && s.model.value.volumeButtonTappedCount == 0 then 1 else 0;
    match s.model
    case None =>
      s.(players := SetCurrentVolume(s.players, level))
    case Some(m) =>
      var m' := m.(volumeButtonTappedCount := level);
      s.(model := Some(m'),
         players := SetCurrentVolume(s.players, level),
         effects := s.effects + Notify(s, VolumeTapped(m')))
  }

  /** What one loop observer does to the player it captured: seek to zero, play, mute. */
  function Restart(p: PlayerState): (r: PlayerState)
    ensures r.url == p.url && r.volume == 0 && r.playing && r.position == 0
  {
    p.(volume := 0, playing := true, position := 0)
  }

  /** Every player restarted. */
  function RestartAll(ps: seq<PlayerState>): (r: seq<PlayerState>)
    ensures |r| == |ps|
    ensures forall i :: 0 <= i < |ps| ==> r[i] == Restart(ps[i])
  {
    seq(|ps|, i requires 0 <= i < |ps| => Restart(ps[i]))
  }

  /** The end of a player item. Every loop observer is registered for the end of ANY
      item, so all of them run: every player the cell ever created is put back at
      position zero, playing and muted, and the bound clip's count is reset to 0,
      whatever they were before. With no observer registered nothing happens. */
  function LoopEnd(s: CellState): (r: CellState)
    ensures |s.players| == 0 ==> r == s
    ensures |r.players| == |s.players|
    ensures forall i :: 0 <= i < |r.players| ==>
      r.players[i].url == s.players[i].url && r.players[i].volume == 0
      && r.players[i].playing && r.players[i].position == 0
    ensures r.model.Some? <==> s.model.Some?
    ensures |s.players| > 0 && s.model.Some? ==>
      r.model.value == s.model.value.(volumeButtonTappedCount := 0)
    ensures r.labels == s.labels && r.layers == s.layers && r.effects == s.effects
    ensures r.likeSelected == s.likeSelected && r.hasDelegate == s.hasDelegate
  {
    if |s.players| == 0 then s
    else
      var ps := RestartAll(s.players);
      match s.model
      case None => s.(players := ps)
      case Some(m) => s.(players := ps, model := Some(m.(volumeButtonTappedCount := 0)))
  }

  /** didTapLikeButton, the synchronous part: with no bound clip nothing happens;
      otherwise the delegate is told first and then the user's like flags are queried. */
  function TapLike(s: CellState, signedIn: Option<string>): (r: CellState)
    ensures s.model.None? ==> r == s
    ensures s.model.Some? ==>
      && |r.effects| > |s.effects|
      && r.effects[..|s.effects|] == s.effects
      && Last(r.effects) == LikesQueried(UserKey(signedIn))
      && r.effects[|s.effects|..|r.effects| - 1] == Notify(s, LikeTapped(s.model.value))
    ensures r == s.(effects := r.effects)
  {
    match s.model
    case None => s
    case Some(m) =>
      s.(effects := s.effects + Notify(s, LikeTapped(m)) + [LikesQueried(UserKey(signedIn))])
  }

  /** The like decision taken from the fetched `likeButtonSelected` list: the button
      is unselected exactly when the list is the single flag "true". */
  function LikeSelected(flags: seq<string>): (selected: bool)
    ensures !selected <==> |flags| == 1 && flags[0] == "true"
  {
    flags != ["true"]
  }

  /** The like query's completion: an error changes nothing; fetched flags decide the
      like button alone, whatever it showed before. Nothing is written back. */
  function CompleteLikeQuery(s: CellState, result: QueryResult): (r: CellState)
    ensures result.QueryFailed? ==> r == s
    ensures result.FlagsFetched? ==> r.likeSelected == LikeSelected(result.flags)
    ensures r == s.(likeSelected := r.likeSelected)
  {
    match result
    case QueryFailed => s
    case FlagsFetched(flags) => s.(likeSelected := LikeSelected(flags))
  }

  /** didTapDetailsButton: a bound cell tells the delegate; nothing else changes. */
  function TapDetails(s: CellState): (r: CellState)
    ensures s.model.None? ==> r == s
    ensures s.model.Some? ==> r.effects == s.effects + Notify(s, DetailsTapped(s.model.value))
    ensures r == s.(effects := r.effects)
  {
    match s.model
    case None => s
    case Some(m) => s.(effects := s.effects + Notify(s, DetailsTapped(m)))
  }

  /** The owner assigns the weak `delegate`, or the delegate it held is released:
      only whether a delegate is attached changes. */
  function AttachDelegate(s: CellState, present: bool): (r: CellState)
    ensures r.hasDelegate == present
    ensures r == s.(hasDelegate := r.hasDelegate)
  {
    s.(hasDelegate := present)
  }

  /** The events a cell receives, from the collection view, the user, the media clock
      and the store. */
  datatype Event =
    | Bind(clip: VideoModel)
    | Reuse
    | VolumeTap
    | PlayedToEnd
    | LikeTap(signedIn: Option<string>)
    | LikeQueryDone(result: QueryResult)
    | DetailsTap
    | DelegateSet(present: bool)

  function Step(s: CellState, e: Event): CellState {
    match e
    case Bind(m) => Configure(s, m)
    case Reuse => PrepareForReuse(s)
    case VolumeTap => TapVolume(s)
    case PlayedToEnd => LoopEnd(s)
    case LikeTap(user) => TapLike(s, user)
    case LikeQueryDone(result) => CompleteLikeQuery(s, result)
    case DetailsTap => TapDetails(s)
    case DelegateSet(present) => AttachDelegate(s, present)
  }

  /** The state after handling `events` in order. */
  function Run(s: CellState, events: seq<Event>): CellState
    decreases |events|
  {
    if events == [] then s else Run(Step(s, events[0]), events[1..])
  }
}
