/**
 * The animation lookup the particle engine calls back into: find a named
 * animation of a tile source and report its frame data in the engine's terms.
 */
module Animation {
  import opened ParticleTypes
  import opened Sequences

  /** `dmGameSystemDDF::Playback`, as the tile-source resource stores it. */
  datatype TilePlayback =
    | PlaybackNone
    | PlaybackOnceForward
    | PlaybackOnceBackward
    | PlaybackLoopForward
    | PlaybackLoopBackward
    | PlaybackLoopPingpong

  /** `dmParticle::AnimPlayback`, as the particle engine expects it. */
  datatype AnimPlayback =
    | AnimPlaybackNone
    | AnimPlaybackOnceForward
    | AnimPlaybackOnceBackward
    | AnimPlaybackLoopForward
    | AnimPlaybackLoopBackward
    | AnimPlaybackLoopPingpong

  /** One animation of a tile source (`dmGameSystemDDF::Animation`). */
  datatype TileAnimation = TileAnimation(
    fps: uint32,
    startTile: uint32,
    endTile: uint32,
    flipHorizontal: uint32,
    flipVertical: uint32,
    playback: TilePlayback)

  /** The parts of a loaded tile-set resource the lookup reads. */
  datatype TileSetResource = TileSetResource(
    texture: TextureHandle,
    texCoords: seq<real>,
    animationIds: seq<Hash>,
    animations: seq<TileAnimation>)

  /** `dmParticle::AnimationData`; `texCoords` stands for the pointer to the first texture coordinate. */
  datatype AnimationData = AnimationData(
    texture: TextureHandle,
    texCoords: seq<real>,
    fps: uint32,
    startTile: uint32,
    endTile: uint32,
    hFlip: uint32,
    vFlip: uint32,
    playback: AnimPlayback)

  datatype FetchAnimationResult = FetchAnimationOk | FetchAnimationNotFound | FetchAnimationUnknownError

  /** The playback switch: each tile-source playback mode to the engine's mode of the same name. */
  function EnginePlayback(p: TilePlayback): (r: AnimPlayback)
    ensures p == PlaybackNone <==> r == AnimPlaybackNone
    ensures p == PlaybackOnceForward <==> r == AnimPlaybackOnceForward
    ensures p == PlaybackOnceBackward <==> r == AnimPlaybackOnceBackward
    ensures p == PlaybackLoopForward <==> r == AnimPlaybackLoopForward
    ensures p == PlaybackLoopBackward <==> r == AnimPlaybackLoopBackward
    ensures p == PlaybackLoopPingpong <==> r == AnimPlaybackLoopPingpong
  {
    match p
    case PlaybackNone => AnimPlaybackNone
    case PlaybackOnceForward => AnimPlaybackOnceForward
    case PlaybackOnceBackward => AnimPlaybackOnceBackward
    case PlaybackLoopForward => AnimPlaybackLoopForward
    case PlaybackLoopBackward => AnimPlaybackLoopBackward
    case PlaybackLoopPingpong => AnimPlaybackLoopPingpong
  }

  /** The reverse direction of the playback switch. */
  function TilePlaybackOf(p: AnimPlayback): (r: TilePlayback)
  {
    match p
    case AnimPlaybackNone => PlaybackNone
    case AnimPlaybackOnceForward => PlaybackOnceForward
    case AnimPlaybackOnceBackward => PlaybackOnceBackward
    case AnimPlaybackLoopForward => PlaybackLoopForward
    case AnimPlaybackLoopBackward => PlaybackLoopBackward
    case AnimPlaybackLoopPingpong => PlaybackLoopPingpong
  }

  /** The playback switch is one-to-one and onto: the two directions undo each other. */
  lemma EnginePlaybackBijective(p: TilePlayback, q: AnimPlayback)
    ensures TilePlaybackOf(EnginePlayback(p)) == p
    ensures EnginePlayback(TilePlaybackOf(q)) == q
  {
  }

  /**
   * The frame data reported for the animation at index `i` of a tile source:
   * the resource's texture and coordinates, the animation's rate, tile range
   * and flips, and its playback in the engine's terms.
   */
  function AnimationDataAt(tileSet: TileSetResource, i: nat): (r: AnimationData)
    requires i < |tileSet.animations|
    ensures r.texture == tileSet.texture && r.texCoords == tileSet.texCoords
    ensures r.fps == tileSet.animations[i].fps
    ensures r.startTile == tileSet.animations[i].startTile && r.endTile == tileSet.animations[i].endTile
    ensures r.hFlip == tileSet.animations[i].flipHorizontal && r.vFlip == tileSet.animations[i].flipVertical
    ensures TilePlaybackOf(r.playback) == tileSet.animations[i].playback
  {
    var a := tileSet.animations[i];
    AnimationData(tileSet.texture, tileSet.texCoords, a.fps, a.startTile, a.endTile,
                  a.flipHorizontal, a.flipVertical, EnginePlayback(a.playback))
  }

  /** The `~0u` "no animation" index. */
  const NO_ANIMATION_INDEX: nat := 0xFFFF_FFFF

  /**
   * `FetchAnimationCallback`: scan the animation ids for the first one equal to
   * `animation`. A miss is NOT_FOUND; a hit on a resource without texture
   * coordinates is UNKNOWN_ERROR; both leave `outData` as it was. A hit
   * otherwise is OK and fills `outData` from the matching animation.
   */
  method FetchAnimation(tileSet: TileSetResource, animation: Hash, outData: AnimationData)
      returns (result: FetchAnimationResult, data: AnimationData)
    requires |tileSet.animationIds| < 0x1_0000_0000
    requires |tileSet.animationIds| <= |tileSet.animations|
    ensures result == FetchAnimationNotFound <==> animation !in tileSet.animationIds
    ensures result == FetchAnimationUnknownError <==>
      animation in tileSet.animationIds && |tileSet.texCoords| == 0
    ensures result != FetchAnimationOk ==> data == outData
    ensures result == FetchAnimationOk ==>
      match FirstIndex(tileSet.animationIds, animation)
      case Some(i) => data == AnimationDataAt(tileSet, i)
      case None => false
  {
    var animCount := |tileSet.animationIds|;
    var animIndex := NO_ANIMATION_INDEX;
    var i := 0;
    while i < animCount
      invariant 0 <= i <= animCount
      invariant forall j :: 0 <= j < i ==> tileSet.animationIds[j] != animation
      invariant animIndex == NO_ANIMATION_INDEX
    {
      if tileSet.animationIds[i] == animation {
        animIndex := i;
        break;
      }
      i := i + 1;
    }
    data := outData;
    if animIndex != NO_ANIMATION_INDEX {
      FirstIndexUnique(tileSet.animationIds, animation, animIndex);
      if |tileSet.texCoords| == 0 {
        return FetchAnimationUnknownError, data;
      }
      var a := tileSet.animations[animIndex];
      data := data.(texture := tileSet.texture, texCoords := tileSet.texCoords);
      data := data.(fps := a.fps, startTile := a.startTile, endTile := a.endTile);
      data := data.(hFlip := a.flipHorizontal, vFlip := a.flipVertical);
      data := data.(playback := EnginePlayback(a.playback));
      result := FetchAnimationOk;
    } else {
      result := FetchAnimationNotFound;
    }
  }
}
