/**
 * The id -> asset lookup table of the running game (`CurrentGameModel`).
 * Loaded assets are reduced to what the presentation logic reads: an image's
 * sprite handle and whether an audio asset is a looping background track.
 */
module GameModel {
  import opened Wrappers

  /** A loaded image: only its sprite handle matters to the interpreter. */
  datatype LoadedImage = LoadedImage(sprite: int)

  /** A loaded audio asset: only `IsBgm` of its read model is carried over. */
  datatype LoadedAudio = LoadedAudio(isBgm: bool)

  /** Lookup that yields `None` for an unknown id (the interpreter's `GetAudio`/`GetImage`). */
  function Lookup<V>(m: map<int, V>, id: int): (r: Option<V>)
    ensures r.Some? <==> id in m
    ensures r.Some? ==> r.value == m[id]
  {
    if id in m then Some(m[id]) else None
  }

  class CurrentGameModel {
    /** Fixed at construction; there is no setter. */
    const gameCode: string
    var images: map<int, LoadedImage>
    var audios: map<int, LoadedAudio>
    var disposedValue: bool

    constructor (gameCode: string)
      ensures this.gameCode == gameCode
      ensures images == map[] && audios == map[]
      ensures !disposedValue
    {
      this.gameCode := gameCode;
      images := map[];
      audios := map[];
      disposedValue := false;
    }

    /** Read-only view of exactly the image table. */
    function LoadedImages(): (m: map<int, LoadedImage>)
      reads this
      ensures forall id :: Lookup(m, id) == Lookup(images, id)
    {
      images
    }

    /** Read-only view of exactly the audio table. */
    function LoadedAudios(): (m: map<int, LoadedAudio>)
      reads this
      ensures forall id :: Lookup(m, id) == Lookup(audios, id)
    {
      audios
    }

    /** `_images[id] = model`: insert or overwrite one entry. */
    method AddImage(id: int, model: LoadedImage)
      modifies this
      ensures Lookup(images, id) == Some(model)
      ensures forall other :: other != id ==> Lookup(images, other) == Lookup(old(images), other)
      ensures images.Keys == old(images).Keys + {id}
      ensures audios == old(audios) && disposedValue == old(disposedValue)
    {
      images := images[id := model];
    }

    /** `_audios[id] = model`: insert or overwrite one entry. */
    method AddAudio(id: int, model: LoadedAudio)
      modifies this
      ensures Lookup(audios, id) == Some(model)
      ensures forall other :: other != id ==> Lookup(audios, other) == Lookup(old(audios), other)
      ensures audios.Keys == old(audios).Keys + {id}
      ensures images == old(images) && disposedValue == old(disposedValue)
    {
      audios := audios[id := model];
    }

    /** Sets `disposedValue` the first time; later calls change nothing. */
    method Dispose()
      modifies this
      ensures disposedValue
      ensures images == old(images) && audios == old(audios)
      ensures old(disposedValue) ==> unchanged(this)
    {
      if !disposedValue {
        disposedValue := true;
      }
    }
  }
}
