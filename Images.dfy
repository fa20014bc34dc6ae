/**
 * Image preloading (source/Images.ts). The object keeps the images still to
 * load (name to URL) and the images loaded (name to image); the browser's load
 * and error events are the two event methods, and the two listeners the
 * object was built with are recorded as notifications.
 */
module ImageLoading {
  import opened Outcomes

  datatype Notification = Finished | Error(message: string)

  /** What the error listener receives for a failed image. */
  function ErrorMessage(name: string): string {
    "Error while loading image " + name + "!"
  }

  class Images<Img> {
    var imagesToLoad: map<string, string>
    var loadedImages: map<string, Img>
    /** The names `startLoading` queued an image element for. */
    const queued: set<string>
    /** The calls made to `finishListener` and `errorListener`, in order. */
    var notifications: seq<Notification>

    /** Every queued image is either still pending or loaded, never both. */
    ghost predicate Valid()
      reads this
    {
      queued == imagesToLoad.Keys + loadedImages.Keys && imagesToLoad.Keys !! loadedImages.Keys
    }

    /** The constructor calls `startLoading`, which queues one image per entry. */
    constructor (imagesToLoad: map<string, string>)
      ensures this.imagesToLoad == imagesToLoad && loadedImages == map[]
      ensures queued == imagesToLoad.Keys && notifications == []
      ensures Valid()
    {
      this.imagesToLoad := imagesToLoad;
      loadedImages := map[];
      queued := imagesToLoad.Keys;
      notifications := [];
    }

    /** The load event of a queued image: it moves from pending to loaded, and
        the finish listener fires when nothing is left pending. */
    method OnImageLoaded(name: string, img: Img)
      requires name in queued
      modifies this`imagesToLoad, this`loadedImages, this`notifications
      ensures imagesToLoad == old(imagesToLoad) - {name}
      ensures loadedImages == old(loadedImages)[name := img]
      ensures notifications == old(notifications) + (if |imagesToLoad| == 0 then [Finished] else [])
      ensures old(Valid()) ==> Valid()
    {
      if Valid() {
        MovePreservesPartition(imagesToLoad, loadedImages, queued, name, img);
      }
      imagesToLoad := imagesToLoad - {name};
      loadedImages := loadedImages[name := img];
      if |imagesToLoad| == 0 {
        notifications := notifications + [Finished];
      }
    }

    /** The error event: reported through the error listener, nothing else changes. */
    method OnImageError(name: string)
      modifies this`notifications
      ensures notifications == old(notifications) + [Error(ErrorMessage(name))]
    {
      notifications := notifications + [Error(ErrorMessage(name))];
    }

    /** `getImage`: the loaded image, or `undefined` while it has not loaded. */
    function GetImage(name: string): (r: Option<Img>)
      reads this
      ensures r.Some? <==> name in loadedImages
      ensures r.Some? ==> r.value == loadedImages[name]
    {
      if name in loadedImages then Some(loadedImages[name]) else None
    }
  }

  /** In a consistent state nothing is left pending exactly when every queued
      image has loaded; so the finish listener fires on the load that completes
      the set, and only then. */
  lemma AllLoadedWhenNonePending<Img>(pending: map<string, string>, loaded: map<string, Img>, queued: set<string>)
    requires queued == pending.Keys + loaded.Keys && pending.Keys !! loaded.Keys
    ensures |pending| == 0 <==> loaded.Keys == queued
  {
    if |pending| != 0 {
      var n :| n in pending.Keys;
      assert n !in loaded.Keys;
    }
  }

  /** Moving a queued name from pending to loaded keeps the queued names split
      between the two maps. */
  lemma MovePreservesPartition<Img>(pending: map<string, string>, loaded: map<string, Img>,
                                    queued: set<string>, name: string, img: Img)
    requires name in queued
    requires queued == pending.Keys + loaded.Keys && pending.Keys !! loaded.Keys
    ensures queued == (pending - {name}).Keys + loaded[name := img].Keys
    ensures (pending - {name}).Keys !! loaded[name := img].Keys
  {
    assert (pending - {name}).Keys == pending.Keys - {name};
    assert loaded[name := img].Keys == loaded.Keys + {name};
  }

  /** With nothing to load, nothing is queued, so no load event can arrive (the
      load handler requires a queued name) and the finish listener, which only
      the load handler calls, never fires; both maps stay empty. */
  lemma NothingQueuedNothingLoaded<Img>(images: Images<Img>)
    requires images.queued == {} && images.Valid()
    ensures images.imagesToLoad == map[] && images.loadedImages == map[]
  {
    assert images.imagesToLoad.Keys == {};
    assert images.loadedImages.Keys == {};
  }
}
