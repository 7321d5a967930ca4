/** The device-local photo store (`photoService`): gallery photos and one main image per
    entity `(entityType, entityId)`, kept under string keys of the persistent key-value
    store. Values are held already parsed, so the JSON text round trip is not modelled. */
module PhotoService {
  import opened Wrappers
  import JsText
  import Lists

  const PhotosKeyPrefix: string := "photos_"
  const MainImageKeyPrefix: string := "main_image_"
  const JpegDataUriPrefix: string := "data:image/jpeg;base64,"

  /** A gallery photo record. */
  datatype Photo = Photo(id: string, entityType: string, entityId: string, imageData: string,
                         fileName: string, uploadDate: string, isMainImage: bool)

  /** The main-image record of an entity. */
  datatype ImageRecord = ImageRecord(entityType: string, entityId: string, imageData: string,
                                     fileName: string, uploadDate: string)

  /** The value stored under one key: a gallery, a main image, or text some other part of
      the app stored (the session token, for one). */
  datatype Stored = Gallery(photos: seq<Photo>) | MainImage(image: ImageRecord) | Text(raw: string)

  /** What the platform supplies to one call: the base64 payload of the resized JPEG
      (`None` when resizing or reading the file throws), the two `Date.now()` readings, the
      ISO date, the random id suffix, and whether the storage calls succeed. */
  datatype Io = Io(base64: Option<string>, idMillis: string, nameMillis: string,
                   isoDate: string, randomSuffix: string, storageOk: bool)

  /** Why a mutator threw. */
  datatype Failure = TranscodeFailed | StorageFailed

  /** `{ success: true }` */
  datatype DeleteResponse = DeleteResponse(success: bool)

  function GalleryKey(entityType: string, entityId: string): string {
    PhotosKeyPrefix + entityType + "_" + entityId
  }

  function MainImageKey(entityType: string, entityId: string): string {
    MainImageKeyPrefix + entityType + "_" + entityId
  }

  function PhotoIdOf(p: Photo): string { p.id }

  /** The gallery a store holds under `key`, `[]` when the key is absent. */
  function GalleryIn(m: map<string, Stored>, key: string): seq<Photo> {
    if key in m && m[key].Gallery? then m[key].photos else []
  }

  /** The main image a store holds under `key`, `None` when the key is absent. */
  function MainImageIn(m: map<string, Stored>, key: string): Option<ImageRecord> {
    if key in m && m[key].MainImage? then Some(m[key].image) else None
  }

  /** The service's key discipline: a key under the gallery prefix holds a gallery and a key
      under the main-image prefix holds a main image. */
  ghost predicate WellKeyed(m: map<string, Stored>) {
    forall k :: k in m ==> (PhotosKeyPrefix <= k ==> m[k].Gallery?) &&
                           (MainImageKeyPrefix <= k ==> m[k].MainImage?)
  }

  predicate NoUnderscore(s: string) {
    forall k :: 0 <= k < |s| ==> s[k] != '_'
  }

  /** Each key starts with its own prefix and not with the other one. */
  lemma KeyPrefixes(entityType: string, entityId: string)
    ensures PhotosKeyPrefix <= GalleryKey(entityType, entityId)
    ensures !(MainImageKeyPrefix <= GalleryKey(entityType, entityId))
    ensures MainImageKeyPrefix <= MainImageKey(entityType, entityId)
    ensures !(PhotosKeyPrefix <= MainImageKey(entityType, entityId))
  {
    var g := GalleryKey(entityType, entityId);
    var m := MainImageKey(entityType, entityId);
    assert g[..|PhotosKeyPrefix|] == PhotosKeyPrefix;
    assert m[..|MainImageKeyPrefix|] == MainImageKeyPrefix;
    assert g[0] == 'p' && m[0] == 'm';
  }

  /** No gallery key is ever a main-image key. */
  lemma KeysNeverCollide(t1: string, i1: string, t2: string, i2: string)
    ensures GalleryKey(t1, i1) != MainImageKey(t2, i2)
  {
    KeyPrefixes(t1, i1);
    KeyPrefixes(t2, i2);
  }

  /** In `t + "_" + i`, with no underscore in `t`, the first underscore is at index `|t|`. */
  lemma FirstUnderscoreAt(t: string, i: string)
    requires NoUnderscore(t)
    ensures (t + "_" + i)[|t|] == '_'
    ensures forall k :: 0 <= k < |t| ==> (t + "_" + i)[k] != '_'
  {
  }

  /** `t + "_" + i` determines `t` and `i` when `t` holds no underscore. */
  lemma SplitAtFirstUnderscore(t1: string, i1: string, t2: string, i2: string)
    requires NoUnderscore(t1) && NoUnderscore(t2)
    requires t1 + "_" + i1 == t2 + "_" + i2
    ensures t1 == t2 && i1 == i2
  {
    var s := t1 + "_" + i1;
    FirstUnderscoreAt(t1, i1);
    FirstUnderscoreAt(t2, i2);
    assert |t1| == |t2|;
    assert t1 == s[..|t1|] == t2;
    assert i1 == s[|t1| + 1..] == i2;
  }

  /** Distinct entities whose type holds no underscore get distinct keys. */
  lemma KeysInjective(t1: string, i1: string, t2: string, i2: string)
    requires NoUnderscore(t1) && NoUnderscore(t2)
    requires t1 != t2 || i1 != i2
    ensures GalleryKey(t1, i1) != GalleryKey(t2, i2)
    ensures MainImageKey(t1, i1) != MainImageKey(t2, i2)
  {
    if GalleryKey(t1, i1) == GalleryKey(t2, i2) {
      assert GalleryKey(t1, i1)[|PhotosKeyPrefix|..] == t1 + "_" + i1;
      assert GalleryKey(t2, i2)[|PhotosKeyPrefix|..] == t2 + "_" + i2;
      SplitAtFirstUnderscore(t1, i1, t2, i2);
    }
    if MainImageKey(t1, i1) == MainImageKey(t2, i2) {
      assert MainImageKey(t1, i1)[|MainImageKeyPrefix|..] == t1 + "_" + i1;
      assert MainImageKey(t2, i2)[|MainImageKeyPrefix|..] == t2 + "_" + i2;
      SplitAtFirstUnderscore(t1, i1, t2, i2);
    }
  }

  /** Keys are plain concatenations: an underscore in the entity type lets two distinct
      entities share a gallery. */
  lemma KeysCollideWithUnderscore()
    ensures GalleryKey("A_B", "C") == GalleryKey("A", "B_C")
    ensures MainImageKey("A_B", "C") == MainImageKey("A", "B_C")
  {
  }

  /** Writing one entity's gallery leaves every other entity's gallery as it was. */
  lemma GalleryIsolation(m: map<string, Stored>, t1: string, i1: string, v: Stored,
                         t2: string, i2: string)
    requires NoUnderscore(t1) && NoUnderscore(t2)
    requires t1 != t2 || i1 != i2
    ensures GalleryIn(m[GalleryKey(t1, i1) := v], GalleryKey(t2, i2)) == GalleryIn(m, GalleryKey(t2, i2))
  {
    KeysInjective(t1, i1, t2, i2);
  }

  /** Writing a main image never changes any gallery. */
  lemma MainImageWriteKeepsGalleries(m: map<string, Stored>, t: string, i: string,
                                     rec: ImageRecord, t2: string, i2: string)
    ensures GalleryIn(m[MainImageKey(t, i) := MainImage(rec)], GalleryKey(t2, i2)) == GalleryIn(m, GalleryKey(t2, i2))
  {
    KeysNeverCollide(t2, i2, t, i);
  }

  /** Writing a gallery never changes any main image. */
  lemma GalleryWriteKeepsMainImages(m: map<string, Stored>, t: string, i: string,
                                    photos: seq<Photo>, t2: string, i2: string)
    ensures MainImageIn(m[GalleryKey(t, i) := Gallery(photos)], MainImageKey(t2, i2)) == MainImageIn(m, MainImageKey(t2, i2))
  {
    KeysNeverCollide(t, i, t2, i2);
  }

  /** Deleting the photo an upload just appended gives back the gallery from before the
      upload, when its id was new to that gallery. */
  lemma UploadThenDeleteRestores(m: map<string, Stored>, key: string, p: Photo)
    requires forall k :: 0 <= k < |GalleryIn(m, key)| ==> GalleryIn(m, key)[k].id != p.id
    ensures var m1 := m[key := Gallery(GalleryIn(m, key) + [p])];
            Lists.RemoveById(GalleryIn(m1, key), PhotoIdOf, p.id) == GalleryIn(m, key)
  {
    Lists.RemoveByIdAppended(GalleryIn(m, key), p, PhotoIdOf);
  }

  /** Appending a photo with a new id keeps the gallery's ids pairwise distinct. */
  lemma AppendKeepsIdsDistinct(photos: seq<Photo>, p: Photo)
    requires forall j, k :: 0 <= j < k < |photos| ==> photos[j].id != photos[k].id
    requires forall k :: 0 <= k < |photos| ==> photos[k].id != p.id
    ensures var ps := photos + [p]; forall j, k :: 0 <= j < k < |ps| ==> ps[j].id != ps[k].id
  {
  }

  /** The persistent key-value store as the photo service sees it. */
  class PhotoStore {
    var store: map<string, Stored>

    ghost predicate Valid()
      reads this
    {
      WellKeyed(store)
    }

    /** The gallery of an entity, as `getEntityPhotos` reads it when storage works. */
    ghost function Photos(entityType: string, entityId: string): seq<Photo>
      reads this
    {
      GalleryIn(store, GalleryKey(entityType, entityId))
    }

    /** The main image of an entity, as `getMainImage` reads it when storage works. */
    ghost function MainImageOf(entityType: string, entityId: string): Option<ImageRecord>
      reads this
    {
      MainImageIn(store, MainImageKey(entityType, entityId))
    }

    /** The store as the device holds it when the app starts. */
    constructor (initial: map<string, Stored>)
      requires WellKeyed(initial)
      ensures Valid() && store == initial
    {
      store := initial;
    }

    /** `uploadPhoto(entityType, entityId, photoData)`: builds the photo record and appends it
        to the entity's gallery (read, append, write back). Errors are rethrown. */
    method UploadPhoto(entityType: string, entityId: string, io: Io) returns (r: Result<Photo, Failure>)
      requires Valid()
      modifies this
      ensures Valid()
      ensures r.Success? <==> io.base64.Some? && io.storageOk
      ensures r.Failure? ==> store == old(store)
      ensures r.Success? ==>
        store == old(store)[GalleryKey(entityType, entityId) :=
                            Gallery(old(Photos(entityType, entityId)) + [r.value])]
      ensures r.Success? ==> Photos(entityType, entityId) == old(Photos(entityType, entityId)) + [r.value]
      ensures r.Success? ==> r.value.id == "photo_" + io.idMillis + "_" + io.randomSuffix
      ensures r.Success? ==> !r.value.isMainImage
      ensures r.Success? ==> r.value.entityType == entityType && r.value.entityId == entityId
      ensures r.Success? ==> r.value.imageData == JpegDataUriPrefix + io.base64.value
      ensures r.Success? ==>
        r.value.fileName == JsText.Lower(entityType) + "_photo_" + io.nameMillis + ".jpg"
      ensures r.Success? ==> r.value.uploadDate == io.isoDate
    {
      if io.base64.None? {
        return Failure(TranscodeFailed);
      }
      var photo := Photo("photo_" + io.idMillis + "_" + io.randomSuffix, entityType, entityId,
                         JpegDataUriPrefix + io.base64.value,
                         JsText.Lower(entityType) + "_photo_" + io.nameMillis + ".jpg",
                         io.isoDate, false);
      var key := GalleryKey(entityType, entityId);
      if !io.storageOk {
        return Failure(StorageFailed);
      }
      KeyPrefixes(entityType, entityId);
      var existing: seq<Photo> := [];
      if key in store {
        existing := store[key].photos;
      }
      store := store[key := Gallery(existing + [photo])];
      r := Success(photo);
    }

    /** `getEntityPhotos(entityType, entityId)`: the stored gallery, `[]` when the key is
        absent or reading fails. Never throws. */
    method GetEntityPhotos(entityType: string, entityId: string, storageOk: bool) returns (photos: seq<Photo>)
      requires Valid()
      ensures photos == if storageOk then Photos(entityType, entityId) else []
    {
      if !storageOk {
        return [];
      }
      var key := GalleryKey(entityType, entityId);
      KeyPrefixes(entityType, entityId);
      photos := [];
      if key in store {
        photos := store[key].photos;
      }
    }

    /** `deletePhoto(photoId, entityType, entityId)`: writes back the gallery without the
        photos whose id is `photoId` (an empty gallery when the key was absent) and reports
        success whether or not anything matched. Errors are rethrown. */
    method DeletePhoto(photoId: string, entityType: string, entityId: string, storageOk: bool)
      returns (r: Result<DeleteResponse, Failure>)
      requires Valid()
      modifies this
      ensures Valid()
      ensures r.Success? <==> storageOk
      ensures r.Success? ==> r.value.success
      ensures r.Failure? ==> store == old(store)
      ensures r.Success? ==>
        store == old(store)[GalleryKey(entityType, entityId) :=
                            Gallery(Lists.RemoveById(old(Photos(entityType, entityId)), PhotoIdOf, photoId))]
    {
      var key := GalleryKey(entityType, entityId);
      if !storageOk {
        return Failure(StorageFailed);
      }
      KeyPrefixes(entityType, entityId);
      var photos: seq<Photo> := [];
      if key in store {
        photos := store[key].photos;
      }
      store := store[key := Gallery(Lists.RemoveById(photos, PhotoIdOf, photoId))];
      r := Success(DeleteResponse(true));
    }

    /** `setMainImage(entityType, entityId, photoData)`: replaces the entity's main image
        (last write wins). Errors are rethrown. */
    method SetMainImage(entityType: string, entityId: string, io: Io) returns (r: Result<ImageRecord, Failure>)
      requires Valid()
      modifies this
      ensures Valid()
      ensures r.Success? <==> io.base64.Some? && io.storageOk
      ensures r.Failure? ==> store == old(store)
      ensures r.Success? ==> store == old(store)[MainImageKey(entityType, entityId) := MainImage(r.value)]
      ensures r.Success? ==> MainImageOf(entityType, entityId) == Some(r.value)
      ensures r.Success? ==> r.value.entityType == entityType && r.value.entityId == entityId
      ensures r.Success? ==> r.value.imageData == JpegDataUriPrefix + io.base64.value
      ensures r.Success? ==>
        r.value.fileName == JsText.Lower(entityType) + "_main_image_" + io.nameMillis + ".jpg"
      ensures r.Success? ==> r.value.uploadDate == io.isoDate
    {
      if io.base64.None? {
        return Failure(TranscodeFailed);
      }
      var image := ImageRecord(entityType, entityId, JpegDataUriPrefix + io.base64.value,
                               JsText.Lower(entityType) + "_main_image_" + io.nameMillis + ".jpg",
                               io.isoDate);
      if !io.storageOk {
        return Failure(StorageFailed);
      }
      KeyPrefixes(entityType, entityId);
      store := store[MainImageKey(entityType, entityId) := MainImage(image)];
      r := Success(image);
    }

    /** `getMainImage(entityType, entityId)`: the stored main image, `None` (`null`) when the
        key is absent or reading fails. Never throws. */
    method GetMainImage(entityType: string, entityId: string, storageOk: bool) returns (r: Option<ImageRecord>)
      requires Valid()
      ensures r == if storageOk then MainImageOf(entityType, entityId) else None
    {
      if !storageOk {
        return None;
      }
      var key := MainImageKey(entityType, entityId);
      KeyPrefixes(entityType, entityId);
      r := None;
      if key in store {
        r := Some(store[key].image);
      }
    }
  }
}
