/** The letter record reconciler (`POST /api/letters`) and the letter listing (`GET /api/letters`).

    A letter is stored as one JSON object at `letters/{ornamentId}.json`. A POST starts
    from a default record, overlays the stored letter when the route's own per-letter GET
    returned it, overrides only the fields the form actually supplies, refreshes `updatedAt`
    and writes the result back. When that fetch fails the merge starts from the defaults
    alone, and the write replaces the stored letter with it. */
module Letters {
  import opened Common

  /** A JSON value as far as the merge cares: null, a string, or anything else (kept opaque). */
  datatype Json = JNull | JString(str: string) | JOther(text: string)

  /** The JSON names of the eleven fields the POST handler names. */
  const NamedFields: set<string> := {
    "id", "ornamentName", "story", "podcastScript", "emotion",
    "imageUrl", "asset3dUrl", "podcastUrl", "bgmUrl", "createdAt", "updatedAt" }

  /** The name of any other field a stored letter may carry. */
  type ExtraName = s: string | s !in NamedFields witness ""

  /** The fields of a letter. The POST handler names eleven of them; a stored letter may carry
      any other field as well, kept under its own name, which is never one of the eleven. */
  datatype Field =
    | Id | OrnamentName | Story | PodcastScript | Emotion
    | ImageUrl | Asset3dUrl | PodcastUrl | BgmUrl | CreatedAt | UpdatedAt
    | Extra(name: ExtraName)

  /** A JSON object; its object spread `{...a, ...b}` is the map union `a + b`. */
  type Record = map<Field, Json>

  /** What a key in the blob store holds: a JSON letter, or an uploaded media file. */
  datatype Blob = JsonBlob(record: Record) | MediaBlob(fileName: string)

  /** A `File` part of the form, known by its file name. */
  datatype Upload = Upload(name: string)

  /** The multipart form: `formData.get(...)` is `None` when the part is absent. */
  datatype Form = Form(
    ornamentId: Option<string>,
    ornamentName: Option<string>,
    story: Option<string>,
    podcastScript: Option<string>,
    emotion: Option<string>,
    imageUrl: Option<string>,
    image: Option<Upload>,
    asset3d: Option<Upload>,
    podcast: Option<Upload>,
    bgm: Option<Upload>)

  datatype PostResponse =
    | Saved(data: Record)          // 200 `{ success: true, data }`
    | BadRequest(error: string)    // 400 `{ success: false, error }`

  datatype GetResponse =
    | Letters(data: seq<Record>)   // 200 `{ success: true, data }`
    | FetchFailed                  // 500: a listed blob did not read back as JSON

  /** A string form value in a boolean position: present and not empty. */
  predicate Truthy(v: Option<string>) {
    v.Some? && v.value != ""
  }

  /** The fields of the default record, which every merged record therefore has. */
  const DefaultKeys: set<Field> := {
    Id, OrnamentName, Story, PodcastScript, Emotion,
    ImageUrl, Asset3dUrl, PodcastUrl, BgmUrl, CreatedAt, UpdatedAt }

  function Defaults(id: string, now: string): Record {
    map[
      Id := JString(id),
      OrnamentName := JString(""), Story := JString(""),
      PodcastScript := JString(""), Emotion := JString(""),
      ImageUrl := JNull, Asset3dUrl := JNull, PodcastUrl := JNull, BgmUrl := JNull,
      CreatedAt := JString(now), UpdatedAt := JString(now)]
  }

  /** `existingData`: the defaults, overlaid field by field by the stored letter when it was fetched. */
  function Start(id: string, existing: Option<Record>, now: string): (r: Record)
    ensures DefaultKeys <= r.Keys
  {
    match existing
    case None => Defaults(id, now)
    case Some(stored) => Defaults(id, now) + stored
  }

  /** With nothing fetched the merge starts from the defaults; a fetched letter overlays the
      defaults field by field, and the defaults fill only the fields it lacks. */
  lemma StartOverlay(id: string, existing: Option<Record>, now: string)
    ensures existing.None? ==> Start(id, existing, now) == Defaults(id, now)
    ensures existing.Some? ==> Start(id, existing, now).Keys == DefaultKeys + existing.value.Keys
    ensures existing.Some? ==> forall k :: k in existing.value ==> Start(id, existing, now)[k] == existing.value[k]
    ensures existing.Some? ==> forall k :: k in DefaultKeys && k !in existing.value ==> Start(id, existing, now)[k] == Defaults(id, now)[k]
  {
  }

  /** The key of a letter's JSON record. */
  function LetterKey(id: string): string {
    "letters/" + id + ".json"
  }

  /** The key of an uploaded media file: `{folder}/{id}_{timestamp}_{file name}`. */
  function MediaKey(folder: string, id: string, timestamp: nat, fileName: string): string {
    folder + "/" + id + "_" + NatToString(timestamp) + "_" + fileName
  }

  /** A text field: `incoming || existing`. */
  function TextOr(incoming: Option<string>, existing: Json): Json {
    if Truthy(incoming) then JString(incoming.value) else existing
  }

  /** A media field: the URL of a fresh upload, otherwise the previous value. */
  function UploadOr(upload: Option<Upload>, folder: string, id: string, timestamp: nat, base: string, existing: Json): Json {
    if upload.Some? then JString(base + MediaKey(folder, id, timestamp, upload.value.name)) else existing
  }

  /** The image field: a fresh upload, else the form's `imageUrl`, else the previous value. */
  function ImageOr(form: Form, id: string, timestamp: nat, base: string, existing: Json): Json {
    if form.image.Some? then UploadOr(form.image, "images", id, timestamp, base, existing)
    else TextOr(form.imageUrl, existing)
  }

  /** The fields a POST manages itself; every other field of `existingData` is carried over. */
  const ManagedKeys: set<Field> := {
    Id, OrnamentName, Story, PodcastScript, Emotion,
    ImageUrl, Asset3dUrl, PodcastUrl, BgmUrl, UpdatedAt }

  /** The text fields, resolved by `incoming || existing`. */
  const TextKeys: set<Field> := {OrnamentName, Story, PodcastScript, Emotion}

  /** `{ ...existingData, id, ornamentName, story, podcastScript, emotion, imageUrl,
      asset3dUrl, podcastUrl, bgmUrl, updatedAt }`: the managed fields take the given values,
      every other field of `existingData` is carried over. */
  function LetterData(existingData: Record, id: string, ornamentName: Json, story: Json, podcastScript: Json,
                      emotion: Json, imageUrl: Json, asset3dUrl: Json, podcastUrl: Json, bgmUrl: Json,
                      now: string): (r: Record)
    ensures r.Keys == existingData.Keys + ManagedKeys
    ensures r[Id] == JString(id) && r[UpdatedAt] == JString(now)
    ensures r[OrnamentName] == ornamentName && r[Story] == story
    ensures r[PodcastScript] == podcastScript && r[Emotion] == emotion
    ensures r[ImageUrl] == imageUrl && r[Asset3dUrl] == asset3dUrl
    ensures r[PodcastUrl] == podcastUrl && r[BgmUrl] == bgmUrl
    ensures forall k :: k in existingData && k !in ManagedKeys ==> r[k] == existingData[k]
  {
    existingData
      [Id := JString(id)]
      [OrnamentName := ornamentName]
      [Story := story]
      [PodcastScript := podcastScript]
      [Emotion := emotion]
      [ImageUrl := imageUrl]
      [Asset3dUrl := asset3dUrl]
      [PodcastUrl := podcastUrl]
      [BgmUrl := bgmUrl]
      [UpdatedAt := JString(now)]
  }

  /** The record `POST` writes for `id`: the stored letter (over the defaults) with every
      managed field resolved from the form. */
  function SavedRecord(form: Form, id: string, existing: Option<Record>, now: string, timestamp: nat, base: string): (r: Record)
    // no field is added beyond the defaults and the stored fields, and none is dropped
    ensures r.Keys == Start(id, existing, now).Keys
    ensures r[Id] == JString(id)
    ensures r[UpdatedAt] == JString(now)
  {
    var start := Start(id, existing, now);
    assert ManagedKeys <= DefaultKeys && CreatedAt !in ManagedKeys;
    LetterData(start, id,
      TextOr(form.ornamentName, start[OrnamentName]),
      TextOr(form.story, start[Story]),
      TextOr(form.podcastScript, start[PodcastScript]),
      TextOr(form.emotion, start[Emotion]),
      ImageOr(form, id, timestamp, base, start[ImageUrl]),
      UploadOr(form.asset3d, "3d-assets", id, timestamp, base, start[Asset3dUrl]),
      UploadOr(form.podcast, "podcasts", id, timestamp, base, start[PodcastUrl]),
      UploadOr(form.bgm, "bgm", id, timestamp, base, start[BgmUrl]),
      now)
  }

  /** `createdAt` comes through unchanged, or is set on the first save. */
  lemma SavedRecordCreatedAt(form: Form, id: string, existing: Option<Record>, now: string, timestamp: nat, base: string)
    ensures var r := SavedRecord(form, id, existing, now, timestamp, base);
      && (existing.Some? && CreatedAt in existing.value ==> r[CreatedAt] == existing.value[CreatedAt])
      && (existing.Some? && CreatedAt !in existing.value ==> r[CreatedAt] == JString(now))
      && (existing.None? ==> r[CreatedAt] == JString(now))
  {
    assert CreatedAt !in ManagedKeys;
  }

  /** `createdAt` and every field the form does not manage come through unchanged. */
  lemma SavedRecordCarriesUnmanaged(form: Form, id: string, existing: Option<Record>, now: string, timestamp: nat, base: string)
    ensures var r := SavedRecord(form, id, existing, now, timestamp, base);
      forall k :: k in r && k !in ManagedKeys ==> r[k] == Start(id, existing, now)[k]
  {
  }

  /** The media fields: an uploaded file's URL first; for the image, then the form's
      `imageUrl`; otherwise the previous value. */
  lemma SavedRecordMedia(form: Form, id: string, existing: Option<Record>, now: string, timestamp: nat, base: string)
    ensures var r := SavedRecord(form, id, existing, now, timestamp, base);
      var start := Start(id, existing, now);
      && (form.image.Some? ==> r[ImageUrl] == JString(base + MediaKey("images", id, timestamp, form.image.value.name)))
      && (form.image.None? && Truthy(form.imageUrl) ==> r[ImageUrl] == JString(form.imageUrl.value))
      && (form.image.None? && !Truthy(form.imageUrl) ==> r[ImageUrl] == start[ImageUrl])
      && (form.asset3d.Some? ==> r[Asset3dUrl] == JString(base + MediaKey("3d-assets", id, timestamp, form.asset3d.value.name)))
      && (form.asset3d.None? ==> r[Asset3dUrl] == start[Asset3dUrl])
      && (form.podcast.Some? ==> r[PodcastUrl] == JString(base + MediaKey("podcasts", id, timestamp, form.podcast.value.name)))
      && (form.podcast.None? ==> r[PodcastUrl] == start[PodcastUrl])
      && (form.bgm.Some? ==> r[BgmUrl] == JString(base + MediaKey("bgm", id, timestamp, form.bgm.value.name)))
      && (form.bgm.None? ==> r[BgmUrl] == start[BgmUrl])
  {
  }

  /** A text field takes a non-empty incoming value and otherwise keeps the stored one. */
  lemma SavedRecordText(form: Form, id: string, existing: Option<Record>, now: string, timestamp: nat, base: string)
    ensures var r := SavedRecord(form, id, existing, now, timestamp, base);
      var start := Start(id, existing, now);
      && r[OrnamentName] == (if Truthy(form.ornamentName) then JString(form.ornamentName.value) else start[OrnamentName])
      && r[Story] == (if Truthy(form.story) then JString(form.story.value) else start[Story])
      && r[PodcastScript] == (if Truthy(form.podcastScript) then JString(form.podcastScript.value) else start[PodcastScript])
      && r[Emotion] == (if Truthy(form.emotion) then JString(form.emotion.value) else start[Emotion])
  {
  }

  /** A media URL that is set in the starting record is never reset to null by a POST; in
      particular a generated 3D asset survives a later submission whose fetch of the stored
      letter returns it (a failed fetch starts from the defaults instead). */
  lemma NoMediaReset(form: Form, id: string, existing: Option<Record>, now: string, timestamp: nat, base: string)
    ensures var start := Start(id, existing, now);
      var r := SavedRecord(form, id, existing, now, timestamp, base);
      && (start[Asset3dUrl] != JNull ==> r[Asset3dUrl] != JNull)
      && (start[ImageUrl] != JNull ==> r[ImageUrl] != JNull)
      && (start[PodcastUrl] != JNull ==> r[PodcastUrl] != JNull)
      && (start[BgmUrl] != JNull ==> r[BgmUrl] != JNull)
  {
    SavedRecordMedia(form, id, existing, now, timestamp, base);
  }

  /** An absent or empty text value never clears a stored text: a non-empty field stays non-empty. */
  lemma NoTextCleared(form: Form, id: string, existing: Option<Record>, now: string, timestamp: nat, base: string)
    ensures var start := Start(id, existing, now);
      var r := SavedRecord(form, id, existing, now, timestamp, base);
      && (start[OrnamentName] != JString("") ==> r[OrnamentName] != JString(""))
      && (start[Story] != JString("") ==> r[Story] != JString(""))
      && (start[PodcastScript] != JString("") ==> r[PodcastScript] != JString(""))
      && (start[Emotion] != JString("") ==> r[Emotion] != JString(""))
  {
    SavedRecordText(form, id, existing, now, timestamp, base);
  }

  function UploadBlob(upload: Option<Upload>, folder: string, id: string, timestamp: nat): map<string, Blob> {
    if upload.Some? then map[MediaKey(folder, id, timestamp, upload.value.name) := MediaBlob(upload.value.name)] else map[]
  }

  /** The store after the media uploads of a POST, in the handler's order: each present file
      under its `{folder}/{id}_{timestamp}_{name}` key. */
  function WithUploads(blobs: map<string, Blob>, form: Form, id: string, timestamp: nat): map<string, Blob> {
    blobs
    + UploadBlob(form.image, "images", id, timestamp)
    + UploadBlob(form.asset3d, "3d-assets", id, timestamp)
    + UploadBlob(form.podcast, "podcasts", id, timestamp)
    + UploadBlob(form.bgm, "bgm", id, timestamp)
  }

  /** The blob store: keys to blobs. A stored blob's public URL is `base` followed by its key. */
  class BlobStore {
    var blobs: map<string, Blob>
    const base: string

    constructor (base: string, blobs: map<string, Blob>)
      ensures this.base == base && this.blobs == blobs
    {
      this.base := base;
      this.blobs := blobs;
    }

    /** `put(key, body, { allowOverwrite })`: stores the blob and returns its URL. */
    method Put(key: string, blob: Blob) returns (url: string)
      modifies this
      ensures blobs == old(blobs)[key := blob]
      ensures url == base + key
    {
      blobs := blobs[key := blob];
      url := base + key;
    }

    /** `list({ prefix })`: every stored key that starts with `prefix`, each once. */
    method List(prefix: string) returns (keys: seq<string>)
      ensures forall i, j :: 0 <= i < j < |keys| ==> keys[i] != keys[j]
      ensures forall k :: k in keys <==> k in blobs && prefix <= k
    {
      keys := [];
      var rest := blobs.Keys;
      while rest != {}
        invariant rest <= blobs.Keys
        invariant forall i, j :: 0 <= i < j < |keys| ==> keys[i] != keys[j]
        invariant forall k :: k in keys ==> k !in rest
        invariant forall k :: k in keys <==> k in blobs && k !in rest && prefix <= k
        decreases rest
      {
        var k :| k in rest;
        if prefix <= k {
          keys := keys + [k];
        }
        rest := rest - {k};
      }
    }
  }

  /** `if (file) { url = (await put(`{folder}/{id}_{timestamp}_{file.name}`, file)).url }`:
      stores the file when one was uploaded and yields the field's new value. */
  method StoreUpload(store: BlobStore, upload: Option<Upload>, folder: string, id: string, timestamp: nat, previous: Json)
    returns (value: Json)
    modifies store
    ensures value == UploadOr(upload, folder, id, timestamp, store.base, previous)
    ensures store.blobs == old(store.blobs) + UploadBlob(upload, folder, id, timestamp)
  {
    value := previous;
    if upload.Some? {
      var url := store.Put(MediaKey(folder, id, timestamp, upload.value.name), MediaBlob(upload.value.name));
      value := JString(url);
    }
  }

  /** The uploads of a POST, in the handler's order: each file part present is stored and
      its URL taken; the image falls back to the form's `imageUrl`, and every field to its
      previous value. */
  method StoreMedia(store: BlobStore, form: Form, id: string, timestamp: nat, existingData: Record)
    returns (imageUrl: Json, asset3dUrl: Json, podcastUrl: Json, bgmUrl: Json)
    requires DefaultKeys <= existingData.Keys
    modifies store
    ensures store.blobs == WithUploads(old(store.blobs), form, id, timestamp)
    ensures imageUrl == ImageOr(form, id, timestamp, store.base, existingData[ImageUrl])
    ensures asset3dUrl == UploadOr(form.asset3d, "3d-assets", id, timestamp, store.base, existingData[Asset3dUrl])
    ensures podcastUrl == UploadOr(form.podcast, "podcasts", id, timestamp, store.base, existingData[PodcastUrl])
    ensures bgmUrl == UploadOr(form.bgm, "bgm", id, timestamp, store.base, existingData[BgmUrl])
  {
    ghost var stored := store.blobs;
    imageUrl := existingData[ImageUrl];
    if form.image.Some? {
      imageUrl := StoreUpload(store, form.image, "images", id, timestamp, imageUrl);
    } else if Truthy(form.imageUrl) {
      imageUrl := JString(form.imageUrl.value);
    }
    assert store.blobs == stored + UploadBlob(form.image, "images", id, timestamp);
    asset3dUrl := StoreUpload(store, form.asset3d, "3d-assets", id, timestamp, existingData[Asset3dUrl]);
    podcastUrl := StoreUpload(store, form.podcast, "podcasts", id, timestamp, existingData[PodcastUrl]);
    bgmUrl := StoreUpload(store, form.bgm, "bgm", id, timestamp, existingData[BgmUrl]);
  }

  /** `POST /api/letters`: merge the form into the stored letter and write it back.
      `existing` is the stored letter as the route's own `GET /api/letters/{id}` returned it
      (`None` on any failure); `timestamp` is `Date.now()` and `now` the ISO time. */
  method Post(store: BlobStore, form: Form, existing: Option<Record>, timestamp: nat, now: string)
    returns (resp: PostResponse)
    modifies store
    // a missing or empty ornamentId is a 400 and nothing is stored
    ensures !Truthy(form.ornamentId) ==> resp == BadRequest("ornamentId is required") && store.blobs == old(store.blobs)
    // otherwise the media are stored, the merged record is written at the letter key and returned
    ensures Truthy(form.ornamentId) ==>
      var id := form.ornamentId.value;
      var record := SavedRecord(form, id, existing, now, timestamp, store.base);
      && resp == Saved(record)
      && store.blobs == WithUploads(old(store.blobs), form, id, timestamp)[LetterKey(id) := JsonBlob(record)]
  {
    if !Truthy(form.ornamentId) {
      return BadRequest("ornamentId is required");
    }
    var id := form.ornamentId.value;

    var existingData := Defaults(id, now);
    if existing.Some? {
      existingData := existingData + existing.value;
    }
    assert existingData == Start(id, existing, now);

    var imageUrl, asset3dUrl, podcastUrl, bgmUrl := StoreMedia(store, form, id, timestamp, existingData);

    var updatedStory := TextOr(form.story, existingData[Story]);
    var updatedOrnamentName := TextOr(form.ornamentName, existingData[OrnamentName]);
    var updatedPodcastScript := TextOr(form.podcastScript, existingData[PodcastScript]);
    var updatedEmotion := TextOr(form.emotion, existingData[Emotion]);

    var letterData := LetterData(existingData, id, updatedOrnamentName, updatedStory, updatedPodcastScript,
      updatedEmotion, imageUrl, asset3dUrl, podcastUrl, bgmUrl, now);
    assert letterData == SavedRecord(form, id, existing, now, timestamp, store.base);

    var _ := store.Put(LetterKey(id), JsonBlob(letterData));
    resp := Saved(letterData);
  }

  /** The keys `GET` lists: everything under `letters/`. */
  function LetterKeys(blobs: map<string, Blob>): set<string> {
    set k | k in blobs && "letters/" <= k
  }

  /** A sequence without repetitions has as many distinct elements as it is long. */
  lemma {:induction false} DistinctCard(s: seq<string>)
    requires forall i, j :: 0 <= i < j < |s| ==> s[i] != s[j]
    ensures |set k | k in s| == |s|
  {
    if s != [] {
      var t := s[..|s| - 1];
      assert forall i, j :: 0 <= i < j < |t| ==> t[i] != t[j];
      DistinctCard(t);
      assert (set k | k in s) == (set k | k in t) + {s[|s| - 1]};
      assert s[|s| - 1] !in t;
    }
  }

  /** `data` holds one record per letter key: one for each entry of the listing `keys`,
      which names every letter key exactly once. */
  ghost predicate ListsEachLetter(blobs: map<string, Blob>, keys: seq<string>, data: seq<Record>) {
    && (forall i, j :: 0 <= i < j < |keys| ==> keys[i] != keys[j])
    && (forall k :: k in keys <==> k in LetterKeys(blobs))
    && |data| == |keys|
    && (forall i :: 0 <= i < |keys| ==> keys[i] in blobs && blobs[keys[i]] == JsonBlob(data[i]))
  }

  /** Such a listing has one record per letter key, and holds exactly the stored letters. */
  lemma ListingFacts(blobs: map<string, Blob>, keys: seq<string>, data: seq<Record>)
    requires ListsEachLetter(blobs, keys, data)
    ensures |data| == |LetterKeys(blobs)|
    ensures forall r :: r in data <==> exists k :: k in LetterKeys(blobs) && blobs[k] == JsonBlob(r)
  {
    DistinctCard(keys);
    assert (set k | k in keys) == LetterKeys(blobs);
    forall r | r in data
      ensures exists k :: k in LetterKeys(blobs) && blobs[k] == JsonBlob(r)
    {
      var i :| 0 <= i < |data| && data[i] == r;
      assert keys[i] in LetterKeys(blobs);
    }
    forall r | exists k :: k in LetterKeys(blobs) && blobs[k] == JsonBlob(r)
      ensures r in data
    {
      var k :| k in LetterKeys(blobs) && blobs[k] == JsonBlob(r);
      var i :| 0 <= i < |keys| && keys[i] == k;
      assert data[i] == r;
    }
  }

  /** `GET /api/letters`: every blob under `letters/`, fetched and parsed. */
  method GetLetters(store: BlobStore) returns (resp: GetResponse)
    ensures resp.Letters? <==> forall k :: k in LetterKeys(store.blobs) ==> store.blobs[k].JsonBlob?
    // one record per letter key, in the order of some enumeration of the keys
    ensures resp.Letters? ==> exists keys :: ListsEachLetter(store.blobs, keys, resp.data)
    ensures resp.Letters? ==> |resp.data| == |LetterKeys(store.blobs)|
    ensures resp.Letters? ==> forall r :: r in resp.data <==> exists k :: k in LetterKeys(store.blobs) && store.blobs[k] == JsonBlob(r)
  {
    var keys := store.List("letters/");
    assert forall k :: k in LetterKeys(store.blobs) <==> k in keys;
    if exists i :: 0 <= i < |keys| && store.blobs[keys[i]].MediaBlob? {
      var i :| 0 <= i < |keys| && store.blobs[keys[i]].MediaBlob?;
      assert keys[i] in LetterKeys(store.blobs);
      return FetchFailed;
    }
    var blobs := store.blobs;
    var data := seq(|keys|, i requires 0 <= i < |keys| && keys[i] in blobs && blobs[keys[i]].JsonBlob? => blobs[keys[i]].record);
    assert ListsEachLetter(blobs, keys, data);
    ListingFacts(blobs, keys, data);
    resp := Letters(data);
  }

  /** When the stored letter could not be fetched, the merge starts from the defaults alone:
      the record written at the letter key has only the default fields, and every media
      field the form does not set is null again, whatever the store held before. */
  lemma UnfetchedLetterIsReplaced(form: Form, id: string, now: string, timestamp: nat, base: string)
    ensures var r := SavedRecord(form, id, None, now, timestamp, base);
      && r.Keys == DefaultKeys
      && r[CreatedAt] == JString(now)
      && (form.image.None? && !Truthy(form.imageUrl) ==> r[ImageUrl] == JNull)
      && (form.asset3d.None? ==> r[Asset3dUrl] == JNull)
      && (form.podcast.None? ==> r[PodcastUrl] == JNull)
      && (form.bgm.None? ==> r[BgmUrl] == JNull)
  {
    SavedRecordMedia(form, id, None, now, timestamp, base);
    SavedRecordCreatedAt(form, id, None, now, timestamp, base);
  }

  /** A form that carries only the id: every other part absent. */
  function IdOnlyForm(id: string): Form {
    Form(Some(id), None, None, None, None, None, None, None, None, None)
  }

  /** A stored letter that already has every default field is its own starting point. */
  lemma StartOfComplete(id: string, stored: Record, now: string)
    requires DefaultKeys <= stored.Keys
    ensures Start(id, Some(stored), now) == stored
  {
    var start := Start(id, Some(stored), now);
    assert start.Keys == stored.Keys;
    assert forall k :: k in start ==> start[k] == stored[k];
  }

  /** Writing every managed field back with its own value only refreshes `updatedAt`. */
  lemma LetterDataUnchanged(m: Record, id: string, now: string)
    requires DefaultKeys <= m.Keys && m[Id] == JString(id)
    ensures LetterData(m, id, m[OrnamentName], m[Story], m[PodcastScript], m[Emotion],
                       m[ImageUrl], m[Asset3dUrl], m[PodcastUrl], m[BgmUrl], now) == m[UpdatedAt := JString(now)]
  {
    var r := LetterData(m, id, m[OrnamentName], m[Story], m[PodcastScript], m[Emotion],
                        m[ImageUrl], m[Asset3dUrl], m[PodcastUrl], m[BgmUrl], now);
    assert ManagedKeys <= DefaultKeys;
    assert r.Keys == m[UpdatedAt := JString(now)].Keys;
  }

  /** Merging an id-only form into a fetched letter that holds every default field and its
      own id changes nothing but `updatedAt`. */
  lemma ResubmitIdOnly(id: string, stored: Record, now: string, timestamp: nat, base: string)
    requires DefaultKeys <= stored.Keys
    requires stored[Id] == JString(id)
    ensures SavedRecord(IdOnlyForm(id), id, Some(stored), now, timestamp, base) == stored[UpdatedAt := JString(now)]
  {
    StartOfComplete(id, stored, now);
    LetterDataUnchanged(stored, id, now);
  }

  /** A letter saved by POST is a valid starting point for the next one: when the next POST's
      fetch returns the saved letter, an id-only merge changes nothing but `updatedAt`. */
  lemma SavedIsResubmittable(form: Form, id: string, existing: Option<Record>, now: string, timestamp: nat, base: string, later: string)
    ensures var r := SavedRecord(form, id, existing, now, timestamp, base);
      SavedRecord(IdOnlyForm(id), id, Some(r), later, timestamp, base) == r[UpdatedAt := JString(later)]
  {
    var r := SavedRecord(form, id, existing, now, timestamp, base);
    ResubmitIdOnly(id, r, later, timestamp, base);
  }
}
