/**
 * The `user_locations` collection (`UserLocationRepository`): one document per
 * user id, overwritten by every upload and removed on sign-out, and the
 * listener that turns a snapshot of it into the list of users shown online.
 */
module Locations {
  import opened Common

  /** A `user_locations/{uid}` document; each field may be absent. */
  datatype LocationDoc = LocationDoc(
    name: Option<string>,
    lat: Option<real>,
    lng: Option<real>,
    profileImageUrl: Option<string>,
    updatedAt: Option<int>)   // milliseconds

  /** `TimeUnit.MINUTES.toMillis(2)`, the listener's default online window. */
  const DefaultOnlineWindowMillis: int := 2 * 60 * 1000

  /** The document `uploadLocation` writes: no `name` field, the store's clock as `updatedAt`. */
  function UploadedDoc(lat: real, lng: real, profileImageUrl: Option<string>, serverNow: int): LocationDoc {
    LocationDoc(None, Some(lat), Some(lng), profileImageUrl, Some(serverNow))
  }

  class LocationTable {
    /** Document id (the user id) to document. */
    var records: map<string, LocationDoc>

    constructor ()
      ensures records == map[]
    {
      records := map[];
    }

    /** `uploadLocation`: `set` on the document keyed by `uid` replaces it whole. */
    method UploadLocation(uid: string, lat: real, lng: real, profileImageUrl: Option<string>, serverNow: int)
      modifies this
      ensures records == old(records)[uid := UploadedDoc(lat, lng, profileImageUrl, serverNow)]
      ensures uid in records && records[uid].name.None?
      ensures forall other :: other != uid ==> (other in records <==> other in old(records))
      ensures forall other :: other != uid && other in records ==> records[other] == old(records)[other]
    {
      records := records[uid := UploadedDoc(lat, lng, profileImageUrl, serverNow)];
    }

    /** `deleteLocation`: removes the document keyed by `uid`. */
    method DeleteLocation(uid: string)
      modifies this
      ensures records == old(records) - {uid}
      ensures uid !in records
      ensures forall other :: other != uid ==> (other in records <==> other in old(records))
      ensures forall other :: other != uid && other in records ==> records[other] == old(records)[other]
    {
      records := records - {uid};
    }
  }

  /** One document of a snapshot: its id and its fields. */
  datatype Entry = Entry(id: string, doc: LocationDoc)

  /** What the listener hands to its callback for one document. */
  datatype UserLocation = UserLocation(uid: string, latLng: LatLng, profileImageUrl: Option<string>)

  /** A record is online when it carries a timestamp no older than `window` (bound included). */
  predicate IsOnline(doc: LocationDoc, now: int, window: int) {
    doc.updatedAt.Some? && now - doc.updatedAt.value <= window
  }

  /** The listener keeps a record with both coordinates that is online. */
  predicate IsListed(doc: LocationDoc, now: int, window: int) {
    doc.lat.Some? && doc.lng.Some? && IsOnline(doc, now, window)
  }

  function ToUserLocation(e: Entry): UserLocation
    requires e.doc.lat.Some? && e.doc.lng.Some?
  {
    UserLocation(e.id, LatLng(e.doc.lat.value, e.doc.lng.value), e.doc.profileImageUrl)
  }

  /** The list the listener builds from a snapshot, document by document. */
  function Listed(snapshot: seq<Entry>, now: int, window: int): (r: seq<UserLocation>)
    ensures |r| <= |snapshot|
  {
    if snapshot == [] then []
    else
      var prev := Listed(snapshot[..|snapshot| - 1], now, window);
      var e := snapshot[|snapshot| - 1];
      if IsListed(e.doc, now, window) then prev + [ToUserLocation(e)] else prev
  }

  /**
   * The snapshot listener of `addLocationsListener`: a failed or missing
   * snapshot (`None`) produces no callback; otherwise the loop appends every
   * listed record, in snapshot order.
   */
  method OnLocationsSnapshot(snapshot: Option<seq<Entry>>, now: int, window: int)
    returns (emitted: Option<seq<UserLocation>>)
    ensures snapshot.None? <==> emitted.None?
    ensures snapshot.Some? ==> emitted == Some(Listed(snapshot.value, now, window))
  {
    if snapshot.None? {
      return None;
    }
    var docs := snapshot.value;
    var result: seq<UserLocation> := [];
    for i := 0 to |docs|
      invariant result == Listed(docs[..i], now, window)
    {
      var id := docs[i].id;
      var lat := docs[i].doc.lat;
      var lng := docs[i].doc.lng;
      var imageUrl := docs[i].doc.profileImageUrl;
      var updatedAtMs := docs[i].doc.updatedAt;
      var isOnline := updatedAtMs.Some? && now - updatedAtMs.value <= window;
      if lat.Some? && lng.Some? && isOnline {
        result := result + [UserLocation(id, LatLng(lat.value, lng.value), imageUrl)];
      }
      assert docs[..i + 1][..i] == docs[..i];
    }
    assert docs[..|docs|] == docs;
    emitted := Some(result);
  }

  /**
   * The listed entries are exactly the listed records of the snapshot, in
   * snapshot order: `idx` picks them out, strictly increasing, and misses none.
   */
  lemma {:induction false} ListedIsOrderedFilter(snapshot: seq<Entry>, now: int, window: int)
    returns (idx: seq<int>)
    ensures |idx| == |Listed(snapshot, now, window)|
    ensures forall k :: 0 <= k < |idx| ==>
              (0 <= idx[k] < |snapshot| && IsListed(snapshot[idx[k]].doc, now, window)
               && Listed(snapshot, now, window)[k] == ToUserLocation(snapshot[idx[k]]))
    ensures forall k, l :: 0 <= k < l < |idx| ==> idx[k] < idx[l]
    ensures forall i :: 0 <= i < |snapshot| && IsListed(snapshot[i].doc, now, window) ==> i in idx
  {
    if snapshot == [] {
      idx := [];
    } else {
      var n := |snapshot| - 1;
      var prev := ListedIsOrderedFilter(snapshot[..n], now, window);
      if IsListed(snapshot[n].doc, now, window) {
        idx := prev + [n];
      } else {
        idx := prev;
      }
    }
  }

  /** Each listed entry's `uid` is the id of a record that is listed, and that record's coordinates. */
  lemma ListedEntryIsOnlineRecord(snapshot: seq<Entry>, now: int, window: int, u: UserLocation)
    requires u in Listed(snapshot, now, window)
    ensures exists i :: (0 <= i < |snapshot| && snapshot[i].id == u.uid
                         && IsListed(snapshot[i].doc, now, window) && u == ToUserLocation(snapshot[i]))
  {
    var idx := ListedIsOrderedFilter(snapshot, now, window);
    var k :| 0 <= k < |Listed(snapshot, now, window)| && Listed(snapshot, now, window)[k] == u;
    assert snapshot[idx[k]].id == u.uid;
  }

  /** A freshly uploaded record is listed exactly while its timestamp is within the window. */
  lemma UploadedListedWhileFresh(lat: real, lng: real, img: Option<string>, serverNow: int, now: int, window: int)
    ensures IsListed(UploadedDoc(lat, lng, img, serverNow), now, window) <==> now - serverNow <= window
  {
  }
}
