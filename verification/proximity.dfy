/**
 * The proximity service (`ProximityService`): on every location fix it scans
 * the other users' location documents and the quiz objects, and raises a
 * notification for each one within 30 m unless that id was notified within the
 * cooldown (5 minutes for users, 10 for objects). Then it uploads the device's
 * own location.
 */
module Proximity {
  import opened Common
  import opened Text
  import opened Locations
  import Quiz

  /** One document of a scanned collection: its id and the three fields the scan reads. */
  datatype Target = Target(id: string, name: Option<string>, lat: Option<real>, lng: Option<real>)

  /** The constants of one scan: the distance bound (inclusive), the cooldown and the notification id base. */
  datatype Rule = Rule(thresholdMeters: real, cooldownMillis: int, notificationBase: int)

  /** `thresholdMeters`, five minutes between alerts per user, ids from 2000. */
  const UserRule: Rule := Rule(30.0, 5 * 60000, 2000)
  /** `objectThresholdMeters`, ten minutes between alerts per object, ids from 3000. */
  const ObjectRule: Rule := Rule(30.0, 10 * 60000, 3000)

  /** A notification: whom it is about, the name shown, the whole metres shown, and its id. */
  datatype Alert = Alert(targetId: string, name: string, meters: int, notificationId: int)

  /** The target of a `user_locations/{uid}` document. */
  function UserTarget(e: Entry): (t: Target)
    ensures t.id == e.id && t.name == e.doc.name
  {
    Target(e.id, e.doc.name, e.doc.lat, e.doc.lng)
  }

  /** The target of an `objects/{id}` document. */
  function ObjectTarget(id: string, d: Quiz.ObjectDoc): (t: Target)
    ensures t.id == id && t.name == d.name
  {
    Target(id, d.name, d.lat, d.lng)
  }

  /** `Float.toInt()`: rounds toward zero (the saturation at the `Int` range is not modelled). */
  function TruncateTowardZero(x: real): (r: int)
    ensures 0.0 <= x ==> r as real <= x < r as real + 1.0
    ensures x < 0.0 ==> r as real - 1.0 < x <= r as real
  {
    if 0.0 <= x then x.Floor else -((-x).Floor)
  }

  /** `base + (id.hashCode() and 0xFFF)`: one of 4096 ids starting at `base`. */
  function NotificationId(base: int, id: string): (r: int)
    ensures base <= r <= base + 0xFFF
  {
    base + (HashCode(id) & 0xFFF) as int
  }

  /** `notifiedAt[id] ?: 0L`. */
  function Last(notified: map<string, int>, id: string): int {
    if id in notified then notified[id] else 0
  }

  /** A document is considered: it is not the signed-in user's own, and it has a name and both coordinates. */
  predicate Eligible(t: Target, exclude: Option<string>) {
    exclude != Some(t.id) && t.name.Some? && t.lat.Some? && t.lng.Some?
  }

  function Position(t: Target): LatLng
    requires t.lat.Some? && t.lng.Some?
  {
    LatLng(t.lat.value, t.lng.value)
  }

  /** An eligible document raises an alert when it is within the threshold and its cooldown has passed. */
  predicate Fires(t: Target, exclude: Option<string>, last: int, here: LatLng, dist: Distance, now: int, rule: Rule) {
    Eligible(t, exclude) && dist(here, Position(t)) <= rule.thresholdMeters && now - last > rule.cooldownMillis
  }

  function AlertFor(t: Target, here: LatLng, dist: Distance, rule: Rule): Alert
    requires t.name.Some? && t.lat.Some? && t.lng.Some?
  {
    Alert(t.id, t.name.value, TruncateTowardZero(dist(here, Position(t))), NotificationId(rule.notificationBase, t.id))
  }

  /** The throttle map and the alerts raised so far in one scan. */
  datatype ScanState = ScanState(notified: map<string, int>, alerts: seq<Alert>)

  /** One document of the scan. */
  function ScanStep(st: ScanState, t: Target, exclude: Option<string>, here: LatLng, dist: Distance, now: int, rule: Rule): ScanState {
    if Fires(t, exclude, Last(st.notified, t.id), here, dist, now, rule) then
      ScanState(st.notified[t.id := now], st.alerts + [AlertFor(t, here, dist, rule)])
    else st
  }

  /** A whole scan over a snapshot, in snapshot order, from the throttle map `notified`. */
  function Scan(ts: seq<Target>, notified: map<string, int>, exclude: Option<string>, here: LatLng, dist: Distance, now: int, rule: Rule): ScanState {
    if ts == [] then ScanState(notified, [])
    else ScanStep(Scan(ts[..|ts| - 1], notified, exclude, here, dist, now, rule), ts[|ts| - 1], exclude, here, dist, now, rule)
  }

  /** Scanning one more document of a snapshot is one more step. */
  lemma ScanPrefixStep(ts: seq<Target>, i: int, notified: map<string, int>, exclude: Option<string>,
                       here: LatLng, dist: Distance, now: int, rule: Rule)
    requires 0 <= i < |ts|
    ensures Scan(ts[..i + 1], notified, exclude, here, dist, now, rule)
            == ScanStep(Scan(ts[..i], notified, exclude, here, dist, now, rule), ts[i], exclude, here, dist, now, rule)
  {
    assert ts[..i + 1][..i] == ts[..i];
  }

  class ProximityMonitor {
    /** Last notification time per user id (`notifiedAt`). */
    var notifiedAt: map<string, int>
    /** Last notification time per object id (`notifiedObjectAt`). */
    var notifiedObjectAt: map<string, int>
    /** Location updates are registered and the service has not stopped. */
    var running: bool
    /** The `user_locations` collection the service uploads to. */
    const repo: LocationTable

    constructor (repo: LocationTable)
      ensures notifiedAt == map[] && notifiedObjectAt == map[] && !running && this.repo == repo
    {
      notifiedAt := map[];
      notifiedObjectAt := map[];
      running := false;
      this.repo := repo;
    }

    /** `startLocationUpdates`: without the location permission the service stops itself. */
    method StartLocationUpdates(permissionGranted: bool)
      modifies this
      ensures running == permissionGranted
      ensures notifiedAt == old(notifiedAt) && notifiedObjectAt == old(notifiedObjectAt)
    {
      if permissionGranted {
        running := true;
      } else {
        running := false;
      }
    }

    /**
     * `checkUserProximity`: a failed read of `user_locations` (`None`) is
     * swallowed and raises nothing; otherwise each document is checked in
     * order against `notifiedAt`, skipping the signed-in user's own.
     */
    method CheckUserProximity(snapshot: Option<seq<Target>>, meUid: Option<string>, here: LatLng, dist: Distance, now: int)
      returns (alerts: seq<Alert>)
      modifies this
      ensures snapshot.None? ==> alerts == [] && notifiedAt == old(notifiedAt)
      ensures snapshot.Some? ==>
                ScanState(notifiedAt, alerts) == Scan(snapshot.value, old(notifiedAt), meUid, here, dist, now, UserRule)
      ensures notifiedObjectAt == old(notifiedObjectAt) && running == old(running)
    {
      alerts := [];
      if snapshot.None? {
        return;
      }
      var docs := snapshot.value;
      for i := 0 to |docs|
        invariant ScanState(notifiedAt, alerts) == Scan(docs[..i], old(notifiedAt), meUid, here, dist, now, UserRule)
        invariant notifiedObjectAt == old(notifiedObjectAt) && running == old(running)
      {
        ScanPrefixStep(docs, i, old(notifiedAt), meUid, here, dist, now, UserRule);
        var doc := docs[i];
        if Some(doc.id) == meUid {
          continue;
        }
        if doc.name.None? || doc.lat.None? || doc.lng.None? {
          continue;
        }
        var distance := dist(here, LatLng(doc.lat.value, doc.lng.value));
        var last := if doc.id in notifiedAt then notifiedAt[doc.id] else 0;
        if distance <= UserRule.thresholdMeters && now - last > UserRule.cooldownMillis {
          notifiedAt := notifiedAt[doc.id := now];
          alerts := alerts + [Alert(doc.id, doc.name.value, TruncateTowardZero(distance), NotificationId(2000, doc.id))];
        }
      }
      assert docs[..|docs|] == docs;
    }

    /**
     * `checkObjectProximity`: the same check over `objects` against
     * `notifiedObjectAt`, with no self-exclusion.
     */
    method CheckObjectProximity(snapshot: Option<seq<Target>>, here: LatLng, dist: Distance, now: int)
      returns (alerts: seq<Alert>)
      modifies this
      ensures snapshot.None? ==> alerts == [] && notifiedObjectAt == old(notifiedObjectAt)
      ensures snapshot.Some? ==>
                ScanState(notifiedObjectAt, alerts) == Scan(snapshot.value, old(notifiedObjectAt), None, here, dist, now, ObjectRule)
      ensures notifiedAt == old(notifiedAt) && running == old(running)
    {
      alerts := [];
      if snapshot.None? {
        return;
      }
      var docs := snapshot.value;
      for i := 0 to |docs|
        invariant ScanState(notifiedObjectAt, alerts) == Scan(docs[..i], old(notifiedObjectAt), None, here, dist, now, ObjectRule)
        invariant notifiedAt == old(notifiedAt) && running == old(running)
      {
        ScanPrefixStep(docs, i, old(notifiedObjectAt), None, here, dist, now, ObjectRule);
        var doc := docs[i];
        if doc.name.None? || doc.lat.None? || doc.lng.None? {
          continue;
        }
        var distance := dist(here, LatLng(doc.lat.value, doc.lng.value));
        var last := if doc.id in notifiedObjectAt then notifiedObjectAt[doc.id] else 0;
        if distance <= ObjectRule.thresholdMeters && now - last > ObjectRule.cooldownMillis {
          notifiedObjectAt := notifiedObjectAt[doc.id := now];
          alerts := alerts + [Alert(doc.id, doc.name.value, TruncateTowardZero(distance), NotificationId(3000, doc.id))];
        }
      }
      assert docs[..|docs|] == docs;
    }

    /**
     * The location callback: a result without a location is ignored;
     * otherwise both scans run, then a signed-in user's location is uploaded
     * with the profile image URL read from their user document. Each scan
     * reads the clock itself: `userNow` and `objectNow` are those readings.
     */
    method OnLocationResult(loc: Option<LatLng>, userSnapshot: Option<seq<Target>>, objectSnapshot: Option<seq<Target>>,
                            meUid: Option<string>, profileImageUrl: Option<string>, dist: Distance,
                            userNow: int, objectNow: int, serverNow: int)
      returns (userAlerts: seq<Alert>, objectAlerts: seq<Alert>)
      modifies this, repo
      ensures loc.None? ==> userAlerts == [] && objectAlerts == [] && notifiedAt == old(notifiedAt)
                            && notifiedObjectAt == old(notifiedObjectAt) && repo.records == old(repo.records)
      ensures loc.Some? && userSnapshot.Some? ==>
                ScanState(notifiedAt, userAlerts) == Scan(userSnapshot.value, old(notifiedAt), meUid, loc.value, dist, userNow, UserRule)
      ensures loc.Some? && userSnapshot.None? ==> userAlerts == [] && notifiedAt == old(notifiedAt)
      ensures loc.Some? && objectSnapshot.Some? ==>
                ScanState(notifiedObjectAt, objectAlerts)
                == Scan(objectSnapshot.value, old(notifiedObjectAt), None, loc.value, dist, objectNow, ObjectRule)
      ensures loc.Some? && objectSnapshot.None? ==> objectAlerts == [] && notifiedObjectAt == old(notifiedObjectAt)
      ensures loc.Some? ==> repo.records == (if meUid.Some? then
                                                old(repo.records)[meUid.value := UploadedDoc(loc.value.latitude, loc.value.longitude, profileImageUrl, serverNow)]
                                              else old(repo.records))
      ensures running == old(running)
    {
      if loc.None? {
        return [], [];
      }
      userAlerts := CheckUserProximity(userSnapshot, meUid, loc.value, dist, userNow);
      objectAlerts := CheckObjectProximity(objectSnapshot, loc.value, dist, objectNow);
      if meUid.Some? {
        repo.UploadLocation(meUid.value, loc.value.latitude, loc.value.longitude, profileImageUrl, serverNow);
      }
    }

    /** `onDestroy`: location updates are removed; the throttle maps are kept. */
    method OnDestroy()
      modifies this
      ensures !running
      ensures notifiedAt == old(notifiedAt) && notifiedObjectAt == old(notifiedObjectAt)
    {
      running := false;
    }
  }

  // ---------------------------------------------------------------------------
  // Properties of a scan

  /** User notification ids lie in [2000, 6095], object ones in [3000, 7095]. */
  lemma NotificationIdRanges(id: string)
    ensures 2000 <= NotificationId(UserRule.notificationBase, id) <= 6095
    ensures 3000 <= NotificationId(ObjectRule.notificationBase, id) <= 7095
  {
  }

  /** A scan in which no document is eligible raises nothing and leaves the throttle map alone. */
  lemma {:induction false} ScanIneligible(ts: seq<Target>, notified: map<string, int>, exclude: Option<string>,
                                          here: LatLng, dist: Distance, now: int, rule: Rule)
    requires forall i :: 0 <= i < |ts| ==> !Eligible(ts[i], exclude)
    ensures Scan(ts, notified, exclude, here, dist, now, rule) == ScanState(notified, [])
  {
    if ts != [] {
      ScanIneligible(ts[..|ts| - 1], notified, exclude, here, dist, now, rule);
    }
  }

  /**
   * The user scan over documents written by `uploadLocation` raises nothing:
   * those documents carry no `name`, so every one of them is skipped.
   */
  lemma UploadedLocationsNeverAlert(entries: seq<Entry>, notified: map<string, int>, meUid: Option<string>,
                                    here: LatLng, dist: Distance, now: int)
    requires forall i :: 0 <= i < |entries| ==> entries[i].doc.name.None?
    ensures Scan(seq(|entries|, i requires 0 <= i < |entries| => UserTarget(entries[i])), notified, meUid, here, dist, now, UserRule)
            == ScanState(notified, [])
  {
    ScanIneligible(seq(|entries|, i requires 0 <= i < |entries| => UserTarget(entries[i])), notified, meUid, here, dist, now, UserRule);
  }

  /**
   * The signed-in user's own document never raises an alert and never touches
   * their throttle entry, whatever the snapshot holds.
   */
  lemma {:induction false} SelfNeverAlerted(ts: seq<Target>, notified: map<string, int>, meUid: string,
                                            here: LatLng, dist: Distance, now: int, rule: Rule)
    ensures var r := Scan(ts, notified, Some(meUid), here, dist, now, rule);
            (forall a :: a in r.alerts ==> a.targetId != meUid)
            && (meUid in r.notified <==> meUid in notified) && Last(r.notified, meUid) == Last(notified, meUid)
  {
    if ts != [] {
      var n := |ts| - 1;
      SelfNeverAlerted(ts[..n], notified, meUid, here, dist, now, rule);
      var st := Scan(ts[..n], notified, Some(meUid), here, dist, now, rule);
      if Fires(ts[n], Some(meUid), Last(st.notified, ts[n].id), here, dist, now, rule) {
        assert ts[n].id != meUid;
        assert Scan(ts, notified, Some(meUid), here, dist, now, rule).alerts == st.alerts + [AlertFor(ts[n], here, dist, rule)];
      }
    }
  }

  /** After a scan, an id's throttle entry is the one it had before or `now`. */
  lemma {:induction false} LastIsOldOrNow(ts: seq<Target>, notified: map<string, int>, exclude: Option<string>,
                                          here: LatLng, dist: Distance, now: int, rule: Rule, id: string)
    ensures var r := Scan(ts, notified, exclude, here, dist, now, rule);
            Last(r.notified, id) == Last(notified, id) || Last(r.notified, id) == now
  {
    if ts != [] {
      LastIsOldOrNow(ts[..|ts| - 1], notified, exclude, here, dist, now, rule, id);
    }
  }

  /** No earlier document of the snapshot has the id of `ts[i]`. */
  predicate FirstOccurrence(ts: seq<Target>, i: int)
    requires 0 <= i < |ts|
  {
    forall j :: 0 <= j < i ==> ts[j].id != ts[i].id
  }

  /** Ids the snapshot does not hold keep their throttle entry. */
  lemma {:induction false} ScanKeepsOthers(ts: seq<Target>, notified: map<string, int>, exclude: Option<string>,
                                           here: LatLng, dist: Distance, now: int, rule: Rule, id: string)
    requires forall i :: 0 <= i < |ts| ==> ts[i].id != id
    ensures var r := Scan(ts, notified, exclude, here, dist, now, rule);
            (id in r.notified <==> id in notified) && Last(r.notified, id) == Last(notified, id)
  {
    if ts != [] {
      ScanKeepsOthers(ts[..|ts| - 1], notified, exclude, here, dist, now, rule, id);
    }
  }

  /**
   * For a document whose id occurs once in the snapshot: it raises an alert
   * iff it is eligible, within the threshold and past its cooldown, and then
   * its throttle entry becomes `now`; otherwise the entry is unchanged.
   */
  lemma {:induction false} ScanAt(ts: seq<Target>, notified: map<string, int>, exclude: Option<string>,
                                  here: LatLng, dist: Distance, now: int, rule: Rule, j: int)
    requires 0 <= j < |ts|
    requires forall i :: 0 <= i < |ts| && i != j ==> ts[i].id != ts[j].id
    ensures var r := Scan(ts, notified, exclude, here, dist, now, rule);
            var fires := Fires(ts[j], exclude, Last(notified, ts[j].id), here, dist, now, rule);
            (fires ==> ts[j].id in r.notified && r.notified[ts[j].id] == now && AlertFor(ts[j], here, dist, rule) in r.alerts)
            && (!fires ==> (ts[j].id in r.notified <==> ts[j].id in notified) && Last(r.notified, ts[j].id) == Last(notified, ts[j].id)
                           && forall a :: a in r.alerts ==> a.targetId != ts[j].id)
  {
    var n := |ts| - 1;
    var id := ts[j].id;
    if j == n {
      ScanKeepsOthers(ts[..n], notified, exclude, here, dist, now, rule, id);
      AlertsAreAbout(ts[..n], notified, exclude, here, dist, now, rule);
    } else {
      ScanAt(ts[..n], notified, exclude, here, dist, now, rule, j);
    }
  }

  /** Every alert of a scan is about a document of the snapshot. */
  lemma {:induction false} AlertsAreAbout(ts: seq<Target>, notified: map<string, int>, exclude: Option<string>,
                                          here: LatLng, dist: Distance, now: int, rule: Rule)
    ensures forall a :: a in Scan(ts, notified, exclude, here, dist, now, rule).alerts ==>
              exists i :: 0 <= i < |ts| && ts[i].id == a.targetId
  {
    if ts != [] {
      AlertsAreAbout(ts[..|ts| - 1], notified, exclude, here, dist, now, rule);
      var n := |ts| - 1;
      forall a | a in Scan(ts, notified, exclude, here, dist, now, rule).alerts
        ensures exists i :: 0 <= i < |ts| && ts[i].id == a.targetId
      {
        if a in Scan(ts[..n], notified, exclude, here, dist, now, rule).alerts {
          var i :| 0 <= i < n && ts[..n][i].id == a.targetId;
          assert ts[i].id == a.targetId;
        } else {
          assert ts[n].id == a.targetId;
        }
      }
    }
  }

  /**
   * `idx` picks the documents behind `alerts`, strictly increasing: each
   * picked document is eligible, within the threshold and past its cooldown
   * as it stood before the scan, and its alert names it, shows the truncated
   * distance and carries its notification id.
   */
  predicate Picks(ts: seq<Target>, notified: map<string, int>, exclude: Option<string>, here: LatLng,
                  dist: Distance, now: int, rule: Rule, alerts: seq<Alert>, idx: seq<int>)
  {
    |idx| == |alerts|
    && (forall k :: 0 <= k < |idx| ==>
          0 <= idx[k] < |ts| && Fires(ts[idx[k]], exclude, Last(notified, ts[idx[k]].id), here, dist, now, rule)
          && alerts[k] == AlertFor(ts[idx[k]], here, dist, rule))
    && (forall k, l :: 0 <= k < l < |idx| ==> idx[k] < idx[l])
  }

  /** `idx` holds the first occurrence of every id that fires against the throttle map before the scan. */
  predicate PicksEveryFirstFiring(ts: seq<Target>, notified: map<string, int>, exclude: Option<string>, here: LatLng,
                                  dist: Distance, now: int, rule: Rule, idx: seq<int>)
  {
    forall i :: (0 <= i < |ts| && FirstOccurrence(ts, i)
                 && Fires(ts[i], exclude, Last(notified, ts[i].id), here, dist, now, rule)) ==> i in idx
  }

  /**
   * The alerts of a scan, in order, are exactly those of the firing
   * documents: every alert comes from a document that fires against the
   * throttle map before the scan, and the first occurrence of every id that
   * fires raises one.
   */
  lemma {:induction false} AlertsAreOrderedFiring(ts: seq<Target>, notified: map<string, int>, exclude: Option<string>,
                                                  here: LatLng, dist: Distance, now: int, rule: Rule)
    returns (idx: seq<int>)
    requires rule.cooldownMillis >= 0
    ensures Picks(ts, notified, exclude, here, dist, now, rule, Scan(ts, notified, exclude, here, dist, now, rule).alerts, idx)
    ensures PicksEveryFirstFiring(ts, notified, exclude, here, dist, now, rule, idx)
  {
    if ts == [] {
      idx := [];
    } else {
      var n := |ts| - 1;
      var prev := AlertsAreOrderedFiring(ts[..n], notified, exclude, here, dist, now, rule);
      var st := Scan(ts[..n], notified, exclude, here, dist, now, rule);
      idx := if Fires(ts[n], exclude, Last(st.notified, ts[n].id), here, dist, now, rule) then prev + [n] else prev;
      LastIsOldOrNow(ts[..n], notified, exclude, here, dist, now, rule, ts[n].id);
      PicksSnoc(ts, notified, exclude, here, dist, now, rule, st, prev);
      if FirstOccurrence(ts, n) {
        ScanKeepsOthers(ts[..n], notified, exclude, here, dist, now, rule, ts[n].id);
      }
      FirstFiringSnoc(ts, notified, exclude, here, dist, now, rule, st, prev);
    }
  }

  /**
   * The step of `AlertsAreOrderedFiring` for the picked documents, from the
   * state `st` after all but the last document.
   */
  lemma PicksSnoc(ts: seq<Target>, notified: map<string, int>, exclude: Option<string>,
                  here: LatLng, dist: Distance, now: int, rule: Rule, st: ScanState, prev: seq<int>)
    requires ts != [] && rule.cooldownMillis >= 0
    requires Picks(ts[..|ts| - 1], notified, exclude, here, dist, now, rule, st.alerts, prev)
    requires var id := ts[|ts| - 1].id; Last(st.notified, id) == Last(notified, id) || Last(st.notified, id) == now
    ensures var n := |ts| - 1;
            Picks(ts, notified, exclude, here, dist, now, rule, ScanStep(st, ts[n], exclude, here, dist, now, rule).alerts,
                  if Fires(ts[n], exclude, Last(st.notified, ts[n].id), here, dist, now, rule) then prev + [n] else prev)
  {
    var n := |ts| - 1;
    forall k | 0 <= k < |prev|
      ensures ts[..n][prev[k]] == ts[prev[k]]
    {
    }
  }

  /**
   * The step of `AlertsAreOrderedFiring` for the firing first occurrences,
   * from the state `st` after all but the last document.
   */
  lemma FirstFiringSnoc(ts: seq<Target>, notified: map<string, int>, exclude: Option<string>,
                        here: LatLng, dist: Distance, now: int, rule: Rule, st: ScanState, prev: seq<int>)
    requires ts != []
    requires PicksEveryFirstFiring(ts[..|ts| - 1], notified, exclude, here, dist, now, rule, prev)
    requires FirstOccurrence(ts, |ts| - 1) ==> Last(st.notified, ts[|ts| - 1].id) == Last(notified, ts[|ts| - 1].id)
    ensures var n := |ts| - 1;
            PicksEveryFirstFiring(ts, notified, exclude, here, dist, now, rule,
                                  if Fires(ts[n], exclude, Last(st.notified, ts[n].id), here, dist, now, rule) then prev + [n] else prev)
  {
    var n := |ts| - 1;
    forall i | 0 <= i < n && FirstOccurrence(ts, i)
      ensures FirstOccurrence(ts[..n], i) && ts[..n][i] == ts[i]
    {
    }
  }

  /** After a scan at `now`, every id it alerted about has throttle entry `now`. */
  lemma {:induction false} AlertedStampedNow(ts: seq<Target>, notified: map<string, int>, exclude: Option<string>,
                                             here: LatLng, dist: Distance, now: int, rule: Rule, id: string)
    requires rule.cooldownMillis >= 0
    ensures var r := Scan(ts, notified, exclude, here, dist, now, rule);
            (exists a :: a in r.alerts && a.targetId == id) ==> Last(r.notified, id) == now
  {
    if ts != [] {
      var n := |ts| - 1;
      AlertedStampedNow(ts[..n], notified, exclude, here, dist, now, rule, id);
    }
  }

  /**
   * While an id is inside its cooldown, a scan raises nothing about it and
   * leaves its throttle entry unchanged.
   */
  lemma {:induction false} CoolingDownStaysQuiet(ts: seq<Target>, notified: map<string, int>, exclude: Option<string>,
                                                 here: LatLng, dist: Distance, now: int, rule: Rule, id: string)
    requires now - Last(notified, id) <= rule.cooldownMillis
    ensures var r := Scan(ts, notified, exclude, here, dist, now, rule);
            Last(r.notified, id) == Last(notified, id) && forall a :: a in r.alerts ==> a.targetId != id
  {
    if ts != [] {
      var n := |ts| - 1;
      CoolingDownStaysQuiet(ts[..n], notified, exclude, here, dist, now, rule, id);
    }
  }

  /**
   * Two scans in a row, the second no later than one cooldown after the
   * first, raise at most one alert about any one id.
   */
  lemma WithinCooldownAtMostOnce(ts1: seq<Target>, ts2: seq<Target>, notified: map<string, int>, exclude: Option<string>,
                                 here1: LatLng, here2: LatLng, dist: Distance, now1: int, now2: int, rule: Rule, id: string)
    requires rule.cooldownMillis >= 0
    requires now1 <= now2 <= now1 + rule.cooldownMillis
    ensures var r1 := Scan(ts1, notified, exclude, here1, dist, now1, rule);
            var r2 := Scan(ts2, r1.notified, exclude, here2, dist, now2, rule);
            !((exists a :: a in r1.alerts && a.targetId == id) && (exists a :: a in r2.alerts && a.targetId == id))
  {
    var r1 := Scan(ts1, notified, exclude, here1, dist, now1, rule);
    if exists a :: a in r1.alerts && a.targetId == id {
      AlertedStampedNow(ts1, notified, exclude, here1, dist, now1, rule, id);
      CoolingDownStaysQuiet(ts2, r1.notified, exclude, here2, dist, now2, rule, id);
    }
  }
}
