/** The client's timer preset (src/actions/chart.action.ts): `saveTimer`
    merges repetitions, work time and rest time into the user's node;
    `getTimer` reads them back, falling back to (and saving) the defaults
    3 repetitions, 20 s of work and 10 s of rest. */
module ChartActions {
  import opened Text
  import opened Json
  import opened Firebase
  import opened DataActions

  /** `isObjectWithKeys(value, keys)`: an object that has every key. */
  predicate IsObjectWithKeys(value: Json, keys: seq<string>)
    ensures IsObjectWithKeys(value, keys) <==>
      value.JObj? && forall i :: 0 <= i < |keys| ==> keys[i] in value.fields
    decreases |keys|
  {
    value.JObj? && (keys == [] || (keys[0] in value.fields && IsObjectWithKeys(value, keys[1..])))
  }

  const TimerKeys: seq<string> := ["reps", "timer", "rest"]

  /** The fields `saveTimer` merges into the user's node. */
  function TimerFields(reps: int, timer: int, rest: int): (f: map<string, Json>)
    ensures f.Keys == {"reps", "timer", "rest"}
    ensures f["reps"] == JNum(reps) && f["timer"] == JNum(timer) && f["rest"] == JNum(rest)
  {
    map["reps" := JNum(reps), "timer" := JNum(timer), "rest" := JNum(rest)]
  }

  /** A preset as `getTimer` hands it to the page: each field passed through `Number`. */
  datatype Preset = Preset(reps: Num, timer: Num, rest: Num)

  const DefaultPreset: Preset := Preset(Finite(3), Finite(20), Finite(10))

  /** The preset in a read of the user's node, if it has all three keys. */
  function PresetOf(response: Json): (p: Option<Preset>)
    ensures p.Some? <==> IsObjectWithKeys(response, TimerKeys)
    ensures p.Some? ==> p.value == Preset(ToNumber(response.fields["reps"]),
      ToNumber(response.fields["timer"]), ToNumber(response.fields["rest"]))
  {
    if IsObjectWithKeys(response, TimerKeys) then
      assert TimerKeys[0] in response.fields && TimerKeys[1] in response.fields && TimerKeys[2] in response.fields;
      Some(Preset(ToNumber(response.fields["reps"]), ToNumber(response.fields["timer"]), ToNumber(response.fields["rest"])))
    else None
  }

  /** `saveTimer(reps, timer, rest)`: without a signed-in user nothing is
      written and the answer is not ok; otherwise the three fields are
      merged into the user's node and the answer is ok whether or not the
      database took the write (a failed request comes back as null). */
  method SaveTimer(db: Database, user: Option<string>, reps: int, timer: int, rest: int) returns (ok: bool)
    modifies db
    ensures ok <==> Truthy(user)
    ensures !Truthy(user) ==> unchanged(db)
    ensures Truthy(user) ==>
      db.root == (if db.Answers() then Patch(old(db.root), Split(UserPath(user.value)), TimerFields(reps, timer, rest))
                  else old(db.root))
      && db.pushed == old(db.pushed)
      && db.sent == old(db.sent) + db.RequestsFor(UserPath(user.value), "", PATCH, JObj(TimerFields(reps, timer, rest)))
  {
    if !Truthy(user) {
      return false;
    }
    var _ := db.GetDbFirebase(UserPath(user.value), "", PATCH, JObj(TimerFields(reps, timer, rest)));
    ok := true;
  }

  /** `getTimer()`: the defaults without a signed-in user; the stored preset
      when the user's node has all three keys; otherwise the defaults, which
      are then saved. */
  method GetTimer(db: Database, user: Option<string>) returns (p: Preset)
    modifies db
    ensures !Truthy(user) ==> p == DefaultPreset && unchanged(db)
    ensures Truthy(user) ==>
      var response := if db.Answers() then Get(old(db.root), Split(UserPath(user.value))) else JNull;
      var read := db.RequestsFor(UserPath(user.value), "", GET, JNull);
      if PresetOf(response).Some? then
        p == PresetOf(response).value && db.root == old(db.root) && db.sent == old(db.sent) + read
      else
        p == DefaultPreset
        && db.root == (if db.Answers() then Patch(old(db.root), Split(UserPath(user.value)), TimerFields(3, 20, 10))
                       else old(db.root))
        && db.sent == old(db.sent) + read + db.RequestsFor(UserPath(user.value), "", PATCH, JObj(TimerFields(3, 20, 10)))
    ensures db.pushed == old(db.pushed)
  {
    if !Truthy(user) {
      return DefaultPreset;
    }
    var response := db.GetDbFirebase(UserPath(user.value), "", GET, JNull);
    var stored := PresetOf(response);
    if stored.Some? {
      return stored.value;
    }
    var _ := SaveTimer(db, user, 3, 20, 10);
    p := DefaultPreset;
  }

  /** A saved preset reads back as saved. */
  lemma TimerRoundTrip(root: Json, path: seq<string>, reps: int, timer: int, rest: int)
    ensures PresetOf(Get(Patch(root, path, TimerFields(reps, timer, rest)), path)) ==
      Some(Preset(Finite(reps), Finite(timer), Finite(rest)))
  {
    var node := Get(Patch(root, path, TimerFields(reps, timer, rest)), path);
    assert node == JObj(Fields(Get(root, path)) + TimerFields(reps, timer, rest));
    assert IsObjectWithKeys(node, TimerKeys);
  }

  /** Saving a preset keeps the user's device entry, and saving a device
      keeps the preset: the two writes merge different keys of one node. */
  lemma PresetAndDeviceCoexist(root: Json, user: string, reps: int, timer: int, rest: int, device: string)
    requires '/' !in user
    ensures Get(Patch(root, Split(UserPath(user)), TimerFields(reps, timer, rest)), Split(DevicePath(user))) ==
      Get(root, Split(DevicePath(user)))
    ensures var after := Patch(root, Split(UserPath(user)), map["device" := JStr(device)]);
      PresetOf(Get(after, Split(UserPath(user)))) == PresetOf(Get(root, Split(UserPath(user))))
  {
    DevicePathSegments(user);
    PatchKeeps(root, Split(UserPath(user)), TimerFields(reps, timer, rest), "device");
    var p := Split(UserPath(user));
    var f := map["device" := JStr(device)];
    var before := Get(root, p);
    var node := Get(Patch(root, p, f), p);
    assert node == JObj(Fields(before) + f);
    if before.JObj? {
      forall k | k in TimerKeys ensures (k in node.fields <==> k in before.fields) {}
      assert IsObjectWithKeys(node, TimerKeys) == IsObjectWithKeys(before, TimerKeys);
    }
  }

  /** When the user's node has no preset, `getTimer` saves the defaults, so
      the next read finds them. */
  method GetTimerTwice(db: Database, user: string) returns (first: Preset, second: Preset)
    requires db.Answers() && user != ""
    modifies db
    ensures first == DefaultPreset ==> second == DefaultPreset
    ensures first == second
  {
    var node := Get(db.root, Split(UserPath(user)));
    first := GetTimer(db, Some(user));
    if PresetOf(node).None? {
      TimerRoundTrip(old(db.root), Split(UserPath(user)), 3, 20, 10);
    }
    second := GetTimer(db, Some(user));
  }
}
