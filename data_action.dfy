/** The pressure-sample and device actions of src/actions/data.action.ts:
    `storeData` appends one sample under the therapist's session node,
    `saveDevice` records the therapist's or client's sensor, `getDevice`
    reads it back. The signed-in user (`auth()` and `currentUser()`) is a
    parameter: `None` when no one is signed in. */
module DataActions {
  import opened Text
  import opened Json
  import opened Firebase

  /** The `status` of a reply: "ok", "not ok" or 404. */
  datatype Status = Ok | NotOk | NotFound

  datatype Reply = Reply(status: Status, message: string)

  /** One pressure sample as the chart hands it over. */
  datatype PressureRecord = PressureRecord(
    pressure: int, timestamp: string, start: Option<string>, patient: Option<string>, mode: Option<string>)

  /** `data.start?.replace(/\//g, "-")`: the session key, with every '/' of
      the start time turned into '-' (a missing start stays missing). */
  function SessionKey(start: Option<string>): (k: Option<string>)
    ensures k.Some? <==> start.Some?
    ensures k.Some? ==> |k.value| == |start.value| && '/' !in k.value
    ensures k.Some? ==> forall i :: 0 <= i < |k.value| && start.value[i] != '/' ==> k.value[i] == start.value[i]
  {
    if start.None? then None else Some(ReplaceChar(start.value, '/', '-'))
  }

  /** Replacing characters keeps the key truthy exactly when the start time is. */
  lemma SessionKeyTruthy(start: Option<string>)
    ensures Truthy(SessionKey(start)) <==> Truthy(start)
  {
    if start.Some? && start.value != "" {
      assert |SessionKey(start).value| > 0;
    }
  }

  /** `storeData`'s checks before it touches the database, in the order it
      makes them: patient, start time, mode, then the signed-in user. */
  function CheckRecord(data: PressureRecord, user: Option<string>): (r: Option<Reply>)
    ensures r.None? <==> Truthy(data.patient) && Truthy(data.start) && Truthy(data.mode) && Truthy(user)
    ensures !Truthy(data.patient) ==> r == Some(Reply(NotOk, "Missing Patient ID"))
    ensures Truthy(data.patient) && !Truthy(data.start) ==> r == Some(Reply(NotOk, "Missing Patient Start Time"))
    ensures Truthy(data.patient) && Truthy(data.start) && !Truthy(data.mode) ==>
      r == Some(Reply(NotOk, "Missing Operation Mode"))
    ensures Truthy(data.patient) && Truthy(data.start) && Truthy(data.mode) && !Truthy(user) ==>
      r == Some(Reply(NotFound, "User not found"))
  {
    SessionKeyTruthy(data.start);
    if !Truthy(data.patient) then Some(Reply(NotOk, "Missing Patient ID"))
    else if !Truthy(SessionKey(data.start)) then Some(Reply(NotOk, "Missing Patient Start Time"))
    else if !Truthy(data.mode) then Some(Reply(NotOk, "Missing Operation Mode"))
    else if !Truthy(user) then Some(Reply(NotFound, "User not found"))
    else None
  }

  /** The therapist's node. */
  function UserPath(user: string): string {
    "users/" + user
  }

  /** The therapist's device entry. */
  function DevicePath(user: string): string {
    UserPath(user) + "/device"
  }

  /** The node a session's samples are pushed under: the user, the patient
      id in lower case, then the mode and the session key joined by '_'. */
  function DataPath(user: string, patient: string, mode: string, key: string): string {
    "data/" + user + "/" + Lower(patient) + "/" + mode + "_" + key
  }

  /** `Object.keys(response).length`, counting only object replies. */
  function KeyCount(response: Json): (n: nat)
    ensures n > 0 ==> response.JObj?
  {
    if response.JObj? then |response.fields.Keys| else 0
  }

  /** The database holds a non-empty node for the user (the shallow read
      `storeData` and `saveDevice` make finds at least one key). */
  predicate UserKnown(root: Json, user: string) {
    KeyCount(Get(root, Split(UserPath(user)))) > 0
  }

  /** The value `storeData` posts: the sample's timestamp and pressure. */
  function StoredValue(data: PressureRecord): (v: Json)
    ensures Has(v, "timestamp") && Has(v, "pressure") && |v.fields.Keys| == 2
    ensures v.fields["pressure"] == JNum(data.pressure) && v.fields["timestamp"] == JStr(data.timestamp)
  {
    var v := JObj(map["timestamp" := JStr(data.timestamp), "pressure" := JNum(data.pressure)]);
    assert v.fields.Keys == {"timestamp", "pressure"};
    v
  }

  /** A shallow read of the user's node finds keys exactly when the node has some. */
  lemma ShallowUserKnown(root: Json, user: string)
    ensures KeyCount(Shallow(Get(root, Split(UserPath(user))))) > 0 <==> UserKnown(root, user)
  {
  }

  /** The location of the samples splits into the four segments the
      database stores them under, as long as the user id, the patient id and
      the mode hold no '/' (the session key never does). */
  lemma {:induction false} DataPathSegments(user: string, patient: string, mode: string, start: string)
    requires '/' !in user && '/' !in patient && '/' !in mode
    ensures var key := SessionKey(Some(start)).value;
      Split(DataPath(user, patient, mode, key)) == ["data", user, Lower(patient), mode + "_" + key]
  {
    var key := SessionKey(Some(start)).value;
    var lp := Lower(patient);
    assert '/' !in lp by {
      forall i | 0 <= i < |lp| ensures lp[i] != '/' {
        assert patient[i] != '/';
      }
    }
    var last := mode + "_" + key;
    assert '/' !in last by {
      forall i | 0 <= i < |last| ensures last[i] != '/' {
        if i < |mode| { assert last[i] == mode[i]; }
        else if i > |mode| { assert last[i] == key[i - |mode| - 1]; }
      }
    }
    assert DataPath(user, patient, mode, key) == "data" + "/" + (user + "/" + (lp + "/" + last));
    SplitSegment("data", user + "/" + (lp + "/" + last));
    SplitSegment(user, lp + "/" + last);
    SplitSegment(lp, last);
    SplitWhole(last);
  }

  /** The user's node is the two segments "users" and the user id. */
  lemma {:induction false} UserPathSegments(user: string)
    requires '/' !in user
    ensures Split(UserPath(user)) == ["users", user]
  {
    assert UserPath(user) == "users" + "/" + user;
    SplitSegment("users", user);
    SplitWhole(user);
  }

  /** The device entry lies one segment below the user's node. */
  lemma {:induction false} DevicePathSegments(user: string)
    requires '/' !in user
    ensures Split(DevicePath(user)) == Split(UserPath(user)) + ["device"]
    ensures Split(UserPath(user)) == ["users", user]
  {
    UserPathSegments(user);
    assert Split(user + "/" + "device") == [user, "device"] by {
      SplitSegment(user, "device");
      SplitWhole("device");
    }
    assert DevicePath(user) == "users" + "/" + (user + "/" + "device");
    SplitSegment("users", user + "/" + "device");
  }

  /** `storeData(data)`: the checks first; then a shallow read of the user's
      node and, if it has keys, a push of the sample under the session's
      node. */
  method StoreData(db: Database, user: Option<string>, data: PressureRecord) returns (reply: Reply)
    modifies db
    ensures CheckRecord(data, user).Some? ==> reply == CheckRecord(data, user).value && unchanged(db)
    ensures CheckRecord(data, user).None? && db.Answers() && UserKnown(old(db.root), user.value) ==>
      var path := DataPath(user.value, data.patient.value, data.mode.value, SessionKey(data.start).value);
      reply == Reply(Ok, "Insert Data Success")
      && db.root == SetAt(old(db.root), Split(path) + [PushKey(old(db.pushed))], StoredValue(data))
      && db.pushed == old(db.pushed) + 1
      && db.sent == old(db.sent) + db.RequestsFor(UserPath(user.value), "shallow=true", GET, JNull)
                                 + db.RequestsFor(path, "", POST, StoredValue(data))
    ensures CheckRecord(data, user).None? && !(db.Answers() && UserKnown(old(db.root), user.value)) ==>
      reply == Reply(NotOk, "Cannot Insert Data")
      && db.root == old(db.root) && db.pushed == old(db.pushed)
      && db.sent == old(db.sent) + db.RequestsFor(UserPath(user.value), "shallow=true", GET, JNull)
  {
    var check := CheckRecord(data, user);
    if check.Some? {
      return check.value;
    }
    var u := user.value;
    var response := db.GetDbFirebase(UserPath(u), "shallow=true", GET, JNull);
    ShallowUserKnown(old(db.root), u);
    if KeyCount(response) > 0 {
      var path := DataPath(u, data.patient.value, data.mode.value, SessionKey(data.start).value);
      var _ := db.GetDbFirebase(path, "", POST, StoredValue(data));
      reply := Reply(Ok, "Insert Data Success");
    } else {
      reply := Reply(NotOk, "Cannot Insert Data");
    }
  }

  /** `saveDevice(device)`: an empty name is refused before the user is
      looked up; a known user's node gets the name merged in as `device`. */
  method SaveDevice(db: Database, user: Option<string>, device: string) returns (reply: Reply)
    modifies db
    ensures device == "" ==> reply == Reply(NotOk, "Missing Device Name") && unchanged(db)
    ensures device != "" && !Truthy(user) ==> reply == Reply(NotFound, "User not found") && unchanged(db)
    ensures device != "" && Truthy(user) && db.Answers() && UserKnown(old(db.root), user.value) ==>
      reply == Reply(Ok, "Insert Device Success")
      && db.root == Patch(old(db.root), Split(UserPath(user.value)), map["device" := JStr(device)])
      && db.pushed == old(db.pushed)
      && db.sent == old(db.sent) + db.RequestsFor(UserPath(user.value), "shallow=true", GET, JNull)
                                 + db.RequestsFor(UserPath(user.value), "", PATCH, JObj(map["device" := JStr(device)]))
    ensures device != "" && Truthy(user) && !(db.Answers() && UserKnown(old(db.root), user.value)) ==>
      reply == Reply(NotOk, "Cannot Insert Device")
      && db.root == old(db.root) && db.pushed == old(db.pushed)
      && db.sent == old(db.sent) + db.RequestsFor(UserPath(user.value), "shallow=true", GET, JNull)
  {
    if device == "" {
      return Reply(NotOk, "Missing Device Name");
    }
    if !Truthy(user) {
      return Reply(NotFound, "User not found");
    }
    var u := user.value;
    var response := db.GetDbFirebase(UserPath(u), "shallow=true", GET, JNull);
    ShallowUserKnown(old(db.root), u);
    if KeyCount(response) > 0 {
      var _ := db.GetDbFirebase(UserPath(u), "", PATCH, JObj(map["device" := JStr(device)]));
      reply := Reply(Ok, "Insert Device Success");
    } else {
      reply := Reply(NotOk, "Cannot Insert Device");
    }
  }

  /** What `getDevice` answers: the stored value, or a failure reply. */
  datatype DeviceReply = Device(value: Json) | Failure(reply: Reply)

  /** `getDevice()`: reads the user's device entry; a falsy value (missing,
      empty, or an unreachable database) is "Device Not Found". */
  method GetDevice(db: Database, user: Option<string>) returns (r: DeviceReply)
    modifies db
    ensures !Truthy(user) ==> r == Failure(Reply(NotFound, "User not found")) && unchanged(db)
    ensures Truthy(user) ==>
      var stored := if db.Answers() then Get(old(db.root), Split(DevicePath(user.value))) else JNull;
      r == (if TruthyValue(stored) then Device(stored) else Failure(Reply(NotOk, "Device Not Found")))
      && db.root == old(db.root) && db.pushed == old(db.pushed)
      && db.sent == old(db.sent) + db.RequestsFor(DevicePath(user.value), "", GET, JNull)
  {
    if !Truthy(user) {
      return Failure(Reply(NotFound, "User not found"));
    }
    var response := db.GetDbFirebase(DevicePath(user.value), "", GET, JNull);
    if !TruthyValue(response) {
      return Failure(Reply(NotOk, "Device Not Found"));
    }
    r := Device(response);
  }

  /** A device name merged into a user's node reads back from the device
      entry, and a non-empty name is truthy. */
  lemma DeviceRoundTrip(root: Json, user: string, device: string)
    requires '/' !in user
    ensures var after := Patch(root, Split(UserPath(user)), map["device" := JStr(device)]);
      Get(after, Split(DevicePath(user))) == JStr(device)
      && (TruthyValue(JStr(device)) <==> device != "")
  {
    DevicePathSegments(user);
    PatchThenGet(root, Split(UserPath(user)), map["device" := JStr(device)], "device");
  }

  /** A stored sample reads back at its pushed key below the session node. */
  lemma StoredSampleReadable(root: Json, user: string, data: PressureRecord, n: nat)
    requires CheckRecord(data, Some(user)).None?
    requires '/' !in user && '/' !in data.patient.value && '/' !in data.mode.value
    ensures var key := SessionKey(data.start).value;
      var after := SetAt(root, Split(DataPath(user, data.patient.value, data.mode.value, key)) + [PushKey(n)], StoredValue(data));
      Get(after, ["data", user, Lower(data.patient.value), data.mode.value + "_" + key, PushKey(n)]) == StoredValue(data)
  {
    var key := SessionKey(data.start).value;
    var path := DataPath(user, data.patient.value, data.mode.value, key);
    DataPathSegments(user, data.patient.value, data.mode.value, data.start.value);
    assert Split(path) + [PushKey(n)] == ["data", user, Lower(data.patient.value), data.mode.value + "_" + key, PushKey(n)];
  }

  /** Saving a device for a known user and reading it back yields that device. */
  method SaveThenGetDevice(db: Database, user: string, device: string) returns (r: DeviceReply)
    requires db.Answers() && UserKnown(db.root, user) && user != "" && '/' !in user && device != ""
    modifies db
    ensures r == Device(JStr(device))
  {
    var saved := SaveDevice(db, Some(user), device);
    DeviceRoundTrip(old(db.root), user, device);
    r := GetDevice(db, Some(user));
  }
}
