/**
 * The 15-field land record createLand builds (lib/assetTransfer.js:16-32)
 * and what a transfer does to it (lib/assetTransfer.js:56-62).
 */
module LandRecord {
  import opened Wrappers
  import opened JsonObject
  import opened JsonCodec
  import opened CanonicalJson

  /** The arguments of createLand, one per field of the record. */
  datatype Land = Land(
    siteId: string,
    surveryId: string,
    previousOwnerName: string,
    previousOwnerAadhar: string,
    previousOwnerPan: string,
    currentOwnerName: string,
    currentOwnerAadhar: string,
    currentOwnerPan: string,
    siteAddress: string,
    latitude: string,
    longitude: string,
    area: string,
    length: string,
    breadth: string,
    documentHash: string)

  /** The property names of the record, in the order the literal lists them. */
  const LandKeys: seq<string> := [
    "SiteId", "SurveryId",
    "PreviousOwnerName", "PreviousOwnerAadhar", "PreviousOwnerPan",
    "CurrentOwnerName", "CurrentOwnerAadhar", "CurrentOwnerPan",
    "SiteAddress", "Latitude", "Longitude", "Area", "Length", "Breadth",
    "DocumentHash"]

  /** The object literal of createLand, properties in source order. */
  function LandObject(l: Land): Obj
  {
    [Member("SiteId", l.siteId),
     Member("SurveryId", l.surveryId),
     Member("PreviousOwnerName", l.previousOwnerName),
     Member("PreviousOwnerAadhar", l.previousOwnerAadhar),
     Member("PreviousOwnerPan", l.previousOwnerPan),
     Member("CurrentOwnerName", l.currentOwnerName),
     Member("CurrentOwnerAadhar", l.currentOwnerAadhar),
     Member("CurrentOwnerPan", l.currentOwnerPan),
     Member("SiteAddress", l.siteAddress),
     Member("Latitude", l.latitude),
     Member("Longitude", l.longitude),
     Member("Area", l.area),
     Member("Length", l.length),
     Member("Breadth", l.breadth),
     Member("DocumentHash", l.documentHash)]
  }

  /** The record's values, in the order of LandKeys. */
  function LandValues(l: Land): seq<string>
  {
    [l.siteId, l.surveryId,
     l.previousOwnerName, l.previousOwnerAadhar, l.previousOwnerPan,
     l.currentOwnerName, l.currentOwnerAadhar, l.currentOwnerPan,
     l.siteAddress, l.latitude, l.longitude, l.area, l.length, l.breadth,
     l.documentHash]
  }

  /** o holds exactly the properties of the record createLand builds for l. */
  ghost predicate Describes(o: Obj, l: Land)
  {
    forall k :: Get(o, k) == Get(LandObject(l), k)
  }

  lemma LandObjectAt(l: Land, i: nat)
    requires i < 15
    ensures |LandObject(l)| == 15
    ensures LandObject(l)[i] == Member(LandKeys[i], LandValues(l)[i])
  {
    assert i == 0 || i == 1 || i == 2 || i == 3 || i == 4 || i == 5 || i == 6 || i == 7
      || i == 8 || i == 9 || i == 10 || i == 11 || i == 12 || i == 13 || i == 14;
  }

  lemma LandKeysDistinct()
    ensures forall i, j :: 0 <= i < j < |LandKeys| ==> LandKeys[i] != LandKeys[j]
  {
    forall i, j | 0 <= i < j < |LandKeys| ensures LandKeys[i] != LandKeys[j] {
      assert i == 0 || i == 1 || i == 2 || i == 3 || i == 4 || i == 5 || i == 6 || i == 7
        || i == 8 || i == 9 || i == 10 || i == 11 || i == 12 || i == 13 || i == 14;
      assert j == 0 || j == 1 || j == 2 || j == 3 || j == 4 || j == 5 || j == 6 || j == 7
        || j == 8 || j == 9 || j == 10 || j == 11 || j == 12 || j == 13 || j == 14;
    }
  }

  /** The object createLand builds never holds two properties of the same name. */
  lemma LandObjectDistinct(l: Land)
    ensures DistinctKeys(LandObject(l))
  {
    var o := LandObject(l);
    LandKeysDistinct();
    forall i, j | 0 <= i < j < |o| ensures o[i].key != o[j].key {
      LandObjectAt(l, i);
      LandObjectAt(l, j);
    }
  }

  /**
   * The object createLand builds has distinct property names, reads under the
   * i-th name the i-th argument, and has no other property.
   */
  lemma LandObjectReads(l: Land)
    ensures DistinctKeys(LandObject(l))
    ensures forall i :: 0 <= i < |LandKeys| ==> Get(LandObject(l), LandKeys[i]) == Some(LandValues(l)[i])
    ensures forall k :: k !in LandKeys ==> Get(LandObject(l), k) == None
  {
    var o := LandObject(l);
    LandObjectDistinct(l);
    forall i | 0 <= i < |LandKeys| ensures Get(o, LandKeys[i]) == Some(LandValues(l)[i]) {
      LandObjectAt(l, i);
      GetAt(o, i);
    }
    forall k | k !in LandKeys ensures Get(o, k) == None {
      forall i | 0 <= i < |o| ensures o[i].key != k {
        LandObjectAt(l, i);
      }
    }
  }

  /** Every name of the record starts with a capital letter. */
  lemma LandKeysCapitalised()
    ensures forall i :: 0 <= i < |LandKeys| ==> |LandKeys[i]| > 0 && 'A' <= LandKeys[i][0] <= 'Z'
  {
    forall i | 0 <= i < |LandKeys| ensures |LandKeys[i]| > 0 && 'A' <= LandKeys[i][0] <= 'Z' {
      assert i == 0 || i == 1 || i == 2 || i == 3 || i == 4 || i == 5 || i == 6 || i == 7
        || i == 8 || i == 9 || i == 10 || i == 11 || i == 12 || i == 13 || i == 14;
    }
  }

  /** A name starting with a lower-case letter is not one of the record's. */
  lemma LowerCaseAbsent(o: Obj, l: Land, k: string)
    requires Describes(o, l)
    requires |k| > 0 && 'a' <= k[0] <= 'z'
    ensures Get(o, k) == None
  {
    LandKeysCapitalised();
    LandObjectReads(l);
    assert Get(o, k) == Get(LandObject(l), k);
  }

  /** Two lands that differ in the current owner only agree on every other name. */
  lemma NewOwnerReadsOther(l: Land, name: string, aadhar: string, pan: string, k: string)
    requires k != "CurrentOwnerName" && k != "CurrentOwnerAadhar" && k != "CurrentOwnerPan"
    ensures Get(LandObject(l.(currentOwnerName := name, currentOwnerAadhar := aadhar, currentOwnerPan := pan)), k)
         == Get(LandObject(l), k)
  {
    var l' := l.(currentOwnerName := name, currentOwnerAadhar := aadhar, currentOwnerPan := pan);
    LandObjectReads(l);
    LandObjectReads(l');
    if i :| 0 <= i < |LandKeys| && LandKeys[i] == k {
      assert i != 5 && i != 6 && i != 7;
      assert LandValues(l')[i] == LandValues(l)[i] by {
        assert i == 0 || i == 1 || i == 2 || i == 3 || i == 4
          || i == 8 || i == 9 || i == 10 || i == 11 || i == 12 || i == 13 || i == 14;
      }
    }
  }

  /** The three property names of one owner: name, Aadhaar number, PAN. */
  datatype OwnerKeys = OwnerKeys(name: string, aadhar: string, pan: string)

  /** A new owner, as transferLand receives it. */
  datatype Owner = Owner(name: string, aadhar: string, pan: string)

  /**
   * The edits transferLand makes to the parsed record, in source order:
   * copy the three `from` properties to the three `to` properties, then write
   * the new owner into the three `current` properties. Copying an absent
   * property assigns `undefined`, which JSON.stringify omits, so it is a
   * removal here.
   */
  function Rotate(land: Obj, from: OwnerKeys, to: OwnerKeys, current: OwnerKeys, owner: Owner): Obj
  {
    WriteOwner(CopyOwner(land, from, to), current, owner)
  }

  /** Lines 57-59: `land[to.x] = land[from.x]` for the three properties in turn. */
  function CopyOwner(land: Obj, from: OwnerKeys, to: OwnerKeys): Obj
  {
    var o1 := Assign(land, to.name, Get(land, from.name));
    var o2 := Assign(o1, to.aadhar, Get(o1, from.aadhar));
    Assign(o2, to.pan, Get(o2, from.pan))
  }

  /** Lines 60-62: `land[current.x] = owner.x` for the three properties in turn. */
  function WriteOwner(land: Obj, current: OwnerKeys, owner: Owner): Obj
  {
    var o4 := Set(land, current.name, owner.name);
    var o5 := Set(o4, current.aadhar, owner.aadhar);
    Set(o5, current.pan, owner.pan)
  }

  lemma CopyOwnerReads(land: Obj, from: OwnerKeys, to: OwnerKeys, k: string)
    requires to.name != to.aadhar && to.name != to.pan && to.aadhar != to.pan
    requires from.aadhar != to.name && from.pan != to.name && from.pan != to.aadhar
    ensures var r := CopyOwner(land, from, to);
      && Get(r, to.name) == Get(land, from.name)
      && Get(r, to.aadhar) == Get(land, from.aadhar)
      && Get(r, to.pan) == Get(land, from.pan)
      && (k != to.name && k != to.aadhar && k != to.pan ==> Get(r, k) == Get(land, k))
      && (DistinctKeys(land) ==> DistinctKeys(r))
  {
  }

  lemma WriteOwnerReads(land: Obj, current: OwnerKeys, owner: Owner, k: string)
    requires current.name != current.aadhar && current.name != current.pan && current.aadhar != current.pan
    ensures var r := WriteOwner(land, current, owner);
      && Get(r, current.name) == Some(owner.name)
      && Get(r, current.aadhar) == Some(owner.aadhar)
      && Get(r, current.pan) == Some(owner.pan)
      && (k != current.name && k != current.aadhar && k != current.pan ==> Get(r, k) == Get(land, k))
      && (DistinctKeys(land) ==> DistinctKeys(r))
  {
    var o4 := Set(land, current.name, owner.name);
    var o5 := Set(o4, current.aadhar, owner.aadhar);
    SetReads(land, current.name, owner.name);
    SetReads(o4, current.aadhar, owner.aadhar);
    SetReads(o5, current.pan, owner.pan);
    if DistinctKeys(land) {
      SetDistinct(land, current.name, owner.name);
      SetDistinct(o4, current.aadhar, owner.aadhar);
      SetDistinct(o5, current.pan, owner.pan);
    }
  }

  /** The six names a rotation writes. */
  function Written(to: OwnerKeys, current: OwnerKeys): seq<string>
  {
    [to.name, to.aadhar, to.pan, current.name, current.aadhar, current.pan]
  }

  /** The six names a rotation writes are distinct, and no copy reads a name written before it. */
  predicate WellFormedRotation(from: OwnerKeys, to: OwnerKeys, current: OwnerKeys)
  {
    var written := Written(to, current);
    && (forall i, j :: 0 <= i < j < |written| ==> written[i] != written[j])
    && from.aadhar != to.name
    && from.pan != to.name && from.pan != to.aadhar
  }

  /** What a rotation leaves in each property of the record. */
  lemma RotateReads(land: Obj, from: OwnerKeys, to: OwnerKeys, current: OwnerKeys, owner: Owner, k: string)
    requires WellFormedRotation(from, to, current)
    ensures var r := Rotate(land, from, to, current, owner);
      && Get(r, current.name) == Some(owner.name)
      && Get(r, current.aadhar) == Some(owner.aadhar)
      && Get(r, current.pan) == Some(owner.pan)
      && Get(r, to.name) == Get(land, from.name)
      && Get(r, to.aadhar) == Get(land, from.aadhar)
      && Get(r, to.pan) == Get(land, from.pan)
      && (k !in Written(to, current) ==> Get(r, k) == Get(land, k))
      && (DistinctKeys(land) ==> DistinctKeys(r))
  {
    var written := Written(to, current);
    assert written[0] != written[1] && written[0] != written[2] && written[1] != written[2];
    assert written[3] != written[4] && written[3] != written[5] && written[4] != written[5];
    var o := CopyOwner(land, from, to);
    CopyOwnerReads(land, from, to, k);
    CopyOwnerReads(land, from, to, current.name);
    CopyOwnerReads(land, from, to, current.aadhar);
    CopyOwnerReads(land, from, to, current.pan);
    WriteOwnerReads(o, current, owner, k);
    WriteOwnerReads(o, current, owner, to.name);
    WriteOwnerReads(o, current, owner, to.aadhar);
    WriteOwnerReads(o, current, owner, to.pan);
    assert to.name != current.name && to.name != current.aadhar && to.name != current.pan;
    assert to.aadhar != current.name && to.aadhar != current.aadhar && to.aadhar != current.pan;
    assert to.pan != current.name && to.pan != current.aadhar && to.pan != current.pan;
  }

  /** The owner names as the record spells them, capitalised. */
  const CurrentOwnerKeys := OwnerKeys("CurrentOwnerName", "CurrentOwnerAadhar", "CurrentOwnerPan")
  const PreviousOwnerKeys := OwnerKeys("PreviousOwnerName", "PreviousOwnerAadhar", "PreviousOwnerPan")

  /** The lower-case names transferLand reads and writes (lib/assetTransfer.js:57-59). */
  const LowerCurrentKeys := OwnerKeys("currentOwnerName", "currentOwnerAadhar", "currentOwnerPan")
  const LowerPreviousKeys := OwnerKeys("previousOwnerName", "previousOwnerAadhar", "previousOwnerPan")

  /** transferLand's edits as written: the copies use the lower-case names. */
  function Transferred(land: Obj, owner: Owner): Obj
  {
    Rotate(land, LowerCurrentKeys, LowerPreviousKeys, CurrentOwnerKeys, owner)
  }

  /** The evidently intended edits: the current owner becomes the previous one. */
  function Rotated(land: Obj, owner: Owner): Obj
  {
    Rotate(land, CurrentOwnerKeys, PreviousOwnerKeys, CurrentOwnerKeys, owner)
  }

  /**
   * transferLand's edits, as written, on any parsed object: the lower-case
   * previous-owner properties take the lower-case current-owner ones, the
   * capitalised CurrentOwner* take the new owner, and nothing else changes.
   */
  lemma TransferredReads(o: Obj, owner: Owner, k: string)
    ensures var r := Transferred(o, owner);
      && Get(r, "CurrentOwnerName") == Some(owner.name)
      && Get(r, "CurrentOwnerAadhar") == Some(owner.aadhar)
      && Get(r, "CurrentOwnerPan") == Some(owner.pan)
      && Get(r, "previousOwnerName") == Get(o, "currentOwnerName")
      && Get(r, "previousOwnerAadhar") == Get(o, "currentOwnerAadhar")
      && Get(r, "previousOwnerPan") == Get(o, "currentOwnerPan")
      && (k !in Written(LowerPreviousKeys, CurrentOwnerKeys) ==> Get(r, k) == Get(o, k))
  {
    TransferredWellFormed();
    RotateReads(o, LowerCurrentKeys, LowerPreviousKeys, CurrentOwnerKeys, owner, k);
  }

  lemma TransferredWellFormed()
    ensures WellFormedRotation(LowerCurrentKeys, LowerPreviousKeys, CurrentOwnerKeys)
  {
    var w := [LowerPreviousKeys.name, LowerPreviousKeys.aadhar, LowerPreviousKeys.pan,
              CurrentOwnerKeys.name, CurrentOwnerKeys.aadhar, CurrentOwnerKeys.pan];
    forall i, j | 0 <= i < j < |w| ensures w[i] != w[j] {
      assert i == 0 || i == 1 || i == 2 || i == 3 || i == 4 || i == 5;
      assert j == 0 || j == 1 || j == 2 || j == 3 || j == 4 || j == 5;
    }
  }

  lemma RotatedWellFormed()
    ensures WellFormedRotation(CurrentOwnerKeys, PreviousOwnerKeys, CurrentOwnerKeys)
  {
    var w := [PreviousOwnerKeys.name, PreviousOwnerKeys.aadhar, PreviousOwnerKeys.pan,
              CurrentOwnerKeys.name, CurrentOwnerKeys.aadhar, CurrentOwnerKeys.pan];
    forall i, j | 0 <= i < j < |w| ensures w[i] != w[j] {
      assert i == 0 || i == 1 || i == 2 || i == 3 || i == 4 || i == 5;
      assert j == 0 || j == 1 || j == 2 || j == 3 || j == 4 || j == 5;
    }
  }
  /** The record createLand stores: its canonical text parses to the sorted record, which describes the land. */
  lemma StoredRecord(l: Land)
    ensures Parse(Canonical(LandObject(l))) == Some(SortKeys(LandObject(l)))
    ensures SortedKeys(SortKeys(LandObject(l)))
    ensures Describes(SortKeys(LandObject(l)), l)
  {
    LandObjectReads(l);
    CanonicalParses(LandObject(l));
  }

  /** The record createLand returns: its JSON.stringify text parses back to the object literal. */
  lemma ReturnedRecord(l: Land)
    ensures Parse(Stringify(LandObject(l))) == Some(LandObject(l))
    ensures forall i :: 0 <= i < |LandKeys| ==> Get(Parse(Stringify(LandObject(l))).value, LandKeys[i]) == Some(LandValues(l)[i])
    ensures forall k :: k !in LandKeys ==> Get(Parse(Stringify(LandObject(l))).value, k) == None
  {
    LandObjectReads(l);
    ParseStringify(LandObject(l));
  }

  /** Copying absent properties onto absent properties changes nothing. */
  lemma CopyAbsent(land: Obj, from: OwnerKeys, to: OwnerKeys)
    requires Get(land, from.name) == None && Get(land, from.aadhar) == None && Get(land, from.pan) == None
    requires Get(land, to.name) == None && Get(land, to.aadhar) == None && Get(land, to.pan) == None
    ensures CopyOwner(land, from, to) == land
  {
  }

  /** Writing properties that already exist keeps every name in its place. */
  lemma WriteOwnerKeepsKeys(land: Obj, current: OwnerKeys, owner: Owner)
    requires current.name != current.aadhar && current.name != current.pan && current.aadhar != current.pan
    requires Get(land, current.name).Some? && Get(land, current.aadhar).Some? && Get(land, current.pan).Some?
    ensures var r := WriteOwner(land, current, owner);
      |r| == |land| && forall i :: 0 <= i < |land| ==> r[i].key == land[i].key
  {
    var o4 := Set(land, current.name, owner.name);
    var o5 := Set(o4, current.aadhar, owner.aadhar);
    SetReads(land, current.name, owner.name);
    SetReads(o4, current.aadhar, owner.aadhar);
    SetExisting(land, current.name, owner.name);
    SetExisting(o4, current.aadhar, owner.aadhar);
    SetExisting(o5, current.pan, owner.pan);
  }

  /** The land with a new current owner and every other field unchanged. */
  function WithCurrentOwner(l: Land, owner: Owner): Land
  {
    l.(currentOwnerName := owner.name, currentOwnerAadhar := owner.aadhar, currentOwnerPan := owner.pan)
  }

  /** On a record of a land, the lower-case copies of transferLand find nothing and change nothing. */
  lemma CopiesFindNothing(s: Obj, l: Land, owner: Owner)
    requires Describes(s, l)
    ensures Transferred(s, owner) == WriteOwner(s, CurrentOwnerKeys, owner)
  {
    LowerCaseAbsent(s, l, "currentOwnerName");
    LowerCaseAbsent(s, l, "currentOwnerAadhar");
    LowerCaseAbsent(s, l, "currentOwnerPan");
    LowerCaseAbsent(s, l, "previousOwnerName");
    LowerCaseAbsent(s, l, "previousOwnerAadhar");
    LowerCaseAbsent(s, l, "previousOwnerPan");
    CopyAbsent(s, LowerCurrentKeys, LowerPreviousKeys);
  }

  /** A record that describes a land holds its three current-owner properties. */
  lemma HoldsCurrentOwner(o: Obj, l: Land)
    requires Describes(o, l)
    ensures Get(o, "CurrentOwnerName") == Some(l.currentOwnerName)
    ensures Get(o, "CurrentOwnerAadhar") == Some(l.currentOwnerAadhar)
    ensures Get(o, "CurrentOwnerPan") == Some(l.currentOwnerPan)
  {
    LandObjectDistinct(l);
    GetAt(LandObject(l), 5);
    GetAt(LandObject(l), 6);
    GetAt(LandObject(l), 7);
  }

  /** A record that describes a land holds its three previous-owner properties. */
  lemma HoldsPreviousOwner(o: Obj, l: Land)
    requires Describes(o, l)
    ensures Get(o, "PreviousOwnerName") == Some(l.previousOwnerName)
    ensures Get(o, "PreviousOwnerAadhar") == Some(l.previousOwnerAadhar)
    ensures Get(o, "PreviousOwnerPan") == Some(l.previousOwnerPan)
  {
    LandObjectDistinct(l);
    GetAt(LandObject(l), 2);
    GetAt(LandObject(l), 3);
    GetAt(LandObject(l), 4);
  }

  /** A record that describes a land holds its identifiers and location. */
  lemma HoldsSite(o: Obj, l: Land)
    requires Describes(o, l)
    ensures Get(o, "SiteId") == Some(l.siteId)
    ensures Get(o, "SurveryId") == Some(l.surveryId)
    ensures Get(o, "SiteAddress") == Some(l.siteAddress)
    ensures Get(o, "Latitude") == Some(l.latitude)
    ensures Get(o, "Longitude") == Some(l.longitude)
  {
    LandObjectDistinct(l);
    GetAt(LandObject(l), 0);
    GetAt(LandObject(l), 1);
    GetAt(LandObject(l), 8);
    GetAt(LandObject(l), 9);
    GetAt(LandObject(l), 10);
  }

  /** A record that describes a land holds its measurements and document hash. */
  lemma HoldsMeasures(o: Obj, l: Land)
    requires Describes(o, l)
    ensures Get(o, "Area") == Some(l.area)
    ensures Get(o, "Length") == Some(l.length)
    ensures Get(o, "Breadth") == Some(l.breadth)
    ensures Get(o, "DocumentHash") == Some(l.documentHash)
  {
    LandObjectDistinct(l);
    GetAt(LandObject(l), 11);
    GetAt(LandObject(l), 12);
    GetAt(LandObject(l), 13);
    GetAt(LandObject(l), 14);
  }

  /** A record that describes a land has the fifteen properties and no other. */
  lemma HoldsNothingElse(o: Obj, l: Land, k: string)
    requires Describes(o, l)
    requires k !in LandKeys
    ensures Get(o, k) == None
  {
    LandObjectReads(l);
    assert Get(o, k) == Get(LandObject(l), k);
  }

  /** Writing a new current owner into a record of l gives a record of l with that owner. */
  lemma WriteOwnerDescribes(o: Obj, l: Land, owner: Owner)
    requires Describes(o, l)
    ensures Describes(WriteOwner(o, CurrentOwnerKeys, owner), WithCurrentOwner(l, owner))
  {
    var l' := WithCurrentOwner(l, owner);
    var r := WriteOwner(o, CurrentOwnerKeys, owner);
    HoldsCurrentOwner(LandObject(l'), l');
    forall k ensures Get(r, k) == Get(LandObject(l'), k) {
      WriteOwnerReads(o, CurrentOwnerKeys, owner, k);
      if k != "CurrentOwnerName" && k != "CurrentOwnerAadhar" && k != "CurrentOwnerPan" {
        NewOwnerReadsOther(l, owner.name, owner.aadhar, owner.pan, k);
      }
    }
  }

  /** A sorted record of a land is the one createLand stores for it. */
  lemma SortedRecordIsStored(r: Obj, l: Land)
    requires SortedKeys(r) && Describes(r, l)
    ensures r == SortKeys(LandObject(l))
    ensures Stringify(r) == Canonical(LandObject(l))
  {
    StoredRecord(l);
    SortedSameReads(r, SortKeys(LandObject(l)));
  }

  /**
   * transferLand, as written, on a sorted record of a land: the lower-case
   * copies change nothing, PreviousOwner* keep their values, CurrentOwner*
   * take the new owner, and the record stays sorted.
   */
  lemma TransferOnRecord(s: Obj, l: Land, owner: Owner)
    requires SortedKeys(s) && Describes(s, l)
    ensures SortedKeys(Transferred(s, owner))
    ensures Describes(Transferred(s, owner), WithCurrentOwner(l, owner))
  {
    var r := WriteOwner(s, CurrentOwnerKeys, owner);
    CopiesFindNothing(s, l, owner);
    HoldsCurrentOwner(s, l);
    WriteOwnerKeepsKeys(s, CurrentOwnerKeys, owner);
    SameKeysSorted(s, r);
    WriteOwnerDescribes(s, l, owner);
  }

  /**
   * transferLand, as written, on the record createLand stored writes exactly
   * the text createLand would have stored for the land with the new current
   * owner and the old previous owner.
   */
  lemma TransferOnStoredRecord(l: Land, owner: Owner)
    ensures var r := Transferred(SortKeys(LandObject(l)), owner);
      && Describes(r, WithCurrentOwner(l, owner))
      && Stringify(r) == Canonical(LandObject(WithCurrentOwner(l, owner)))
  {
    var s := SortKeys(LandObject(l));
    StoredRecord(l);
    TransferOnRecord(s, l, owner);
    SortedRecordIsStored(Transferred(s, owner), WithCurrentOwner(l, owner));
  }


  /**
   * transferLand, as written, never records the outgoing owner: after a
   * transfer of a stored record the previous owner is still the one given at
   * creation, whoever the current owner was.
   */
  lemma TransferKeepsPreviousOwner(l: Land, owner: Owner)
    ensures var r := Transferred(SortKeys(LandObject(l)), owner);
      && Get(r, "PreviousOwnerName") == Some(l.previousOwnerName)
      && Get(r, "PreviousOwnerAadhar") == Some(l.previousOwnerAadhar)
      && Get(r, "PreviousOwnerPan") == Some(l.previousOwnerPan)
      && Get(r, "CurrentOwnerName") == Some(owner.name)
  {
    var l' := WithCurrentOwner(l, owner);
    TransferOnStoredRecord(l, owner);
    HoldsPreviousOwner(Transferred(SortKeys(LandObject(l)), owner), l');
    HoldsCurrentOwner(Transferred(SortKeys(LandObject(l)), owner), l');
  }

  /** The land after a handover: the current owner becomes the previous one. */
  function Handover(l: Land, owner: Owner): Land
  {
    l.(previousOwnerName := l.currentOwnerName, previousOwnerAadhar := l.currentOwnerAadhar,
       previousOwnerPan := l.currentOwnerPan,
       currentOwnerName := owner.name, currentOwnerAadhar := owner.aadhar, currentOwnerPan := owner.pan)
  }

  /** A handover leaves every field other than the six owner fields alone. */
  lemma HandoverReadsOther(l: Land, owner: Owner, k: string)
    requires k !in Written(PreviousOwnerKeys, CurrentOwnerKeys)
    ensures Get(LandObject(Handover(l, owner)), k) == Get(LandObject(l), k)
  {
    var l' := Handover(l, owner);
    forall i | 0 <= i < |LandKeys| && LandKeys[i] == k ensures LandValues(l)[i] == LandValues(l')[i] {
      assert i != 2 && i != 3 && i != 4 && i != 5 && i != 6 && i != 7;
      assert i == 0 || i == 1 || i == 8 || i == 9 || i == 10 || i == 11 || i == 12 || i == 13 || i == 14;
    }
    AgreeingLandsRead(l, l', k);
  }

  /** Two lands with the same value in the field named k read the same under k. */
  lemma AgreeingLandsRead(l: Land, l': Land, k: string)
    requires forall i :: 0 <= i < |LandKeys| && LandKeys[i] == k ==> LandValues(l)[i] == LandValues(l')[i]
    ensures Get(LandObject(l), k) == Get(LandObject(l'), k)
  {
    LandObjectReads(l);
    LandObjectReads(l');
  }


  /** Two objects with the same property names in the same places. */
  predicate SameKeys(a: Obj, b: Obj)
  {
    |a| == |b| && forall i :: 0 <= i < |a| ==> a[i].key == b[i].key
  }

  /** Copying a present property onto a present property keeps every name in its place and every name present. */
  lemma CopyExisting(o: Obj, from: string, to: string)
    requires Get(o, from).Some? && Get(o, to).Some?
    ensures var r := Assign(o, to, Get(o, from));
      && SameKeys(r, o)
      && forall k :: Get(r, k).Some? <==> Get(o, k).Some?
  {
    SetExisting(o, to, Get(o, from).value);
  }

  /** Copying present properties onto present properties keeps every name in its place. */
  lemma CopyOwnerKeepsKeys(land: Obj, from: OwnerKeys, to: OwnerKeys)
    requires Get(land, from.name).Some? && Get(land, from.aadhar).Some? && Get(land, from.pan).Some?
    requires Get(land, to.name).Some? && Get(land, to.aadhar).Some? && Get(land, to.pan).Some?
    ensures SameKeys(CopyOwner(land, from, to), land)
  {
    var o1 := Assign(land, to.name, Get(land, from.name));
    CopyExisting(land, from.name, to.name);
    var o2 := Assign(o1, to.aadhar, Get(o1, from.aadhar));
    CopyExisting(o1, from.aadhar, to.aadhar);
    CopyExisting(o2, from.pan, to.pan);
  }

  /** The corrected transfer keeps a record of a land sorted: it only rewrites existing properties. */
  lemma RotatedKeepsKeys(s: Obj, l: Land, owner: Owner)
    requires SortedKeys(s) && Describes(s, l)
    ensures SortedKeys(Rotated(s, owner))
  {
    var c := CopyOwner(s, CurrentOwnerKeys, PreviousOwnerKeys);
    HoldsCurrentOwner(s, l);
    HoldsPreviousOwner(s, l);
    CopyOwnerKeepsKeys(s, CurrentOwnerKeys, PreviousOwnerKeys);
    SameKeysSorted(s, c);
    CopyOwnerReads(s, CurrentOwnerKeys, PreviousOwnerKeys, "CurrentOwnerName");
    CopyOwnerReads(s, CurrentOwnerKeys, PreviousOwnerKeys, "CurrentOwnerAadhar");
    CopyOwnerReads(s, CurrentOwnerKeys, PreviousOwnerKeys, "CurrentOwnerPan");
    WriteOwnerKeepsKeys(c, CurrentOwnerKeys, owner);
    SameKeysSorted(c, Rotated(s, owner));
  }

  /** The corrected transfer writes the outgoing owner into PreviousOwner* and the new one into CurrentOwner*. */
  lemma RotatedOwners(s: Obj, l: Land, owner: Owner)
    requires Describes(s, l)
    ensures var r := Rotated(s, owner);
      && Get(r, "PreviousOwnerName") == Some(l.currentOwnerName)
      && Get(r, "PreviousOwnerAadhar") == Some(l.currentOwnerAadhar)
      && Get(r, "PreviousOwnerPan") == Some(l.currentOwnerPan)
      && Get(r, "CurrentOwnerName") == Some(owner.name)
      && Get(r, "CurrentOwnerAadhar") == Some(owner.aadhar)
      && Get(r, "CurrentOwnerPan") == Some(owner.pan)
  {
    RotatedWellFormed();
    HoldsCurrentOwner(s, l);
    RotateReads(s, CurrentOwnerKeys, PreviousOwnerKeys, CurrentOwnerKeys, owner, "");
  }

  /** What the corrected transfer leaves in one property of a record of l. */
  lemma RotatedReadsAt(s: Obj, l: Land, owner: Owner, k: string)
    requires Describes(s, l)
    ensures Get(Rotated(s, owner), k) == Get(LandObject(Handover(l, owner)), k)
  {
    var l' := Handover(l, owner);
    if k == "PreviousOwnerName" || k == "PreviousOwnerAadhar" || k == "PreviousOwnerPan" {
      RotatedOwners(s, l, owner);
      HoldsPreviousOwner(LandObject(l'), l');
    } else if k == "CurrentOwnerName" || k == "CurrentOwnerAadhar" || k == "CurrentOwnerPan" {
      RotatedOwners(s, l, owner);
      HoldsCurrentOwner(LandObject(l'), l');
    } else {
      RotatedReadsOther(s, l, owner, k);
    }
  }

  /** Away from the owner fields, the corrected transfer changes nothing. */
  lemma RotatedReadsOther(s: Obj, l: Land, owner: Owner, k: string)
    requires Describes(s, l)
    requires k !in Written(PreviousOwnerKeys, CurrentOwnerKeys)
    ensures Get(Rotated(s, owner), k) == Get(LandObject(Handover(l, owner)), k)
  {
    RotatedWellFormed();
    RotateReads(s, CurrentOwnerKeys, PreviousOwnerKeys, CurrentOwnerKeys, owner, k);
    HandoverReadsOther(l, owner, k);
  }

  /** The corrected transfer on a record of l gives a record of the handed-over land. */
  lemma RotatedDescribes(s: Obj, l: Land, owner: Owner)
    requires Describes(s, l)
    ensures Describes(Rotated(s, owner), Handover(l, owner))
  {
    forall k ensures Get(Rotated(s, owner), k) == Get(LandObject(Handover(l, owner)), k) {
      RotatedReadsAt(s, l, owner, k);
    }
  }

  /**
   * The corrected transfer on the record createLand stored writes exactly the
   * text createLand would have stored for the handed-over land.
   */
  lemma RotatedOnStoredRecord(l: Land, owner: Owner)
    ensures var r := Rotated(SortKeys(LandObject(l)), owner);
      && Describes(r, Handover(l, owner))
      && Stringify(r) == Canonical(LandObject(Handover(l, owner)))
  {
    var s := SortKeys(LandObject(l));
    StoredRecord(l);
    RotatedKeepsKeys(s, l, owner);
    RotatedDescribes(s, l, owner);
    SortedRecordIsStored(Rotated(s, owner), Handover(l, owner));
  }

  /**
   * Two corrected transfers chain the lineage: owner one becomes the
   * previous owner and owner two the current one; the creation-time owners
   * are gone.
   */
  lemma RotatedTwice(l: Land, one: Owner, two: Owner)
    ensures var r := Rotated(Rotated(SortKeys(LandObject(l)), one), two);
      && Get(r, "PreviousOwnerName") == Some(one.name)
      && Get(r, "PreviousOwnerAadhar") == Some(one.aadhar)
      && Get(r, "PreviousOwnerPan") == Some(one.pan)
      && Get(r, "CurrentOwnerName") == Some(two.name)
      && Get(r, "CurrentOwnerAadhar") == Some(two.aadhar)
      && Get(r, "CurrentOwnerPan") == Some(two.pan)
  {
    var s := SortKeys(LandObject(l));
    StoredRecord(l);
    RotatedDescribes(s, l, one);
    var l1 := Handover(l, one);
    RotatedDescribes(Rotated(s, one), l1, two);
    var l2 := Handover(l1, two);
    HoldsPreviousOwner(Rotated(Rotated(s, one), two), l2);
    HoldsCurrentOwner(Rotated(Rotated(s, one), two), l2);
  }

}
