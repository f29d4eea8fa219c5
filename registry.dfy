/**
 * The AssetTransfer contract of lib/assetTransfer.js over its world state.
 * The world state is a map from key to stored text; a key never written
 * reads as the empty value, as getState returns it. Results of range and
 * rich queries are handed to the operations as the sequence of key/value
 * pairs their iterator yields.
 */
module Registry {
  import opened Wrappers
  import opened JsonObject
  import opened JsonCodec
  import opened CanonicalJson
  import opened LandRecord

  type Ledger = map<string, string>

  /** The errors the contract throws. */
  datatype Error =
    | AlreadyExists(id: string)    // createLand: "The land … already exists"
    | DoesNotExist(id: string)     // readLand, transferLand: "The land … does not exist"
    | SyntaxError                  // transferLand: JSON.parse throws on the stored text

  datatype Result<T> = Ok(value: T) | Err(error: Error)

  /** getState: the stored value, or the empty value when nothing is stored. */
  function GetState(state: Ledger, key: string): string
  {
    if key in state then state[key] else ""
  }

  /**
   * A world state Fabric can hold: writing an empty value deletes the key, so
   * every stored value is non-empty.
   */
  predicate NoEmptyValues(state: Ledger)
  {
    forall k :: k in state ==> state[k] != ""
  }

  /** landExists (lines 38-41): a non-empty value is stored under the key. */
  function LandExists(state: Ledger, siteId: string): (b: bool)
    ensures b <==> siteId in state && |state[siteId]| > 0
  {
    |GetState(state, siteId)| > 0
  }

  /** readLand (lines 43-49): the stored text, or an error when none is stored. */
  function ReadLand(state: Ledger, siteId: string): (r: Result<string>)
    ensures r.Err? <==> !LandExists(state, siteId)
    ensures r.Err? ==> r.error == DoesNotExist(siteId)
    ensures r.Ok? ==> siteId in state && r.value == state[siteId]
  {
    var landJSON := GetState(state, siteId);
    if |landJSON| == 0 then Err(DoesNotExist(siteId)) else Ok(landJSON)
  }

  // -------------------------------------------------------------- queries

  /** One item an iterator yields: a key and its stored value. */
  datatype Kv = Kv(key: string, value: string)

  /** The record of one result: the parsed object, or the raw text when it does not parse. */
  datatype Record = Parsed(obj: Obj) | Raw(text: string)

  /** One element `{Key, Record}` of the result list. */
  datatype Entry = Entry(key: string, record: Record)

  /** Lines 71-78: parse the stored value, falling back to the text itself. */
  function RecordOf(value: string): Record
  {
    match Parse(value)
    case Some(o) => Parsed(o)
    case None => Raw(value)
  }

  /** The result list built from the items of an iterator, one entry per item in order. */
  function Entries(items: seq<Kv>): (es: seq<Entry>)
    ensures |es| == |items|
    ensures forall i :: 0 <= i < |items| ==> es[i].key == items[i].key
  {
    seq(|items|, i requires 0 <= i < |items| => Entry(items[i].key, RecordOf(items[i].value)))
  }

  function RecordJson(r: Record): string
  {
    match r
    case Parsed(o) => Stringify(o)
    case Raw(text) => Quote(text)
  }

  /** JSON.stringify of `{ Key: key, Record: record }`. */
  function EntryJson(e: Entry): string
  {
    "{\"Key\":" + Quote(e.key) + ",\"Record\":" + RecordJson(e.record) + "}"
  }

  function EntryList(es: seq<Entry>): string
  {
    if es == [] then ""
    else if |es| == 1 then EntryJson(es[0])
    else EntryJson(es[0]) + "," + EntryList(es[1..])
  }

  /** JSON.stringify of the result list. */
  function ResultsJson(es: seq<Entry>): string
  {
    "[" + EntryList(es) + "]"
  }

  /**
   * getStateByRange('', ''): every key of the state once, in ascending key
   * order, each with its stored value.
   */
  ghost predicate IsRangeScan(state: Ledger, items: seq<Kv>)
  {
    && (forall i :: 0 <= i < |items| ==> items[i].key in state && state[items[i].key] == items[i].value)
    && (forall k :: k in state ==> exists i :: 0 <= i < |items| && items[i].key == k)
    && (forall i, j :: 0 <= i < j < |items| ==> Less(items[i].key, items[j].key))
  }

  /** getQueryResult: some of the stored keys, each once, with their stored values. */
  ghost predicate IsQueryAnswer(state: Ledger, items: seq<Kv>)
  {
    && (forall i :: 0 <= i < |items| ==> items[i].key in state && state[items[i].key] == items[i].value)
    && (forall i, j :: 0 <= i < j < |items| ==> items[i].key != items[j].key)
  }

  /** The loop of lines 69-81 and 88-100: one entry per item, in iterator order. */
  method Collect(items: seq<Kv>) returns (allResults: seq<Entry>)
    ensures allResults == Entries(items)
  {
    allResults := [];
    var i := 0;
    while i < |items|
      invariant 0 <= i <= |items|
      invariant |allResults| == i
      invariant forall j :: 0 <= j < i ==> allResults[j] == Entry(items[j].key, RecordOf(items[j].value))
    {
      var strValue := items[i].value;
      var record: Record;
      match Parse(strValue) {
        case Some(o) => record := Parsed(o);
        case None => record := Raw(strValue);
      }
      allResults := allResults + [Entry(items[i].key, record)];
      i := i + 1;
    }
  }

  // ------------------------------------------------------------ the contract

  class AssetTransfer {
    /** The world state the contract reads and writes through its stub. */
    var state: Ledger

    /** The world state is one Fabric can hold; every operation keeps it so. */
    ghost predicate Valid()
      reads this
    {
      NoEmptyValues(state)
    }

    constructor (initial: Ledger)
      requires NoEmptyValues(initial)
      ensures Valid() && state == initial
    {
      state := initial;
    }

    /**
     * createLand (lines 10-36), as written: the existence check looks at the
     * survey id, but the record is stored under the site id, in canonical
     * form; the result is the record in property order.
     */
    method CreateLand(siteId: string, surveryId: string, previousOwnerName: string,
                      previousOwnerAadhar: string, previousOwnerPan: string, currentOwnerName: string,
                      CurrentOwnerAadhar: string, CurrentOwnerPan: string, siteAddress: string,
                      latitude: string, longitude: string, area: string, length: string,
                      breadth: string, documentHash: string)
      returns (r: Result<string>)
      requires Valid()
      modifies this
      ensures Valid()
      ensures var land := Land(siteId, surveryId, previousOwnerName, previousOwnerAadhar, previousOwnerPan,
                               currentOwnerName, CurrentOwnerAadhar, CurrentOwnerPan, siteAddress,
                               latitude, longitude, area, length, breadth, documentHash);
        if LandExists(old(state), surveryId) then
          r == Err(AlreadyExists(surveryId)) && state == old(state)
        else
          r == Ok(Stringify(LandObject(land))) && state == Created(old(state), land)
    {
      var exists' := LandExists(state, surveryId);
      if exists' {
        return Err(AlreadyExists(surveryId));
      }
      var land := Land(siteId, surveryId, previousOwnerName, previousOwnerAadhar, previousOwnerPan,
                       currentOwnerName, CurrentOwnerAadhar, CurrentOwnerPan, siteAddress,
                       latitude, longitude, area, length, breadth, documentHash);
      StoredTextNonEmpty(state, land);
      state := Created(state, land);
      r := Ok(Stringify(LandObject(land)));
    }

    /**
     * createLand with the existence check on the key it writes: a record
     * already stored is never replaced.
     */
    method CreateLandChecked(siteId: string, surveryId: string, previousOwnerName: string,
                             previousOwnerAadhar: string, previousOwnerPan: string, currentOwnerName: string,
                             CurrentOwnerAadhar: string, CurrentOwnerPan: string, siteAddress: string,
                             latitude: string, longitude: string, area: string, length: string,
                             breadth: string, documentHash: string)
      returns (r: Result<string>)
      requires Valid()
      modifies this
      ensures Valid()
      ensures var land := Land(siteId, surveryId, previousOwnerName, previousOwnerAadhar, previousOwnerPan,
                               currentOwnerName, CurrentOwnerAadhar, CurrentOwnerPan, siteAddress,
                               latitude, longitude, area, length, breadth, documentHash);
        if LandExists(old(state), siteId) then
          r == Err(AlreadyExists(siteId)) && state == old(state)
        else
          r == Ok(Stringify(LandObject(land))) && state == Created(old(state), land)
      ensures forall k :: LandExists(old(state), k) ==> k in state && state[k] == old(state)[k]
    {
      var exists' := LandExists(state, siteId);
      if exists' {
        return Err(AlreadyExists(siteId));
      }
      var land := Land(siteId, surveryId, previousOwnerName, previousOwnerAadhar, previousOwnerPan,
                       currentOwnerName, CurrentOwnerAadhar, CurrentOwnerPan, siteAddress,
                       latitude, longitude, area, length, breadth, documentHash);
      WriteKeepsExisting(state, siteId, Canonical(LandObject(land)));
      StoredTextNonEmpty(state, land);
      state := Created(state, land);
      r := Ok(Stringify(LandObject(land)));
    }

    /**
     * transferLand (lines 51-64), as written: parse the stored text, copy the
     * lower-case owner properties, write the new owner, store
     * JSON.stringify of the result.
     */
    method TransferLand(siteId: string, newOwnerName: string, newOwnerAadhar: string, newOwnerPan: string)
      returns (r: Result<()>)
      requires Valid()
      modifies this
      ensures Valid()
      ensures !LandExists(old(state), siteId) ==> r == Err(DoesNotExist(siteId)) && state == old(state)
      ensures LandExists(old(state), siteId) && Parse(old(state)[siteId]).None? ==>
        r == Err(SyntaxError) && state == old(state)
      ensures LandExists(old(state), siteId) && Parse(old(state)[siteId]).Some? ==>
        var land := Transferred(Parse(old(state)[siteId]).value, Owner(newOwnerName, newOwnerAadhar, newOwnerPan));
        r == Ok(()) && state == old(state)[siteId := Stringify(land)]
    {
      var landJSON := GetState(state, siteId);
      if |landJSON| == 0 {
        return Err(DoesNotExist(siteId));
      }
      var parsed := Parse(landJSON);
      if parsed.None? {
        return Err(SyntaxError);
      }
      var land := parsed.value;
      land := Assign(land, "previousOwnerName", Get(land, "currentOwnerName"));
      land := Assign(land, "previousOwnerAadhar", Get(land, "currentOwnerAadhar"));
      land := Assign(land, "previousOwnerPan", Get(land, "currentOwnerPan"));
      land := Set(land, "CurrentOwnerName", newOwnerName);
      land := Set(land, "CurrentOwnerAadhar", newOwnerAadhar);
      land := Set(land, "CurrentOwnerPan", newOwnerPan);
      TextWriteNonEmpty(state, siteId, land);
      state := state[siteId := Stringify(land)];
      r := Ok(());
    }

    /**
     * transferLand as evidently intended: the current owner becomes the
     * previous owner before the new owner is written.
     */
    method TransferLandRotating(siteId: string, newOwnerName: string, newOwnerAadhar: string, newOwnerPan: string)
      returns (r: Result<()>)
      requires Valid()
      modifies this
      ensures Valid()
      ensures !LandExists(old(state), siteId) ==> r == Err(DoesNotExist(siteId)) && state == old(state)
      ensures LandExists(old(state), siteId) && Parse(old(state)[siteId]).None? ==>
        r == Err(SyntaxError) && state == old(state)
      ensures LandExists(old(state), siteId) && Parse(old(state)[siteId]).Some? ==>
        var land := Rotated(Parse(old(state)[siteId]).value, Owner(newOwnerName, newOwnerAadhar, newOwnerPan));
        r == Ok(()) && state == old(state)[siteId := Stringify(land)]
    {
      var landJSON := GetState(state, siteId);
      if |landJSON| == 0 {
        return Err(DoesNotExist(siteId));
      }
      var parsed := Parse(landJSON);
      if parsed.None? {
        return Err(SyntaxError);
      }
      var land := parsed.value;
      land := Assign(land, "PreviousOwnerName", Get(land, "CurrentOwnerName"));
      land := Assign(land, "PreviousOwnerAadhar", Get(land, "CurrentOwnerAadhar"));
      land := Assign(land, "PreviousOwnerPan", Get(land, "CurrentOwnerPan"));
      land := Set(land, "CurrentOwnerName", newOwnerName);
      land := Set(land, "CurrentOwnerAadhar", newOwnerAadhar);
      land := Set(land, "CurrentOwnerPan", newOwnerPan);
      TextWriteNonEmpty(state, siteId, land);
      state := state[siteId := Stringify(land)];
      r := Ok(());
    }

    /** getAllLands (lines 66-83), given what the full-range iterator yields. */
    method GetAllLands(items: seq<Kv>) returns (json: string)
      requires IsRangeScan(state, items)
      ensures json == ResultsJson(Entries(items))
    {
      var allResults := Collect(items);
      json := ResultsJson(allResults);
    }

    /** GetQueryResultForQueryString (lines 85-102), given what the query iterator yields. */
    method GetQueryResultForQueryString(queryString: string, items: seq<Kv>) returns (json: string)
      requires IsQueryAnswer(state, items)
      ensures json == ResultsJson(Entries(items))
    {
      var allResults := Collect(items);
      json := ResultsJson(allResults);
    }
  }

  // ----------------------------------------------------------------- lemmas

  /** Writing a non-empty value keeps every stored value non-empty. */
  lemma WriteNonEmpty(state: Ledger, key: string, text: string)
    requires NoEmptyValues(state) && text != ""
    ensures NoEmptyValues(state[key := text])
  {
  }

  /** transferLand writes the text of an object, which is never empty. */
  lemma TextWriteNonEmpty(state: Ledger, key: string, o: Obj)
    ensures NoEmptyValues(state) ==> NoEmptyValues(state[key := Stringify(o)])
  {
    StringifyOpens(o);
  }

  /** createLand writes a non-empty value, so a state Fabric can hold stays one. */
  lemma StoredTextNonEmpty(state: Ledger, l: Land)
    ensures NoEmptyValues(state) ==> NoEmptyValues(Created(state, l))
  {
    StringifyOpens(SortKeys(LandObject(l)));
    if NoEmptyValues(state) {
      WriteNonEmpty(state, l.siteId, Canonical(LandObject(l)));
    }
  }

  /** In a state Fabric can hold, a key holds a land exactly when it is stored. */
  lemma StoredMeansExists(state: Ledger, k: string)
    requires NoEmptyValues(state)
    ensures LandExists(state, k) <==> k in state
  {
  }

  /** Writing a key that holds no land leaves every land stored elsewhere in place. */
  lemma WriteKeepsExisting(state: Ledger, key: string, text: string)
    requires !LandExists(state, key)
    ensures forall k :: LandExists(state, k) ==> k in state[key := text] && state[key := text][k] == state[k]
  {
  }

  /** The state after createLand of l succeeds. */
  function Created(state: Ledger, l: Land): Ledger
  {
    state[l.siteId := Canonical(LandObject(l))]
  }

  /**
   * After createLand of l, the land exists under its site id, and readLand
   * returns canonical text that parses back to a record of l.
   */
  lemma ReadAfterCreate(state: Ledger, l: Land)
    ensures LandExists(Created(state, l), l.siteId)
    ensures ReadLand(Created(state, l), l.siteId) == Ok(Canonical(LandObject(l)))
    ensures var o := Parse(ReadLand(Created(state, l), l.siteId).value);
      o.Some? && SortedKeys(o.value) && Describes(o.value, l)
  {
    StringifyOpens(SortKeys(LandObject(l)));
    StoredRecord(l);
  }

  /** A second createLand with the survey id the first one stored under fails. */
  lemma CreateTwiceFails(state: Ledger, l: Land, surveryId: string)
    requires surveryId == l.siteId
    ensures LandExists(Created(state, l), surveryId)
  {
    StringifyOpens(SortKeys(LandObject(l)));
  }

  /**
   * createLand twice on an empty world state: the first call stores l, and a
   * second one whose survey id is l's site id is refused and writes nothing.
   */
  method CreateTwice(l: Land, m: Land) returns (first: Result<string>, second: Result<string>, after: Ledger)
    requires m.surveryId == l.siteId
    ensures first == Ok(Stringify(LandObject(l)))
    ensures second == Err(AlreadyExists(l.siteId))
    ensures after == Created(map[], l)
  {
    var contract := new AssetTransfer(map[]);
    first := contract.CreateLand(l.siteId, l.surveryId, l.previousOwnerName, l.previousOwnerAadhar,
                                 l.previousOwnerPan, l.currentOwnerName, l.currentOwnerAadhar,
                                 l.currentOwnerPan, l.siteAddress, l.latitude, l.longitude, l.area,
                                 l.length, l.breadth, l.documentHash);
    CreateTwiceFails(map[], l, m.surveryId);
    second := contract.CreateLand(m.siteId, m.surveryId, m.previousOwnerName, m.previousOwnerAadhar,
                                  m.previousOwnerPan, m.currentOwnerName, m.currentOwnerAadhar,
                                  m.currentOwnerPan, m.siteAddress, m.latitude, m.longitude, m.area,
                                  m.length, m.breadth, m.documentHash);
    after := contract.state;
  }

  /**
   * transferLand, as written, on a land createLand stored: the land parses,
   * and the text written back is the canonical text of the land with the new
   * current owner and the old previous owner.
   */
  lemma TransferAfterCreate(state: Ledger, l: Land, owner: Owner)
    ensures var s := Created(state, l);
      && LandExists(s, l.siteId)
      && Parse(s[l.siteId]) == Some(SortKeys(LandObject(l)))
      && Stringify(Transferred(Parse(s[l.siteId]).value, owner)) == Canonical(LandObject(WithCurrentOwner(l, owner)))
  {
    StringifyOpens(SortKeys(LandObject(l)));
    StoredRecord(l);
    TransferOnStoredRecord(l, owner);
  }

  /**
   * The corrected transfer on a land createLand stored writes the canonical
   * text of the handed-over land.
   */
  lemma RotatingTransferAfterCreate(state: Ledger, l: Land, owner: Owner)
    ensures var s := Created(state, l);
      && LandExists(s, l.siteId)
      && Parse(s[l.siteId]) == Some(SortKeys(LandObject(l)))
      && Stringify(Rotated(Parse(s[l.siteId]).value, owner)) == Canonical(LandObject(Handover(l, owner)))
  {
    StringifyOpens(SortKeys(LandObject(l)));
    StoredRecord(l);
    RotatedOnStoredRecord(l, owner);
  }

  /** A stored land record comes back in a query result as the very text createLand stored. */
  lemma StoredRecordReturned(l: Land)
    ensures RecordOf(Canonical(LandObject(l))) == Parsed(SortKeys(LandObject(l)))
    ensures RecordJson(RecordOf(Canonical(LandObject(l)))) == Canonical(LandObject(l))
  {
    StoredRecord(l);
  }

  /** A value that does not parse comes back as a JSON string that reads as the value. */
  lemma RawValueReturned(value: string, rest: string)
    requires Parse(value).None?
    ensures RecordOf(value) == Raw(value)
    ensures ParseString(RecordJson(RecordOf(value)) + rest) == Some((value, rest))
  {
    QuoteParses(value, rest);
  }

  /** A range scan lists every stored key with its stored value. */
  lemma ScanFindsKey(state: Ledger, key: string, items: seq<Kv>)
    requires IsRangeScan(state, items)
    requires key in state
    ensures exists i :: 0 <= i < |items| && items[i] == Kv(key, state[key])
  {
    var i :| 0 <= i < |items| && items[i].key == key;
    assert items[i] == Kv(key, state[key]);
  }

  /** getAllLands lists a land createLand stored, under its site id, with its stored record. */
  lemma ScanFindsCreatedLand(state: Ledger, l: Land, items: seq<Kv>)
    requires l.siteId in state && state[l.siteId] == Canonical(LandObject(l))
    requires IsRangeScan(state, items)
    ensures exists i :: 0 <= i < |items| && Entries(items)[i] == Entry(l.siteId, Parsed(SortKeys(LandObject(l))))
  {
    ScanFindsKey(state, l.siteId, items);
    var i :| 0 <= i < |items| && items[i] == Kv(l.siteId, state[l.siteId]);
    StoredRecordReturned(l);
    assert Entries(items)[i] == Entry(l.siteId, Parsed(SortKeys(LandObject(l))));
  }

  /** getAllLands lists each stored key exactly once. */
  lemma ScanListsKeysOnce(state: Ledger, items: seq<Kv>)
    requires IsRangeScan(state, items)
    ensures forall i, j :: 0 <= i < j < |items| ==> Entries(items)[i].key != Entries(items)[j].key
    ensures |items| == |state|
  {
    forall i, j | 0 <= i < j < |items| ensures items[i].key != items[j].key {
      LessIrreflexive(items[i].key);
    }
    ScanCoversState(state, items);
  }

  /** The keys of a range scan are exactly the stored keys. */
  lemma ScanCoversState(state: Ledger, items: seq<Kv>)
    requires forall i :: 0 <= i < |items| ==> items[i].key in state
    requires forall k :: k in state ==> exists i :: 0 <= i < |items| && items[i].key == k
    requires forall i, j :: 0 <= i < j < |items| ==> items[i].key != items[j].key
    ensures |items| == |state|
  {
    var keys := set i | 0 <= i < |items| :: items[i].key;
    assert keys == state.Keys;
    KeysCount(items);
  }

  /** A sequence of items with distinct keys has as many keys as items. */
  lemma {:induction false} KeysCount(items: seq<Kv>)
    requires forall i, j :: 0 <= i < j < |items| ==> items[i].key != items[j].key
    ensures |set i | 0 <= i < |items| :: items[i].key| == |items|
  {
    if items != [] {
      var tail := items[1..];
      KeysCount(tail);
      var keys := set i | 0 <= i < |items| :: items[i].key;
      var rest := set i | 0 <= i < |tail| :: tail[i].key;
      assert keys == rest + {items[0].key} by {
        forall k | k in keys ensures k in rest + {items[0].key} {
          var i :| 0 <= i < |items| && items[i].key == k;
          if i > 0 {
            assert tail[i - 1].key == k;
          }
        }
      }
      assert items[0].key !in rest;
    }
  }

  /**
   * The createLand existence check looks at the survey id but the write goes
   * to the site id: with a record under "plot-1" and nothing under
   * "survey-9", a land with site id "plot-1" and survey id "survey-9" passes
   * the check and replaces the stored record.
   */
  lemma CreateGuardMissesSiteId(l: Land)
    requires l.siteId == "plot-1" && l.surveryId == "survey-9"
    ensures var state := map["plot-1" := "x"];
      && LandExists(state, l.siteId)
      && !LandExists(state, l.surveryId)
      && Created(state, l)[l.siteId] != state[l.siteId]
  {
    StringifyOpens(SortKeys(LandObject(l)));
    GuardOutcome(map["plot-1" := "x"], l.siteId, l.surveryId, Canonical(LandObject(l)));
    CreateReplacesStored(map["plot-1" := "x"], l);
  }

  /**
   * For every state: when a land is stored under the site id, nothing under
   * the survey id, and the stored text differs from the new record's, the
   * guard of createLand passes and the stored record is replaced; the set of
   * keys stays the same, so the old record is gone from the state.
   */
  lemma CreateReplacesStored(state: Ledger, l: Land)
    requires LandExists(state, l.siteId) && !LandExists(state, l.surveryId)
    requires state[l.siteId] != Canonical(LandObject(l))
    ensures Created(state, l).Keys == state.Keys
    ensures Created(state, l)[l.siteId] != state[l.siteId]
  {
  }

  /** The guard of the finding above, for any text that opens with a brace. */
  lemma GuardOutcome(state: Ledger, siteId: string, surveryId: string, text: string)
    requires state == map["plot-1" := "x"] && siteId == "plot-1" && surveryId == "survey-9"
    requires |text| > 0 && text[0] == '{'
    ensures LandExists(state, siteId) && !LandExists(state, surveryId)
    ensures state[siteId := text][siteId] != state[siteId]
  {
    assert state[siteId][0] == 'x';
  }
}
