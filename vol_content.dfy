/** The content helper of the service (`src/ndb/NDBVolContent.cc`): the
    database values of a book, merged from its volume and content records,
    and the list of ids of all valid volumes. A volume is a value; a missing
    one (a null pointer) is `None`. */
module VolContent {
  import opened Wrappers
  import Startup
  import opened Metadata

  /** A volume as libnickel hands it over: whether it is valid, its id, and
      the values of its volume and content records. */
  datatype StoredVolume = StoredVolume(valid: bool, id: string, volumeValues: map<string, Variant>, contentValues: map<string, Variant>)

  /** The ids of the valid volumes, in visiting order. */
  function ValidIds(vols: seq<StoredVolume>): seq<string>
  {
    if |vols| == 0 then []
    else
      var prev := ValidIds(vols[..|vols| - 1]);
      var v := vols[|vols| - 1];
      if v.valid then prev + [v.id] else prev
  }

  /** An id is listed exactly when some valid volume has it, and the list is
      never longer than the volumes visited. */
  lemma {:induction false} ValidIdsFacts(vols: seq<StoredVolume>)
    ensures forall id :: id in ValidIds(vols) <==> exists i :: 0 <= i < |vols| && vols[i].valid && vols[i].id == id
    ensures |ValidIds(vols)| <= |vols|
  {
    if |vols| > 0 {
      var n := |vols| - 1;
      ValidIdsFacts(vols[..n]);
      assert forall i :: 0 <= i < n ==> vols[..n][i] == vols[i];
      forall id | exists i :: 0 <= i < |vols| && vols[i].valid && vols[i].id == id
        ensures id in ValidIds(vols)
      {
        var i :| 0 <= i < |vols| && vols[i].valid && vols[i].id == id;
        if i < n {
          assert vols[..n][i] == vols[i];
        }
      }
    }
  }

  class NdbVolContent {
    var initResult: MetaResult
    var currBookList: seq<string>

    /** The constructor's ladder. The flags say whether each step succeeds,
      in order: the volume-manager getter, the volume manager, the device
      getter, the device, the database-name getter, and the six remaining
      symbols together. The database name itself is not checked. */
    constructor (managerSym: bool, managerOk: bool, deviceSym: bool, deviceOk: bool, dbNameSym: bool, otherSyms: bool)
      ensures var ladder := Startup.FirstFailure([Startup.SymbolStep(managerSym), Startup.NullStep(managerOk),
          Startup.SymbolStep(deviceSym), Startup.NullStep(deviceOk), Startup.SymbolStep(dbNameSym), Startup.SymbolStep(otherSyms)]);
        initResult == (if ladder.None? then Ok else if ladder.value == Startup.SymbolError then SymbolError else NullError)
      ensures currBookList == []
    {
      var ladder := Startup.FirstFailure([Startup.SymbolStep(managerSym), Startup.NullStep(managerOk),
          Startup.SymbolStep(deviceSym), Startup.NullStep(deviceOk), Startup.SymbolStep(dbNameSym), Startup.SymbolStep(otherSyms)]);
      initResult := if ladder.None? then Ok else if ladder.value == Startup.SymbolError then SymbolError else NullError;
      currBookList := [];
    }

    /** `getDbValues`: the content values overlaid with the volume values,
      or the empty map when the book has no volume. */
    method GetDbValues(vol: Option<StoredVolume>) returns (merged: map<string, Variant>)
      ensures vol.None? ==> merged == map[]
      ensures vol.Some? ==> merged.Keys == vol.value.volumeValues.Keys + vol.value.contentValues.Keys
      ensures vol.Some? ==> forall k :: k in vol.value.volumeValues ==> merged[k] == vol.value.volumeValues[k]
      ensures vol.Some? ==> forall k :: k in vol.value.contentValues && k !in vol.value.volumeValues ==>
        merged[k] == vol.value.contentValues[k]
    {
      if vol.None? {
        return map[];
      }
      var volMap := vol.value.volumeValues;
      merged := vol.value.contentValues;
      var rest := volMap.Keys;
      while rest != {}
        invariant rest <= volMap.Keys
        invariant merged.Keys == (volMap.Keys - rest) + vol.value.contentValues.Keys
        invariant forall k :: k in volMap.Keys - rest ==> merged[k] == volMap[k]
        invariant forall k :: k in vol.value.contentValues && k !in volMap.Keys - rest ==> merged[k] == vol.value.contentValues[k]
        decreases rest
      {
        var k :| k in rest;
        merged := merged[k := volMap[k]];
        rest := rest - {k};
      }
    }

    /** `getBookList`: clears the list, then `forEach` hands every volume to
      `forEachFunc` in order. */
    method GetBookList(vols: seq<StoredVolume>) returns (bookList: seq<string>)
      modifies this
      ensures bookList == currBookList == ValidIds(vols)
      ensures initResult == old(initResult)
    {
      currBookList := [];
      for i := 0 to |vols|
        invariant currBookList == ValidIds(vols[..i])
        invariant initResult == old(initResult)
      {
        assert vols[..i + 1][..i] == vols[..i];
        ForEachFunc(vols[i]);
      }
      assert vols[..|vols|] == vols;
      bookList := currBookList;
    }

    /** `forEachFunc`: appends the id of a valid volume. */
    method ForEachFunc(v: StoredVolume)
      modifies this
      ensures currBookList == old(currBookList) + (if v.valid then [v.id] else [])
      ensures initResult == old(initResult)
    {
      if v.valid {
        currBookList := currBookList + [v.id];
      }
    }
  }
}
