/** The metadata helper of the service (`src/ndb/NDBMetadata.cc`): which
    book attributes it knows, how `setMetadata` checks and applies a map of
    new values to a book's volume, and the book lists it builds. The libnickel
    volume store is abstract: a volume is its validity and its values, and
    `setMetadata` returns the store calls it makes instead of making them.
    QVariant's conversions (`toBool`, `toInt`, `toString`) are inputs. */
module Metadata {
  import opened Wrappers
  import opened Text
  import Startup

  /** The `ATTRIBUTE_*` keys the helper resolves. */
  datatype Attr =
    | Attribution | ContentId | ContentType | Description | FileSize | IsDownloaded
    | Series | SeriesId | SeriesNumber | SeriesNumberFloat | Subtitle

  /** The attributes in resolution order, each with whether it is required. */
  const AttrOrder: seq<(Attr, bool)> := [
    (Attribution, true), (ContentId, true), (ContentType, true), (Description, true),
    (FileSize, true), (IsDownloaded, true), (Series, true), (SeriesId, false),
    (SeriesNumber, true), (SeriesNumberFloat, true), (Subtitle, true)]

  /** A QVariant: its type and value. `Invalid` is the empty QVariant a
      missing key reads as. */
  datatype Variant =
    | Invalid | Str(s: string) | IntV(i: int) | BoolV(b: bool)
    | DoubleV(d: real) | FloatV(f: real) | OtherV(typeName: string)

  datatype MetaResult = Ok | SymbolError | NullError | VolumeError | TypeError | MetadataError

  /** A call on the volume store. */
  datatype StoreCall = SetAttribute(key: string, value: Variant) | Save

  /** Which type check to apply: the one written, or the one evidently meant
      for `FILE_SIZE`. */
  datatype Checker = AsWritten | Intended

  /** The attribute's key string, empty when it never resolved. */
  function Name(names: map<Attr, string>, a: Attr): string
  {
    if a in names then names[a] else ""
  }

  /** The type check of `setMetadata`. As written, the `FILE_SIZE` branch
      only rejects non-integers and then falls into the string check, so no
      value passes; intended is an integer for `FILE_SIZE`. */
  predicate TypeAccepted(checker: Checker, names: map<Attr, string>, key: string, v: Variant)
  {
    if key == Name(names, SeriesNumberFloat) then v.DoubleV? || v.FloatV?
    else if key == Name(names, FileSize) then
      (match checker
       case AsWritten => v.IntV? && v.Str?
       case Intended => v.IntV?)
    else v.Str?
  }

  /** Whether `setMetadata` acts on a key at all: known, and not the content
      id. */
  predicate Applicable(available: set<string>, names: map<Attr, string>, key: string)
  {
    key in available && key != Name(names, ContentId)
  }

  /** The attribute updates for the entries of the map, in iteration order,
      stopping at the first entry of the wrong type (`ok` false). */
  function Updates(md: seq<(string, Variant)>, available: set<string>, names: map<Attr, string>, checker: Checker): (seq<StoreCall>, bool)
  {
    if |md| == 0 then ([], true)
    else
      var (calls, ok) := Updates(md[..|md| - 1], available, names, checker);
      var (key, v) := md[|md| - 1];
      if !ok || !Applicable(available, names, key) then (calls, ok)
      else if !TypeAccepted(checker, names, key, v) then (calls, false)
      else (calls + [SetAttribute(key, v)], true)
  }

  /** Every attribute set is a known key other than the content id, with a
      value of the accepted type; the update fails exactly when some
      applicable entry has the wrong type. */
  lemma {:induction false} UpdatesFacts(md: seq<(string, Variant)>, available: set<string>, names: map<Attr, string>, checker: Checker)
    ensures var (calls, ok) := Updates(md, available, names, checker);
      && (forall c :: c in calls ==> c.SetAttribute? && Applicable(available, names, c.key) && TypeAccepted(checker, names, c.key, c.value))
      && (!ok <==> exists i :: 0 <= i < |md| && Applicable(available, names, md[i].0) && !TypeAccepted(checker, names, md[i].0, md[i].1))
  {
    if |md| > 0 {
      var n := |md| - 1;
      UpdatesFacts(md[..n], available, names, checker);
      assert forall i :: 0 <= i < n ==> md[..n][i] == md[i];
    }
  }

  /** A failed update is partial: what was set is exactly the update of the
      entries before the first rejected one. */
  lemma {:induction false} UpdatesPartial(md: seq<(string, Variant)>, available: set<string>, names: map<Attr, string>, checker: Checker)
    requires !Updates(md, available, names, checker).1
    ensures exists k :: (0 <= k < |md| && Updates(md[..k], available, names, checker) == (Updates(md, available, names, checker).0, true)
      && Applicable(available, names, md[k].0) && !TypeAccepted(checker, names, md[k].0, md[k].1))
  {
    var n := |md| - 1;
    assert md[..n + 1] == md;
    var (calls, ok) := Updates(md[..n], available, names, checker);
    if ok {
      assert Updates(md[..n], available, names, checker) == (Updates(md, available, names, checker).0, true);
    } else {
      UpdatesPartial(md[..n], available, names, checker);
      var k :| 0 <= k < n && Updates(md[..n][..k], available, names, checker) == (calls, true)
        && Applicable(available, names, md[..n][k].0) && !TypeAccepted(checker, names, md[..n][k].0, md[..n][k].1);
      assert md[..n][..k] == md[..k];
    }
  }

  /** As written, a `FILE_SIZE` entry fails the whole update, whatever its
      value, once the key is known and distinct from the content id and the
      float series number. */
  lemma FileSizeAlwaysRejected(names: map<Attr, string>, available: set<string>, v: Variant)
    requires Name(names, FileSize) in available
    requires Name(names, FileSize) != Name(names, ContentId) && Name(names, FileSize) != Name(names, SeriesNumberFloat)
    ensures Updates([(Name(names, FileSize), v)], available, names, AsWritten) == ([], false)
  {
    var md := [(Name(names, FileSize), v)];
    assert md[..0] == [];
  }

  /** With the intended check an integer file size is set, and the two checks
      agree on every other key. */
  lemma FileSizeAcceptedWhenIntended(names: map<Attr, string>, available: set<string>, n: int, key: string, v: Variant)
    requires Name(names, FileSize) in available
    requires Name(names, FileSize) != Name(names, ContentId) && Name(names, FileSize) != Name(names, SeriesNumberFloat)
    ensures Updates([(Name(names, FileSize), IntV(n))], available, names, Intended) == ([SetAttribute(Name(names, FileSize), IntV(n))], true)
    ensures key != Name(names, FileSize) ==> (TypeAccepted(AsWritten, names, key, v) <==> TypeAccepted(Intended, names, key, v))
  {
    var md := [(Name(names, FileSize), IntV(n))];
    assert md[..0] == [];
    assert Applicable(available, names, md[0].0);
    assert TypeAccepted(Intended, names, md[0].0, md[0].1);
    assert Updates(md[..0], available, names, Intended) == ([], true);
    var one: seq<StoreCall> := [SetAttribute(Name(names, FileSize), IntV(n))];
    assert [] + one == one;
  }

  // ---- book lists ----

  /** A volume as `forEach` hands it over: whether it is valid, and its
      database values. */
  datatype Volume = Volume(valid: bool, values: map<string, Variant>)

  /** QVariant's conversions. */
  datatype Conv = Conv(toBool: Variant -> bool, toInt: Variant -> int, toStr: Variant -> string)

  datatype Filter = All | Downloaded | Sideloaded

  function Lookup(values: map<string, Variant>, key: string): Variant
  {
    if key in values then values[key] else Invalid
  }

  /** The filters of `getBookListAll`, `getBookListDownloaded` and
      `getBookListSideloaded`. */
  predicate Passes(filter: Filter, v: Volume, names: map<Attr, string>, conv: Conv)
  {
    match filter
    case All => true
    case Downloaded =>
      conv.toBool(Lookup(v.values, Name(names, IsDownloaded))) && conv.toInt(Lookup(v.values, Name(names, FileSize))) > 0
    case Sideloaded => StartsWith(conv.toStr(Lookup(v.values, Name(names, ContentId))), "file:///")
  }

  function IdOf(v: Volume, names: map<Attr, string>, conv: Conv): string
  {
    conv.toStr(Lookup(v.values, Name(names, ContentId)))
  }

  /** The content ids of the valid volumes that pass the filter, in visiting
      order. */
  function BookList(vols: seq<Volume>, filter: Filter, names: map<Attr, string>, conv: Conv): seq<string>
  {
    if |vols| == 0 then []
    else
      var prev := BookList(vols[..|vols| - 1], filter, names, conv);
      var v := vols[|vols| - 1];
      if v.valid && Passes(filter, v, names, conv) then prev + [IdOf(v, names, conv)] else prev
  }

  /** An id is listed exactly when it belongs to a valid volume that passes
      the filter; a filter lists no more than the unfiltered list. */
  lemma {:induction false} BookListFacts(vols: seq<Volume>, filter: Filter, names: map<Attr, string>, conv: Conv)
    ensures forall id :: id in BookList(vols, filter, names, conv) <==>
      exists i :: 0 <= i < |vols| && vols[i].valid && Passes(filter, vols[i], names, conv) && IdOf(vols[i], names, conv) == id
    ensures |BookList(vols, filter, names, conv)| <= |BookList(vols, All, names, conv)|
  {
    if |vols| > 0 {
      var n := |vols| - 1;
      BookListFacts(vols[..n], filter, names, conv);
      assert forall i :: 0 <= i < n ==> vols[..n][i] == vols[i];
      forall i | 0 <= i < |vols| && vols[i].valid && Passes(filter, vols[i], names, conv)
        ensures IdOf(vols[i], names, conv) in BookList(vols, filter, names, conv)
      {
        if i < n {
          assert vols[..n][i] == vols[i];
        }
      }
    }
  }

  /** Every id of the sideloaded list is a `file:///` URL. */
  lemma SideloadedAreFileUrls(vols: seq<Volume>, names: map<Attr, string>, conv: Conv)
    ensures forall id :: id in BookList(vols, Sideloaded, names, conv) ==> StartsWith(id, "file:///")
  {
    BookListFacts(vols, Sideloaded, names, conv);
  }

  // ---- resolution ----

  /** The outcome of resolving the attributes: whether every required one
      resolved, the key strings found, and the set of known keys. */
  datatype Resolution = Resolution(ok: bool, names: map<Attr, string>, available: set<string>)

  /** `resolve_attr` over a list of attributes, stopping at the first
      required one that is missing. `found` is what `dlsym` yields. */
  function Resolve(order: seq<(Attr, bool)>, found: map<Attr, string>): Resolution
  {
    if |order| == 0 then Resolution(true, map[], {})
    else
      var prev := Resolve(order[..|order| - 1], found);
      var (a, required) := order[|order| - 1];
      if !prev.ok then prev
      else if required && a !in found then Resolution(false, prev.names, prev.available)
      else if a in found then Resolution(true, prev.names[a := found[a]], prev.available + {found[a]})
      else prev
  }

  /** Resolution succeeds exactly when every required attribute is found;
      then the known keys are exactly the found key strings of the listed
      attributes. An absent optional attribute is simply not known. */
  lemma {:induction false} ResolveFacts(order: seq<(Attr, bool)>, found: map<Attr, string>)
    ensures var r := Resolve(order, found);
      && (r.ok <==> forall i :: 0 <= i < |order| && order[i].1 ==> order[i].0 in found)
      && (r.ok ==> r.available == set i | 0 <= i < |order| && order[i].0 in found :: found[order[i].0])
      && (r.ok ==> forall i :: 0 <= i < |order| && order[i].0 in found ==> order[i].0 in r.names && r.names[order[i].0] == found[order[i].0])
  {
    if |order| > 0 {
      var n := |order| - 1;
      ResolveFacts(order[..n], found);
      assert forall i :: 0 <= i < n ==> order[..n][i] == order[i];
      var r := Resolve(order, found);
      if r.ok {
        var prev := Resolve(order[..n], found);
        assert (set i | 0 <= i < |order| && order[i].0 in found :: found[order[i].0])
          == (set i | 0 <= i < n && order[i].0 in found :: found[order[i].0])
             + (if order[n].0 in found then {found[order[n].0]} else {});
      }
    }
  }

  /** Everything required except the optional series id: without it the
      helper still starts. */
  lemma SeriesIdOptional(found: map<Attr, string>)
    requires forall a :: a != SeriesId ==> a in found
    ensures Resolve(AttrOrder, found).ok
  {
    ResolveFacts(AttrOrder, found);
  }

  class NdbMetadata {
    var initResult: MetaResult
    var names: map<Attr, string>
    var availableAttr: set<string>

    /** The constructor's ladder, then the attributes. The flags say whether
      each look-up of the ladder succeeds, in order: the volume manager, the
      device getter, the device, the database-name getter, the database
      name, and the six volume symbols together. */
    constructor (managerSym: bool, deviceSym: bool, deviceOk: bool, dbNameSym: bool, dbNameOk: bool,
                 volumeSyms: bool, found: map<Attr, string>)
      ensures var ladder := Startup.FirstFailure([Startup.SymbolStep(managerSym), Startup.SymbolStep(deviceSym),
          Startup.NullStep(deviceOk), Startup.SymbolStep(dbNameSym), Startup.NullStep(dbNameOk), Startup.SymbolStep(volumeSyms)]);
        if ladder.Some? then
          initResult == (if ladder.value == Startup.SymbolError then SymbolError else NullError)
          && availableAttr == {}
        else
          var r := Resolve(AttrOrder, found);
          initResult == (if r.ok then Ok else SymbolError) && availableAttr == r.available && names == r.names
    {
      initResult := Ok;
      names := map[];
      availableAttr := {};
      new;
      var ladder := Startup.FirstFailure([Startup.SymbolStep(managerSym), Startup.SymbolStep(deviceSym),
          Startup.NullStep(deviceOk), Startup.SymbolStep(dbNameSym), Startup.NullStep(dbNameOk), Startup.SymbolStep(volumeSyms)]);
      if ladder.Some? {
        initResult := if ladder.value == Startup.SymbolError then SymbolError else NullError;
        return;
      }
      var r := ResolveAll(AttrOrder, found);
      initResult := if r.ok then Ok else SymbolError;
      names := r.names;
      availableAttr := r.available;
    }

    /** `setMetadata` on the book `cID`. `volValid` is whether the volume
      found for it is valid, `saveResult` what saving returns. Returns the
      result and the store calls made. */
    method SetMetadata(cID: string, md: seq<(string, Variant)>, volValid: bool, saveResult: int, checker: Checker)
      returns (r: MetaResult, calls: seq<StoreCall>)
      ensures !volValid ==> r == VolumeError && calls == []
      ensures volValid && !Updates(md, availableAttr, names, checker).1 ==>
        r == TypeError && calls == Updates(md, availableAttr, names, checker).0
      ensures volValid && Updates(md, availableAttr, names, checker).1 ==>
        calls == Updates(md, availableAttr, names, checker).0 + [Save]
        && r == (if saveResult == 0 then MetadataError else Ok)
    {
      if !volValid {
        return VolumeError, [];
      }
      calls := [];
      for i := 0 to |md|
        invariant Updates(md[..i], availableAttr, names, checker) == (calls, true)
      {
        assert md[..i + 1][..i] == md[..i];
        var (key, val) := md[i];
        if !Applicable(availableAttr, names, key) {
          continue;
        }
        if !TypeAccepted(checker, names, key, val) {
          UpdatesStop(md, i + 1, availableAttr, names, checker);
          return TypeError, calls;
        }
        calls := calls + [SetAttribute(key, val)];
      }
      assert md[..|md|] == md;
      calls := calls + [Save];
      if saveResult == 0 {
        return MetadataError, calls;
      }
      return Ok, calls;
    }

    /** `getBookList` with one of the three filters: `forEach` visits `vols`
      in order and the callback appends the id of each valid volume that
      passes. */
    method GetBookList(vols: seq<Volume>, filter: Filter, conv: Conv) returns (bookList: seq<string>)
      ensures bookList == BookList(vols, filter, names, conv)
    {
      bookList := [];
      for i := 0 to |vols|
        invariant bookList == BookList(vols[..i], filter, names, conv)
      {
        assert vols[..i + 1][..i] == vols[..i];
        var v := vols[i];
        if v.valid && Passes(filter, v, names, conv) {
          bookList := bookList + [IdOf(v, names, conv)];
        }
      }
      assert vols[..|vols|] == vols;
    }
  }

  /** The constructor's `NDB_RESOLVE_ATTR` calls, one per attribute in
      order: each found attribute is recorded, and a missing required one
      stops the rest. */
  method ResolveAll(order: seq<(Attr, bool)>, found: map<Attr, string>) returns (r: Resolution)
    ensures r == Resolve(order, found)
  {
    var names: map<Attr, string> := map[];
    var available: set<string> := {};
    for i := 0 to |order|
      invariant Resolve(order[..i], found) == Resolution(true, names, available)
    {
      assert order[..i + 1][..i] == order[..i];
      var (a, required) := order[i];
      if required && a !in found {
        ResolveStops(order, i + 1, found);
        return Resolution(false, names, available);
      }
      if a in found {
        names := names[a := found[a]];
        available := available + {found[a]};
      }
    }
    assert order[..|order|] == order;
    return Resolution(true, names, available);
  }

  /** Once the update fails on a prefix of the map, the rest changes
      nothing. */
  lemma {:induction false} UpdatesStop(md: seq<(string, Variant)>, n: nat, available: set<string>, names: map<Attr, string>, checker: Checker)
    requires n <= |md| && !Updates(md[..n], available, names, checker).1
    ensures Updates(md, available, names, checker) == Updates(md[..n], available, names, checker)
  {
    if n < |md| {
      var m := |md| - 1;
      assert md[..m][..n] == md[..n];
      UpdatesStop(md[..m], n, available, names, checker);
    } else {
      assert md[..n] == md;
    }
  }

  /** Once resolution fails on a prefix of the list, the rest changes
      nothing. */
  lemma {:induction false} ResolveStops(order: seq<(Attr, bool)>, n: nat, found: map<Attr, string>)
    requires n <= |order| && !Resolve(order[..n], found).ok
    ensures Resolve(order, found) == Resolve(order[..n], found)
  {
    if n < |order| {
      var m := |order| - 1;
      assert order[..m][..n] == order[..n];
      ResolveStops(order[..m], n, found);
    } else {
      assert order[..n] == order;
    }
  }
}
