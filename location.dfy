/** The location screen: a history of location fixes, newest first, kept in a
    backing file (`location_history.json`) and shown on screen.

    The JSON encoding is not modelled: the file holds a list of entries, or is
    absent, or holds text that does not decode. Coordinates are opaque values;
    nothing is computed with them. The location provider, the file system and
    the permission service are parameters: the fix the provider delivers, a
    flag for a read or write that throws an IOException, and which of the two
    permissions the platform reports as granted. */
module LocationHistory {
  import opened Common

  /** A latitude or longitude in degrees (a Double in the source). */
  type Degrees(==, 0)

  /** LocationEntry: one recorded fix; `time` is milliseconds since the epoch. */
  datatype LocationEntry = LocationEntry(latitude: Degrees, longitude: Degrees, time: int)

  /** The backing file. `Malformed` is a file whose text does not decode as a
      list of entries. */
  datatype HistoryFile = Absent | Stored(entries: seq<LocationEntry>) | Malformed

  /** What loadHistory gives its caller: a list, or the decoding exception,
      which it does not catch. */
  datatype Loaded = Loaded(entries: seq<LocationEntry>) | DecodeFailed

  /** loadHistory: an absent file and a read that throws an IOException both
      give the empty list; a stored list is returned as it is; text that does
      not decode raises, since only IOException is caught. */
  function LoadHistory(file: HistoryFile, readFails: bool): (r: Loaded)
    ensures r.DecodeFailed? <==> file.Malformed? && !readFails
    ensures file.Absent? || readFails ==> r == Loaded([])
    ensures file.Stored? && !readFails ==> r == Loaded(file.entries)
  {
    if file.Absent? || readFails then Loaded([])
    else match file
      case Stored(entries) => Loaded(entries)
      case Malformed => DecodeFailed
  }

  /** The activity's two pieces of state: the backing file and the displayed
      history. */
  datatype Store = Store(file: HistoryFile, history: seq<LocationEntry>)

  /** saveHistory: a write that succeeds replaces the file with the entries and
      clears the displayed history; a write that throws an IOException changes
      nothing and is not reported. */
  function Saved(s: Store, entries: seq<LocationEntry>, writeFails: bool): (r: Store)
    ensures writeFails ==> r == s
    ensures !writeFails ==> r.file == Stored(entries) && r.history == []
  {
    if writeFails then s else Store(Stored(entries), [])
  }

  /** A successful save followed by a successful load gives back the saved list. */
  lemma SaveThenLoad(s: Store, entries: seq<LocationEntry>)
    ensures LoadHistory(Saved(s, entries, false).file, false) == Loaded(entries)
  {
  }

  /** Whether the read and the write of one callback throw an IOException. */
  datatype Io = Io(readFails: bool, writeFails: bool)

  /** How the success callback ends: normally, with the new state, or by the
      decoding exception escaping it (the state is then untouched). */
  datatype Delivery = Completed(store: Store) | Crashed

  /** The success callback of fetchAndSaveLocation, given the fix (null when
      the provider has none). A fix is put in front of the loaded history, the
      result written back, and the result shown, whether or not the write
      succeeded; the clearing inside saveHistory is always overwritten. */
  function LocationDelivered(s: Store, loc: Option<LocationEntry>, io: Io): (r: Delivery)
    ensures loc.None? ==> r == Completed(s)
    ensures r.Crashed? <==> loc.Some? && LoadHistory(s.file, io.readFails).DecodeFailed?
    ensures loc.Some? && r.Completed? ==>
      && var loaded := LoadHistory(s.file, io.readFails).entries;
      && |r.store.history| == |loaded| + 1
      && r.store.history[0] == loc.value
      && r.store.history[1..] == loaded
      && r.store.file == (if io.writeFails then s.file else Stored(r.store.history))
  {
    match loc
    case None => Completed(s)
    case Some(entry) =>
      match LoadHistory(s.file, io.readFails)
      case DecodeFailed => Crashed
      case Loaded(entries) =>
        var updated := [entry] + entries;
        Completed(Saved(s, updated, io.writeFails).(history := updated))
  }

  /** After a fix whose write succeeds, the screen shows exactly what the file
      holds. */
  lemma DisplayMatchesFileAfterWrite(s: Store, entry: LocationEntry, readFails: bool)
    requires LocationDelivered(s, Some(entry), Io(readFails, false)).Completed?
    ensures var r := LocationDelivered(s, Some(entry), Io(readFails, false)).store;
      r.file == Stored(r.history)
  {
  }

  /** A fix whose write fails is shown once, then forgotten: the next fix
      reloads the file, which never received it. */
  lemma LostWriteIsForgotten(prior: seq<LocationEntry>, h: seq<LocationEntry>, e1: LocationEntry, e2: LocationEntry)
    ensures var first := LocationDelivered(Store(Stored(prior), h), Some(e1), Io(false, true));
      && first == Completed(Store(Stored(prior), [e1] + prior))
      && LocationDelivered(first.store, Some(e2), Io(false, false))
         == Completed(Store(Stored([e2] + prior), [e2] + prior))
  {
  }

  /** A read that throws an IOException loads as the empty list, so the next
      successful write replaces everything the file held with the one new fix. */
  lemma ReadFailureLosesHistory(prior: seq<LocationEntry>, h: seq<LocationEntry>, e: LocationEntry)
    ensures LocationDelivered(Store(Stored(prior), h), Some(e), Io(true, false))
      == Completed(Store(Stored([e]), [e]))
  {
  }

  function Reversed<T>(xs: seq<T>): (r: seq<T>)
    ensures |r| == |xs|
  {
    if xs == [] then [] else Reversed(xs[1..]) + [xs[0]]
  }

  /** The entries a readable file gives to loadHistory. */
  function Prior(file: HistoryFile): seq<LocationEntry>
    requires !file.Malformed?
  {
    if file.Stored? then file.entries else []
  }

  /** Successive fixes, oldest first, each delivered with no I/O failure. */
  function RecordAll(s: Store, fixes: seq<LocationEntry>): Delivery
    decreases |fixes|
  {
    if fixes == [] then Completed(s)
    else match LocationDelivered(s, Some(fixes[0]), Io(false, false))
      case Crashed => Crashed
      case Completed(next) => RecordAll(next, fixes[1..])
  }

  /** Recording never reorders or drops an entry when no read or write fails:
      after any non-empty run of fixes delivered with no I/O failure, the file
      and the screen both hold the fixes newest first, followed by what the
      file held before. */
  lemma {:induction false} RecordAllNewestFirst(s: Store, fixes: seq<LocationEntry>)
    requires !s.file.Malformed?
    requires fixes != []
    ensures RecordAll(s, fixes) ==
      Completed(Store(Stored(Reversed(fixes) + Prior(s.file)), Reversed(fixes) + Prior(s.file)))
    decreases |fixes|
  {
    var updated := [fixes[0]] + Prior(s.file);
    var next := Store(Stored(updated), updated);
    assert LocationDelivered(s, Some(fixes[0]), Io(false, false)) == Completed(next);
    var rest := fixes[1..];
    if rest == [] {
      assert Reversed(fixes) == [fixes[0]];
    } else {
      RecordAllNewestFirst(next, rest);
      assert Reversed(fixes) == Reversed(rest) + [fixes[0]];
      assert Reversed(rest) + updated == Reversed(fixes) + Prior(s.file);
    }
  }

  // ---------------------------------------------------------------------------
  // Permissions

  datatype Permission = AccessFineLocation | AccessCoarseLocation

  /** What the platform reports for the two permissions right now. */
  datatype Grants = Grants(fine: bool, coarse: bool) {
    predicate Has(p: Permission) {
      match p
      case AccessFineLocation => fine
      case AccessCoarseLocation => coarse
    }
  }

  /** The guard of fetchAndSaveLocation: either permission suffices. */
  predicate MayFetch(g: Grants) {
    g.fine || g.coarse
  }

  /** The `needed` list of requestLocationPermission: the permissions not yet
      granted, fine before coarse, each once. */
  method MissingPermissions(g: Grants) returns (needed: seq<Permission>)
    ensures forall p :: p in needed <==> !g.Has(p)
    ensures forall i, j :: 0 <= i < j < |needed| ==> needed[i] != needed[j]
    ensures |needed| == 2 ==> needed == [AccessFineLocation, AccessCoarseLocation]
  {
    needed := [];
    if !g.fine {
      needed := needed + [AccessFineLocation];
    }
    if !g.coarse {
      needed := needed + [AccessCoarseLocation];
    }
  }

  /** What the permission-result callback does next. */
  datatype ResultAction = FetchLocation | OpenAppSettings

  /** The permission-result callback: fetch when the answer grants either
      permission (a missing answer counts as refused), else open the app's
      settings page. */
  function PermissionsResultAction(results: map<Permission, bool>): (a: ResultAction)
    ensures a == FetchLocation <==> exists p :: p in results && results[p]
  {
    var fine := AccessFineLocation in results && results[AccessFineLocation];
    var coarse := AccessCoarseLocation in results && results[AccessCoarseLocation];
    assert forall p :: p in results ==> p == AccessFineLocation || p == AccessCoarseLocation;
    if fine || coarse then FetchLocation else OpenAppSettings
  }

  /** What the location provider delivers for one request: a fix (absent when
      it has none) to the success listener, or a call of the failure listener. */
  datatype FetchResult = Fix(loc: Option<LocationEntry>) | FetchFailed

  // ---------------------------------------------------------------------------
  // The activity

  class LocationActivity {
    /** The backing file. */
    var file: HistoryFile
    /** `_history`: what the screen shows. */
    var history: seq<LocationEntry>

    function State(): Store
      reads this
    {
      Store(file, history)
    }

    /** The displayed history starts empty; the file is not read at start. */
    constructor (file: HistoryFile)
      ensures this.file == file && history == []
    {
      this.file := file;
      history := [];
    }

    /** toMutableList().apply { add(0, entry) }: the loaded list copied into a
        list one longer, shifted up by one, with the entry stored in front. */
    static method PrependEntry(entry: LocationEntry, loaded: seq<LocationEntry>)
      returns (updated: seq<LocationEntry>)
      ensures updated == [entry] + loaded
    {
      var list := new LocationEntry[|loaded| + 1];
      var i := |loaded|;
      while i > 0
        invariant 0 <= i <= |loaded|
        invariant forall k :: i < k <= |loaded| ==> list[k] == loaded[k - 1]
      {
        list[i] := loaded[i - 1];
        i := i - 1;
      }
      list[0] := entry;
      updated := list[..];
    }

    /** saveHistory */
    method SaveHistory(entries: seq<LocationEntry>, writeFails: bool)
      modifies this
      ensures writeFails ==> unchanged(this)
      ensures !writeFails ==> file == Stored(entries) && history == []
      ensures State() == Saved(old(State()), entries, writeFails)
    {
      if !writeFails {
        file := Stored(entries);
        history := [];
      }
    }

    /** The success listener of fetchAndSaveLocation. `crashed` when the
        decoding exception escapes it, in which case nothing changed. */
    method OnLocationSuccess(loc: Option<LocationEntry>, io: Io) returns (crashed: bool)
      modifies this
      ensures crashed == LocationDelivered(old(State()), loc, io).Crashed?
      ensures crashed ==> unchanged(this)
      ensures !crashed ==> State() == LocationDelivered(old(State()), loc, io).store
    {
      crashed := false;
      match loc
      case None =>
      case Some(entry) =>
        var loaded := LoadHistory(file, io.readFails);
        match loaded
        case DecodeFailed =>
          crashed := true;
        case Loaded(entries) =>
          var updatedHistory := PrependEntry(entry, entries);
          SaveHistory(updatedHistory, io.writeFails);
          history := updatedHistory;
    }

    /** fetchAndSaveLocation, with the provider's answer delivered at once.
        Without either permission nothing is requested and nothing changes; a
        failed request is only logged. */
    method FetchAndSaveLocation(g: Grants, result: FetchResult, io: Io) returns (crashed: bool)
      modifies this
      ensures !MayFetch(g) || result.FetchFailed? ==> unchanged(this) && !crashed
      ensures MayFetch(g) && result.Fix? ==>
        && crashed == LocationDelivered(old(State()), result.loc, io).Crashed?
        && (crashed ==> unchanged(this))
        && (!crashed ==> State() == LocationDelivered(old(State()), result.loc, io).store)
    {
      crashed := false;
      if !MayFetch(g) {
        return;
      }
      match result
      case Fix(loc) =>
        crashed := OnLocationSuccess(loc, io);
      case FetchFailed =>
    }

    /** requestLocationPermission: ask for the permissions not yet granted, or,
        when none is missing, fetch straight away. `launched` is the list handed
        to the permission prompt, empty when no prompt was shown. */
    method RequestLocationPermission(g: Grants, result: FetchResult, io: Io)
      returns (launched: seq<Permission>, crashed: bool)
      modifies this
      ensures forall p :: p in launched <==> !g.Has(p)
      ensures forall i, j :: 0 <= i < j < |launched| ==> launched[i] != launched[j]
      ensures |launched| == 2 ==> launched == [AccessFineLocation, AccessCoarseLocation]
      ensures launched != [] ==> unchanged(this) && !crashed
      ensures launched == [] && result.Fix? ==>
        && crashed == LocationDelivered(old(State()), result.loc, io).Crashed?
        && (crashed ==> unchanged(this))
        && (!crashed ==> State() == LocationDelivered(old(State()), result.loc, io).store)
      ensures launched == [] && result.FetchFailed? ==> unchanged(this) && !crashed
    {
      var needed := MissingPermissions(g);
      if needed != [] {
        launched, crashed := needed, false;
      } else {
        assert g.Has(AccessFineLocation) && MayFetch(g);
        launched := [];
        crashed := FetchAndSaveLocation(g, result, io);
      }
    }

    /** The permission-result callback: fetch when either permission was
        granted, otherwise send the user to the app's settings page. `g` is
        what the platform reports when the fetch checks again. */
    method OnPermissionsResult(results: map<Permission, bool>, g: Grants, result: FetchResult, io: Io)
      returns (openedSettings: bool, crashed: bool)
      modifies this
      ensures openedSettings <==> PermissionsResultAction(results) == OpenAppSettings
      ensures openedSettings ==> unchanged(this) && !crashed
      ensures !openedSettings && MayFetch(g) && result.Fix? ==>
        && crashed == LocationDelivered(old(State()), result.loc, io).Crashed?
        && (crashed ==> unchanged(this))
        && (!crashed ==> State() == LocationDelivered(old(State()), result.loc, io).store)
      ensures !openedSettings && (!MayFetch(g) || result.FetchFailed?) ==> unchanged(this) && !crashed
    {
      if PermissionsResultAction(results) == FetchLocation {
        openedSettings := false;
        crashed := FetchAndSaveLocation(g, result, io);
      } else {
        openedSettings, crashed := true, false;
      }
    }
  }
}
