/**
 * Case-folder resolution of the command-line ingest manager: locating the
 * case metadata (.aut) file of a case folder, the case-folder filename filter,
 * the search for an existing case folder of a given case name, and the name
 * given to a new case folder.
 */
module CaseFolders {
  import opened Wrappers
  import opened JavaText
  import opened Files

  /** CaseMetadata.getFileExtension(). */
  const MetadataExtension: string := ".aut"

  /**
   * TimeStampUtils as the filter uses it: the length of the time-stamp suffix
   * (including its leading underscore) and whether a name ends with one.
   */
  datatype TimeStampFormat = TimeStampFormat(length: nat, endsWithTimeStamp: string -> bool)

  /** Why a CaseActionException was thrown. */
  datatype CaseActionReason =
    | CaseDirectoryNotFound
    | NoFilesInCaseDirectory
    | NoMetadataFile
    | CaseAlreadyExists
    | CaseBackendRefused

  /** What case-folder resolution can throw. */
  datatype FolderError = CaseAction(reason: CaseActionReason) | NullPointer

  /** A name whose lower-cased form ends with the metadata extension. */
  predicate IsMetadataName(name: string) {
    EndsWith(ToLowerCase(name), MetadataExtension)
  }

  // ---------------------------------------------------------------------------
  // findAutFile

  /** The index of the first entry at or after `i` with a metadata name. */
  function FirstMetadataFrom(es: seq<Entry>, i: nat): (r: Option<nat>)
    requires i <= |es|
    ensures r.Some? ==> i <= r.value < |es|
    decreases |es| - i
  {
    if i == |es| then None
    else if IsMetadataName(es[i].name) then Some(i)
    else FirstMetadataFrom(es, i + 1)
  }

  lemma {:induction false} FirstMetadataFromIsFirst(es: seq<Entry>, i: nat)
    requires i <= |es|
    ensures FirstMetadataFrom(es, i).None? <==> forall k :: i <= k < |es| ==> !IsMetadataName(es[k].name)
    ensures FirstMetadataFrom(es, i).Some? ==>
      var k := FirstMetadataFrom(es, i).value;
      i <= k < |es| && IsMetadataName(es[k].name) &&
      forall j :: i <= j < k ==> !IsMetadataName(es[j].name)
    decreases |es| - i
  {
    if i < |es| && !IsMetadataName(es[i].name) {
      FirstMetadataFromIsFirst(es, i + 1);
    }
  }

  /** What findAutFile returns or throws for a case folder. */
  function AutFile(fs: FileSystem, caseDirectory: string): Result<string, FolderError> {
    match ListingOf(fs, caseDirectory)
    case Missing => Err(CaseAction(CaseDirectoryNotFound))
    case NotADirectory => Err(CaseAction(NoFilesInCaseDirectory))
    case Unreadable => Err(CaseAction(NoFilesInCaseDirectory))
    case Listed(es) =>
      match FirstMetadataFrom(es, 0)
      case None => Err(CaseAction(NoMetadataFile))
      case Some(k) => Ok(JoinPath(caseDirectory, es[k].name))
  }

  /** findAutFile: the first listed entry with a metadata name, by an early-exit scan. */
  method FindAutFile(fs: FileSystem, caseDirectory: string) returns (r: Result<string, FolderError>)
    ensures r == AutFile(fs, caseDirectory)
  {
    var listing := ListingOf(fs, caseDirectory);
    if listing == Missing {
      return Err(CaseAction(CaseDirectoryNotFound));
    }
    if !listing.Listed? {
      return Err(CaseAction(NoFilesInCaseDirectory));
    }
    var files := listing.entries;
    var i := 0;
    while i < |files|
      invariant 0 <= i <= |files|
      invariant FirstMetadataFrom(files, 0) == FirstMetadataFrom(files, i)
    {
      var name := ToLowerCase(files[i].name);
      if EndsWith(name, MetadataExtension) {
        return Ok(JoinPath(caseDirectory, files[i].name));
      }
      i := i + 1;
    }
    return Err(CaseAction(NoMetadataFile));
  }

  /**
   * findAutFile succeeds exactly on a listed folder with a metadata file, and
   * returns the first one; otherwise it says why.
   */
  lemma AutFileIsFirstMetadataFile(fs: FileSystem, dir: string)
    ensures AutFile(fs, dir) == Err(CaseAction(CaseDirectoryNotFound)) <==> ListingOf(fs, dir).Missing?
    ensures AutFile(fs, dir) == Err(CaseAction(NoFilesInCaseDirectory)) <==>
      ListingOf(fs, dir).NotADirectory? || ListingOf(fs, dir).Unreadable?
    ensures AutFile(fs, dir) == Err(CaseAction(NoMetadataFile)) <==>
      ListingOf(fs, dir).Listed? &&
      forall k :: 0 <= k < |ListingOf(fs, dir).entries| ==> !IsMetadataName(ListingOf(fs, dir).entries[k].name)
    ensures AutFile(fs, dir).Ok? ==>
      var es := ListingOf(fs, dir).entries;
      exists k :: 0 <= k < |es| && IsMetadataName(es[k].name) && AutFile(fs, dir).value == JoinPath(dir, es[k].name) &&
        forall j :: 0 <= j < k ==> !IsMetadataName(es[j].name)
  {
    if ListingOf(fs, dir).Listed? {
      FirstMetadataFromIsFirst(ListingOf(fs, dir).entries, 0);
    }
  }

  // ---------------------------------------------------------------------------
  // CaseFolderFilter

  predicate IsCaseMetadataFile(e: Entry) {
    IsMetadataName(e.name) && e.isFile
  }

  /** What hasCaseMetadataFile returns for a folder's listing; listFiles returning null is a NullPointerException. */
  function MetadataFileIn(l: Listing): (r: Result<bool, FolderError>)
    ensures r.Err? ==> r.error == NullPointer
  {
    match l
    case Listed(es) => Ok(exists k :: 0 <= k < |es| && IsCaseMetadataFile(es[k]))
    case _ => Err(NullPointer)
  }

  /** hasCaseMetadataFile: an early-exit scan for a metadata file. */
  method HasCaseMetadataFile(fs: FileSystem, folder: string) returns (r: Result<bool, FolderError>)
    ensures r == MetadataFileIn(ListingOf(fs, folder))
  {
    var listing := ListingOf(fs, folder);
    if !listing.Listed? {
      return Err(NullPointer);
    }
    var files := listing.entries;
    for i := 0 to |files|
      invariant forall k :: 0 <= k < i ==> !IsCaseMetadataFile(files[k])
    {
      if EndsWith(ToLowerCase(files[i].name), MetadataExtension) && files[i].isFile {
        return Ok(true);
      }
    }
    return Ok(false);
  }

  /** The name without its time-stamp suffix. */
  function NamePrefix(name: string, ts: TimeStampFormat): string
    requires |name| > ts.length
  {
    name[..|name| - ts.length]
  }

  /** What CaseFolderFilter(caseName).accept returns for entry `e` of folder `base`. */
  function Accepts(fs: FileSystem, base: string, caseName: Option<string>, ts: TimeStampFormat, e: Entry): (r: Result<bool, FolderError>)
    ensures r.Err? ==> r.error == NullPointer
  {
    if |e.name| > ts.length && e.isDirectory then
      if ts.endsWithTimeStamp(e.name) then
        match caseName
        case Some(n) =>
          if NamePrefix(e.name, ts) == n then MetadataFileIn(ListingOf(fs, JoinPath(base, e.name))) else Ok(false)
        case None => MetadataFileIn(ListingOf(fs, JoinPath(base, e.name)))
      else Ok(false)
    else Ok(false)
  }

  /**
   * CaseFolderFilter.accept, computing the decision that the function `Accepts`
   * specifies; `AcceptsIff` states what that decision is.
   */
  method Accept(fs: FileSystem, base: string, caseName: Option<string>, ts: TimeStampFormat, e: Entry)
    returns (r: Result<bool, FolderError>)
    ensures r == Accepts(fs, base, caseName, ts, e)
  {
    var file := JoinPath(base, e.name);
    if |e.name| > ts.length && e.isDirectory {
      if ts.endsWithTimeStamp(e.name) {
        if caseName.Some? {
          var prefix := e.name[..|e.name| - ts.length];
          if prefix == caseName.value {
            r := HasCaseMetadataFile(fs, file);
            return;
          }
        } else {
          r := HasCaseMetadataFile(fs, file);
          return;
        }
      }
    }
    return Ok(false);
  }

  /**
   * The filter accepts an entry exactly when the name is longer than a time
   * stamp, the entry is a directory, the name ends with a time stamp, the
   * prefix is the case name (any prefix when the case name is null), and the
   * folder holds a file with a metadata name; it throws when that folder
   * cannot be listed.
   */
  lemma AcceptsIff(fs: FileSystem, base: string, caseName: Option<string>, ts: TimeStampFormat, e: Entry)
    ensures var qualifies := |e.name| > ts.length && e.isDirectory && ts.endsWithTimeStamp(e.name) &&
                             (caseName.Some? ==> NamePrefix(e.name, ts) == caseName.value);
            var l := ListingOf(fs, JoinPath(base, e.name));
            && (Accepts(fs, base, caseName, ts, e) == Ok(true) <==>
                  qualifies && l.Listed? && exists k :: 0 <= k < |l.entries| && IsCaseMetadataFile(l.entries[k]))
            && (Accepts(fs, base, caseName, ts, e).Err? <==> qualifies && !l.Listed?)
  {
  }

  // ---------------------------------------------------------------------------
  // File.list(CaseFolderFilter)

  /** File.list with the filter, from entry `i` on, after accepting `acc`; the first exception ends the listing. */
  function FilteredFrom(fs: FileSystem, base: string, caseName: Option<string>, ts: TimeStampFormat,
                        es: seq<Entry>, i: nat, acc: seq<Entry>): (r: Result<seq<Entry>, FolderError>)
    requires i <= |es|
    ensures r.Err? ==> r.error == NullPointer
    decreases |es| - i
  {
    if i == |es| then Ok(acc)
    else match Accepts(fs, base, caseName, ts, es[i])
      case Err(err) => Err(err)
      case Ok(keep) => FilteredFrom(fs, base, caseName, ts, es, i + 1, if keep then acc + [es[i]] else acc)
  }

  /** A successful listing keeps what was accepted before, and every later entry the filter accepts. */
  lemma {:induction false} FilteredFromKeeps(fs: FileSystem, base: string, caseName: Option<string>, ts: TimeStampFormat,
                                             es: seq<Entry>, i: nat, acc: seq<Entry>, j: nat)
    requires i <= j < |es| && Accepts(fs, base, caseName, ts, es[j]) == Ok(true)
    requires FilteredFrom(fs, base, caseName, ts, es, i, acc).Ok?
    ensures es[j] in FilteredFrom(fs, base, caseName, ts, es, i, acc).value
    decreases |es| - i
  {
    var keep := Accepts(fs, base, caseName, ts, es[i]).value;
    var acc' := if keep then acc + [es[i]] else acc;
    if i == j {
      FilteredFromExtends(fs, base, caseName, ts, es, i + 1, acc');
    } else {
      FilteredFromKeeps(fs, base, caseName, ts, es, i + 1, acc', j);
    }
  }

  lemma {:induction false} FilteredFromExtends(fs: FileSystem, base: string, caseName: Option<string>, ts: TimeStampFormat,
                                               es: seq<Entry>, i: nat, acc: seq<Entry>)
    requires i <= |es|
    requires FilteredFrom(fs, base, caseName, ts, es, i, acc).Ok?
    ensures forall x :: x in acc ==> x in FilteredFrom(fs, base, caseName, ts, es, i, acc).value
    decreases |es| - i
  {
    if i < |es| {
      var keep := Accepts(fs, base, caseName, ts, es[i]).value;
      FilteredFromExtends(fs, base, caseName, ts, es, i + 1, if keep then acc + [es[i]] else acc);
    }
  }

  /** The entries from `i` on that the filter accepts, in listing order. */
  function AcceptedFrom(fs: FileSystem, base: string, caseName: Option<string>, ts: TimeStampFormat, es: seq<Entry>, i: nat)
    : seq<Entry>
    requires i <= |es|
    decreases |es| - i
  {
    if i == |es| then []
    else (if Accepts(fs, base, caseName, ts, es[i]) == Ok(true) then [es[i]] else [])
         + AcceptedFrom(fs, base, caseName, ts, es, i + 1)
  }

  /** An entry is kept iff it is listed from `i` on and the filter accepts it. */
  lemma {:induction false} AcceptedFromMembers(fs: FileSystem, base: string, caseName: Option<string>, ts: TimeStampFormat,
                                               es: seq<Entry>, i: nat, x: Entry)
    requires i <= |es|
    ensures x in AcceptedFrom(fs, base, caseName, ts, es, i) <==>
      (exists j :: i <= j < |es| && es[j] == x) && Accepts(fs, base, caseName, ts, x) == Ok(true)
    decreases |es| - i
  {
    if i < |es| {
      var head := if Accepts(fs, base, caseName, ts, es[i]) == Ok(true) then [es[i]] else [];
      var rest := AcceptedFrom(fs, base, caseName, ts, es, i + 1);
      assert AcceptedFrom(fs, base, caseName, ts, es, i) == head + rest;
      AcceptedFromMembers(fs, base, caseName, ts, es, i + 1, x);
      var listed := exists j :: i <= j < |es| && es[j] == x;
      var later := exists j :: i + 1 <= j < |es| && es[j] == x;
      assert listed <==> x == es[i] || later;
      assert x in head <==> x == es[i] && Accepts(fs, base, caseName, ts, x) == Ok(true);
      assert x in head + rest <==> x in head || x in rest;
    }
  }

  /** The listing from entry `i` on throws iff the filter throws on one of those entries. */
  lemma {:induction false} FilteredFromFails(fs: FileSystem, base: string, caseName: Option<string>, ts: TimeStampFormat,
                                             es: seq<Entry>, i: nat, acc: seq<Entry>)
    requires i <= |es|
    ensures FilteredFrom(fs, base, caseName, ts, es, i, acc).Err? <==>
      exists j :: i <= j < |es| && Accepts(fs, base, caseName, ts, es[j]).Err?
    decreases |es| - i
  {
    if i < |es| {
      var a := Accepts(fs, base, caseName, ts, es[i]);
      if a.Ok? {
        var acc' := if a.value then acc + [es[i]] else acc;
        FilteredFromFails(fs, base, caseName, ts, es, i + 1, acc');
      }
    }
  }

  /** One step of File.list with the filter: entry `i` is appended iff the filter accepts it. */
  lemma FilteredFromStep(fs: FileSystem, base: string, caseName: Option<string>, ts: TimeStampFormat,
                         es: seq<Entry>, i: nat, acc: seq<Entry>)
    requires i < |es| && FilteredFrom(fs, base, caseName, ts, es, i, acc).Ok?
    ensures Accepts(fs, base, caseName, ts, es[i]).Ok?
    ensures FilteredFrom(fs, base, caseName, ts, es, i, acc) ==
      FilteredFrom(fs, base, caseName, ts, es, i + 1, acc + (if Accepts(fs, base, caseName, ts, es[i]).value then [es[i]] else []))
  {
    assert acc + [] == acc;
  }

  lemma AppendAssociates(a: seq<Entry>, b: seq<Entry>, c: seq<Entry>)
    ensures (a + b) + c == a + (b + c)
  {
  }

  /** A listing from entry `i` on that does not throw appends exactly the accepted entries, in order. */
  lemma {:induction false} FilteredFromIsAcceptedEntries(fs: FileSystem, base: string, caseName: Option<string>, ts: TimeStampFormat,
                                                         es: seq<Entry>, i: nat, acc: seq<Entry>)
    requires i <= |es|
    requires FilteredFrom(fs, base, caseName, ts, es, i, acc).Ok?
    ensures FilteredFrom(fs, base, caseName, ts, es, i, acc).value == acc + AcceptedFrom(fs, base, caseName, ts, es, i)
    decreases |es| - i
  {
    if i == |es| {
      assert acc + [] == acc;
    } else {
      FilteredFromStep(fs, base, caseName, ts, es, i, acc);
      var head := if Accepts(fs, base, caseName, ts, es[i]).value then [es[i]] else [];
      var rest := AcceptedFrom(fs, base, caseName, ts, es, i + 1);
      FilteredFromIsAcceptedEntries(fs, base, caseName, ts, es, i + 1, acc + head);
      AppendAssociates(acc, head, rest);
    }
  }

  /**
   * File.list with the filter throws iff the filter throws on some entry, and
   * otherwise lists exactly the accepted entries, in listing order.
   */
  lemma ListingIsAcceptedEntries(fs: FileSystem, base: string, caseName: Option<string>, ts: TimeStampFormat, es: seq<Entry>)
    ensures FilteredFrom(fs, base, caseName, ts, es, 0, []).Err? <==>
      exists j :: 0 <= j < |es| && Accepts(fs, base, caseName, ts, es[j]).Err?
    ensures FilteredFrom(fs, base, caseName, ts, es, 0, []).Ok? ==>
      FilteredFrom(fs, base, caseName, ts, es, 0, []).value == AcceptedFrom(fs, base, caseName, ts, es, 0)
  {
    FilteredFromFails(fs, base, caseName, ts, es, 0, []);
    if FilteredFrom(fs, base, caseName, ts, es, 0, []).Ok? {
      FilteredFromIsAcceptedEntries(fs, base, caseName, ts, es, 0, []);
      assert [] + AcceptedFrom(fs, base, caseName, ts, es, 0) == AcceptedFrom(fs, base, caseName, ts, es, 0);
    }
  }

  /** File.list(new CaseFolderFilter(caseName)) over a folder's entries. */
  method ListCaseFolders(fs: FileSystem, base: string, caseName: Option<string>, ts: TimeStampFormat, es: seq<Entry>)
    returns (r: Result<seq<Entry>, FolderError>)
    ensures r == FilteredFrom(fs, base, caseName, ts, es, 0, [])
  {
    var accepted: seq<Entry> := [];
    for i := 0 to |es|
      invariant FilteredFrom(fs, base, caseName, ts, es, 0, []) == FilteredFrom(fs, base, caseName, ts, es, i, accepted)
    {
      var keep := Accept(fs, base, caseName, ts, es[i]);
      if keep.Err? {
        return Err(keep.error);
      }
      if keep.value {
        accepted := accepted + [es[i]];
      }
    }
    return Ok(accepted);
  }

  // ---------------------------------------------------------------------------
  // findCaseDirectory

  /**
   * The candidate findCaseDirectory's loop settles on: starting from a most
   * recent time of 0, a candidate is taken whenever its time is at least the
   * most recent time taken so far.
   */
  function MostRecentIndex(times: seq<int>): (r: Option<nat>)
    ensures r.Some? ==> r.value < |times|
  {
    if |times| == 0 then None
    else
      var earlier := MostRecentIndex(times[..|times| - 1]);
      var mostRecent := if earlier.Some? then times[earlier.value] else 0;
      if times[|times| - 1] >= mostRecent then Some(|times| - 1) else earlier
  }

  /**
   * No candidate is chosen iff every time is negative; otherwise the choice is
   * a non-negative maximum and every later candidate is strictly older, so ties
   * go to the one listed last.
   */
  lemma {:induction false} MostRecentIndexIsLastMaximum(times: seq<int>)
    ensures MostRecentIndex(times).None? <==> forall j :: 0 <= j < |times| ==> times[j] < 0
    ensures MostRecentIndex(times).Some? ==>
      var k := MostRecentIndex(times).value;
      times[k] >= 0 &&
      (forall j :: 0 <= j < |times| ==> times[j] <= times[k]) &&
      (forall j :: k < j < |times| ==> times[j] < times[k])
  {
    if |times| > 0 {
      var init := times[..|times| - 1];
      MostRecentIndexIsLastMaximum(init);
      assert forall j :: 0 <= j < |init| ==> init[j] == times[j];
    }
  }

  function TimesOf(cands: seq<Entry>): (r: seq<int>)
    ensures |r| == |cands| && forall k :: 0 <= k < |cands| ==> r[k] == cands[k].lastModified
  {
    seq(|cands|, k requires 0 <= k < |cands| => cands[k].lastModified)
  }

  /** The case folders of `caseName` under `base`: null (`Ok(None)`) when `base` is not a directory. */
  function CaseFolderCandidates(fs: FileSystem, base: string, caseName: Option<string>, ts: TimeStampFormat)
    : (r: Result<Option<seq<Entry>>, FolderError>)
    ensures r.Err? ==> r.error == NullPointer
  {
    match ListingOf(fs, base)
    case Missing => Ok(None)
    case NotADirectory => Ok(None)
    case Unreadable => Err(NullPointer)
    case Listed(es) =>
      match FilteredFrom(fs, base, caseName, ts, es, 0, [])
      case Err(err) => Err(err)
      case Ok(cands) => Ok(Some(cands))
  }

  /**
   * What findCaseDirectory returns, comparing the modification times of the
   * candidate folders inside `base`.
   */
  function CaseDirectory(fs: FileSystem, base: string, caseName: Option<string>, ts: TimeStampFormat)
    : (r: Result<Option<string>, FolderError>)
    ensures r.Err? ==> r.error == NullPointer
  {
    match CaseFolderCandidates(fs, base, caseName, ts)
    case Err(err) => Err(err)
    case Ok(None) => Ok(None)
    case Ok(Some(cands)) =>
      match MostRecentIndex(TimesOf(cands))
      case None => Ok(None)
      case Some(k) => Ok(Some(JoinPath(base, cands[k].name)))
  }

  /** findCaseDirectory: list the case folders, then keep the most recently modified one. */
  method FindCaseDirectory(fs: FileSystem, base: string, caseName: Option<string>, ts: TimeStampFormat)
    returns (r: Result<Option<string>, FolderError>)
    ensures r == CaseDirectory(fs, base, caseName, ts)
  {
    var listing := ListingOf(fs, base);
    if !(listing.Listed? || listing.Unreadable?) {
      return Ok(None);
    }
    if listing.Unreadable? {
      return Err(NullPointer);
    }
    var listed := ListCaseFolders(fs, base, caseName, ts, listing.entries);
    if listed.Err? {
      return Err(listed.error);
    }
    var candidates := listed.value;
    ghost var times := TimesOf(candidates);
    var caseFolderPath: Option<string> := None;
    ghost var chosen: Option<nat> := None;
    var mostRecentModified := 0;
    for i := 0 to |candidates|
      invariant chosen == MostRecentIndex(times[..i])
      invariant mostRecentModified == if chosen.Some? then times[chosen.value] else 0
      invariant caseFolderPath == if chosen.Some? then Some(JoinPath(base, candidates[chosen.value].name)) else None
    {
      assert times[..i + 1][..i] == times[..i];
      if candidates[i].lastModified >= mostRecentModified {
        mostRecentModified := candidates[i].lastModified;
        caseFolderPath := Some(JoinPath(base, candidates[i].name));
        chosen := Some(i);
      }
    }
    assert times[..|candidates|] == times;
    return Ok(caseFolderPath);
  }

  /**
   * findCaseDirectory finds no folder iff there is no candidate, and otherwise
   * the most recently modified candidate, the last listed among equals.
   */
  lemma CaseDirectoryIsMostRecent(fs: FileSystem, base: string, caseName: Option<string>, ts: TimeStampFormat)
    ensures CaseDirectory(fs, base, caseName, ts).Err? <==> CaseFolderCandidates(fs, base, caseName, ts).Err?
    ensures CaseFolderCandidates(fs, base, caseName, ts) == Ok(None) ==> CaseDirectory(fs, base, caseName, ts) == Ok(None)
    ensures CaseFolderCandidates(fs, base, caseName, ts).Ok? && CaseFolderCandidates(fs, base, caseName, ts).value.Some? ==>
      var cands := CaseFolderCandidates(fs, base, caseName, ts).value.value;
      (CaseDirectory(fs, base, caseName, ts) == Ok(None) <==> |cands| == 0) &&
      (CaseDirectory(fs, base, caseName, ts).Ok? && CaseDirectory(fs, base, caseName, ts).value.Some? ==>
        exists k :: 0 <= k < |cands| && CaseDirectory(fs, base, caseName, ts).value.value == JoinPath(base, cands[k].name) &&
          (forall j :: 0 <= j < |cands| ==> cands[j].lastModified <= cands[k].lastModified) &&
          (forall j :: k < j < |cands| ==> cands[j].lastModified < cands[k].lastModified))
  {
    var c := CaseFolderCandidates(fs, base, caseName, ts);
    if c.Ok? && c.value.Some? {
      var cands := c.value.value;
      MostRecentIndexIsLastMaximum(TimesOf(cands));
      if |cands| > 0 {
        assert TimesOf(cands)[0] >= 0;
      }
    }
  }

  /** The candidates are the base folder's entries the filter accepts, in listing order. */
  lemma CandidatesAreAcceptedEntries(fs: FileSystem, base: string, caseName: Option<string>, ts: TimeStampFormat)
    ensures ListingOf(fs, base).Missing? || ListingOf(fs, base).NotADirectory? ==>
      CaseFolderCandidates(fs, base, caseName, ts) == Ok(None)
    ensures ListingOf(fs, base).Unreadable? ==> CaseFolderCandidates(fs, base, caseName, ts) == Err(NullPointer)
    ensures ListingOf(fs, base).Listed? ==>
      var es := ListingOf(fs, base).entries;
      && (CaseFolderCandidates(fs, base, caseName, ts).Err? <==>
            exists j :: 0 <= j < |es| && Accepts(fs, base, caseName, ts, es[j]).Err?)
      && (CaseFolderCandidates(fs, base, caseName, ts).Ok? ==>
            CaseFolderCandidates(fs, base, caseName, ts) == Ok(Some(AcceptedFrom(fs, base, caseName, ts, es, 0))))
  {
    if ListingOf(fs, base).Listed? {
      var es := ListingOf(fs, base).entries;
      ListingIsAcceptedEntries(fs, base, caseName, ts, es);
    }
  }

  /**
   * findCaseDirectory over the base folder's own listing: it throws iff the
   * filter throws on some entry, finds nothing iff the filter rejects every
   * entry, and otherwise returns an accepted entry that no accepted entry is
   * more recent than.
   */
  lemma CaseDirectoryOverListing(fs: FileSystem, base: string, caseName: Option<string>, ts: TimeStampFormat)
    ensures ListingOf(fs, base).Missing? || ListingOf(fs, base).NotADirectory? ==> CaseDirectory(fs, base, caseName, ts) == Ok(None)
    ensures ListingOf(fs, base).Unreadable? ==> CaseDirectory(fs, base, caseName, ts) == Err(NullPointer)
    ensures ListingOf(fs, base).Listed? ==>
      var es := ListingOf(fs, base).entries;
      var r := CaseDirectory(fs, base, caseName, ts);
      && (r.Err? <==> exists j :: 0 <= j < |es| && Accepts(fs, base, caseName, ts, es[j]).Err?)
      && (r == Ok(None) <==> forall j :: 0 <= j < |es| ==> Accepts(fs, base, caseName, ts, es[j]) == Ok(false))
      && (r.Ok? && r.value.Some? ==>
            exists j :: 0 <= j < |es| && Accepts(fs, base, caseName, ts, es[j]) == Ok(true) &&
              r.value.value == JoinPath(base, es[j].name) &&
              forall i :: 0 <= i < |es| && Accepts(fs, base, caseName, ts, es[i]) == Ok(true) ==>
                es[i].lastModified <= es[j].lastModified)
  {
    CandidatesAreAcceptedEntries(fs, base, caseName, ts);
    CaseDirectoryIsMostRecent(fs, base, caseName, ts);
    if ListingOf(fs, base).Listed? && CaseFolderCandidates(fs, base, caseName, ts).Ok? {
      var es := ListingOf(fs, base).entries;
      var cands := AcceptedFrom(fs, base, caseName, ts, es, 0);
      if |cands| == 0 {
        NoCandidateMeansAllRejected(fs, base, caseName, ts, es);
      } else {
        SomeCandidateIsAccepted(fs, base, caseName, ts, es);
        var r := CaseDirectory(fs, base, caseName, ts);
        var k :| 0 <= k < |cands| && r.value.value == JoinPath(base, cands[k].name) &&
                 forall m :: 0 <= m < |cands| ==> cands[m].lastModified <= cands[k].lastModified;
        NewestCandidateIsNewestAccepted(fs, base, caseName, ts, es, k);
      }
    }
  }

  /** With no entry accepted and none throwing, every entry is rejected. */
  lemma NoCandidateMeansAllRejected(fs: FileSystem, base: string, caseName: Option<string>, ts: TimeStampFormat,
                                    es: seq<Entry>)
    requires forall j :: 0 <= j < |es| ==> Accepts(fs, base, caseName, ts, es[j]).Ok?
    requires |AcceptedFrom(fs, base, caseName, ts, es, 0)| == 0
    ensures forall j :: 0 <= j < |es| ==> Accepts(fs, base, caseName, ts, es[j]) == Ok(false)
  {
    forall j | 0 <= j < |es|
      ensures Accepts(fs, base, caseName, ts, es[j]) == Ok(false)
    {
      AcceptedFromMembers(fs, base, caseName, ts, es, 0, es[j]);
    }
  }

  /** A non-empty list of accepted entries holds an entry the filter accepts. */
  lemma SomeCandidateIsAccepted(fs: FileSystem, base: string, caseName: Option<string>, ts: TimeStampFormat,
                                es: seq<Entry>)
    requires |AcceptedFrom(fs, base, caseName, ts, es, 0)| > 0
    ensures exists j :: 0 <= j < |es| && Accepts(fs, base, caseName, ts, es[j]) == Ok(true)
  {
    var x := AcceptedFrom(fs, base, caseName, ts, es, 0)[0];
    AcceptedFromMembers(fs, base, caseName, ts, es, 0, x);
    var j :| 0 <= j < |es| && es[j] == x;
  }

  /** The newest accepted entry is an entry of the listing that no accepted entry is newer than. */
  lemma NewestCandidateIsNewestAccepted(fs: FileSystem, base: string, caseName: Option<string>, ts: TimeStampFormat,
                                        es: seq<Entry>, k: nat)
    requires k < |AcceptedFrom(fs, base, caseName, ts, es, 0)|
    requires var cands := AcceptedFrom(fs, base, caseName, ts, es, 0);
      forall m :: 0 <= m < |cands| ==> cands[m].lastModified <= cands[k].lastModified
    ensures var cands := AcceptedFrom(fs, base, caseName, ts, es, 0);
      exists j :: 0 <= j < |es| && es[j] == cands[k] && Accepts(fs, base, caseName, ts, es[j]) == Ok(true) &&
        forall i :: 0 <= i < |es| && Accepts(fs, base, caseName, ts, es[i]) == Ok(true) ==>
          es[i].lastModified <= es[j].lastModified
  {
    var cands := AcceptedFrom(fs, base, caseName, ts, es, 0);
    AcceptedFromMembers(fs, base, caseName, ts, es, 0, cands[k]);
    var j :| 0 <= j < |es| && es[j] == cands[k];
    forall i | 0 <= i < |es| && Accepts(fs, base, caseName, ts, es[i]) == Ok(true)
      ensures es[i].lastModified <= es[j].lastModified
    {
      AcceptedFromMembers(fs, base, caseName, ts, es, 0, es[i]);
      var m :| 0 <= m < |cands| && cands[m] == es[i];
    }
  }

  /** The times File.lastModified reports for the candidate names read as files inside `dir`. */
  function TimesIn(fs: FileSystem, dir: string, cands: seq<Entry>): (r: seq<int>)
    ensures |r| == |cands| && forall k :: 0 <= k < |cands| ==> r[k] == LastModifiedIn(fs, dir, cands[k].name)
  {
    seq(|cands|, k requires 0 <= k < |cands| => LastModifiedIn(fs, dir, cands[k].name))
  }

  /**
   * findCaseDirectory as written: the candidate names are file names, and
   * `new File(candidateFolder).lastModified()` resolves each one against the
   * process working directory `cwd` rather than against `base`.
   */
  function CaseDirectoryAsWritten(fs: FileSystem, cwd: string, base: string, caseName: Option<string>, ts: TimeStampFormat)
    : Result<Option<string>, FolderError>
  {
    match CaseFolderCandidates(fs, base, caseName, ts)
    case Err(err) => Err(err)
    case Ok(None) => Ok(None)
    case Ok(Some(cands)) =>
      match MostRecentIndex(TimesIn(fs, cwd, cands))
      case None => Ok(None)
      case Some(k) => Ok(Some(JoinPath(base, cands[k].name)))
  }

  /**
   * The code as written and the corrected search agree on whether a case
   * folder is found: they see the same candidates, and no time is negative.
   */
  lemma AsWrittenAgreesOnNullness(fs: FileSystem, cwd: string, base: string, caseName: Option<string>, ts: TimeStampFormat)
    ensures CaseDirectoryAsWritten(fs, cwd, base, caseName, ts).Err? <==> CaseDirectory(fs, base, caseName, ts).Err?
    ensures CaseDirectoryAsWritten(fs, cwd, base, caseName, ts) == Ok(None) <==> CaseDirectory(fs, base, caseName, ts) == Ok(None)
  {
    var c := CaseFolderCandidates(fs, base, caseName, ts);
    if c.Ok? && c.value.Some? {
      var cands := c.value.value;
      MostRecentIndexIsLastMaximum(TimesOf(cands));
      MostRecentIndexIsLastMaximum(TimesIn(fs, cwd, cands));
      if |cands| > 0 {
        assert TimesOf(cands)[0] >= 0;
        assert TimesIn(fs, cwd, cands)[0] >= 0;
      }
    }
  }

  /** Time stamps of length 2 that every name ends with, for the example below. */
  function ExampleStamps(): TimeStampFormat {
    TimeStampFormat(2, (s: string) => true)
  }

  /** Two folders of case "A" under /cases, the first modified later than the second. */
  function ExampleFolders(): seq<Entry> {
    [Entry("A_1", true, false, 200), Entry("A_2", true, false, 100)]
  }

  function ExampleFileSystem(): FileSystem {
    var meta := Entry("A.aut", false, true, 5);
    map["/cases" := Listed(ExampleFolders()), "/cases/A_1" := Listed([meta]), "/cases/A_2" := Listed([meta])]
  }

  lemma ExampleCandidates()
    ensures CaseFolderCandidates(ExampleFileSystem(), "/cases", Some("A"), ExampleStamps()) == Ok(Some(ExampleFolders()))
  {
    var fs := ExampleFileSystem();
    var meta := Entry("A.aut", false, true, 5);
    assert JoinPath("/cases", "A_1") == "/cases/A_1";
    assert JoinPath("/cases", "A_2") == "/cases/A_2";
    assert ListingOf(fs, "/cases") == Listed(ExampleFolders());
    ExampleFolderAccepted(fs, 0);
    ExampleFolderAccepted(fs, 1);
    ExampleFoldersListed(fs);
  }

  /** A folder of the example is accepted once it holds the metadata file `A.aut`. */
  lemma ExampleFolderAccepted(fs: FileSystem, k: nat)
    requires k < 2
    requires ListingOf(fs, JoinPath("/cases", ExampleFolders()[k].name)) == Listed([Entry("A.aut", false, true, 5)])
    ensures Accepts(fs, "/cases", Some("A"), ExampleStamps(), ExampleFolders()[k]) == Ok(true)
  {
    var meta := Entry("A.aut", false, true, 5);
    assert "A.aut" == "A" + MetadataExtension;
    MetadataNameOf("A");
    assert IsCaseMetadataFile([meta][0]);
    assert NamePrefix(ExampleFolders()[k].name, ExampleStamps()) == "A";
  }

  /** Both folders of the example accepted, in listing order. */
  lemma ExampleFoldersListed(fs: FileSystem)
    requires ListingOf(fs, "/cases") == Listed(ExampleFolders())
    requires Accepts(fs, "/cases", Some("A"), ExampleStamps(), ExampleFolders()[0]) == Ok(true)
    requires Accepts(fs, "/cases", Some("A"), ExampleStamps(), ExampleFolders()[1]) == Ok(true)
    ensures CaseFolderCandidates(fs, "/cases", Some("A"), ExampleStamps()) == Ok(Some(ExampleFolders()))
  {
    var ts, es := ExampleStamps(), ExampleFolders();
    var e1, e2 := es[0], es[1];
    assert [] + [e1] == [e1] && [e1] + [e2] == es;
    assert FilteredFrom(fs, "/cases", Some("A"), ts, es, 2, es) == Ok(es);
    assert FilteredFrom(fs, "/cases", Some("A"), ts, es, 1, [e1]) == Ok(es);
    assert FilteredFrom(fs, "/cases", Some("A"), ts, es, 0, []) == Ok(es);
  }

  /**
   * In the example, with a working directory that holds neither folder, the
   * code as written reads a time of 0 for both and returns the older folder.
   */
  lemma CaseDirectoryAsWrittenPicksOlderFolder()
    ensures CaseDirectoryAsWritten(ExampleFileSystem(), "/home", "/cases", Some("A"), ExampleStamps()) == Ok(Some("/cases/A_2"))
  {
    ExampleCandidates();
    CwdTimesPickLast();
    SecondExampleFolderPicked(ExampleFileSystem(), "/home");
  }

  /** The as-written search on the example's candidates, once the second candidate's time wins. */
  lemma SecondExampleFolderPicked(fs: FileSystem, cwd: string)
    requires CaseFolderCandidates(fs, "/cases", Some("A"), ExampleStamps()) == Ok(Some(ExampleFolders()))
    requires MostRecentIndex(TimesIn(fs, cwd, ExampleFolders())) == Some(1)
    ensures CaseDirectoryAsWritten(fs, cwd, "/cases", Some("A"), ExampleStamps()) == Ok(Some("/cases/A_2"))
  {
    assert JoinPath("/cases", ExampleFolders()[1].name) == "/cases/A_2";
  }

  /** No candidate name is found in /home, so File.lastModified reads 0 for each. */
  lemma CwdTimesAreZero()
    ensures TimesIn(ExampleFileSystem(), "/home", ExampleFolders()) == [0, 0]
  {
    assert ListingOf(ExampleFileSystem(), "/home") == Missing;
  }

  lemma CwdTimesPickLast()
    ensures MostRecentIndex(TimesIn(ExampleFileSystem(), "/home", ExampleFolders())) == Some(1)
  {
    CwdTimesAreZero();
    ZeroTimesPickLast();
  }

  lemma ZeroTimesPickLast()
    ensures MostRecentIndex([0, 0]) == Some(1)
  {
    assert [0, 0][..1] == [0];
    assert [0][..0] == [];
  }

  lemma NewerTimePicked()
    ensures MostRecentIndex(TimesOf(ExampleFolders())) == Some(0)
  {
    assert TimesOf(ExampleFolders()) == [200, 100];
    assert [200, 100][..1] == [200];
    assert [200][..0] == [];
  }

  /** In the example, comparing the folders' own times returns the newer folder. */
  lemma CaseDirectoryPicksNewerFolder()
    ensures CaseDirectory(ExampleFileSystem(), "/cases", Some("A"), ExampleStamps()) == Ok(Some("/cases/A_1"))
  {
    ExampleCandidates();
    NewerTimePicked();
    FirstExampleFolderPicked(ExampleFileSystem());
  }

  /** The corrected search on the example's candidates, once the first candidate's time wins. */
  lemma FirstExampleFolderPicked(fs: FileSystem)
    requires CaseFolderCandidates(fs, "/cases", Some("A"), ExampleStamps()) == Ok(Some(ExampleFolders()))
    requires MostRecentIndex(TimesOf(ExampleFolders())) == Some(0)
    ensures CaseDirectory(fs, "/cases", Some("A"), ExampleStamps()) == Ok(Some("/cases/A_1"))
  {
    assert JoinPath("/cases", ExampleFolders()[0].name) == "/cases/A_1";
  }

  // ---------------------------------------------------------------------------
  // createCaseFolderPath

  /** Java's string conversion of a possibly null case name. */
  function NameOrNull(caseName: Option<string>): string {
    match caseName
    case Some(n) => n
    case None => "null"
  }

  /** The folder name `<caseName>_<timestamp>`. */
  function CaseFolderName(caseName: Option<string>, stamp: string): string {
    NameOrNull(caseName) + "_" + stamp
  }

  /** createCaseFolderPath: `base/<caseName>_<timestamp>`. */
  function CreateCaseFolderPath(base: string, caseName: Option<string>, stamp: string): string {
    JoinPath(base, CaseFolderName(caseName, stamp))
  }

  /** A name made of a lower-cased-invariant stem and the extension is a metadata name. */
  lemma MetadataNameOf(stem: string)
    ensures IsMetadataName(stem + MetadataExtension)
  {
    ToLowerCaseAppend(stem, MetadataExtension);
    assert ToLowerCase(MetadataExtension) == MetadataExtension;
    var l := ToLowerCase(stem + MetadataExtension);
    assert l == ToLowerCase(stem) + MetadataExtension;
    assert l[|l| - |MetadataExtension|..] == MetadataExtension;
  }

  /**
   * A folder created by createCaseFolderPath for a non-empty case name, once it
   * holds a metadata file, is accepted by the filter for that case name,
   * provided the time stamp is one TimeStampUtils recognises and its length
   * plus the underscore is the time-stamp length.
   */
  lemma CreatedFolderIsAccepted(fs: FileSystem, base: string, name: string, stamp: string, ts: TimeStampFormat, e: Entry)
    requires |name| > 0 && ts.length == |stamp| + 1
    requires e.name == CaseFolderName(Some(name), stamp) && e.isDirectory && ts.endsWithTimeStamp(e.name)
    requires ListingOf(fs, JoinPath(base, e.name)).Listed?
    requires exists k :: 0 <= k < |ListingOf(fs, JoinPath(base, e.name)).entries| &&
                         IsCaseMetadataFile(ListingOf(fs, JoinPath(base, e.name)).entries[k])
    ensures Accepts(fs, base, Some(name), ts, e) == Ok(true)
  {
    assert e.name == name + ("_" + stamp);
    assert NamePrefix(e.name, ts) == name;
  }
}
