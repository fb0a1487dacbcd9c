/** Result correlation: after the external tool exits, both scripts list the
    output directory, keep the file names ending in `_transcription.json` and
    take the one with the greatest creation time. Python's `max` replaces its
    running maximum only on a strictly greater key, so among equally new
    candidates the first one listed wins. */
module Correlation {
  import opened Results
  import opened PyJson
  import Paths

  const ArtifactSuffix := "_transcription.json"

  /** One directory entry: its name and the creation time `os.path.getctime` reports. */
  datatype Entry = Entry(name: string, ctime: int)

  predicate IsArtifact(e: Entry) {
    Paths.EndsWith(e.name, ArtifactSuffix)
  }

  predicate HasArtifact(entries: seq<Entry>) {
    exists j :: 0 <= j < |entries| && IsArtifact(entries[j])
  }

  /** The list comprehension `[f for f in listing if f.endswith(...)]`, in listing order. */
  function Candidates(entries: seq<Entry>): (r: seq<Entry>)
    ensures |r| <= |entries|
    decreases |entries|
  {
    if |entries| == 0 then []
    else
      var last := entries[|entries| - 1];
      Candidates(entries[..|entries| - 1]) + (if IsArtifact(last) then [last] else [])
  }

  /** Position `i` holds a greatest creation time of `s`, and every earlier
      position holds a strictly smaller one. */
  ghost predicate FirstMaximal(s: seq<Entry>, i: int) {
    && 0 <= i < |s|
    && (forall j :: 0 <= j < |s| ==> s[j].ctime <= s[i].ctime)
    && (forall j :: 0 <= j < i ==> s[j].ctime < s[i].ctime)
  }

  /** The position of the element `max(s, key=ctime)` returns; `None` where `max`
      would raise on an empty sequence. The scan runs left to right and keeps
      the running maximum unless a strictly newer entry follows. */
  function NewestIndex(s: seq<Entry>): (r: Option<nat>)
    ensures r.None? <==> |s| == 0
    ensures r.Some? ==> FirstMaximal(s, r.value)
    decreases |s|
  {
    if |s| == 0 then None
    else
      var prefix := s[..|s| - 1];
      match NewestIndex(prefix)
      case None => Some(|s| - 1)
      case Some(m) =>
        assert forall j :: 0 <= j < |prefix| ==> prefix[j] == s[j];
        if s[|s| - 1].ctime > s[m].ctime then Some(|s| - 1) else Some(m)
  }

  /** The filter keeps exactly the artifacts of the listing. */
  lemma {:induction false} CandidatesKeepArtifacts(entries: seq<Entry>)
    ensures forall e :: e in Candidates(entries) <==> e in entries && IsArtifact(e)
    decreases |entries|
  {
    if |entries| > 0 {
      var p := entries[..|entries| - 1];
      var x := entries[|entries| - 1];
      assert entries == p + [x];
      CandidatesKeepArtifacts(p);
      forall e
        ensures e in Candidates(entries) <==> e in entries && IsArtifact(e)
      {
        assert e in entries <==> e in p || e == x;
      }
    }
  }

  /** A first-maximal element of a list holding every artifact of the listing
      is at least as new as each of those artifacts. */
  lemma MaximalBoundsArtifacts(entries: seq<Entry>, candidates: seq<Entry>, i: nat)
    requires FirstMaximal(candidates, i)
    requires forall e :: e in entries && IsArtifact(e) ==> e in candidates
    ensures forall j :: 0 <= j < |entries| && IsArtifact(entries[j]) ==>
      entries[j].ctime <= candidates[i].ctime
  {
    forall j | 0 <= j < |entries| && IsArtifact(entries[j])
      ensures entries[j].ctime <= candidates[i].ctime
    {
      assert entries[j] in entries;
      var k :| 0 <= k < |candidates| && candidates[k] == entries[j];
    }
  }

  /** No artifact is listed exactly when the filter keeps nothing. */
  lemma NoCandidatesIffNoArtifact(entries: seq<Entry>)
    ensures |Candidates(entries)| == 0 <==> !HasArtifact(entries)
  {
    CandidatesKeepArtifacts(entries);
    if HasArtifact(entries) {
      var j :| 0 <= j < |entries| && IsArtifact(entries[j]);
      assert entries[j] in Candidates(entries);
    }
    if |Candidates(entries)| > 0 {
      assert Candidates(entries)[0] in Candidates(entries);
    }
  }

  /** Suffix filter followed by `max` by creation time: nothing when no name
      carries the suffix, otherwise a listed artifact no other artifact is newer than. */
  function SelectLatest(entries: seq<Entry>): (r: Option<Entry>)
    ensures r.None? <==> !HasArtifact(entries)
    ensures r.Some? ==> r.value in entries && IsArtifact(r.value)
    ensures r.Some? ==>
      forall j :: 0 <= j < |entries| && IsArtifact(entries[j]) ==> entries[j].ctime <= r.value.ctime
  {
    var candidates := Candidates(entries);
    NoCandidatesIffNoArtifact(entries);
    match NewestIndex(candidates)
    case None => None
    case Some(i) =>
      CandidatesKeepArtifacts(entries);
      MaximalBoundsArtifacts(entries, candidates, i);
      assert candidates[i] in candidates;
      Some(candidates[i])
  }

  /** The listing-level reading of the selection rule: entry `i` is an artifact,
      no artifact in the listing is newer, and every artifact listed before it
      is strictly older. */
  ghost predicate NewestListed(entries: seq<Entry>, i: int) {
    && 0 <= i < |entries|
    && IsArtifact(entries[i])
    && (forall j :: 0 <= j < |entries| && IsArtifact(entries[j]) ==> entries[j].ctime <= entries[i].ctime)
    && (forall j :: 0 <= j < i && IsArtifact(entries[j]) ==> entries[j].ctime < entries[i].ctime)
  }

  /** Adding one entry at the end of the listing changes the selection exactly
      as one more step of `max` over the filtered list does. */
  lemma SelectLatestStep(p: seq<Entry>, x: Entry)
    ensures SelectLatest(p + [x]) ==
      if !IsArtifact(x) then SelectLatest(p)
      else match SelectLatest(p)
        case None => Some(x)
        case Some(m) => if x.ctime > m.ctime then Some(x) else Some(m)
  {
    var s := p + [x];
    assert s[..|s| - 1] == p;
    var c := Candidates(p);
    if IsArtifact(x) {
      var c' := c + [x];
      assert Candidates(s) == c';
      assert c'[..|c'| - 1] == c;
      match NewestIndex(c)
      case None =>
      case Some(m) =>
        assert c'[m] == c[m];
    } else {
      assert Candidates(s) == c;
    }
  }

  /** At most one position satisfies the selection rule. */
  lemma NewestListedUnique(entries: seq<Entry>, i: int, k: int)
    requires NewestListed(entries, i) && NewestListed(entries, k)
    ensures i == k
  {
  }

  /** A selected position stays selected when a non-artifact or an entry that
      is not newer is appended. */
  lemma NewestListedKept(p: seq<Entry>, x: Entry, i: int)
    requires NewestListed(p, i)
    requires IsArtifact(x) ==> x.ctime <= p[i].ctime
    ensures NewestListed(p + [x], i)
  {
  }

  /** An appended artifact strictly newer than every earlier artifact is selected. */
  lemma NewestListedLast(p: seq<Entry>, x: Entry)
    requires IsArtifact(x)
    requires forall j :: 0 <= j < |p| && IsArtifact(p[j]) ==> p[j].ctime < x.ctime
    ensures NewestListed(p + [x], |p|)
  {
  }

  lemma {:induction false} SelectLatestExists(entries: seq<Entry>)
    ensures SelectLatest(entries).None? <==> !HasArtifact(entries)
    ensures SelectLatest(entries).Some? ==>
      exists i :: NewestListed(entries, i) && SelectLatest(entries) == Some(entries[i])
    decreases |entries|
  {
    if |entries| == 0 {
      assert SelectLatest(entries) == None;
    } else {
      var p := entries[..|entries| - 1];
      var x := entries[|entries| - 1];
      assert entries == p + [x];
      SelectLatestExists(p);
      SelectLatestStep(p, x);
      assert HasArtifact(entries) <==> HasArtifact(p) || IsArtifact(x) by {
        if HasArtifact(entries) && !IsArtifact(x) {
          var j :| 0 <= j < |entries| && IsArtifact(entries[j]);
          assert j < |p| && p[j] == entries[j];
        }
        if HasArtifact(p) {
          var j :| 0 <= j < |p| && IsArtifact(p[j]);
          assert entries[j] == p[j];
        }
      }
      var r := SelectLatest(entries);
      match SelectLatest(p)
      case None =>
        if IsArtifact(x) {
          NewestListedLast(p, x);
          assert r == Some(entries[|p|]);
        } else {
          assert r == None;
        }
      case Some(m) =>
        var i :| NewestListed(p, i) && SelectLatest(p) == Some(p[i]);
        if IsArtifact(x) && x.ctime > m.ctime {
          assert forall j :: 0 <= j < |p| && IsArtifact(p[j]) ==> p[j].ctime <= m.ctime;
          NewestListedLast(p, x);
          assert NewestListed(entries, |p|);
          assert r == Some(entries[|p|]);
        } else {
          NewestListedKept(p, x, i);
          assert NewestListed(entries, i);
          assert r == Some(entries[i]);
        }
    }
  }

  /** The selection is the unique listing position that the rule picks: it is
      empty exactly when no name carries the suffix, and otherwise it is the
      newest artifact, the first listed among equally new ones. */
  lemma SelectLatestIsNewestListed(entries: seq<Entry>)
    ensures SelectLatest(entries).None? <==> !HasArtifact(entries)
    ensures HasArtifact(entries) ==> exists i :: NewestListed(entries, i)
    ensures forall i :: NewestListed(entries, i) ==> SelectLatest(entries) == Some(entries[i])
  {
    SelectLatestExists(entries);
    forall i | NewestListed(entries, i)
      ensures SelectLatest(entries) == Some(entries[i])
    {
      var k :| NewestListed(entries, k) && SelectLatest(entries) == Some(entries[k]);
      NewestListedUnique(entries, i, k);
    }
  }

  /** Selection correlates by time only: an artifact strictly newer than every
      other artifact in the directory is selected wherever it is listed, whichever
      invocation wrote it. */
  lemma NewerArtifactWins(before: seq<Entry>, x: Entry, after: seq<Entry>)
    requires IsArtifact(x)
    requires forall j :: 0 <= j < |before| && IsArtifact(before[j]) ==> before[j].ctime < x.ctime
    requires forall j :: 0 <= j < |after| && IsArtifact(after[j]) ==> after[j].ctime < x.ctime
    ensures SelectLatest(before + [x] + after) == Some(x)
  {
    var entries := before + [x] + after;
    forall j | 0 <= j < |entries| && IsArtifact(entries[j])
      ensures entries[j].ctime <= x.ctime
    {
      if j < |before| {
        assert entries[j] == before[j];
      } else if j > |before| {
        assert entries[j] == after[j - |before| - 1];
      }
    }
    assert NewestListed(entries, |before|);
    SelectLatestIsNewestListed(entries);
  }

  /** The directory scan and artifact load of both scripts: list `outputDir`,
      select the newest artifact and decode it. An exception while listing or
      loading is a failure; `Success(None)` means no artifact exists. */
  function Locate(listDir: string -> Result<seq<Entry>, string>,
                  load: string -> Result<Json, string>,
                  outputDir: string): (r: Result<Option<Json>, Fault>)
    ensures listDir(outputDir).Failure? ==> r == Failure(Raised(listDir(outputDir).error))
    ensures r == Success(None) <==> listDir(outputDir).Success? && !HasArtifact(listDir(outputDir).value)
    ensures listDir(outputDir).Success? ==>
      forall i :: NewestListed(listDir(outputDir).value, i) ==>
        r == match load(Paths.Join(outputDir, listDir(outputDir).value[i].name))
             case Success(doc) => Success(Some(doc))
             case Failure(m) => Failure(Raised(m))
  {
    match listDir(outputDir)
    case Failure(m) => Failure(Raised(m))
    case Success(entries) =>
      SelectLatestIsNewestListed(entries);
      match SelectLatest(entries)
      case None => Success(None)
      case Some(e) =>
        match load(Paths.Join(outputDir, e.name))
        case Success(doc) => Success(Some(doc))
        case Failure(m) => Failure(Raised(m))
  }
}
