/** Translation of a pyload status word, progress and error text into the four
    release states the downloader reports, including the case where testing the
    error text raises. */
module DownloadStatus {
  import opened StatusFlags
  import opened Json
  import opened Wrappers

  datatype Status = Busy | Seeding | Failed | Completed {
    /** The string the downloader reports. */
    function Name(): string {
      match this
      case Busy => "busy"
      case Seeding => "seeding"
      case Failed => "failed"
      case Completed => "completed"
    }
  }

  /** Progress is in permille; this value means fully downloaded. */
  const Complete := 1000

  /** The error text that keeps an errored download from counting as failed. */
  const DiskSpaceMessage := "There is not enough space on the disk"

  /** `sub` occurs in `s` at offset i. */
  predicate OccursAt(s: string, sub: string, i: int) {
    0 <= i && i + |sub| <= |s| && s[i..i + |sub|] == sub
  }

  /** Dropping the first character shifts every occurrence one place left. */
  lemma OccursShift(s: string, sub: string)
    requires |s| > 0
    ensures forall i :: 0 <= i ==> (OccursAt(s[1..], sub, i) <==> OccursAt(s, sub, i + 1))
  {
  }

  /** Python's `sub in s` on strings: `sub` occurs at some offset of `s`. */
  function Contains(s: string, sub: string): (r: bool)
    ensures r <==> exists i :: OccursAt(s, sub, i)
    decreases |s|
  {
    if |sub| > |s| then false
    else if s[..|sub|] == sub then
      assert OccursAt(s, sub, 0);
      true
    else
      OccursShift(s, sub);
      assert !OccursAt(s, sub, 0);
      assert forall i :: OccursAt(s, sub, i) ==> i == 0 || OccursAt(s[1..], sub, i - 1);
      Contains(s[1..], sub)
  }

  /** Python's `sub in v` on a decoded value: a substring test on a string, an
      element test on a list, a key test on an object; None where Python raises
      a TypeError (null, booleans, numbers). */
  function Mentions(v: Json, sub: string): (r: Option<bool>)
    ensures r.Some? <==> v.JStr? || v.JArr? || v.JObj?
    ensures v.JStr? ==> (r == Some(true) <==> exists i :: OccursAt(v.s, sub, i))
    ensures v.JArr? ==> (r == Some(true) <==> exists k :: 0 <= k < |v.items| && v.items[k] == JStr(sub))
    ensures v.JObj? ==> (r == Some(true) <==> sub in v.fields)
  {
    match v
    case JStr(s) => Some(Contains(s, sub))
    case JArr(items) => Some(JStr(sub) in items)
    case JObj(fields) => Some(sub in fields)
    case _ => None
  }

  /** The progress entry equals 1000: only the number 1000 does. */
  predicate Done(progress: Json) {
    progress == JNum(Complete)
  }

  /** Started or queued and fully downloaded. */
  predicate SeedingCase(bits: int, progress: Json) {
    (HasFlag(bits, Started) || HasFlag(bits, Queued)) && Done(progress)
  }

  /** The error text is consulted: the torrent is not seeding and ERROR is set. */
  predicate TextRead(bits: int, progress: Json) {
    !SeedingCase(bits, progress) && HasFlag(bits, Error)
  }

  /** Errored, and the error text does not mention lack of disk space. */
  predicate FailedCase(bits: int, errorText: Json) {
    HasFlag(bits, Error) && Mentions(errorText, DiskSpaceMessage) == Some(false)
  }

  /** The rule of `getAllDownloadStatus`, checked in order: seeding, failed,
      completed, and busy when none applies; None when the error text has to be
      tested and the `in` test raises. */
  function Classify(bits: int, progress: Json, errorText: Json): (s: Option<Status>)
    ensures s.None? <==> TextRead(bits, progress) && Mentions(errorText, DiskSpaceMessage).None?
    ensures s == Some(Seeding) <==> SeedingCase(bits, progress)
    ensures s == Some(Failed) <==> !SeedingCase(bits, progress) && FailedCase(bits, errorText)
    ensures s == Some(Completed) <==>
      && !SeedingCase(bits, progress) && Done(progress)
      && (!HasFlag(bits, Error) || Mentions(errorText, DiskSpaceMessage) == Some(true))
    ensures s == Some(Busy) <==>
      && !Done(progress)
      && (!HasFlag(bits, Error) || Mentions(errorText, DiskSpaceMessage) == Some(true))
    ensures s == Some(Seeding) || s == Some(Completed) ==> Done(progress)
    ensures s == Some(Failed) ==> HasFlag(bits, Error)
  {
    if SeedingCase(bits, progress) then Some(Seeding)
    else if HasFlag(bits, Error) && Mentions(errorText, DiskSpaceMessage).None? then None
    else if FailedCase(bits, errorText) then Some(Failed)
    else if Done(progress) then Some(Completed)
    else Some(Busy)
  }

  /** The error text matters only when it is read: whatever stands there, a
      torrent that is seeding or has no ERROR flag classifies alike. */
  lemma ClassifyTextUnread(bits: int, progress: Json, t1: Json, t2: Json)
    requires !TextRead(bits, progress)
    ensures Classify(bits, progress, t1) == Classify(bits, progress, t2)
    ensures Classify(bits, progress, t1).Some?
  {
  }

  /** The flags the rule never looks at. */
  predicate Ignored(f: Flag) {
    f != Started && f != Queued && f != Error
  }

  /** Turning on CHECKING, CHECK-START, CHECKED, PAUSED or LOADED never changes the state. */
  lemma ClassifyIgnoresUnusedFlags(bits: int, f: Flag, progress: Json, errorText: Json)
    requires Ignored(f) && !HasFlag(bits, f)
    ensures Classify(bits + f.Value(), progress, errorText) == Classify(bits, progress, errorText)
  {
    SetFlagKeepsOthers(bits, f, Started);
    SetFlagKeepsOthers(bits, f, Queued);
    SetFlagKeepsOthers(bits, f, Error);
  }

  /** Two status words that agree on STARTED, QUEUED and ERROR give the same state. */
  lemma ClassifyReadsThreeFlags(b1: int, b2: int, progress: Json, errorText: Json)
    requires HasFlag(b1, Started) == HasFlag(b2, Started)
    requires HasFlag(b1, Queued) == HasFlag(b2, Queued)
    requires HasFlag(b1, Error) == HasFlag(b2, Error)
    ensures Classify(b1, progress, errorText) == Classify(b2, progress, errorText)
  {
  }

  /** Worked cases: STARTED|QUEUED at 1000 seeds; ERROR with an unrelated text
      fails even when the text speaks of a full disk; ERROR with the disk-space
      text stays busy; no flags at 1000 completes. */
  lemma ClassifyExamples()
    ensures Classify(65, JNum(1000), JStr("")) == Some(Seeding)
    ensures Classify(16, JNum(500), JStr("disk full")) == Some(Failed)
    ensures Classify(16, JNum(300), JStr("bad torrent")) == Some(Failed)
    ensures Classify(16, JNum(500), JStr(DiskSpaceMessage)) == Some(Busy)
    ensures Classify(0, JNum(1000), JStr("")) == Some(Completed)
  {
    assert Bit(65, 0);
    assert !Bit(16, 0) && !Bit(16, 6) && Bit(16, 4);
    assert !Bit(0, 4);
    assert Contains(DiskSpaceMessage, DiskSpaceMessage);
  }

  /** Worked cases for entries that are not numbers and strings: a progress
      string is not 1000; a null error text raises only when it is read; a list
      of texts is searched by element. */
  lemma ClassifyLooseEntries()
    ensures Classify(0, JStr("1000"), JNull) == Some(Busy)
    ensures Classify(81, JNum(1000), JNull) == Some(Seeding)
    ensures Classify(16, JNum(1000), JNull) == None
    ensures Classify(16, JNum(1000), JArr([JStr(DiskSpaceMessage)])) == Some(Completed)
  {
    assert !Bit(0, 4);
    assert Bit(81, 0);
    assert !Bit(16, 0) && !Bit(16, 6) && Bit(16, 4);
    assert JArr([JStr(DiskSpaceMessage)]).items[0] == JStr(DiskSpaceMessage);
  }
}
