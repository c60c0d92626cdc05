/** The transcript records and how a reload turns the ledger's raw entries
    into the list the page shows (the loop inside `loadData`). */
module Transcripts {
  import opened Common
  import opened Seqs
  import opened Text

  /** One entry as `getBusinessData(id)` returns it from the ledger. */
  datatype LedgerRecord = LedgerRecord(
    name: string,
    publicValue1: nat,
    publicValue2: nat,
    timestamp: nat,
    creator: string,
    isVerified: bool,
    decryptedValue: nat)

  /** `TranscriptData`: the record the page holds. `decryptedValue` is an
      optional field of the interface; `isVerified` is optional too, and an
      absent flag behaves as `false` everywhere it is read. */
  datatype Transcript = Transcript(
    id: string,
    courseName: string,
    encryptedGrade: string,
    creditHours: int,
    semester: string,
    timestamp: int,
    creator: string,
    isVerified: bool,
    decryptedValue: Option<int>,
    publicValue1: int,
    publicValue2: int)

  /** What a reload can observe of the ledger: whether a read-only contract
      handle is available, the outcome of `getAllBusinessIds()`, and the
      entries `getBusinessData` can read (an id absent from `records` is one
      whose read throws). */
  datatype Ledger = Ledger(
    readable: bool,
    ids: Attempt<seq<string>>,
    records: map<string, LedgerRecord>)

  /** The label a semester number is shown with. */
  function SemesterLabel(n: nat): string
  {
    "Semester " + DecimalString(n)
  }

  /** The record pushed for `id` when its read succeeds. Ledger integers go
      through `Number(x) || d`, so a zero credit count or semester becomes 1,
      while a zero stored grade stays 0. */
  function Normalise(id: string, rec: LedgerRecord): (t: Transcript)
    ensures t.id == id && t.encryptedGrade == id
    ensures t.courseName == rec.name && t.creator == rec.creator
    ensures t.creditHours >= 1
    ensures t.creditHours == rec.publicValue1 || (rec.publicValue1 == 0 && t.creditHours == 1)
    ensures t.semester == SemesterLabel(if rec.publicValue2 == 0 then 1 else rec.publicValue2)
    ensures t.isVerified == rec.isVerified
    ensures t.decryptedValue == Some(rec.decryptedValue as int)
    ensures t.publicValue1 == rec.publicValue1 && t.publicValue2 == rec.publicValue2
  {
    Transcript(
      id := id,
      courseName := rec.name,
      encryptedGrade := id,
      creditHours := OrDefault(Some(rec.publicValue1), 1),
      semester := SemesterLabel(OrDefault(Some(rec.publicValue2), 1)),
      timestamp := rec.timestamp,
      creator := rec.creator,
      isVerified := rec.isVerified,
      decryptedValue := Some(OrDefault(Some(rec.decryptedValue), 0)),
      publicValue1 := OrDefault(Some(rec.publicValue1), 0),
      publicValue2 := OrDefault(Some(rec.publicValue2), 0))
  }

  /** The list a reload produces from `ids`: one normalised record per id
      whose read succeeds, in the order of the ids. */
  function Built(ids: seq<string>, records: map<string, LedgerRecord>): (r: seq<Transcript>)
    ensures |r| <= |ids|
    ensures forall k :: 0 <= k < |r| ==>
              r[k].id in records && r[k] == Normalise(r[k].id, records[r[k].id])
    decreases |ids|
  {
    if ids == [] then []
    else
      var front := Built(ids[..|ids| - 1], records);
      var id := ids[|ids| - 1];
      if id in records then front + [Normalise(id, records[id])] else front
  }

  /** The record-building loop of `loadData`: a read that throws is caught
      inside the loop, so only that id is skipped. */
  method BuildTranscripts(ids: seq<string>, records: map<string, LedgerRecord>)
    returns (list: seq<Transcript>)
    ensures list == Built(ids, records)
  {
    list := [];
    for i := 0 to |ids|
      invariant list == Built(ids[..i], records)
    {
      assert ids[..i + 1][..i] == ids[..i];
      var id := ids[i];
      if id in records {
        list := list + [Normalise(id, records[id])];
      }
    }
    assert ids[..|ids|] == ids;
  }

  function IdsOf(ts: seq<Transcript>): (r: seq<string>)
    ensures |r| == |ts| && forall k :: 0 <= k < |ts| ==> r[k] == ts[k].id
  {
    seq(|ts|, k requires 0 <= k < |ts| => ts[k].id)
  }

  /** The read succeeds for an id exactly when the ledger holds it. */
  function Readable(records: map<string, LedgerRecord>): string -> bool
  {
    id => id in records
  }

  /** Building distributes over concatenation of the id list. */
  lemma {:induction false} BuiltAppend(a: seq<string>, b: seq<string>, records: map<string, LedgerRecord>)
    ensures Built(a + b, records) == Built(a, records) + Built(b, records)
    decreases |b|
  {
    if b == [] {
      assert a + b == a;
    } else {
      var b' := b[..|b| - 1];
      BuiltAppend(a, b', records);
      assert (a + b)[..|a + b| - 1] == a + b';
      assert (a + b)[|a + b| - 1] == b[|b| - 1];
    }
  }

  /** The reloaded list follows the ledger's id order, keeping exactly the
      ids whose read succeeded. */
  lemma {:induction false} BuiltFollowsIds(ids: seq<string>, records: map<string, LedgerRecord>)
    ensures IdsOf(Built(ids, records)) == Filter(ids, Readable(records))
    decreases |ids|
  {
    if ids != [] {
      var front := ids[..|ids| - 1];
      var id := ids[|ids| - 1];
      BuiltFollowsIds(front, records);
      assert ids == front + [id];
      FilterAppend(front, [id], Readable(records));
      assert Filter([id], Readable(records)) == if id in records then [id] else [];
      if id in records {
        var built := Built(front, records);
        assert IdsOf(built + [Normalise(id, records[id])]) == IdsOf(built) + [id];
      }
    }
  }

  /** A read that throws skips its own id and nothing else. */
  lemma BuiltSkipsFailedRead(ids: seq<string>, records: map<string, LedgerRecord>, i: nat)
    requires i < |ids| && ids[i] !in records
    ensures Built(ids, records) == Built(ids[..i], records) + Built(ids[i + 1..], records)
  {
    assert ids == ids[..i] + ([ids[i]] + ids[i + 1..]);
    BuiltAppend(ids[..i], [ids[i]] + ids[i + 1..], records);
    BuiltAppend([ids[i]], ids[i + 1..], records);
    assert Built([ids[i]], records) == [];
  }

  /** The list `transcripts` holds after `loadData`: rebuilt when the id
      listing succeeds, following the listed ids in order and keeping those
      whose read succeeds; untouched when the page is disconnected, no
      read-only contract is available, or the listing throws. */
  function Reloaded(current: seq<Transcript>, connected: bool, ledger: Ledger): (r: seq<Transcript>)
    ensures connected && ledger.readable && ledger.ids.Done? ==>
              IdsOf(r) == Filter(ledger.ids.value, Readable(ledger.records))
    ensures !(connected && ledger.readable && ledger.ids.Done?) ==> r == current
  {
    if connected && ledger.readable && ledger.ids.Done?
    then
      BuiltFollowsIds(ledger.ids.value, ledger.records);
      Built(ledger.ids.value, ledger.records)
    else current
  }

  /** `loadData` reports "Failed to load data" exactly when the id listing
      throws; a reload that fails keeps the list, and a connected reload
      with a readable ledger either fails or rebuilds. */
  function ReloadFails(connected: bool, ledger: Ledger): (fails: bool)
    ensures fails ==> connected && ledger.readable && ledger.ids.Threw?
    ensures fails ==> forall current :: Reloaded(current, connected, ledger) == current
    ensures connected && ledger.readable && !fails ==>
              ledger.ids.Done? &&
              forall current :: Reloaded(current, connected, ledger) == Built(ledger.ids.value, ledger.records)
  {
    connected && ledger.readable && ledger.ids.Threw?
  }

  const LoadFailedBanner: Banner := Banner(true, Error, "Failed to load data")
}
