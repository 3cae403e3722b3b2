/** Folding a transfer's event log into one record a recipient, against asking the log directly. */
module RecipientActivity {
  import opened Bytes

  datatype Kind = LinkOpened | FileDownloaded | OtherKind

  /** The payload's file_id: absent in old rows, possibly null, otherwise text. */
  datatype FileId = Absent | JsonNull | Text(id: string)

  datatype Event = Event(recipient: Option<nat>, kind: Kind, at: nat, file: FileId)

  datatype Activity = Activity(openedAt: Option<nat>, downloadedAt: Option<nat>, files: set<string>)

  const NOTHING := Activity(None, None, {})

  predicate InOrder(log: seq<Event>) {
    forall i, j :: 0 <= i < j < |log| ==> log[i].at <= log[j].at
  }

  predicate Opens(e: Event, r: nat) {
    e.recipient == Some(r) && e.kind == LinkOpened
  }

  predicate Downloads(e: Event, r: nat) {
    e.recipient == Some(r) && e.kind == FileDownloaded
  }

  predicate Acts(e: Event, r: nat) {
    Opens(e, r) || Downloads(e, r)
  }

  // --- What the record should say, straight from the log ---

  ghost predicate IsEarliestOpen(log: seq<Event>, r: nat, at: Option<nat>) {
    if at.None? then forall i | 0 <= i < |log| :: !Opens(log[i], r)
    else
      && (exists i | 0 <= i < |log| :: Opens(log[i], r) && log[i].at == at.value)
      && (forall i | 0 <= i < |log| && Opens(log[i], r) :: at.value <= log[i].at)
  }

  ghost predicate IsLatestDownload(log: seq<Event>, r: nat, at: Option<nat>) {
    if at.None? then forall i | 0 <= i < |log| :: !Downloads(log[i], r)
    else
      && (exists i | 0 <= i < |log| :: Downloads(log[i], r) && log[i].at == at.value)
      && (forall i | 0 <= i < |log| && Downloads(log[i], r) :: log[i].at <= at.value)
  }

  /** The ids a recipient fetched that are real ids. */
  function NamedFiles(log: seq<Event>, r: nat): set<string> {
    set e <- log | Downloads(e, r) && e.file.Text? && e.file.id != "" :: e.file.id
  }

  ghost predicate IsActivity(log: seq<Event>, r: nat, a: Activity) {
    IsEarliestOpen(log, r, a.openedAt) && IsLatestDownload(log, r, a.downloadedAt) && a.files == NamedFiles(log, r)
  }

  function Looked(m: map<nat, Activity>, r: nat): Activity {
    if r in m then m[r] else NOTHING
  }

  /** One event more at the end of the log. */
  function Folded(a: Activity, e: Event): Activity {
    if e.kind == LinkOpened then (if a.openedAt.None? then a.(openedAt := Some(e.at)) else a)
    else a.(downloadedAt := Some(e.at),
            files := if e.file.Text? && e.file.id != "" then a.files + {e.file.id} else a.files)
  }

  lemma FilesGrow(log: seq<Event>, e: Event, r: nat)
    ensures NamedFiles(log + [e], r) == NamedFiles(log, r)
        + if Downloads(e, r) && e.file.Text? && e.file.id != "" then {e.file.id} else {}
  {
    forall x ensures x in log + [e] <==> x in log || x == e {}
  }

  lemma FoldKeeps(log: seq<Event>, e: Event, r: nat, a: Activity)
    requires InOrder(log + [e]) && IsActivity(log, r, a)
    ensures IsActivity(log + [e], r, if Acts(e, r) then Folded(a, e) else a)
  {
    var more := log + [e];
    FilesGrow(log, e, r);
    assert more[|log|] == e;
    forall i | 0 <= i < |log| ensures more[i] == log[i] && log[i].at <= e.at { assert more[i].at <= more[|log|].at; }
    if a.openedAt.Some? {
      var i :| 0 <= i < |log| && Opens(log[i], r) && log[i].at == a.openedAt.value;
      assert Opens(more[i], r);
    }
    if a.downloadedAt.Some? {
      var i :| 0 <= i < |log| && Downloads(log[i], r) && log[i].at == a.downloadedAt.value;
      assert Downloads(more[i], r);
    }
  }

  ghost predicate ActedIn(log: seq<Event>, r: nat) {
    exists i | 0 <= i < |log| :: Acts(log[i], r)
  }

  ghost predicate RecordOk(log: seq<Event>, activity: map<nat, Activity>, r: nat) {
    IsActivity(log, r, Looked(activity, r)) && (r in activity <==> ActedIn(log, r))
  }

  /** One turn of the loop: setdefault, then the event's own update. */
  function Next(activity: map<nat, Activity>, e: Event): map<nat, Activity> {
    if e.recipient.None? || e.kind == OtherKind then activity
    else activity[e.recipient.value := Folded(Looked(activity, e.recipient.value), e)]
  }

  lemma RecordKept(log: seq<Event>, e: Event, activity: map<nat, Activity>, r: nat)
    requires InOrder(log + [e]) && RecordOk(log, activity, r)
    ensures RecordOk(log + [e], Next(activity, e), r)
  {
    FoldKeeps(log, e, r, Looked(activity, r));
    var more := log + [e];
    assert more[|log|] == e;
    if ActedIn(log, r) { var i :| 0 <= i < |log| && Acts(log[i], r); assert Acts(more[i], r); }
    if ActedIn(more, r) { var i :| 0 <= i < |more| && Acts(more[i], r); if i < |log| { assert Acts(log[i], r); } }
  }

  /**
   activity_by_recipient: one pass over the events in order of creation, the first open and the last download
   winning.
   */
  method ActivityByRecipient(log: seq<Event>) returns (activity: map<nat, Activity>)
    requires InOrder(log)
    ensures forall r :: RecordOk(log, activity, r)
  {
    activity := map[];
    for i := 0 to |log|
      invariant forall r :: RecordOk(log[..i], activity, r)
    {
      var e := log[i];
      ghost var next, more := Next(activity, e), log[..i + 1];
      assert more == log[..i] + [e];
      forall r ensures RecordOk(more, next, r) { RecordKept(log[..i], e, activity, r); }
      if e.recipient.Some? && e.kind != OtherKind {
        var entry := Looked(activity, e.recipient.value);
        activity := activity[e.recipient.value := Folded(entry, e)];
      }
      assert activity == next;
    }
    assert log[..|log|] == log;
  }

  // --- The direct query ---

  function Shown(f: FileId): string {
    if f.Text? then f.id else "None"
  }

  /** files_downloaded_by: every payload that has the key at all, null shown as Python shows it. */
  function FilesDownloadedBy(log: seq<Event>, r: nat): set<string> {
    set e <- log | Downloads(e, r) && e.file != Absent :: Shown(e.file)
  }

  predicate HasFile(log: seq<Event>, r: nat, f: FileId) {
    exists e <- log :: Downloads(e, r) && e.file == f
  }

  /**
   The record's files and the query's are the same if and only if no download carries an
   empty id, and none a null id unless a file is really called "None".
   */
  lemma FoldAgreesWithQuery(log: seq<Event>, r: nat)
    ensures NamedFiles(log, r) == FilesDownloadedBy(log, r)
            <==> !HasFile(log, r, Text("")) && (HasFile(log, r, JsonNull) ==> HasFile(log, r, Text("None")))
  {
    var named, queried := NamedFiles(log, r), FilesDownloadedBy(log, r);
    forall f | f in named ensures f in queried && HasFile(log, r, Text(f)) {
      var e :| e in log && Downloads(e, r) && e.file.Text? && e.file.id != "" && e.file.id == f;
      assert Shown(e.file) == f;
    }
    if HasFile(log, r, Text("")) {
      var e :| e in log && Downloads(e, r) && e.file == Text("");
      assert Shown(e.file) in queried && "" !in named;
    }
    if HasFile(log, r, JsonNull) {
      var e :| e in log && Downloads(e, r) && e.file == JsonNull;
      assert Shown(e.file) in queried;
    }
    if !HasFile(log, r, Text("")) && (HasFile(log, r, JsonNull) ==> HasFile(log, r, Text("None"))) {
      forall f | f in queried ensures f in named {
        var e :| e in log && Downloads(e, r) && e.file != Absent && Shown(e.file) == f;
        if e.file == JsonNull {
          var d :| d in log && Downloads(d, r) && d.file == Text("None");
          assert d.file.id in named;
        } else {
          assert e.file.id in named;
        }
      }
    }
  }

  /** A recipient has one activity only. */
  lemma ActivityIsUnique(log: seq<Event>, r: nat, a: Activity, b: Activity)
    requires IsActivity(log, r, a) && IsActivity(log, r, b)
    ensures a == b
  {
    if a.openedAt.Some? && b.openedAt.Some? {
      var i :| 0 <= i < |log| && Opens(log[i], r) && log[i].at == a.openedAt.value;
      var j :| 0 <= j < |log| && Opens(log[j], r) && log[j].at == b.openedAt.value;
    }
    if a.downloadedAt.Some? && b.downloadedAt.Some? {
      var i :| 0 <= i < |log| && Downloads(log[i], r) && log[i].at == a.downloadedAt.value;
      var j :| 0 <= j < |log| && Downloads(log[j], r) && log[j].at == b.downloadedAt.value;
    }
  }
}
