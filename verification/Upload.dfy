/**
 * Uploads into a remote file chooser: a one-time key, files in order, exact byte totals, and a timeout
 * on whatever waits. An upload suspends twice, while its body streams and while the browser is handed
 * the files; both continuations are steps of their own.
 */
module UploadModel {
  import opened Protocol

  type Key = string

  datatype Limits = Limits(maxFiles: nat, maxFileBytes: nat, maxTotalBytes: nat)

  datatype Metadata = Metadata(index: int, count: int, size: int, totalSize: int, name: string)

  datatype Error = BadRequest | NotFound | Conflict | TooLarge

  /** A stored file and the number of bytes that came through the limiter. */
  datatype File = File(index: nat, bytes: nat)

  datatype Flight = Streaming(index: nat, size: nat) | Applying

  /**
   * A chooser, and from its first file on the batch made of it. `flight` is the suspended upload;
   * `issued` is history: every list of files handed to the browser for this record.
   */
  datatype Record = Record(
    key: Key,
    tab: string,
    source: string,
    session: string,
    multiple: bool,
    dead: bool,
    armed: bool,
    isBatch: bool,
    count: nat,
    totalSize: nat,
    receivedSize: nat,
    nextIndex: nat,
    files: seq<File>,
    busy: bool,
    flight: Option<Flight>,
    issued: seq<seq<File>>)

  datatype Manager = Manager(records: map<nat, Record>, pending: map<Key, nat>, batches: map<Key, nat>, nextId: nat, closed: bool)

  const INITIAL := Manager(map[], map[], map[], 0, false)

  // ---- Checks ----

  predicate IsKeyChar(c: char) {
    'A' <= c <= 'Z' || 'a' <= c <= 'z' || '0' <= c <= '9' || c == '_' || c == '-'
  }

  predicate KeyOk(key: Key) {
    key != "" && forall i :: 0 <= i < |key| ==> IsKeyChar(key[i])
  }

  function Validate(m: Metadata, l: Limits): (e: Option<Error>)
  {
    if m.count < 1 || m.count > l.maxFiles then Some(TooLarge)
    else if m.index < 0 || m.index >= m.count then Some(BadRequest)
    else if m.size < 0 || m.size > l.maxFileBytes then Some(TooLarge)
    else if m.totalSize < m.size || m.totalSize > l.maxTotalBytes then Some(TooLarge)
    else None
  }

  const MAX_FILE_COMPONENT_BYTES := 180

  predicate IsUnsafe(c: char) {
    c < ' ' || c == '\U{7F}' || c == '/' || c == '\\'
  }

  function Cleaned(name: string): (r: string)
    ensures |r| == |name| && forall i :: 0 <= i < |r| ==> !IsUnsafe(r[i])
  {
    seq(|name|, i requires 0 <= i < |name| => if IsUnsafe(name[i]) then '_' else name[i])
  }

  /** Encoded length; `width` is the number of bytes of one character. */
  function Width(width: char -> nat, s: string): nat {
    if s == "" then 0 else Width(width, s[..|s| - 1]) + width(s[|s| - 1])
  }

  /** The longest prefix after `taken` characters whose encoding fits. */
  function Fitting(width: char -> nat, s: string, taken: nat): (n: nat)
    requires taken <= |s|
    ensures taken <= n <= |s|
    decreases |s| - taken
  {
    if taken == |s| || Width(width, s[..taken]) + width(s[taken]) > MAX_FILE_COMPONENT_BYTES then taken
    else Fitting(width, s, taken + 1)
  }

  function SanitizedName(width: char -> nat, name: string): string {
    var cleaned := Cleaned(name);
    var truncated := cleaned[..Fitting(width, cleaned, 0)];
    if truncated == "" || truncated == "." || truncated == ".." then "upload" else truncated
  }

  /** What the file-component assertion demands. */
  predicate IsComponent(s: string) {
    s != "" && s != "." && s != ".." && '/' !in s && '\\' !in s
  }

  lemma {:induction false} FittingFits(width: char -> nat, s: string, taken: nat)
    requires taken <= |s| && Width(width, s[..taken]) <= MAX_FILE_COMPONENT_BYTES
    ensures Width(width, s[..Fitting(width, s, taken)]) <= MAX_FILE_COMPONENT_BYTES
    ensures Fitting(width, s, taken) < |s| ==>
      Width(width, s[..Fitting(width, s, taken) + 1]) > MAX_FILE_COMPONENT_BYTES
    decreases |s| - taken
  {
    if taken < |s| {
      assert s[..taken + 1][..taken] == s[..taken];
      if Width(width, s[..taken]) + width(s[taken]) <= MAX_FILE_COMPONENT_BYTES {
        FittingFits(width, s, taken + 1);
      }
    }
  }

  /** Whatever the client calls its file, the stored name is one path component of bounded length. */
  lemma SanitizedIsComponent(width: char -> nat, name: string)
    requires Width(width, "upload") <= MAX_FILE_COMPONENT_BYTES
    ensures IsComponent(SanitizedName(width, name))
    ensures Width(width, SanitizedName(width, name)) <= MAX_FILE_COMPONENT_BYTES
  {
    FittingFits(width, Cleaned(name), 0);
  }

  /** A name that is already a clean, short component is kept. */
  lemma CleanNameIsKept(width: char -> nat, name: string)
    requires IsComponent(name) && forall i :: 0 <= i < |name| ==> !IsUnsafe(name[i])
    requires Width(width, name) <= MAX_FILE_COMPONENT_BYTES
    ensures SanitizedName(width, name) == name
  {
    assert Cleaned(name) == name;
    FittingFits(width, name, 0);
    var n := Fitting(width, name, 0);
    if n < |name| {
      PrefixIsNarrower(width, name, n + 1);
    }
    assert name[..|name|] == name;
  }

  lemma {:induction false} PrefixIsNarrower(width: char -> nat, s: string, n: nat)
    requires n <= |s|
    ensures Width(width, s[..n]) <= Width(width, s)
    decreases |s|
  {
    if n < |s| {
      PrefixIsNarrower(width, s[..|s| - 1], n);
      assert s[..|s| - 1][..n] == s[..n];
    } else {
      assert s[..n] == s;
    }
  }

  function Total(chunks: seq<nat>): nat {
    if chunks == [] then 0 else Total(chunks[..|chunks| - 1]) + chunks[|chunks| - 1]
  }

  // ---- One record ----

  function Bytes(files: seq<File>): nat {
    if files == [] then 0 else Bytes(files[..|files| - 1]) + files[|files| - 1].bytes
  }

  predicate InOrder(files: seq<File>) {
    forall i :: 0 <= i < |files| ==> files[i].index == i
  }

  function Died(r: Record): Record {
    r.(dead := true, armed := false)
  }

  /** What holds of every record between steps, dead or alive. */
  predicate RecordInv(r: Record) {
    && (r.dead ==> !r.armed)
    && |r.issued| <= 1
    && (r.issued != [] ==> r.isBatch && r.issued[0] == r.files && |r.files| == r.count && Bytes(r.files) == r.totalSize
                           && (r.flight == Some(Applying) || (r.flight.None? && r.dead)))
    && (r.flight == Some(Applying) ==> r.issued != [])
    && (!r.isBatch ==> r.flight.None? && !r.busy && (r.dead || r.armed))
    && (r.isBatch ==> BatchInv(r))
  }

  predicate BatchInv(r: Record) {
    && 1 <= r.count && r.nextIndex <= r.count && InOrder(r.files)
    && r.receivedSize == Bytes(r.files) <= r.totalSize
    && (r.flight.Some? && r.flight.value.Streaming? ==>
          var f := r.flight.value;
          r.nextIndex == f.index + 1 && |r.files| == f.index && r.receivedSize + f.size <= r.totalSize && r.busy && !r.armed)
    && (r.flight == Some(Applying) ==> |r.files| == r.nextIndex == r.count && !r.busy && !r.armed)
    && (!r.dead && r.flight.None? ==> |r.files| == r.nextIndex < r.count && !r.busy && r.armed)
  }

  // ---- Steps ----

  function Put(s: Manager, id: nat, r: Record): Manager {
    s.(records := s.records[id := r])
  }

  /** The records an event goes over: the values of both maps. */
  function Listed(s: Manager): set<nat> {
    (set k | k in s.pending :: s.pending[k]) + (set k | k in s.batches :: s.batches[k])
  }

  function AbandonOne(s: Manager, id: nat): Manager {
    if id !in s.records || s.records[id].dead then s
    else
      var key := s.records[id].key;
      Put(s, id, Died(s.records[id])).(pending := s.pending - {key}, batches := s.batches - {key})
  }

  function KeysOf(s: Manager, ids: set<nat>): set<Key> {
    set id | id in ids && id in s.records && !s.records[id].dead :: s.records[id].key
  }

  function AbandonAll(s: Manager, ids: set<nat>): Manager {
    s.(records := map id | id in s.records :: if id in ids && !s.records[id].dead then Died(s.records[id]) else s.records[id],
       pending := s.pending - KeysOf(s, ids),
       batches := s.batches - KeysOf(s, ids))
  }

  /** `key` is what minting a key yields, if it succeeds at all. */
  function OpenChooser(s: Manager, key: Option<Key>, tab: string, session: string, multiple: bool, published: bool): Manager {
    if s.closed then s
    else
      var t := AbandonAll(s, Listed(s));
      if key.None? then t
      else
        var r := Record(key.value, tab, tab, session, multiple, !published, published, false, 0, 0, 0, 0, [], false, None, []);
        t.(records := t.records[t.nextId := r], nextId := t.nextId + 1,
           pending := if published then t.pending[key.value := t.nextId] else t.pending - {key.value},
           batches := if published then t.batches else t.batches - {key.value})
  }

  predicate Mintable(s: Manager, key: Key) {
    var t := AbandonAll(s, Listed(s)); KeyOk(key) && key !in t.pending && key !in t.batches
  }

  /** The chooser becomes a batch. */
  function Begun(r: Record, m: Metadata): Record
    requires m.count >= 0 && m.totalSize >= 0
  {
    r.(armed := false, isBatch := true, count := m.count, totalSize := m.totalSize, receivedSize := 0, nextIndex := 0,
       files := [], busy := false)
  }

  function Received(r: Record, m: Metadata): Record
    requires m.index >= 0 && m.size >= 0
  {
    r.(busy := true, armed := false, nextIndex := r.nextIndex + 1, flight := Some(Streaming(m.index, m.size)))
  }

  /** Why a batch refuses the file. */
  function Refusal(r: Record, m: Metadata): Option<Error> {
    if r.dead then Some(NotFound)
    else if r.busy || m.index != r.nextIndex then Some(Conflict)
    else if m.count != r.count || m.totalSize != r.totalSize then Some(BadRequest)
    else if r.receivedSize + m.size > r.totalSize then Some(TooLarge)
    else None
  }

  /** `upload` up to its first await: the new state and the error, if it throws. */
  function StartUpload(l: Limits, s: Manager, key: Key, m: Metadata): (Manager, Option<Error>) {
    if s.closed || !KeyOk(key) then (s, Some(NotFound))
    else if Validate(m, l).Some? then (s, Validate(m, l))
    else if m.index == 0 then
      if key in s.batches then (s, Some(Conflict))
      else if key !in s.pending || s.pending[key] !in s.records then (s, Some(NotFound))
      else
        var id := s.pending[key];
        if !s.records[id].multiple && m.count != 1 then (s, Some(BadRequest))
        else
          var t := Put(s, id, Begun(s.records[id], m)).(pending := s.pending - {key}, batches := s.batches[key := id]);
          Continue(t, id, m)
    else if key !in s.batches || s.batches[key] !in s.records then (s, Some(NotFound))
    else Continue(s, s.batches[key], m)
  }

  function Continue(s: Manager, id: nat, m: Metadata): (Manager, Option<Error>)
    requires id in s.records && m.index >= 0 && m.size >= 0
  {
    var e := Refusal(s.records[id], m);
    if e.Some? then (s, e) else (Put(s, id, Received(s.records[id], m)), None)
  }

  function Stored(r: Record, f: File): Record {
    r.(files := r.files + [f], receivedSize := r.receivedSize + f.bytes, busy := false)
  }

  /**
   * The body has streamed, or the pipeline failed. `chunks` are the sizes that reached the limiter, which
   * fails the pipeline as soon as they exceed the declared size. The second result: the upload throws.
   */
  function AfterStream(r: Record, chunks: seq<nat>, io: bool): (Record, bool)
    requires r.flight.Some? && r.flight.value.Streaming?
  {
    var f := r.flight.value;
    var landed := r.(flight := None);
    if !io || Total(chunks) != f.size || r.dead then (landed, true)
    else
      var stored := Stored(landed, File(f.index, f.size));
      if stored.nextIndex < stored.count then (stored.(armed := true), false)
      else if stored.receivedSize != stored.totalSize then (stored, true)
      else (stored.(flight := Some(Applying), issued := stored.issued + [stored.files]), false)
  }

  function FinishStream(s: Manager, id: nat, chunks: seq<nat>, io: bool): Manager
    requires id in s.records && s.records[id].flight.Some? && s.records[id].flight.value.Streaming?
  {
    var (r, threw) := AfterStream(s.records[id], chunks, io);
    if threw then AbandonOne(Put(s, id, r), id) else Put(s, id, r)
  }

  /** The browser took the files, or refused them. */
  function FinishApply(s: Manager, id: nat, ok: bool): Manager
    requires id in s.records && s.records[id].flight == Some(Applying)
  {
    var r := s.records[id].(flight := None);
    if ok then Put(s, id, Died(r)).(batches := s.batches - {r.key}) else AbandonOne(Put(s, id, r), id)
  }

  datatype Step =
    | Open(minted: Option<Key>, tab: string, session: string, multiple: bool, published: bool)
    | Upload(key: Key, meta: Metadata)
    | Streamed(id: nat, chunks: seq<nat>, io: bool)
    | Applied(id: nat, ok: bool)
    | TimerFires(id: nat)
    | Navigated(tab: string)
    | Detached(target: string, session: string)
    | Close

  predicate Enabled(s: Manager, step: Step) {
    match step
    case Open(key, _, _, _, _) => key.Some? ==> Mintable(s, key.value)
    case Streamed(id, _, _) => id in s.records && s.records[id].flight.Some? && s.records[id].flight.value.Streaming?
    case Applied(id, _) => id in s.records && s.records[id].flight == Some(Applying)
    case TimerFires(id) => id in s.records && s.records[id].armed
    case _ => true
  }

  function Hit(s: Manager, step: Step): set<nat> {
    set id | id in Listed(s) && id in s.records &&
      (step.Close?
       || (step.Navigated? && s.records[id].tab == step.tab)
       || (step.Detached? && (s.records[id].source == step.target || s.records[id].session == step.session
                              || s.records[id].tab == step.target)))
      :: id
  }

  function Apply(l: Limits, s: Manager, step: Step): Manager
    requires Enabled(s, step)
  {
    match step
    case Open(key, tab, session, multiple, published) => OpenChooser(s, key, tab, session, multiple, published)
    case Upload(key, meta) => StartUpload(l, s, key, meta).0
    case Streamed(id, chunks, io) => FinishStream(s, id, chunks, io)
    case Applied(id, ok) => FinishApply(s, id, ok)
    case TimerFires(id) => AbandonOne(Put(s, id, s.records[id].(armed := false)), id)
    case Navigated(_) => if s.closed then s else AbandonAll(s, Hit(s, step))
    case Detached(_, _) => AbandonAll(s, Hit(s, step))
    case Close => if s.closed then s else AbandonAll(s, Hit(s, step)).(closed := true)
  }

  predicate Possible(l: Limits, s: Manager, run: seq<Step>)
    decreases |run|
  {
    run == [] || (Enabled(s, run[0]) && Possible(l, Apply(l, s, run[0]), run[1..]))
  }

  function After(l: Limits, s: Manager, run: seq<Step>): Manager
    requires Possible(l, s, run)
    decreases |run|
  {
    if run == [] then s else After(l, Apply(l, s, run[0]), run[1..])
  }

  // ---- Every record, in every run ----

  /** Map entries name records that carry the key, are alive, and are of the map's kind. */
  ghost predicate Inv(s: Manager) {
    && (forall id :: id in s.records ==> id < s.nextId && RecordInv(s.records[id]))
    && (forall k :: k in s.pending ==>
          s.pending[k] in s.records && var r := s.records[s.pending[k]]; r.key == k && !r.dead && !r.isBatch)
    && (forall k :: k in s.batches ==>
          s.batches[k] in s.records && var r := s.records[s.batches[k]]; r.key == k && !r.dead && r.isBatch)
  }

  lemma DyingKeepsInv(r: Record)
    requires RecordInv(r)
    ensures RecordInv(Died(r))
  {}

  lemma AbandonAllKeepsInv(s: Manager, ids: set<nat>)
    requires Inv(s)
    ensures Inv(AbandonAll(s, ids))
  {
    forall id | id in s.records
      ensures RecordInv(AbandonAll(s, ids).records[id])
    {
      DyingKeepsInv(s.records[id]);
    }
  }

  /** Between the two halves of a step one record may be unfit to stay alive; abandoning it mends that. */
  lemma AbandonOneKeepsInv(s: Manager, id: nat, r: Record)
    requires Inv(s) && id in s.records && r.key == s.records[id].key && r.isBatch == s.records[id].isBatch
    requires r.dead == s.records[id].dead
    requires if r.dead then RecordInv(r) else RecordInv(Died(r))
    ensures Inv(AbandonOne(Put(s, id, r), id))
  {}

  lemma OpenKeepsInv(s: Manager, key: Option<Key>, tab: string, session: string, multiple: bool, published: bool)
    requires Inv(s) && (key.Some? ==> Mintable(s, key.value))
    ensures Inv(OpenChooser(s, key, tab, session, multiple, published))
  {
    AbandonAllKeepsInv(s, Listed(s));
  }

  /** The next file goes on the list; nothing has been issued yet. */
  lemma StoredFiles(r: Record)
    requires RecordInv(r) && r.flight.Some? && r.flight.value.Streaming?
    ensures var f := r.flight.value; var t := Stored(r.(flight := None), File(f.index, f.size));
      && InOrder(t.files) && t.receivedSize == Bytes(t.files) <= t.totalSize
      && |t.files| == t.nextIndex <= t.count && 1 <= t.count && r.issued == [] && r.isBatch
  {
    var f := r.flight.value;
    assert (r.files + [File(f.index, f.size)])[..|r.files|] == r.files;
  }

  lemma LandedDies(r: Record)
    requires RecordInv(r) && r.flight.Some? && r.flight.value.Streaming?
    ensures RecordInv(Died(r.(flight := None))) && (r.dead ==> RecordInv(r.(flight := None)))
  {}

  lemma StreamedRecord(r: Record, chunks: seq<nat>, io: bool)
    requires RecordInv(r) && r.flight.Some? && r.flight.value.Streaming?
    ensures var (t, threw) := AfterStream(r, chunks, io);
      && t.key == r.key && t.isBatch == r.isBatch && t.dead == r.dead
      && (!threw ==> RecordInv(t)) && (if t.dead then RecordInv(t) else RecordInv(Died(t)))
  {
    LandedDies(r);
    StoredFiles(r);
    var f := r.flight.value;
    var stored := Stored(r.(flight := None), File(f.index, f.size));
    assert BatchInv(Died(stored));
    var (t, threw) := AfterStream(r, chunks, io);
    if !threw { assert BatchInv(t); }
  }

  lemma PutKeepsInv(s: Manager, id: nat, r: Record)
    requires Inv(s) && id in s.records && RecordInv(r)
    requires r.key == s.records[id].key && r.isBatch == s.records[id].isBatch && r.dead == s.records[id].dead
    ensures Inv(Put(s, id, r))
  {}

  lemma StreamKeepsInv(s: Manager, id: nat, chunks: seq<nat>, io: bool)
    requires Inv(s) && id in s.records && s.records[id].flight.Some? && s.records[id].flight.value.Streaming?
    ensures Inv(FinishStream(s, id, chunks, io))
  {
    StreamedRecord(s.records[id], chunks, io);
    var (r, threw) := AfterStream(s.records[id], chunks, io);
    if threw { AbandonOneKeepsInv(s, id, r); } else { PutKeepsInv(s, id, r); }
  }

  lemma ContinueKeepsInv(s: Manager, id: nat, m: Metadata)
    requires Inv(s) && id in s.records && s.records[id].isBatch && m.index >= 0 && m.size >= 0 && m.index < m.count
    ensures Inv(Continue(s, id, m).0)
    ensures Refusal(s.records[id], m).None? ==> s.records[id].flight.None?
  {}

  lemma BegunContinues(s: Manager, key: Key, id: nat, m: Metadata, l: Limits)
    requires Inv(s) && key in s.pending && s.pending[key] == id && key !in s.batches && Validate(m, l).None? && m.index == 0
    ensures var r := Begun(s.records[id], m);
      var t := Put(s, id, r).(pending := s.pending - {key}, batches := s.batches[key := id]);
      Refusal(r, m).None? && Inv(Continue(t, id, m).0) && Continue(t, id, m).1.None?
  {}

  lemma UploadKeepsInv(l: Limits, s: Manager, key: Key, m: Metadata)
    requires Inv(s)
    ensures Inv(StartUpload(l, s, key, m).0)
  {
    if !s.closed && KeyOk(key) && Validate(m, l).None? {
      if m.index == 0 {
        if key !in s.batches && key in s.pending {
          BegunContinues(s, key, s.pending[key], m, l);
        }
      } else if key in s.batches {
        ContinueKeepsInv(s, s.batches[key], m);
      }
    }
  }

  lemma ApplyDoneKeepsInv(s: Manager, id: nat, ok: bool)
    requires Inv(s) && id in s.records && s.records[id].flight == Some(Applying)
    ensures Inv(FinishApply(s, id, ok))
  {
    var r := s.records[id].(flight := None);
    assert RecordInv(Died(r));
    if !ok { AbandonOneKeepsInv(s, id, r); }
  }

  lemma StepKeepsInv(l: Limits, s: Manager, step: Step)
    requires Inv(s) && Enabled(s, step)
    ensures Inv(Apply(l, s, step))
  {
    match step
    case Open(key, tab, session, multiple, published) => OpenKeepsInv(s, key, tab, session, multiple, published);
    case Upload(key, meta) => UploadKeepsInv(l, s, key, meta);
    case Streamed(id, chunks, io) => StreamKeepsInv(s, id, chunks, io);
    case Applied(id, ok) => ApplyDoneKeepsInv(s, id, ok);
    case TimerFires(id) =>
      DyingKeepsInv(s.records[id]);
      AbandonOneKeepsInv(s, id, s.records[id].(armed := false));
    case _ => AbandonAllKeepsInv(s, Hit(s, step));
  }

  lemma {:induction false} RunKeepsInv(l: Limits, s: Manager, run: seq<Step>)
    requires Inv(s) && Possible(l, s, run)
    ensures Inv(After(l, s, run))
    decreases |run|
  {
    if run != [] {
      StepKeepsInv(l, s, run[0]);
      RunKeepsInv(l, Apply(l, s, run[0]), run[1..]);
    }
  }

  /**
   * For every run, with any timing of expiry, navigation and concurrent requests: the browser is handed
   * the files of a record at most once, all of them, in index order, with bytes that sum to the total;
   * and a live record has its timeout armed unless a body or the hand-over is under way.
   */
  lemma UploadsApplyOnceAndWhole(l: Limits, run: seq<Step>, id: nat)
    requires Possible(l, INITIAL, run) && id in After(l, INITIAL, run).records
    ensures var r := After(l, INITIAL, run).records[id];
      && |r.issued| <= 1
      && (r.issued != [] ==> |r.issued[0]| == r.count && InOrder(r.issued[0]) && Bytes(r.issued[0]) == r.totalSize)
      && (!r.dead && r.flight.None? ==> r.armed)
      && (r.dead ==> !r.armed)
  {
    RunKeepsInv(l, INITIAL, run);
  }

  lemma UploadIssuesNothing(l: Limits, s: Manager, key: Key, m: Metadata, id: nat)
    requires id in s.records
    ensures id in StartUpload(l, s, key, m).0.records
    ensures StartUpload(l, s, key, m).0.records[id].issued == s.records[id].issued
  {}

  lemma OpenIssuesNothing(s: Manager, minted: Option<Key>, tab: string, session: string, multiple: bool, published: bool, id: nat)
    requires Inv(s) && id in s.records
    ensures var t := OpenChooser(s, minted, tab, session, multiple, published);
      id in t.records && t.records[id].issued == s.records[id].issued
  {
    assert id != s.nextId;
  }

  lemma StreamIssues(s: Manager, stream: nat, chunks: seq<nat>, io: bool, id: nat)
    requires stream in s.records && s.records[stream].flight.Some? && s.records[stream].flight.value.Streaming?
    requires id in s.records
    ensures var t := FinishStream(s, stream, chunks, io);
      id in t.records && (t.records[id].issued != s.records[id].issued ==> stream == id && !s.records[id].dead)
  {}

  lemma ApplyIssuesNothing(s: Manager, done: nat, ok: bool, id: nat)
    requires done in s.records && s.records[done].flight == Some(Applying) && id in s.records
    ensures var t := FinishApply(s, done, ok); id in t.records && t.records[id].issued == s.records[id].issued
  {}

  lemma AbandonIssuesNothing(s: Manager, ids: set<nat>, id: nat)
    requires id in s.records
    ensures id in AbandonAll(s, ids).records && AbandonAll(s, ids).records[id].issued == s.records[id].issued
  {}

  /** The files are handed over only by a body that finished on a live record. */
  lemma HandsOverOnlyWhileLive(l: Limits, s: Manager, step: Step, id: nat)
    requires Inv(s) && Enabled(s, step) && id in s.records
    ensures id in Apply(l, s, step).records
    ensures Apply(l, s, step).records[id].issued != s.records[id].issued ==> step.Streamed? && step.id == id && !s.records[id].dead
  {
    match step
    case Open(minted, tab, session, multiple, published) => OpenIssuesNothing(s, minted, tab, session, multiple, published, id);
    case Upload(key, meta) => UploadIssuesNothing(l, s, key, meta, id);
    case Streamed(stream, chunks, io) => StreamIssues(s, stream, chunks, io, id);
    case Applied(other, ok) => ApplyIssuesNothing(s, other, ok, id);
    case TimerFires(other) =>
    case _ => AbandonIssuesNothing(s, Hit(s, step), id);
  }

  // ---- At most one live record ----

  ghost predicate OneListed(s: Manager) {
    forall a, b :: a in Listed(s) && b in Listed(s) ==> a == b
  }

  lemma AbandonAllEmpties(s: Manager)
    requires Inv(s)
    ensures var t := AbandonAll(s, Listed(s)); t.pending == map[] && t.batches == map[] && Listed(t) == {}
  {
    var t := AbandonAll(s, Listed(s));
    forall k | k in s.pending
      ensures k !in t.pending
    {
      assert s.pending[k] in Listed(s);
    }
    forall k | k in s.batches
      ensures k !in t.batches
    {
      assert s.batches[k] in Listed(s);
    }
  }

  lemma OpenListsOne(s: Manager, minted: Option<Key>, tab: string, session: string, multiple: bool, published: bool)
    requires Inv(s) && OneListed(s)
    ensures OneListed(OpenChooser(s, minted, tab, session, multiple, published))
  {
    AbandonAllEmpties(s);
  }

  lemma StepListsOne(l: Limits, s: Manager, step: Step)
    requires Inv(s) && Enabled(s, step) && OneListed(s)
    ensures OneListed(Apply(l, s, step))
  {
    if step.Open? {
      OpenListsOne(s, step.minted, step.tab, step.session, step.multiple, step.published);
    } else {
      ListedShrinks(l, s, step);
    }
  }

  lemma FewerEntries(s: Manager, t: Manager)
    requires forall k :: k in t.pending ==> k in s.pending && t.pending[k] == s.pending[k]
    requires forall k :: k in t.batches ==> k in s.batches && t.batches[k] == s.batches[k]
    ensures Listed(t) <= Listed(s)
  {}

  lemma UploadListed(l: Limits, s: Manager, key: Key, m: Metadata)
    ensures Listed(StartUpload(l, s, key, m).0) <= Listed(s)
  {
    var t := StartUpload(l, s, key, m).0;
    if t.batches != s.batches || t.pending != s.pending {
      assert key in s.pending && t.pending == s.pending - {key} && t.batches == s.batches[key := s.pending[key]];
    } else {
      FewerEntries(s, t);
    }
  }

  lemma ListedShrinks(l: Limits, s: Manager, step: Step)
    requires Enabled(s, step) && !step.Open?
    ensures Listed(Apply(l, s, step)) <= Listed(s)
  {
    if step.Upload? {
      UploadListed(l, s, step.key, step.meta);
    } else {
      FewerEntries(s, Apply(l, s, step));
    }
  }

  /** A live record is in the map of its kind, under its key. */
  predicate InItsMap(s: Manager, id: nat)
    requires id in s.records
  {
    var r := s.records[id];
    if r.isBatch then r.key in s.batches && s.batches[r.key] == id else r.key in s.pending && s.pending[r.key] == id
  }

  ghost predicate LiveListed(s: Manager) {
    forall id :: id in s.records && !s.records[id].dead ==> InItsMap(s, id)
  }

  ghost predicate AloneAlive(s: Manager) {
    forall a, b :: a in s.records && b in s.records && !s.records[a].dead && !s.records[b].dead ==> a == b
  }

  /** No record whose hand-over is out shares the key of another that is alive. */
  ghost predicate NoClash(s: Manager) {
    forall a, b :: a in s.records && b in s.records && a != b && s.records[a].flight == Some(Applying) && !s.records[b].dead ==>
      s.records[a].key != s.records[b].key
  }

  ghost predicate Safe(s: Manager) {
    Inv(s) && OneListed(s) && LiveListed(s) && NoClash(s)
  }

  /** A published chooser gets no key that a hand-over still under way carries. */
  predicate SafeKey(s: Manager, step: Step) {
    step.Open? && step.minted.Some? && step.published && !s.closed ==>
      forall id :: id in s.records && s.records[id].flight == Some(Applying) ==> s.records[id].key != step.minted.value
  }

  ghost predicate SafeKeys(l: Limits, s: Manager, run: seq<Step>)
    requires Possible(l, s, run)
    decreases |run|
  {
    run != [] ==> SafeKey(s, run[0]) && SafeKeys(l, Apply(l, s, run[0]), run[1..])
  }

  lemma ListedIsAlone(s: Manager)
    requires LiveListed(s) && OneListed(s)
    ensures AloneAlive(s)
  {
    forall a, b | a in s.records && b in s.records && !s.records[a].dead && !s.records[b].dead
      ensures a == b
    {
      assert InItsMap(s, a) && InItsMap(s, b);
      assert a in Listed(s) && b in Listed(s);
    }
  }

  lemma AbandonAllKeepsSafe(s: Manager, ids: set<nat>)
    requires LiveListed(s) && AloneAlive(s) && NoClash(s)
    ensures var t := AbandonAll(s, ids); LiveListed(t) && NoClash(t)
  {
    var t := AbandonAll(s, ids);
    forall id | id in t.records && !t.records[id].dead
      ensures InItsMap(t, id)
    {
      assert InItsMap(s, id);
    }
  }

  lemma NewListed(t: Manager, r: Record)
    requires Inv(t) && LiveListed(t) && NoClash(t) && Listed(t) == {} && !r.isBatch && r.flight.None?
    requires !r.dead ==> forall id :: id in t.records && t.records[id].flight == Some(Applying) ==> t.records[id].key != r.key
    ensures var u := t.(records := t.records[t.nextId := r], nextId := t.nextId + 1,
                        pending := if r.dead then t.pending - {r.key} else t.pending[r.key := t.nextId],
                        batches := if r.dead then t.batches - {r.key} else t.batches);
      LiveListed(u) && NoClash(u)
  {
    forall id | id in t.records
      ensures t.records[id].dead
    {
      assert t.records[id].dead || (InItsMap(t, id) && id in Listed(t));
    }
  }

  lemma OpenKeepsSafe(s: Manager, minted: Option<Key>, tab: string, session: string, multiple: bool, published: bool)
    requires Safe(s) && SafeKey(s, Open(minted, tab, session, multiple, published))
    ensures var t := OpenChooser(s, minted, tab, session, multiple, published); LiveListed(t) && NoClash(t)
  {
    if !s.closed {
      var t := AbandonAll(s, Listed(s));
      Emptied(s);
      if minted.Some? {
        var r := Record(minted.value, tab, tab, session, multiple, !published, published, false, 0, 0, 0, 0, [], false, None, []);
        NewListed(t, r);
      }
    }
  }

  lemma Emptied(s: Manager)
    requires Safe(s)
    ensures var t := AbandonAll(s, Listed(s));
      && Inv(t) && LiveListed(t) && NoClash(t) && Listed(t) == {} && t.nextId == s.nextId
      && t.records.Keys == s.records.Keys
      && (forall id :: id in t.records ==> t.records[id].flight == s.records[id].flight && t.records[id].key == s.records[id].key)
  {
    ListedIsAlone(s);
    AbandonAllKeepsSafe(s, Listed(s));
    AbandonAllKeepsInv(s, Listed(s));
    AbandonAllEmpties(s);
  }

  /** Changing a record in place keeps what the maps say; only a live record starts a hand-over. */
  lemma PutKeepsSafe(s: Manager, id: nat, r: Record)
    requires LiveListed(s) && AloneAlive(s) && NoClash(s) && id in s.records
    requires r.key == s.records[id].key && r.isBatch == s.records[id].isBatch && r.dead == s.records[id].dead
    requires r.flight == Some(Applying) ==> s.records[id].flight == Some(Applying) || !r.dead
    ensures LiveListed(Put(s, id, r)) && NoClash(Put(s, id, r))
  {
    var t := Put(s, id, r);
    forall other | other in t.records && !t.records[other].dead
      ensures InItsMap(t, other)
    {
      assert InItsMap(s, other);
    }
  }

  lemma AbandonKeepsSafe(s: Manager, id: nat, r: Record)
    requires LiveListed(s) && AloneAlive(s) && NoClash(s) && id in s.records
    requires r.key == s.records[id].key && r.isBatch == s.records[id].isBatch && r.dead == s.records[id].dead
    requires r.flight == Some(Applying) ==> s.records[id].flight == Some(Applying)
    ensures LiveListed(AbandonOne(Put(s, id, r), id)) && NoClash(AbandonOne(Put(s, id, r), id))
  {
    PutKeepsSafe(s, id, r);
    var t := AbandonOne(Put(s, id, r), id);
    if !r.dead { assert forall other :: other in t.records ==> t.records[other].dead; }
  }

  lemma UploadKeepsSafe(l: Limits, s: Manager, key: Key, m: Metadata)
    requires Inv(s) && LiveListed(s) && AloneAlive(s) && NoClash(s)
    ensures var t := StartUpload(l, s, key, m).0; LiveListed(t) && NoClash(t)
  {
    if !s.closed && KeyOk(key) && Validate(m, l).None? {
      if m.index == 0 {
        if key !in s.batches && key in s.pending {
          var id := s.pending[key];
          var t := StartUpload(l, s, key, m).0;
          assert forall other :: other in t.records && other != id ==> t.records[other].dead;
        }
      } else if key in s.batches && Refusal(s.records[s.batches[key]], m).None? {
        PutKeepsSafe(s, s.batches[key], Received(s.records[s.batches[key]], m));
      }
    }
  }

  lemma StreamKeepsSafe(s: Manager, id: nat, chunks: seq<nat>, io: bool)
    requires Inv(s) && LiveListed(s) && AloneAlive(s) && NoClash(s)
    requires id in s.records && s.records[id].flight.Some? && s.records[id].flight.value.Streaming?
    ensures LiveListed(FinishStream(s, id, chunks, io)) && NoClash(FinishStream(s, id, chunks, io))
  {
    var (r, threw) := AfterStream(s.records[id], chunks, io);
    if threw { AbandonKeepsSafe(s, id, r); } else { PutKeepsSafe(s, id, r); }
  }

  lemma ApplyDoneKeepsSafe(s: Manager, id: nat, ok: bool)
    requires Inv(s) && LiveListed(s) && AloneAlive(s) && NoClash(s) && id in s.records && s.records[id].flight == Some(Applying)
    ensures LiveListed(FinishApply(s, id, ok)) && NoClash(FinishApply(s, id, ok))
  {
    var r := s.records[id].(flight := None);
    if ok {
      var t := FinishApply(s, id, ok);
      forall other | other in t.records && !t.records[other].dead
        ensures InItsMap(t, other)
      {
        assert InItsMap(s, other);
      }
    } else {
      AbandonKeepsSafe(s, id, r);
    }
  }

  lemma StepKeepsSafe(l: Limits, s: Manager, step: Step)
    requires Safe(s) && Enabled(s, step) && SafeKey(s, step)
    ensures Safe(Apply(l, s, step))
  {
    StepKeepsInv(l, s, step);
    StepListsOne(l, s, step);
    ListedIsAlone(s);
    StepKeepsListed(l, s, step);
  }

  lemma StepKeepsListed(l: Limits, s: Manager, step: Step)
    requires Safe(s) && AloneAlive(s) && Enabled(s, step) && SafeKey(s, step)
    ensures LiveListed(Apply(l, s, step)) && NoClash(Apply(l, s, step))
  {
    match step
    case Open(minted, tab, session, multiple, published) => OpenKeepsSafe(s, minted, tab, session, multiple, published);
    case Upload(key, meta) => UploadKeepsSafe(l, s, key, meta);
    case Streamed(id, chunks, io) => StreamKeepsSafe(s, id, chunks, io);
    case Applied(id, ok) => ApplyDoneKeepsSafe(s, id, ok);
    case TimerFires(id) => AbandonKeepsSafe(s, id, s.records[id].(armed := false));
    case _ =>
      AbandonAllKeepsSafe(s, Hit(s, step));
      if step.Close? && !s.closed { ClosedKeepsListed(AbandonAll(s, Hit(s, step))); }
  }

  lemma ClosedKeepsListed(s: Manager)
    requires LiveListed(s) && NoClash(s)
    ensures LiveListed(s.(closed := true)) && NoClash(s.(closed := true))
  {
    forall id | id in s.records && !s.records[id].dead
      ensures InItsMap(s.(closed := true), id)
    {
      assert InItsMap(s, id);
    }
  }

  lemma {:induction false} RunKeepsSafe(l: Limits, s: Manager, run: seq<Step>)
    requires Safe(s) && Possible(l, s, run) && SafeKeys(l, s, run)
    ensures Safe(After(l, s, run))
    decreases |run|
  {
    if run != [] {
      StepKeepsSafe(l, s, run[0]);
      RunKeepsSafe(l, Apply(l, s, run[0]), run[1..]);
    }
  }

  /**
   * As long as no published chooser gets a key that a hand-over still under way carries, at most one
   * chooser or batch is alive, and it is in the map of its kind, where events find it.
   */
  lemma AtMostOneAlive(l: Limits, run: seq<Step>, a: nat, b: nat)
    requires Possible(l, INITIAL, run) && SafeKeys(l, INITIAL, run)
    requires a in After(l, INITIAL, run).records && b in After(l, INITIAL, run).records
    ensures var s := After(l, INITIAL, run);
      !s.records[a].dead && !s.records[b].dead ==> a == b && InItsMap(s, a)
  {
    RunKeepsSafe(l, INITIAL, run);
    ListedIsAlone(After(l, INITIAL, run));
  }

  /** A live record that no event finds any more. */
  ghost predicate Lost(s: Manager, id: nat) {
    id in s.records && !s.records[id].dead && id !in Listed(s)
  }

  ghost predicate NoneLost(s: Manager) {
    forall id :: id in s.records ==> !Lost(s, id)
  }

  /** The end of a hand-over takes another batch out of the maps exactly when the two share a key. */
  lemma AppliedLosesIff(l: Limits, s: Manager, id: nat, ok: bool, b: nat)
    requires Inv(s) && Enabled(s, Applied(id, ok))
    requires b in s.records && !s.records[b].dead && s.records[b].isBatch && InItsMap(s, b)
    ensures Lost(Apply(l, s, Applied(id, ok)), b) <==>
      (ok || !s.records[id].dead) && id != b && s.records[id].key == s.records[b].key
  {
    var t := Apply(l, s, Applied(id, ok));
    var key := s.records[b].key;
    if b != id {
      assert t.records[b] == s.records[b];
      assert b in Listed(t) <==> key in t.batches by {
        if b in Listed(t) {
          assert forall k :: k in t.pending ==> k in s.pending && t.pending[k] == s.pending[k] && s.pending[k] != b;
          var k :| k in t.batches && t.batches[k] == b;
          assert k in s.batches && s.batches[k] == b;
        }
        assert key in t.batches ==> t.batches[key] == b;
      }
    }
  }

  // ---- A reused key ----

  lemma Unfolds(l: Limits, s: Manager, step: Step, rest: seq<Step>)
    requires Enabled(s, step) && Possible(l, Apply(l, s, step), rest)
    ensures Possible(l, s, [step] + rest) && After(l, s, [step] + rest) == After(l, Apply(l, s, step), rest)
  {
    var run := [step] + rest;
    assert run[0] == step && run[1..] == rest;
  }

  /**
   * Minting checks a key against live records only. If a key is minted again while the hand-over of its
   * first batch is still out, that hand-over's end takes the second batch off the map: it stays alive,
   * and no event reaches it any more.
   */
  lemma ReusedKeyLosesBatch(l: Limits, tab: string) returns (run: seq<Step>)
    requires l.maxFiles >= 2
    ensures Possible(l, INITIAL, run)
    ensures var s := After(l, INITIAL, run);
      exists id :: id in s.records && !s.records[id].dead && id !in Listed(s)
  {
    var open := Open(Some("k"), tab, "s", true, true);
    var one, two := Metadata(0, 1, 0, 0, "f"), Metadata(0, 2, 0, 0, "f");
    var s1 := Apply(l, INITIAL, open);
    assert KeyOk("k");
    var s2 := Apply(l, s1, Upload("k", one));
    var s3 := Apply(l, s2, Streamed(0, [], true));
    assert s3.records[0].flight == Some(Applying);
    assert 0 in Listed(s3) by { assert "k" in s3.batches && s3.batches["k"] == 0; }
    assert AbandonAll(s3, Listed(s3)).batches == map[];
    assert AbandonAll(s3, Listed(s3)).pending == map[];
    var s4 := Apply(l, s3, open);
    assert s4.pending == map["k" := 1] && s4.batches == map[] && !s4.records[1].dead;
    assert s4.records[0].flight == Some(Applying);
    var s5 := Apply(l, s4, Upload("k", two));
    assert s5.batches == map["k" := 1] && s5.pending == map[];
    var s6 := Apply(l, s5, Applied(0, true));
    assert s6.batches == map[] && s6.pending == map[];
    assert 1 in s6.records && !s6.records[1].dead && 1 !in Listed(s6);
    Unfolds(l, s5, Applied(0, true), []);
    Unfolds(l, s4, Upload("k", two), [Applied(0, true)] + []);
    Unfolds(l, s3, open, [Upload("k", two)] + ([Applied(0, true)] + []));
    Unfolds(l, s2, Streamed(0, [], true), [open] + ([Upload("k", two)] + ([Applied(0, true)] + [])));
    Unfolds(l, s1, Upload("k", one), [Streamed(0, [], true)] + ([open] + ([Upload("k", two)] + ([Applied(0, true)] + []))));
    run := [open] + ([Upload("k", one)] + ([Streamed(0, [], true)] + ([open] + ([Upload("k", two)] + ([Applied(0, true)] + [])))));
    Unfolds(l, INITIAL, open,
      [Upload("k", one)] + ([Streamed(0, [], true)] + ([open] + ([Upload("k", two)] + ([Applied(0, true)] + [])))));
  }

  /** The key of a hand-over that is still out, given to a new chooser: one upload later the new batch is lost. */
  lemma UnsafeKeyLosesBatch(l: Limits, s: Manager, step: Step) returns (run: seq<Step>)
    requires Inv(s) && Enabled(s, step) && !SafeKey(s, step) && l.maxFiles >= 1
    ensures var t := Apply(l, s, step);
      Possible(l, t, run) && SafeKeys(l, t, run) && Lost(After(l, t, run), s.nextId)
  {
    var key := step.minted.value;
    var id :| id in s.records && s.records[id].flight == Some(Applying) && s.records[id].key == key;
    var one, done := Upload(key, Metadata(0, 1, 0, 0, "f")), Applied(id, true);
    var t := Apply(l, s, step);
    UnsafeOpens(l, s, step, id);
    UnsafeUploads(l, t, key, id, s.nextId);
    var u := Apply(l, t, one);
    UnsafeApplied(l, u, key, id, s.nextId);
    run := [one, done];
    assert run[1..] == [done] && [done][1..] == [];
    assert SafeKeys(l, Apply(l, u, done), []);
    assert SafeKeys(l, u, [done]);
    assert After(l, u, [done]) == Apply(l, u, done);
  }

  lemma UnsafeOpens(l: Limits, s: Manager, step: Step, id: nat)
    requires Inv(s) && Enabled(s, step) && step.Open? && step.minted.Some? && step.published && !s.closed
    requires id in s.records && s.records[id].flight == Some(Applying)
    ensures var t := Apply(l, s, step); var key := step.minted.value;
      && t.pending == map[key := s.nextId] && t.batches == map[] && !t.closed && KeyOk(key)
      && s.nextId in t.records && Fresh(t.records[s.nextId], key) && id != s.nextId
      && id in t.records && t.records[id].flight == Some(Applying) && t.records[id].key == s.records[id].key
  {
    AbandonAllEmpties(s);
  }

  /** A chooser before its first file. */
  predicate Fresh(r: Record, key: Key) {
    r.key == key && !r.dead && !r.isBatch && !r.busy && r.flight.None?
  }

  lemma UnsafeUploads(l: Limits, t: Manager, key: Key, id: nat, next: nat)
    requires l.maxFiles >= 1 && t.pending == map[key := next] && t.batches == map[] && !t.closed && KeyOk(key)
    requires next in t.records && Fresh(t.records[next], key) && id != next && id in t.records
    ensures var u := Apply(l, t, Upload(key, Metadata(0, 1, 0, 0, "f")));
      && u.pending == map[] && u.batches == map[key := next]
      && next in u.records && !u.records[next].dead && id in u.records && u.records[id] == t.records[id]
  {}

  lemma UnsafeApplied(l: Limits, u: Manager, key: Key, id: nat, next: nat)
    requires u.pending == map[] && u.batches == map[key := next] && id != next
    requires next in u.records && !u.records[next].dead
    requires id in u.records && u.records[id].flight == Some(Applying) && u.records[id].key == key
    ensures Lost(Apply(l, u, Applied(id, true)), next)
  {
    var v := Apply(l, u, Applied(id, true));
    assert v.batches == map[] && v.pending == map[];
  }

  /** The guard on the minted key is exact: with it every safe continuation keeps all live records listed, without it one does not. */
  lemma MintingIsSafeIff(l: Limits, s: Manager, step: Step)
    requires Safe(s) && Enabled(s, step) && l.maxFiles >= 1
    ensures var t := Apply(l, s, step);
      SafeKey(s, step) <==>
      forall run :: Possible(l, t, run) && SafeKeys(l, t, run) ==> NoneLost(After(l, t, run))
  {
    var t := Apply(l, s, step);
    if SafeKey(s, step) {
      StepKeepsSafe(l, s, step);
      forall run | Possible(l, t, run) && SafeKeys(l, t, run)
        ensures NoneLost(After(l, t, run))
      {
        RunKeepsSafe(l, t, run);
        var u := After(l, t, run);
        assert forall id :: id in u.records && !u.records[id].dead ==> InItsMap(u, id);
      }
    } else {
      var run := UnsafeKeyLosesBatch(l, s, step);
      assert Possible(l, t, run) && !NoneLost(After(l, t, run));
    }
  }

  // ---- Once per key ----

  /** No two records that share a key were both handed over. */
  ghost predicate HandedOnce(s: Manager) {
    forall a, b :: a in s.records && b in s.records && a != b && s.records[a].issued != [] && s.records[b].issued != [] ==>
      s.records[a].key != s.records[b].key
  }

  /** Nor does a live record carry the key of another that was. */
  ghost predicate NoneSpent(s: Manager) {
    forall a, b :: a in s.records && b in s.records && a != b && s.records[a].issued != [] && !s.records[b].dead ==>
      s.records[a].key != s.records[b].key
  }

  /** A published chooser gets no key under which files were handed over. */
  predicate UnspentKey(s: Manager, step: Step) {
    step.Open? && step.minted.Some? && step.published && !s.closed ==>
      forall id :: id in s.records && s.records[id].issued != [] ==> s.records[id].key != step.minted.value
  }

  ghost predicate UnspentKeys(l: Limits, s: Manager, run: seq<Step>)
    requires Possible(l, s, run)
    decreases |run|
  {
    run != [] ==> UnspentKey(s, run[0]) && UnspentKeys(l, Apply(l, s, run[0]), run[1..])
  }

  lemma UnspentIsSafe(s: Manager, step: Step)
    requires Inv(s) && UnspentKey(s, step)
    ensures SafeKey(s, step)
  {}

  ghost predicate NoRevival(s: Manager, t: Manager) {
    forall id :: id in s.records && id in t.records && !t.records[id].dead ==> !s.records[id].dead
  }

  lemma PutRevivesNone(s: Manager, id: nat, r: Record)
    requires id in s.records && (s.records[id].dead ==> r.dead)
    ensures NoRevival(s, Put(s, id, r)) && NoRevival(s, AbandonOne(Put(s, id, r), id))
  {}

  lemma UploadRevivesNone(l: Limits, s: Manager, key: Key, m: Metadata)
    ensures NoRevival(s, StartUpload(l, s, key, m).0)
  {}

  /** A record that is dead stays dead. */
  lemma StepRevivesNone(l: Limits, s: Manager, step: Step)
    requires Inv(s) && Enabled(s, step)
    ensures NoRevival(s, Apply(l, s, step))
  {
    match step
    case Upload(key, meta) => UploadRevivesNone(l, s, key, meta);
    case Streamed(id, chunks, io) => PutRevivesNone(s, id, AfterStream(s.records[id], chunks, io).0);
    case Applied(id, ok) => PutRevivesNone(s, id, s.records[id].(flight := None));
    case TimerFires(id) => PutRevivesNone(s, id, s.records[id].(armed := false));
    case _ =>
  }

  lemma StepKeepsOnce(l: Limits, s: Manager, step: Step)
    requires Safe(s) && HandedOnce(s) && NoneSpent(s) && Enabled(s, step) && UnspentKey(s, step)
    ensures Safe(Apply(l, s, step)) && HandedOnce(Apply(l, s, step)) && NoneSpent(Apply(l, s, step))
  {
    UnspentIsSafe(s, step);
    StepKeepsSafe(l, s, step);
    ListedIsAlone(s);
    StepRevivesNone(l, s, step);
    var t := Apply(l, s, step);
    forall id | id in s.records
      ensures id in t.records && IssuedWhileLive(s, t, id, step)
    {
      HandsOverOnlyWhileLive(l, s, step, id);
    }
    if step.Open? {
      OpenedKeys(s, step.minted, step.tab, step.session, step.multiple, step.published);
      OpenedKeepsOnce(s, t, step);
    } else {
      StepSameKeys(l, s, step);
      OthersKeepOnce(s, t, step);
    }
  }

  predicate IssuedWhileLive(s: Manager, t: Manager, id: nat, step: Step)
    requires id in s.records && id in t.records
  {
    t.records[id].issued != s.records[id].issued ==> step.Streamed? && step.id == id && !s.records[id].dead
  }

  lemma OthersKeepOnce(s: Manager, t: Manager, step: Step)
    requires HandedOnce(s) && NoneSpent(s) && AloneAlive(s) && NoRevival(s, t) && SameKeys(s, t)
    requires forall id :: id in s.records ==> id in t.records && IssuedWhileLive(s, t, id, step)
    ensures HandedOnce(t) && NoneSpent(t)
  {}

  lemma OpenedKeepsOnce(s: Manager, t: Manager, step: Step)
    requires HandedOnce(s) && NoneSpent(s) && NoRevival(s, t) && step.Open? && UnspentKey(s, step)
    requires forall id :: id in s.records ==> id < s.nextId && id in t.records && IssuedWhileLive(s, t, id, step)
    requires forall id :: id in t.records ==>
      (id in s.records && t.records[id].key == s.records[id].key) || (id == s.nextId && id !in s.records) || t == s
    requires s.nextId in t.records && s.nextId !in s.records ==>
      var r := t.records[s.nextId];
      !s.closed && step.minted == Some(r.key) && r.issued == [] && r.dead == !step.published
    ensures HandedOnce(t) && NoneSpent(t)
  {}

  /** A chooser's opening adds at most one record, with the minted key and nothing handed over. */
  lemma OpenedKeys(s: Manager, minted: Option<Key>, tab: string, session: string, multiple: bool, published: bool)
    ensures var t := OpenChooser(s, minted, tab, session, multiple, published);
      forall id :: id in t.records ==>
        (id in s.records && id != s.nextId && t.records[id].key == s.records[id].key) || id == s.nextId || t == s
    ensures var t := OpenChooser(s, minted, tab, session, multiple, published);
      s.nextId in t.records && s.nextId !in s.records ==>
        !s.closed && minted == Some(t.records[s.nextId].key) && t.records[s.nextId].issued == [] && t.records[s.nextId].dead == !published
  {
    AbandonedKeys(s, Listed(s));
  }

  lemma {:induction false} RunKeepsOnce(l: Limits, s: Manager, run: seq<Step>)
    requires Safe(s) && HandedOnce(s) && NoneSpent(s) && Possible(l, s, run) && UnspentKeys(l, s, run)
    ensures HandedOnce(After(l, s, run))
    decreases |run|
  {
    if run != [] {
      StepKeepsOnce(l, s, run[0]);
      RunKeepsOnce(l, Apply(l, s, run[0]), run[1..]);
    }
  }

  /** A spent key given to a new chooser: one upload later files are handed over under it again. */
  lemma SpentKeyHandsOverAgain(l: Limits, s: Manager, step: Step) returns (run: seq<Step>)
    requires Inv(s) && Enabled(s, step) && !UnspentKey(s, step) && l.maxFiles >= 1
    ensures var t := Apply(l, s, step);
      Possible(l, t, run) && UnspentKeys(l, t, run) && !HandedOnce(After(l, t, run))
  {
    var key, next := step.minted.value, s.nextId;
    var id :| id in s.records && s.records[id].issued != [] && s.records[id].key == key;
    var one, done := Upload(key, Metadata(0, 1, 0, 0, "f")), Streamed(next, [], true);
    var t := Apply(l, s, step);
    SpentOpens(l, s, step, id);
    var u := Apply(l, t, one);
    SpentUploads(l, t, key, id, next);
    SpentStreams(l, u, id, next);
    run := [one, done];
    assert run[1..] == [done] && [done][1..] == [];
    assert UnspentKeys(l, Apply(l, u, done), []);
    assert UnspentKeys(l, u, [done]);
    assert After(l, u, [done]) == Apply(l, u, done);
  }

  lemma SpentOpens(l: Limits, s: Manager, step: Step, id: nat)
    requires Inv(s) && Enabled(s, step) && step.Open? && step.minted.Some? && step.published && !s.closed
    requires id in s.records
    ensures var t := Apply(l, s, step); var key := step.minted.value;
      && t.pending == map[key := s.nextId] && t.batches == map[] && !t.closed && KeyOk(key)
      && s.nextId in t.records && Fresh(t.records[s.nextId], key) && t.records[s.nextId].issued == [] && id != s.nextId
      && id in t.records && t.records[id].issued == s.records[id].issued && t.records[id].key == s.records[id].key
  {
    AbandonAllEmpties(s);
  }

  lemma SpentUploads(l: Limits, t: Manager, key: Key, id: nat, next: nat)
    requires l.maxFiles >= 1 && t.pending == map[key := next] && t.batches == map[] && !t.closed && KeyOk(key)
    requires next in t.records && Fresh(t.records[next], key) && t.records[next].issued == [] && id != next && id in t.records
    ensures var u := Apply(l, t, Upload(key, Metadata(0, 1, 0, 0, "f")));
      && id in u.records && u.records[id] == t.records[id]
      && next in u.records && var r := u.records[next];
         r.key == key && !r.dead && r.flight == Some(Streaming(0, 0)) && r.files == [] && r.issued == []
         && r.nextIndex == r.count == 1 && r.receivedSize == r.totalSize == 0
  {}

  lemma SpentStreams(l: Limits, u: Manager, id: nat, next: nat)
    requires id in u.records && next in u.records && id != next
    requires u.records[id].issued != [] && u.records[id].key == u.records[next].key
    requires var r := u.records[next];
      !r.dead && r.flight == Some(Streaming(0, 0)) && r.files == [] && r.issued == []
      && r.nextIndex == r.count == 1 && r.receivedSize == r.totalSize == 0
    ensures Enabled(u, Streamed(next, [], true)) && !HandedOnce(Apply(l, u, Streamed(next, [], true)))
  {
    var (r, threw) := AfterStream(u.records[next], [], true);
    assert Total([]) == 0 && !threw && r.issued != [];
    var v := Apply(l, u, Streamed(next, [], true));
    assert v.records[next] == r && v.records[id] == u.records[id];
  }

  /**
   * Files are handed over once per key under exactly this guard: a minted key meets it if and only if no
   * continuation whose own keys do hands files over twice under one key.
   */
  lemma HandedOnceIff(l: Limits, s: Manager, step: Step)
    requires Safe(s) && HandedOnce(s) && NoneSpent(s) && Enabled(s, step) && l.maxFiles >= 1
    ensures var t := Apply(l, s, step);
      UnspentKey(s, step) <==> forall run :: Possible(l, t, run) && UnspentKeys(l, t, run) ==> HandedOnce(After(l, t, run))
  {
    var t := Apply(l, s, step);
    if UnspentKey(s, step) {
      StepKeepsOnce(l, s, step);
      forall run | Possible(l, t, run) && UnspentKeys(l, t, run)
        ensures HandedOnce(After(l, t, run))
      {
        RunKeepsOnce(l, t, run);
      }
    } else {
      var run := SpentKeyHandsOverAgain(l, s, step);
      assert Possible(l, t, run) && !HandedOnce(After(l, t, run));
    }
  }

  /** Over every run whose published choosers get no spent key, no two records with one key are handed over. */
  lemma HandedOncePerKey(l: Limits, run: seq<Step>, a: nat, b: nat)
    requires Possible(l, INITIAL, run) && UnspentKeys(l, INITIAL, run)
    requires a in After(l, INITIAL, run).records && b in After(l, INITIAL, run).records
    ensures var s := After(l, INITIAL, run);
      s.records[a].issued != [] && s.records[b].issued != [] && s.records[a].key == s.records[b].key ==> a == b
  {
    RunKeepsOnce(l, INITIAL, run);
  }

  // ---- Keys that are never repeated ----

  predicate NewKey(s: Manager, step: Step) {
    step.Open? && step.minted.Some? ==> forall id :: id in s.records ==> s.records[id].key != step.minted.value
  }

  /** Every key minted is new to the manager. */
  ghost predicate FreshKeys(l: Limits, s: Manager, run: seq<Step>)
    requires Possible(l, s, run)
    decreases |run|
  {
    run != [] ==> NewKey(s, run[0]) && FreshKeys(l, Apply(l, s, run[0]), run[1..])
  }

  ghost predicate KeysDiffer(s: Manager) {
    && (forall id :: id in s.records ==> id < s.nextId)
    && (forall a, b :: a in s.records && b in s.records && a != b ==> s.records[a].key != s.records[b].key)
  }

  /** No step but a chooser's opening adds a record or changes a key. */
  lemma StepKeepsKeys(l: Limits, s: Manager, step: Step)
    requires Inv(s) && KeysDiffer(s) && Enabled(s, step) && NewKey(s, step)
    ensures KeysDiffer(Apply(l, s, step))
  {
    if step.Open? {
      OpenKeepsKeys(s, step.minted, step.tab, step.session, step.multiple, step.published);
    } else {
      StepSameKeys(l, s, step);
    }
  }

  lemma OpenKeepsKeys(s: Manager, minted: Option<Key>, tab: string, session: string, multiple: bool, published: bool)
    requires KeysDiffer(s) && NewKey(s, Open(minted, tab, session, multiple, published))
    ensures KeysDiffer(OpenChooser(s, minted, tab, session, multiple, published))
  {
    var t := AbandonAll(s, Listed(s));
    AbandonedKeys(s, Listed(s));
    var u := OpenChooser(s, minted, tab, session, multiple, published);
    if minted.Some? && !s.closed {
      assert u.records == t.records[t.nextId := u.records[t.nextId]];
    }
  }

  lemma AbandonedKeys(s: Manager, ids: set<nat>)
    ensures SameKeys(s, AbandonAll(s, ids))
  {}

  ghost predicate SameKeys(s: Manager, t: Manager) {
    && t.nextId == s.nextId && t.records.Keys == s.records.Keys
    && forall id :: id in t.records ==> t.records[id].key == s.records[id].key
  }

  lemma StepSameKeys(l: Limits, s: Manager, step: Step)
    requires Inv(s) && Enabled(s, step) && !step.Open?
    ensures SameKeys(s, Apply(l, s, step))
  {
    match step
    case Upload(key, meta) => UploadSameKeys(l, s, key, meta);
    case Streamed(id, chunks, io) => StreamSameKeys(s, id, chunks, io);
    case Applied(id, ok) => AppliedSameKeys(s, id, ok);
    case TimerFires(id) => PutSameKeys(s, id, s.records[id].(armed := false));
    case _ => AbandonedKeys(s, Hit(s, step));
  }

  lemma UploadSameKeys(l: Limits, s: Manager, key: Key, m: Metadata)
    ensures SameKeys(s, StartUpload(l, s, key, m).0)
  {}

  lemma StreamSameKeys(s: Manager, id: nat, chunks: seq<nat>, io: bool)
    requires id in s.records && s.records[id].flight.Some? && s.records[id].flight.value.Streaming?
    ensures SameKeys(s, FinishStream(s, id, chunks, io))
  {
    PutSameKeys(s, id, AfterStream(s.records[id], chunks, io).0);
  }

  lemma AppliedSameKeys(s: Manager, id: nat, ok: bool)
    requires id in s.records && s.records[id].flight == Some(Applying)
    ensures SameKeys(s, FinishApply(s, id, ok))
  {
    PutSameKeys(s, id, s.records[id].(flight := None));
  }

  lemma PutSameKeys(s: Manager, id: nat, r: Record)
    requires id in s.records && r.key == s.records[id].key
    ensures SameKeys(s, Put(s, id, r)) && SameKeys(s, AbandonOne(Put(s, id, r), id))
  {}

  /** With keys that are never repeated the guard holds throughout, and a key's files are handed over once in all. */
  lemma {:induction false} FreshKeysAreSafe(l: Limits, s: Manager, run: seq<Step>)
    requires Inv(s) && KeysDiffer(s) && Possible(l, s, run) && FreshKeys(l, s, run)
    ensures SafeKeys(l, s, run) && KeysDiffer(After(l, s, run))
    decreases |run|
  {
    if run != [] {
      StepKeepsInv(l, s, run[0]);
      StepKeepsKeys(l, s, run[0]);
      FreshKeysAreSafe(l, Apply(l, s, run[0]), run[1..]);
    }
  }

  // ---- For the imperative form ----

  lemma KeysStep(s: Manager, id: nat, ids: set<nat>)
    requires id in ids && id in s.records && !s.records[id].dead
    ensures KeysOf(s, ids) == KeysOf(AbandonOne(s, id), ids - {id}) + {s.records[id].key}
  {
    var t := AbandonOne(s, id);
    forall k
      ensures k in KeysOf(s, ids) <==> k in KeysOf(t, ids - {id}) || k == s.records[id].key
    {
      if k in KeysOf(s, ids) {
        var i :| i in ids && i in s.records && !s.records[i].dead && s.records[i].key == k;
        assert i != id ==> i in ids - {id} && t.records[i] == s.records[i];
      }
    }
  }

  /** Abandoning a set of records one after the other, in any order. */
  lemma AbandonStep(s: Manager, id: nat, ids: set<nat>)
    requires id in ids
    ensures AbandonAll(AbandonOne(s, id), ids - {id}) == AbandonAll(s, ids)
  {
    var t := AbandonOne(s, id);
    if id in s.records && !s.records[id].dead {
      KeysStep(s, id, ids);
    } else {
      assert KeysOf(s, ids) == KeysOf(s, ids - {id});
    }
    RecordsStep(s, id, ids);
    var once, all := AbandonAll(t, ids - {id}), AbandonAll(s, ids);
    assert once.pending == all.pending && once.batches == all.batches;
  }

  lemma RecordsStep(s: Manager, id: nat, ids: set<nat>)
    requires id in ids
    ensures AbandonAll(AbandonOne(s, id), ids - {id}).records == AbandonAll(s, ids).records
  {}

  lemma AbandonNone(s: Manager)
    ensures AbandonAll(s, {}) == s
  {
    assert AbandonAll(s, {}).records == s.records;
    assert KeysOf(s, {}) == {};
  }
}

module Uploads {
  import opened Protocol
  import opened UploadModel

  /** Check a request's numbers: accepted exactly when every one is within its limit. */
  method ValidateMetadata(m: Metadata, l: Limits) returns (e: Option<Error>)
    ensures e == Validate(m, l)
    ensures e.None? <==>
      && 1 <= m.count <= l.maxFiles && 0 <= m.index < m.count
      && 0 <= m.size <= l.maxFileBytes && m.size <= m.totalSize <= l.maxTotalBytes
  {
    if m.count < 1 || m.count > l.maxFiles { return Some(TooLarge); }
    if m.index < 0 || m.index >= m.count { return Some(BadRequest); }
    if m.size < 0 || m.size > l.maxFileBytes { return Some(TooLarge); }
    if m.totalSize < m.size || m.totalSize > l.maxTotalBytes { return Some(TooLarge); }
    return None;
  }

  /** Let chunks through until they exceed `maxBytes`; what got through, and whether all of it did. */
  method LimitBytes(chunks: seq<nat>, maxBytes: nat) returns (passed: nat, whole: bool)
    ensures passed <= |chunks| && Total(chunks[..passed]) <= maxBytes
    ensures whole <==> Total(chunks) <= maxBytes
    ensures whole ==> passed == |chunks|
    ensures !whole ==> passed < |chunks| && Total(chunks[..passed + 1]) > maxBytes
  {
    var received := 0;
    passed := 0;
    while passed < |chunks|
      invariant passed <= |chunks| && received == Total(chunks[..passed]) <= maxBytes
    {
      assert chunks[..passed + 1][..passed] == chunks[..passed];
      received := received + chunks[passed];
      if received > maxBytes {
        TotalGrows(chunks, passed + 1);
        return passed, false;
      }
      passed := passed + 1;
    }
    assert chunks[..|chunks|] == chunks;
    return passed, true;
  }

  lemma {:induction false} TotalGrows(chunks: seq<nat>, n: nat)
    requires n <= |chunks|
    ensures Total(chunks[..n]) <= Total(chunks)
    decreases |chunks|
  {
    if n < |chunks| {
      TotalGrows(chunks[..|chunks| - 1], n);
      assert chunks[..|chunks| - 1][..n] == chunks[..n];
    } else {
      assert chunks[..n] == chunks;
    }
  }

  method SanitizeUploadName(width: char -> nat, name: string) returns (r: string)
    ensures r == SanitizedName(width, name)
  {
    var cleaned := Cleaned(name);
    var bytes, taken := 0, 0;
    while taken < |cleaned|
      invariant taken <= |cleaned| && bytes == Width(width, cleaned[..taken])
      invariant Fitting(width, cleaned, taken) == Fitting(width, cleaned, 0)
    {
      if bytes + width(cleaned[taken]) > MAX_FILE_COMPONENT_BYTES { break; }
      assert cleaned[..taken + 1][..taken] == cleaned[..taken];
      bytes := bytes + width(cleaned[taken]);
      taken := taken + 1;
    }
    var truncated := cleaned[..taken];
    if truncated == "" || truncated == "." || truncated == ".." { return "upload"; }
    return truncated;
  }

  class UploadManager {
    const limits: Limits
    var records: map<nat, Record>
    var pending: map<Key, nat>
    var batches: map<Key, nat>
    var nextId: nat
    var closed: bool

    function View(): Manager
      reads this
    {
      Manager(records, pending, batches, nextId, closed)
    }

    constructor (limits: Limits)
      ensures View() == INITIAL && this.limits == limits
    {
      this.limits := limits;
      records, pending, batches, nextId, closed := map[], map[], map[], 0, false;
    }

    method Abandon(id: nat)
      modifies this`records, this`pending, this`batches
      ensures View() == AbandonOne(old(View()), id)
    {
      if id !in records || records[id].dead { return; }
      var key := records[id].key;
      records := records[id := records[id].(dead := true, armed := false)];
      pending := pending - {key};
      batches := batches - {key};
    }

    method AbandonEach(ids: set<nat>)
      modifies this`records, this`pending, this`batches
      ensures View() == AbandonAll(old(View()), ids)
    {
      var todo := ids;
      while todo != {}
        invariant AbandonAll(View(), todo) == AbandonAll(old(View()), ids)
        invariant nextId == old(nextId) && closed == old(closed)
        decreases |todo|
      {
        var id :| id in todo;
        AbandonStep(View(), id, todo);
        Abandon(id);
        todo := todo - {id};
      }
      AbandonNone(View());
    }

    method OnFileChooser(minted: Option<Key>, tab: string, session: string, multiple: bool, published: bool)
      modifies this`records, this`pending, this`batches, this`nextId
      ensures View() == OpenChooser(old(View()), minted, tab, session, multiple, published)
    {
      if closed { return; }
      AbandonEach(Listed(View()));
      if minted.None? { return; }
      var key, id := minted.value, nextId;
      nextId := nextId + 1;
      var record := Record(key, tab, tab, session, multiple, false, true, false, 0, 0, 0, 0, [], false, None, []);
      if published {
        records, pending := records[id := record], pending[key := id];
      } else {
        records := records[id := record.(dead := true, armed := false)];
        pending, batches := pending - {key}, batches - {key};
      }
    }

    /** `upload` up to its first await. */
    method Upload(key: Key, m: Metadata) returns (e: Option<Error>)
      modifies this`records, this`pending, this`batches
      ensures (View(), e) == StartUpload(limits, old(View()), key, m)
    {
      if closed || !KeyOk(key) { return Some(NotFound); }
      e := ValidateMetadata(m, limits);
      if e.Some? { return; }
      if m.index == 0 {
        if key in batches { return Some(Conflict); }
        if key !in pending || pending[key] !in records { return Some(NotFound); }
        var id := pending[key];
        if !records[id].multiple && m.count != 1 { return Some(BadRequest); }
        pending := pending - {key};
        records, batches := records[id := Begun(records[id], m)], batches[key := id];
      }
      if key !in batches || batches[key] !in records { return Some(NotFound); }
      e := Receive(batches[key], m);
    }

    method Receive(id: nat, m: Metadata) returns (e: Option<Error>)
      requires id in records && m.index >= 0 && m.size >= 0
      modifies this`records
      ensures (View(), e) == Continue(old(View()), id, m)
    {
      var r := records[id];
      if r.dead { return Some(NotFound); }
      if r.busy || m.index != r.nextIndex { return Some(Conflict); }
      if m.count != r.count || m.totalSize != r.totalSize { return Some(BadRequest); }
      if r.receivedSize + m.size > r.totalSize { return Some(TooLarge); }
      r := r.(busy := true, armed := false, nextIndex := r.nextIndex + 1);
      records := records[id := r.(flight := Some(Streaming(m.index, m.size)))];
      return None;
    }

    /** `upload` after its pipeline settled. */
    method OnStreamed(id: nat, chunks: seq<nat>, io: bool)
      requires id in records && records[id].flight.Some? && records[id].flight.value.Streaming?
      modifies this`records, this`pending, this`batches
      ensures View() == FinishStream(old(View()), id, chunks, io)
    {
      var f := records[id].flight.value;
      var r := records[id].(flight := None);
      var passed, whole := LimitBytes(chunks, f.size);
      if !io || !whole || Total(chunks) != f.size || r.dead {
        records := records[id := r];
        Abandon(id);
        return;
      }
      r := r.(files := r.files + [File(f.index, f.size)], receivedSize := r.receivedSize + f.size, busy := false);
      if r.nextIndex < r.count {
        records := records[id := r.(armed := true)];
        return;
      }
      if r.receivedSize != r.totalSize {
        records := records[id := r];
        Abandon(id);
        return;
      }
      records := records[id := r.(flight := Some(Applying), issued := r.issued + [r.files])];
    }

    /** `upload` after the browser answered. */
    method OnApplied(id: nat, ok: bool)
      requires id in records && records[id].flight == Some(Applying)
      modifies this`records, this`pending, this`batches
      ensures View() == FinishApply(old(View()), id, ok)
    {
      var r := records[id].(flight := None);
      if ok {
        batches := batches - {r.key};
        records := records[id := r.(armed := false, dead := true)];
      } else {
        records := records[id := r];
        Abandon(id);
      }
    }

    method CloseManager()
      modifies this
      ensures View() == Apply(limits, old(View()), Close)
    {
      if closed { return; }
      ghost var before := View();
      closed := true;
      AbandonEach(Hit(View(), Close));
      assert Hit(before, Close) == Hit(before.(closed := true), Close);
    }
  }
}
