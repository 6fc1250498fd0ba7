/**
 * Chunk framing of the agent's binding channel: one JSON text becomes 1..n payloads
 * `M2|docId|msgId|idx|total|slice`, and the gateway puts them together again whatever the order,
 * the duplication and the interleaving.
 */
module ChunkModel {
  import opened Protocol

  const PREFIX := "M2"
  const PARTIAL_TTL_MS := 10_000
  const RECENT_COMPLETED_MESSAGES := 1_024
  const MAX_DOC_ID := 0xffff_ffff

  // ---- Decimal numbers ----

  predicate IsDigit(c: char) {
    '0' <= c <= '9'
  }

  function Digit(n: nat): (c: char)
    requires n < 10
    ensures IsDigit(c)
  {
    ('0' as int + n) as char
  }

  /** How a template literal prints a non-negative integer. */
  function Dec(n: nat): (s: string)
    ensures |s| > 0 && forall i :: 0 <= i < |s| ==> IsDigit(s[i])
  {
    if n < 10 then [Digit(n)] else Dec(n / 10) + [Digit(n % 10)]
  }

  function DigitValue(c: char): nat
    requires IsDigit(c)
  {
    c as int - '0' as int
  }

  function DigitsValue(s: string): nat
    requires forall i :: 0 <= i < |s| ==> IsDigit(s[i])
  {
    if s == [] then 0 else 10 * DigitsValue(s[..|s| - 1]) + DigitValue(s[|s| - 1])
  }

  /** The strictest reader of numbers: digits only. JavaScript's `Number` accepts more. */
  function StrictNumber(s: string): Option<int> {
    if s != [] && forall i :: 0 <= i < |s| ==> IsDigit(s[i]) then Some(DigitsValue(s)) else None
  }

  lemma {:induction false} DigitsValueOfDec(n: nat)
    ensures DigitsValue(Dec(n)) == n
  {
    if n >= 10 {
      DigitsValueOfDec(n / 10);
      assert Dec(n)[..|Dec(n)| - 1] == Dec(n / 10);
    }
  }

  /** Below this bound every integer is a double, so that printing and reading are exact. */
  const MAX_SAFE_INTEGER := 0x1f_ffff_ffff_ffff

  /** `num` stands for `Number` on strings: the integer it reads, or nothing. It must read what is printed. */
  ghost predicate ReadsDecimals(num: string -> Option<int>) {
    forall n: nat :: n <= MAX_SAFE_INTEGER ==> num(Dec(n)) == Some(n)
  }

  lemma StrictNumberReadsDecimals()
    ensures ReadsDecimals(StrictNumber)
  {
    forall n: nat | n <= MAX_SAFE_INTEGER
      ensures StrictNumber(Dec(n)) == Some(n)
    {
      DigitsValueOfDec(n);
    }
  }

  // ---- Framing ----

  datatype Chunk = Chunk(docId: nat, msgId: nat, idx: nat, total: nat, slice: string)

  function TotalChunks(json: string, sliceChars: nat): (total: nat)
    requires sliceChars > 0
  {
    Max(1, (|json| + sliceChars - 1) / sliceChars)
  }

  /** `json.slice(i * sliceChars, (i + 1) * sliceChars)`, whose bounds are clamped to the length. */
  function SliceOf(json: string, sliceChars: nat, i: nat): string {
    var lo := Min(i * sliceChars, |json|);
    var hi := Min((i + 1) * sliceChars, |json|);
    if lo <= hi then json[lo..hi] else ""
  }

  function Payload(c: Chunk): string {
    PREFIX + "|" + Dec(c.docId) + "|" + Dec(c.msgId) + "|" + Dec(c.idx) + "|" + Dec(c.total) + "|" + c.slice
  }

  function ChunkOf(docId: nat, msgId: nat, json: string, sliceChars: nat, i: nat): Chunk
    requires sliceChars > 0
  {
    Chunk(docId, msgId, i, TotalChunks(json, sliceChars), SliceOf(json, sliceChars, i))
  }

  function IndexOf(s: string, c: char, from: nat): (k: int)
    ensures k == -1 || from <= k < |s|
    decreases |s| - from
  {
    if from >= |s| then -1 else if s[from] == c then from else IndexOf(s, c, from + 1)
  }

  function ParseChunk(num: string -> Option<int>, payload: string): Option<Chunk> {
    if !(PREFIX + "|" <= payload) then None
    else
      var a := |PREFIX| + 1;
      var b := IndexOf(payload, '|', a);
      if b < 0 then None else
      var c := IndexOf(payload, '|', b + 1);
      if c < 0 then None else
      var d := IndexOf(payload, '|', c + 1);
      if d < 0 then None else
      var e := IndexOf(payload, '|', d + 1);
      if e < 0 then None else
      var docId, msgId := num(payload[a..b]), num(payload[b + 1..c]);
      var idx, total := num(payload[c + 1..d]), num(payload[d + 1..e]);
      if docId.None? || msgId.None? || idx.None? || total.None? then None
      else if docId.value < 0 || docId.value > MAX_DOC_ID || msgId.value < 0 then None
      else if total.value < 1 || idx.value < 0 || idx.value >= total.value then None
      else Some(Chunk(docId.value, msgId.value, idx.value, total.value, payload[e + 1..]))
  }

  lemma {:induction false} IndexOfFirst(s: string, c: char, from: nat, k: nat)
    requires from <= k < |s| && s[k] == c
    requires forall i :: from <= i < k ==> s[i] != c
    ensures IndexOf(s, c, from) == k
    decreases k - from
  {
    if from < k { IndexOfFirst(s, c, from + 1, k); }
  }

  predicate NoBar(s: string) {
    forall i :: 0 <= i < |s| ==> s[i] != '|'
  }

  /** A field without bars, followed by a bar, is cut out exactly. */
  lemma FieldAt(s: string, from: nat, field: string, rest: string)
    requires from <= |s| && NoBar(field) && s[from..] == field + "|" + rest
    ensures var k := from + |field|;
      IndexOf(s, '|', from) == k && k + 1 <= |s| && s[from..k] == field && s[k + 1..] == rest
  {
    var k := from + |field|;
    assert |s| - from == |field| + 1 + |rest|;
    forall i | from <= i < k
      ensures s[i] == field[i - from]
    {
      assert s[i] == s[from..][i - from];
    }
    assert s[k] == s[from..][|field|];
    IndexOfFirst(s, '|', from, k);
    assert s[from..k] == s[from..][..|field|];
    assert s[k + 1..] == s[from..][|field| + 1..];
  }

  function AfterIdx(c: Chunk): string { Dec(c.total) + "|" + c.slice }
  function AfterMsg(c: Chunk): string { Dec(c.idx) + "|" + AfterIdx(c) }
  function AfterDoc(c: Chunk): string { Dec(c.msgId) + "|" + AfterMsg(c) }

  lemma PayloadHead(c: Chunk)
    ensures PREFIX + "|" <= Payload(c) && Payload(c)[3..] == Dec(c.docId) + "|" + AfterDoc(c)
  {
    var rest := Dec(c.docId) + "|" + AfterDoc(c);
    assert Payload(c) == PREFIX + "|" + rest;
    assert |PREFIX + "|"| == 3;
  }

  lemma TwoFieldsAt(p: string, from: nat, f: string, g: string, rest: string) returns (b: nat, m: nat)
    requires from <= |p| && NoBar(f) && NoBar(g) && p[from..] == f + "|" + (g + "|" + rest)
    ensures from <= b < m < |p| && IndexOf(p, '|', from) == b && IndexOf(p, '|', b + 1) == m
    ensures p[from..b] == f && p[b + 1..m] == g && p[m + 1..] == rest
  {
    FieldAt(p, from, f, g + "|" + rest);
    b := from + |f|;
    FieldAt(p, b + 1, g, rest);
    m := b + 1 + |g|;
  }

  lemma Reads(num: string -> Option<int>, n: nat)
    requires ReadsDecimals(num) && n <= MAX_SAFE_INTEGER
    ensures num(Dec(n)) == Some(n)
  {}

  /** The numbers of a chunk are ones that can be told apart as doubles. */
  predicate SafeNumbers(c: Chunk) {
    c.docId <= MAX_DOC_ID && c.msgId <= MAX_SAFE_INTEGER && c.idx < c.total <= MAX_SAFE_INTEGER
  }

  lemma ReadsFields(num: string -> Option<int>, c: Chunk)
    requires ReadsDecimals(num) && SafeNumbers(c)
    ensures num(Dec(c.docId)) == Some(c.docId) && num(Dec(c.msgId)) == Some(c.msgId)
    ensures num(Dec(c.idx)) == Some(c.idx) && num(Dec(c.total)) == Some(c.total)
  {
    Reads(num, c.docId);
    Reads(num, c.msgId);
    Reads(num, c.idx);
    Reads(num, c.total);
  }

  lemma FieldsOfPayload(c: Chunk) returns (b: nat, m: nat, d: nat, e: nat)
    ensures var p := Payload(c);
      && 3 <= b < m < d < e < |p|
      && IndexOf(p, '|', 3) == b && IndexOf(p, '|', b + 1) == m && IndexOf(p, '|', m + 1) == d && IndexOf(p, '|', d + 1) == e
      && p[3..b] == Dec(c.docId) && p[b + 1..m] == Dec(c.msgId) && p[m + 1..d] == Dec(c.idx) && p[d + 1..e] == Dec(c.total)
      && p[e + 1..] == c.slice
  {
    PayloadHead(c);
    b, m := TwoFieldsAt(Payload(c), 3, Dec(c.docId), Dec(c.msgId), AfterMsg(c));
    d, e := TwoFieldsAt(Payload(c), m + 1, Dec(c.idx), Dec(c.total), c.slice);
  }

  /** Parsing inverts framing, whatever the slice holds. */
  lemma ParseOfPayload(num: string -> Option<int>, c: Chunk)
    requires ReadsDecimals(num) && SafeNumbers(c)
    ensures ParseChunk(num, Payload(c)) == Some(c)
  {
    PayloadHead(c);
    var b, m, d, e := FieldsOfPayload(c);
    ReadsFields(num, c);
    ParsedFields(num, Payload(c), c, b, m, d, e);
  }

  lemma ParsedFields(num: string -> Option<int>, p: string, c: Chunk, b: nat, m: nat, d: nat, e: nat)
    requires PREFIX + "|" <= p && 3 <= b < m < d < e < |p|
    requires IndexOf(p, '|', 3) == b && IndexOf(p, '|', b + 1) == m
    requires IndexOf(p, '|', m + 1) == d && IndexOf(p, '|', d + 1) == e
    requires num(p[3..b]) == Some(c.docId) && num(p[b + 1..m]) == Some(c.msgId)
    requires num(p[m + 1..d]) == Some(c.idx) && num(p[d + 1..e]) == Some(c.total)
    requires c.docId <= MAX_DOC_ID && c.idx < c.total && p[e + 1..] == c.slice
    ensures ParseChunk(num, p) == Some(c)
  {}

  function Join(slices: seq<string>): string {
    if slices == [] then "" else Join(slices[..|slices| - 1]) + slices[|slices| - 1]
  }

  function Slices(json: string, sliceChars: nat, n: nat): (r: seq<string>)
    ensures |r| == n
  {
    seq(n, i requires 0 <= i < n => SliceOf(json, sliceChars, i))
  }

  lemma {:induction false} JoinOfSlices(json: string, sliceChars: nat, n: nat)
    ensures Join(Slices(json, sliceChars, n)) == json[..Min(n * sliceChars, |json|)]
  {
    var r := Slices(json, sliceChars, n);
    if n > 0 {
      JoinOfSlices(json, sliceChars, n - 1);
      assert r[..n - 1] == Slices(json, sliceChars, n - 1);
      assert (n - 1) * sliceChars <= n * sliceChars by { assert n * sliceChars == (n - 1) * sliceChars + sliceChars; }
    }
  }

  lemma EnoughChunks(json: string, sliceChars: nat)
    requires sliceChars > 0
    ensures TotalChunks(json, sliceChars) * sliceChars >= |json|
  {
    var q := (|json| + sliceChars - 1) / sliceChars;
    assert q * sliceChars > |json| - 1 by {
      assert |json| + sliceChars - 1 == q * sliceChars + (|json| + sliceChars - 1) % sliceChars;
    }
    if q < 1 { assert q == 0 && |json| == 0; }
  }

  /** The slices of a message, joined in index order, are the message. */
  lemma SlicesJoin(json: string, sliceChars: nat)
    requires sliceChars > 0
    ensures Join(Slices(json, sliceChars, TotalChunks(json, sliceChars))) == json
  {
    EnoughChunks(json, sliceChars);
    JoinOfSlices(json, sliceChars, TotalChunks(json, sliceChars));
    assert json[..|json|] == json;
  }

  /** Everything `encodeChunks` returns for one message. */
  function Encoded(docId: nat, msgId: nat, json: string, sliceChars: nat): (r: seq<string>)
    requires sliceChars > 0
    ensures |r| == TotalChunks(json, sliceChars)
  {
    seq(TotalChunks(json, sliceChars),
        i requires 0 <= i < TotalChunks(json, sliceChars) => Payload(ChunkOf(docId, msgId, json, sliceChars, i)))
  }

  // ---- Reassembly ----

  /** `new Array(n)` throws above this length. */
  const MAX_ARRAY_LENGTH := 0xffff_ffff

  /** The map key of the source is the two numbers printed around a NUL. */
  datatype Key = Key(docId: nat, msgId: nat)

  datatype Partial = Partial(total: nat, slices: seq<Option<string>>, received: nat, firstSeen: int)

  datatype Reassembly = Reassembly(partials: map<Key, Partial>, completed: set<Key>, completedOrder: seq<Key>)

  const EMPTY := Reassembly(map[], {}, [])

  /** What one `add` does: null, the message with this text, or a throw. */
  datatype Outcome = Pending | Message(json: string) | SyntaxError | InvalidLength

  /** `valid` says which texts `JSON.parse` accepts. */
  datatype Env = Env(num: string -> Option<int>, valid: string -> bool)

  function KeyOf(c: Chunk): Key {
    Key(c.docId, c.msgId)
  }

  predicate Fresh(p: Partial, now: int) {
    now - p.firstSeen <= PARTIAL_TTL_MS
  }

  function Sweep(s: Reassembly, now: int): Reassembly {
    s.(partials := map k | k in s.partials && Fresh(s.partials[k], now) :: s.partials[k])
  }

  function Remember(s: Reassembly, key: Key): Reassembly {
    var order := s.completedOrder + [key];
    if |order| <= RECENT_COMPLETED_MESSAGES then
      s.(completed := s.completed + {key}, completedOrder := order)
    else
      s.(completed := s.completed + {key} - {order[0]}, completedOrder := order[1..])
  }

  function NewPartial(total: nat, now: int): Partial {
    Partial(total, seq(total, _ => None), 0, now)
  }

  function PutSlice(p: Partial, idx: nat, slice: string): Partial
    requires idx < |p.slices|
  {
    if p.slices[idx].None? then p.(slices := p.slices[idx := Some(slice)], received := p.received + 1) else p
  }

  /** `Array.join("")`, for which a hole is the empty string. */
  function Texts(slices: seq<Option<string>>): (r: seq<string>)
    ensures |r| == |slices|
  {
    seq(|slices|, i requires 0 <= i < |slices| => if slices[i].Some? then slices[i].value else "")
  }

  function PartialFor(s: Reassembly, c: Chunk, now: int): (p: Partial)
    ensures p.total == c.total
  {
    if KeyOf(c) in s.partials && s.partials[KeyOf(c)].total == c.total then s.partials[KeyOf(c)]
    else NewPartial(c.total, now)
  }

  function Parsed(valid: string -> bool, s: Reassembly, key: Key, json: string): (Reassembly, Outcome) {
    if valid(json) then (Remember(s, key), Message(json)) else (s, SyntaxError)
  }

  ghost predicate WellFormed(s: Reassembly) {
    forall k :: k in s.partials ==> |s.partials[k].slices| == s.partials[k].total
  }

  predicate TooLong(s: Reassembly, c: Chunk) {
    c.total > MAX_ARRAY_LENGTH && !(KeyOf(c) in s.partials && s.partials[KeyOf(c)].total == c.total)
  }

  function AddChunk(valid: string -> bool, s: Reassembly, c: Chunk, now: int): (Reassembly, Outcome)
    requires WellFormed(s) && c.idx < c.total
  {
    var key := KeyOf(c);
    if key in s.completed then (s, Pending)
    else if c.total == 1 then Parsed(valid, s, key, c.slice)
    else if TooLong(s, c) then (s, InvalidLength)
    else
      var p := PutSlice(PartialFor(s, c, now), c.idx, c.slice);
      if p.received < p.total then (s.(partials := s.partials[key := p]), Pending)
      else Parsed(valid, s.(partials := s.partials - {key}), key, Join(Texts(p.slices)))
  }

  function Add(env: Env, s: Reassembly, payload: string, now: int): (Reassembly, Outcome)
    requires WellFormed(s)
  {
    var t := Sweep(s, now);
    match ParseChunk(env.num, payload)
    case None => (t, Pending)
    case Some(c) => AddChunk(env.valid, t, c, now)
  }

  // ---- Invariant ----

  function CountSome(slices: seq<Option<string>>): (n: nat)
    ensures n <= |slices|
  {
    if slices == [] then 0
    else CountSome(slices[..|slices| - 1]) + (if slices[|slices| - 1].Some? then 1 else 0)
  }

  lemma {:induction false} CountAfterPut(slices: seq<Option<string>>, i: nat, text: string)
    requires i < |slices| && slices[i].None?
    ensures CountSome(slices[i := Some(text)]) == CountSome(slices) + 1
  {
    var n := |slices| - 1;
    if i < n {
      CountAfterPut(slices[..n], i, text);
      assert slices[i := Some(text)][..n] == slices[..n][i := Some(text)];
    } else {
      assert slices[i := Some(text)][..n] == slices[..n];
    }
  }

  lemma {:induction false} CountOfNew(n: nat)
    ensures CountSome(seq(n, _ => None)) == 0
  {
    if n > 0 {
      var s: seq<Option<string>> := seq(n, _ => None);
      assert s[..n - 1] == seq(n - 1, _ => None);
      CountOfNew(n - 1);
    }
  }

  lemma {:induction false} FullWhenCounted(slices: seq<Option<string>>)
    ensures CountSome(slices) == |slices| <==> forall i :: 0 <= i < |slices| ==> slices[i].Some?
  {
    if slices != [] {
      var n := |slices| - 1;
      FullWhenCounted(slices[..n]);
      assert forall i :: 0 <= i < n ==> slices[..n][i] == slices[i];
    }
  }

  predicate PartialInv(p: Partial) {
    |p.slices| == p.total && p.received == CountSome(p.slices) && p.received < p.total
  }

  ghost predicate Distinct(order: seq<Key>) {
    forall i, j :: 0 <= i < j < |order| ==> order[i] != order[j]
  }

  /** Dedup is exactly the recent window, and every partial is still short of a slice. */
  ghost predicate Inv(s: Reassembly) {
    && (forall k :: k in s.partials ==> PartialInv(s.partials[k]))
    && (forall k :: k in s.completed <==> k in s.completedOrder)
    && Distinct(s.completedOrder)
    && |s.completedOrder| <= RECENT_COMPLETED_MESSAGES
  }

  lemma RememberKeepsInv(s: Reassembly, key: Key)
    requires Inv(s) && key !in s.completed
    ensures Inv(Remember(s, key))
  {
    var order := s.completedOrder + [key];
    var t := Remember(s, key);
    assert forall k :: k in order <==> k in s.completed || k == key;
    assert Distinct(order);
    if |order| > RECENT_COMPLETED_MESSAGES {
      assert order == [order[0]] + order[1..];
      assert forall k :: k in order[1..] <==> k in order && k != order[0];
    }
  }

  lemma PutKeepsShape(p: Partial, idx: nat, slice: string)
    requires |p.slices| == p.total && p.received == CountSome(p.slices) && idx < p.total
    ensures var q := PutSlice(p, idx, slice);
      |q.slices| == q.total == p.total && q.received == CountSome(q.slices) <= q.total
  {
    if p.slices[idx].None? { CountAfterPut(p.slices, idx, slice); }
  }

  lemma AddChunkKeepsInv(valid: string -> bool, s: Reassembly, c: Chunk, now: int)
    requires Inv(s) && c.idx < c.total
    ensures Inv(AddChunk(valid, s, c, now).0)
  {
    var key := KeyOf(c);
    if key !in s.completed {
      CountOfNew(c.total);
      var p := PartialFor(s, c, now);
      PutKeepsShape(p, c.idx, c.slice);
      RememberKeepsInv(s, key);
      RememberKeepsInv(s.(partials := s.partials - {key}), key);
    }
  }

  lemma AddKeepsInv(env: Env, s: Reassembly, payload: string, now: int)
    requires Inv(s)
    ensures Inv(Add(env, s, payload, now).0)
  {
    var t := Sweep(s, now);
    match ParseChunk(env.num, payload)
    case None =>
    case Some(c) => AddChunkKeepsInv(env.valid, t, c, now);
  }

  // ---- Runs ----

  datatype Arrival = Arrival(payload: string, now: int)

  function Run(env: Env, s: Reassembly, input: seq<Arrival>): Reassembly
    requires Inv(s)
    ensures Inv(Run(env, s, input))
  {
    if input == [] then s
    else
      var before := Run(env, s, input[..|input| - 1]);
      var last := input[|input| - 1];
      AddKeepsInv(env, before, last.payload, last.now);
      Add(env, before, last.payload, last.now).0
  }

  /** What the i-th arrival produced. */
  function OutAt(env: Env, s: Reassembly, input: seq<Arrival>, i: nat): Outcome
    requires Inv(s) && i < |input|
  {
    Add(env, Run(env, s, input[..i]), input[i].payload, input[i].now).1
  }

  /** The key an arrival carries, if it is a chunk at all. */
  function KeyAt(env: Env, a: Arrival): Option<Key> {
    match ParseChunk(env.num, a.payload)
    case None => None
    case Some(c) => Some(KeyOf(c))
  }

  // ---- At most once ----

  /** The keys of the messages a run delivered, in order. */
  function Delivered(env: Env, input: seq<Arrival>): seq<Key> {
    if input == [] then []
    else
      var n := |input| - 1;
      Delivered(env, input[..n])
      + (if OutAt(env, EMPTY, input, n).Message? && KeyAt(env, input[n]).Some? then [KeyAt(env, input[n]).value] else [])
  }

  function Recent(keys: seq<Key>): (r: seq<Key>)
    ensures |r| == Min(|keys|, RECENT_COMPLETED_MESSAGES)
  {
    keys[Max(0, |keys| - RECENT_COMPLETED_MESSAGES)..]
  }

  /** Equal keys are more than 1024 deliveries apart. */
  ghost predicate FarApart(keys: seq<Key>) {
    forall i, j :: 0 <= i < j < |keys| && keys[i] == keys[j] ==> j - i > RECENT_COMPLETED_MESSAGES
  }

  lemma AddRemembers(env: Env, s: Reassembly, payload: string, now: int)
    requires Inv(s)
    ensures var (t, out) := Add(env, s, payload, now); var key := KeyAt(env, Arrival(payload, now));
      && (out.Message? ==> key.Some? && key.value !in s.completed
                           && t.completedOrder == Remember(s, key.value).completedOrder)
      && (!out.Message? ==> t.completedOrder == s.completedOrder)
  {}

  lemma RecentSnoc(s: Reassembly, keys: seq<Key>, key: Key)
    requires s.completedOrder == Recent(keys)
    ensures Remember(s, key).completedOrder == Recent(keys + [key])
  {}

  lemma FarApartSnoc(keys: seq<Key>, key: Key)
    requires FarApart(keys) && key !in Recent(keys)
    ensures FarApart(keys + [key])
  {
    var skipped := Max(0, |keys| - RECENT_COMPLETED_MESSAGES);
    assert forall i :: skipped <= i < |keys| ==> Recent(keys)[i - skipped] == keys[i];
  }

  lemma DeliveredStep(env: Env, input: seq<Arrival>, s: Reassembly, keys: seq<Key>)
    requires input != [] && s == Run(env, EMPTY, input[..|input| - 1]) && keys == Delivered(env, input[..|input| - 1])
    requires s.completedOrder == Recent(keys) && FarApart(keys)
    ensures Run(env, EMPTY, input).completedOrder == Recent(Delivered(env, input)) && FarApart(Delivered(env, input))
  {
    var a := input[|input| - 1];
    AddRemembers(env, s, a.payload, a.now);
    var (t, out) := Add(env, s, a.payload, a.now);
    if out.Message? {
      var key := KeyAt(env, a).value;
      RecentSnoc(s, keys, key);
      FarApartSnoc(keys, key);
      assert Delivered(env, input) == keys + [key];
    } else {
      assert Delivered(env, input) == keys;
    }
  }

  /**
   * The dedup window is the last 1024 deliveries, whatever arrives; so two deliveries of one pair have
   * at least 1024 deliveries of others between them.
   */
  lemma {:induction false} DeliveriesFarApart(env: Env, input: seq<Arrival>)
    ensures Run(env, EMPTY, input).completedOrder == Recent(Delivered(env, input))
    ensures FarApart(Delivered(env, input))
  {
    if input != [] {
      DeliveriesFarApart(env, input[..|input| - 1]);
      DeliveredStep(env, input, Run(env, EMPTY, input[..|input| - 1]), Delivered(env, input[..|input| - 1]));
    }
  }

  // ---- At least once, at the last missing chunk ----

  /** One message on the channel. */
  datatype Sent = Sent(docId: nat, msgId: nat, json: string, sliceChars: nat)

  predicate ValidSent(m: Sent) {
    m.docId <= MAX_DOC_ID && m.msgId <= MAX_SAFE_INTEGER && m.sliceChars > 0 && TotalChunks(m.json, m.sliceChars) <= MAX_ARRAY_LENGTH
  }

  /** Arrivals that carry the message's key are payloads `encodeChunks` made for it. Other traffic is free. */
  ghost predicate OnlyEncoded(env: Env, m: Sent, input: seq<Arrival>)
    requires ValidSent(m)
  {
    forall i :: 0 <= i < |input| && KeyAt(env, input[i]) == Some(Key(m.docId, m.msgId)) ==>
      input[i].payload in Encoded(m.docId, m.msgId, m.json, m.sliceChars)
  }

  predicate Carries(env: Env, m: Sent, a: Arrival) {
    KeyAt(env, a) == Some(Key(m.docId, m.msgId))
  }

  /** The indexes of the message that have arrived. */
  function Got(env: Env, m: Sent, input: seq<Arrival>): set<nat> {
    if input == [] then {}
    else
      var last := input[|input| - 1];
      Got(env, m, input[..|input| - 1])
      + (if Carries(env, m, last) then {ParseChunk(env.num, last.payload).value.idx} else {})
  }

  predicate Whole(m: Sent, got: set<nat>)
    requires ValidSent(m)
  {
    forall i :: 0 <= i < TotalChunks(m.json, m.sliceChars) ==> i in got
  }

  lemma CarriedChunk(env: Env, m: Sent, a: Arrival)
    requires ReadsDecimals(env.num) && ValidSent(m) && Carries(env, m, a)
    requires a.payload in Encoded(m.docId, m.msgId, m.json, m.sliceChars)
    ensures var c := ParseChunk(env.num, a.payload);
      c.Some? && c.value.idx < c.value.total
      && c.value == ChunkOf(m.docId, m.msgId, m.json, m.sliceChars, c.value.idx)
  {
    var i :| 0 <= i < TotalChunks(m.json, m.sliceChars)
          && a.payload == Encoded(m.docId, m.msgId, m.json, m.sliceChars)[i];
    ParseOfPayload(env.num, ChunkOf(m.docId, m.msgId, m.json, m.sliceChars, i));
  }

  /** The slices of the message that are in `got`, and holes elsewhere. */
  predicate Holds(m: Sent, p: Partial, got: set<nat>, since: int)
    requires ValidSent(m)
  {
    && p.total == TotalChunks(m.json, m.sliceChars) == |p.slices| && p.firstSeen == since
    && forall i :: 0 <= i < p.total ==> p.slices[i] == if i in got then Some(SliceOf(m.json, m.sliceChars, i)) else None
  }

  /** Between arrivals: nothing of the message yet, or a partial that holds exactly what arrived. */
  predicate Tracks(m: Sent, s: Reassembly, got: set<nat>, since: int)
    requires ValidSent(m)
  {
    var key := Key(m.docId, m.msgId);
    && key !in s.completed
    && (got == {} ==> key !in s.partials)
    && (got != {} ==> key in s.partials && Holds(m, s.partials[key], got, since))
  }

  lemma OtherTraffic(env: Env, m: Sent, s: Reassembly, a: Arrival, got: set<nat>, since: int)
    requires Inv(s) && ValidSent(m) && Tracks(m, s, got, since) && !Carries(env, m, a)
    requires a.now - since <= PARTIAL_TTL_MS
    ensures Tracks(m, Add(env, s, a.payload, a.now).0, got, since)
  {
    var key := Key(m.docId, m.msgId);
    var t := Add(env, s, a.payload, a.now).0;
    assert key in t.partials <==> key in s.partials;
    assert key in t.partials ==> t.partials[key] == s.partials[key];
  }

  lemma HeldIsWhole(m: Sent, p: Partial, got: set<nat>, since: int)
    requires ValidSent(m) && Holds(m, p, got, since)
    ensures CountSome(p.slices) == p.total <==> Whole(m, got)
    ensures Whole(m, got) ==> Join(Texts(p.slices)) == m.json
  {
    FullWhenCounted(p.slices);
    assert Whole(m, got) <==> forall i :: 0 <= i < p.total ==> p.slices[i].Some?;
    if Whole(m, got) {
      assert Texts(p.slices) == Slices(m.json, m.sliceChars, p.total);
      SlicesJoin(m.json, m.sliceChars);
    }
  }

  lemma PutHolds(m: Sent, p: Partial, got: set<nat>, since: int, idx: nat)
    requires ValidSent(m) && Holds(m, p, got, since) && p.received == CountSome(p.slices) && idx < p.total
    ensures var q := PutSlice(p, idx, SliceOf(m.json, m.sliceChars, idx));
      Holds(m, q, got + {idx}, since) && q.received == CountSome(q.slices)
  {
    PutKeepsShape(p, idx, SliceOf(m.json, m.sliceChars, idx));
  }

  lemma OnlyChunk(valid: string -> bool, m: Sent, s: Reassembly, c: Chunk, now: int)
    requires Inv(s) && ValidSent(m) && Key(m.docId, m.msgId) !in s.completed
    requires c.idx < c.total == 1 && c == ChunkOf(m.docId, m.msgId, m.json, m.sliceChars, c.idx)
    ensures AddChunk(valid, s, c, now).1 == if valid(m.json) then Message(m.json) else SyntaxError
  {
    SlicesJoin(m.json, m.sliceChars);
    var one := Slices(m.json, m.sliceChars, 1);
    assert one[..0] == [] && Join(one) == Join(one[..0]) + one[0];
    assert c.slice == m.json;
  }

  /** A chunk is added to what is held, and completes the message when nothing is missing. */
  lemma OwnChunk(valid: string -> bool, m: Sent, s: Reassembly, c: Chunk, now: int, got: set<nat>, since: int)
    requires Inv(s) && ValidSent(m) && Tracks(m, s, got, since)
    requires got == {} ==> since == now
    requires c.idx < c.total && c.total > 1 && c == ChunkOf(m.docId, m.msgId, m.json, m.sliceChars, c.idx)
    ensures var (t, out) := AddChunk(valid, s, c, now);
      if Whole(m, got + {c.idx}) then
        out == (if valid(m.json) then Message(m.json) else SyntaxError)
      else
        out == Pending && Tracks(m, t, got + {c.idx}, since)
  {
    CountOfNew(c.total);
    var p := PartialFor(s, c, now);
    assert Holds(m, p, got, since) && p.received == CountSome(p.slices);
    PutHolds(m, p, got, since, c.idx);
    var q := PutSlice(p, c.idx, c.slice);
    HeldIsWhole(m, q, got + {c.idx}, since);
    HeldDecides(valid, m, s, c, now, q);
    assert c.idx in got + {c.idx};
  }

  lemma HeldDecides(valid: string -> bool, m: Sent, s: Reassembly, c: Chunk, now: int, q: Partial)
    requires Inv(s) && ValidSent(m) && c.idx < c.total && c.total > 1 && c.total <= MAX_ARRAY_LENGTH
    requires KeyOf(c) !in s.completed && q == PutSlice(PartialFor(s, c, now), c.idx, c.slice)
    ensures AddChunk(valid, s, c, now) ==
      if q.received < q.total then (s.(partials := s.partials[KeyOf(c) := q]), Pending)
      else Parsed(valid, s.(partials := s.partials - {KeyOf(c)}), KeyOf(c), Join(Texts(q.slices)))
  {}

  lemma OwnParsed(valid: string -> bool, m: Sent, s: Reassembly, c: Chunk, now: int, got: set<nat>, since: int)
    requires Inv(s) && ValidSent(m) && Tracks(m, s, got, since)
    requires got == {} ==> since == now
    requires c.idx < c.total && c == ChunkOf(m.docId, m.msgId, m.json, m.sliceChars, c.idx)
    ensures var (t, out) := AddChunk(valid, s, c, now);
      if Whole(m, got + {c.idx}) then
        out == (if valid(m.json) then Message(m.json) else SyntaxError)
      else
        out == Pending && Tracks(m, t, got + {c.idx}, since)
  {
    if c.total == 1 {
      OnlyChunk(valid, m, s, c, now);
      assert c.idx in got + {c.idx};
    } else {
      OwnChunk(valid, m, s, c, now, got, since);
    }
  }

  lemma SweepKeepsTracks(m: Sent, s: Reassembly, got: set<nat>, since: int, now: int)
    requires Inv(s) && ValidSent(m) && Tracks(m, s, got, since) && now - since <= PARTIAL_TTL_MS
    ensures Inv(Sweep(s, now)) && Tracks(m, Sweep(s, now), got, since)
  {}

  lemma OwnArrival(env: Env, m: Sent, s: Reassembly, a: Arrival, got: set<nat>, since: int)
    requires ReadsDecimals(env.num) && Inv(s) && ValidSent(m) && Tracks(m, s, got, since) && Carries(env, m, a)
    requires a.payload in Encoded(m.docId, m.msgId, m.json, m.sliceChars)
    requires a.now - since <= PARTIAL_TTL_MS && (got == {} ==> since == a.now)
    ensures var (t, out) := Add(env, s, a.payload, a.now);
      var now := got + {ParseChunk(env.num, a.payload).value.idx};
      if Whole(m, now) then out == (if env.valid(m.json) then Message(m.json) else SyntaxError)
      else out == Pending && Tracks(m, t, now, since)
  {
    CarriedChunk(env, m, a);
    SweepKeepsTracks(m, s, got, since, a.now);
    OwnParsed(env.valid, m, Sweep(s, a.now), ParseChunk(env.num, a.payload).value, a.now, got, since);
  }

  /** Nothing is delivered for the message. */
  ghost predicate Silent(env: Env, m: Sent, s: Reassembly, input: seq<Arrival>)
    requires Inv(s)
  {
    forall i :: 0 <= i < |input| && Carries(env, m, input[i]) ==> OutAt(env, s, input, i) == Pending
  }

  lemma SilentPrefix(env: Env, m: Sent, s: Reassembly, input: seq<Arrival>, i: nat)
    requires Inv(s) && i < |input| - 1 && Silent(env, m, s, input[..|input| - 1]) && Carries(env, m, input[i])
    ensures OutAt(env, s, input, i) == Pending
  {
    var before := input[..|input| - 1];
    assert before[..i] == input[..i] && before[i] == input[i];
    assert OutAt(env, s, before, i) == Pending;
  }

  lemma SilentSnoc(env: Env, m: Sent, s: Reassembly, input: seq<Arrival>)
    requires Inv(s) && input != [] && Silent(env, m, s, input[..|input| - 1])
    requires Carries(env, m, input[|input| - 1]) ==> OutAt(env, s, input, |input| - 1) == Pending
    ensures Silent(env, m, s, input)
  {
    forall i | 0 <= i < |input| - 1 && Carries(env, m, input[i])
      ensures OutAt(env, s, input, i) == Pending
    {
      SilentPrefix(env, m, s, input, i);
    }
  }

  /** The window of a theorem: it starts with a chunk of an unseen message and lasts no longer than the TTL. */
  ghost predicate Window(env: Env, m: Sent, s: Reassembly, input: seq<Arrival>) {
    && ReadsDecimals(env.num) && Inv(s) && ValidSent(m)
    && Key(m.docId, m.msgId) !in s.completed && Key(m.docId, m.msgId) !in s.partials
    && input != [] && Carries(env, m, input[0]) && OnlyEncoded(env, m, input)
    && forall i :: 0 <= i < |input| ==> input[i].now - input[0].now <= PARTIAL_TTL_MS
  }

  /** Until the message is whole, nothing is delivered for it and nothing of it is lost. */
  lemma {:induction false} NothingLost(env: Env, m: Sent, s: Reassembly, input: seq<Arrival>)
    requires Window(env, m, s, input) && !Whole(m, Got(env, m, input))
    ensures Tracks(m, Run(env, s, input), Got(env, m, input), input[0].now)
    ensures Got(env, m, input) != {}
    ensures Silent(env, m, s, input)
    decreases |input|
  {
    var n := |input| - 1;
    if n == 0 {
      assert input[..n] == [] && Got(env, m, []) == {};
    } else {
      NothingLost(env, m, s, input[..n]);
    }
    NextArrival(env, m, s, input);
    SilentSnoc(env, m, s, input);
  }

  lemma NextArrival(env: Env, m: Sent, s: Reassembly, input: seq<Arrival>)
    requires Window(env, m, s, input)
    requires var n := |input| - 1; Tracks(m, Run(env, s, input[..n]), Got(env, m, input[..n]), input[0].now)
    requires |input| > 1 ==> Got(env, m, input[..|input| - 1]) != {}
    ensures var n := |input| - 1;
      Carries(env, m, input[n]) ==>
        OutAt(env, s, input, n) ==
          if !Whole(m, Got(env, m, input)) then Pending else if env.valid(m.json) then Message(m.json) else SyntaxError
    ensures !Whole(m, Got(env, m, input)) ==> Tracks(m, Run(env, s, input), Got(env, m, input), input[0].now)
  {
    var n := |input| - 1;
    var before, a := input[..n], input[n];
    if Carries(env, m, a) {
      OwnArrival(env, m, Run(env, s, before), a, Got(env, m, before), input[0].now);
    } else {
      OtherTraffic(env, m, Run(env, s, before), a, Got(env, m, before), input[0].now);
    }
  }

  /**
   * A message whose chunks all arrive within the TTL, in any order, duplicated, and interleaved with
   * any other traffic, is delivered with the text that was sent, when its last missing chunk arrives.
   */
  lemma DeliveredAtLastMissingChunk(env: Env, m: Sent, s: Reassembly, input: seq<Arrival>)
    requires Window(env, m, s, input)
    requires Whole(m, Got(env, m, input)) && !Whole(m, Got(env, m, input[..|input| - 1]))
    ensures OutAt(env, s, input, |input| - 1) == if env.valid(m.json) then Message(m.json) else SyntaxError
    ensures Silent(env, m, s, input[..|input| - 1])
  {
    var n := |input| - 1;
    if n == 0 {
      assert input[..n] == [] && Got(env, m, []) == {};
    } else {
      NothingLost(env, m, s, input[..n]);
    }
    NextArrival(env, m, s, input);
    assert Carries(env, m, input[n]);
  }

  lemma StaysUntouched(env: Env, m: Sent, s: Reassembly, a: Arrival)
    requires Inv(s) && !Carries(env, m, a)
    requires Key(m.docId, m.msgId) !in s.completed && Key(m.docId, m.msgId) !in s.partials
    ensures var t := Add(env, s, a.payload, a.now).0;
      Key(m.docId, m.msgId) !in t.completed && Key(m.docId, m.msgId) !in t.partials
  {}

  /** Traffic without the message's key leaves no trace of it, so the theorem above applies after any such prefix. */
  lemma {:induction false} UntouchedByOthers(env: Env, m: Sent, input: seq<Arrival>)
    requires forall i :: 0 <= i < |input| ==> !Carries(env, m, input[i])
    ensures var s := Run(env, EMPTY, input); var key := Key(m.docId, m.msgId);
      key !in s.completed && key !in s.partials
  {
    if input != [] {
      var n := |input| - 1;
      UntouchedByOthers(env, m, input[..n]);
      StaysUntouched(env, m, Run(env, EMPTY, input[..n]), input[n]);
    }
  }
}

module Chunks {
  import opened Protocol
  import opened ChunkModel

  datatype EncodeResult = Ok(payloads: seq<string>) | RangeError

  /** Frame one JSON text into payloads. */
  method EncodeChunks(docId: int, msgId: int, json: string, sliceChars: int) returns (r: EncodeResult)
    ensures r.RangeError? <==> docId < 0 || docId > MAX_DOC_ID || msgId < 0 || sliceChars <= 0
    ensures r.Ok? ==> r.payloads == Encoded(docId, msgId, json, sliceChars)
  {
    if docId < 0 || docId > MAX_DOC_ID { return RangeError; }
    if msgId < 0 { return RangeError; }
    if sliceChars <= 0 { return RangeError; }
    var total := Max(1, (|json| + sliceChars - 1) / sliceChars);
    var out: seq<string> := [];
    for i := 0 to total
      invariant |out| == i
      invariant forall k :: 0 <= k < i ==> out[k] == Payload(ChunkOf(docId, msgId, json, sliceChars, k))
    {
      var lo, hi := Min(i * sliceChars, |json|), Min((i + 1) * sliceChars, |json|);
      assert i * sliceChars <= (i + 1) * sliceChars;
      out := out + [PREFIX + "|" + Dec(docId) + "|" + Dec(msgId) + "|" + Dec(i) + "|" + Dec(total) + "|" + json[lo..hi]];
    }
    return Ok(out);
  }

  class ChunkReassembler {
    const env: Env
    var partials: map<Key, Partial>
    var completed: set<Key>
    var completedOrder: seq<Key>

    ghost function View(): Reassembly
      reads this
    {
      Reassembly(partials, completed, completedOrder)
    }

    ghost predicate Valid()
      reads this
    {
      Inv(View())
    }

    constructor (env: Env)
      ensures Valid() && View() == EMPTY && this.env == env
    {
      this.env := env;
      partials, completed, completedOrder := map[], {}, [];
    }

    method Add(payload: string, now: int) returns (out: Outcome)
      requires Valid()
      modifies this
      ensures Valid() && (View(), out) == ChunkModel.Add(env, old(View()), payload, now)
    {
      AddKeepsInv(env, View(), payload, now);
      SweepPartials(now);
      var c := ParseChunk(env.num, payload);
      if c.None? { return Pending; }
      out := AddParsed(c.value, now);
    }

    method AddParsed(c: Chunk, now: int) returns (out: Outcome)
      requires Valid() && c.idx < c.total
      modifies this
      ensures (View(), out) == AddChunk(env.valid, old(View()), c, now)
    {
      var key := KeyOf(c);
      if key in completed { return Pending; }
      if c.total == 1 {
        if !env.valid(c.slice) { return SyntaxError; }
        RememberCompleted(key);
        return Message(c.slice);
      }
      var p: Partial;
      if key in partials && partials[key].total == c.total {
        p := partials[key];
      } else {
        if c.total > MAX_ARRAY_LENGTH { return InvalidLength; }
        p := NewPartial(c.total, now);
      }
      if p.slices[c.idx].None? {
        p := p.(slices := p.slices[c.idx := Some(c.slice)], received := p.received + 1);
      }
      if p.received < p.total {
        partials := partials[key := p];
        return Pending;
      }
      partials := partials - {key};
      var json := Join(Texts(p.slices));
      if !env.valid(json) { return SyntaxError; }
      RememberCompleted(key);
      return Message(json);
    }

    /** Drop partials older than the TTL. */
    method SweepPartials(now: int)
      modifies this`partials
      ensures View() == Sweep(old(View()), now)
    {
      var todo := partials.Keys;
      while todo != {}
        invariant todo <= old(partials).Keys
        invariant partials == map k | k in old(partials) && (k in todo || Fresh(old(partials)[k], now)) :: old(partials)[k]
        decreases |todo|
      {
        var key :| key in todo;
        todo := todo - {key};
        if now - partials[key].firstSeen > PARTIAL_TTL_MS {
          partials := partials - {key};
        }
      }
    }

    method RememberCompleted(key: Key)
      modifies this`completed, this`completedOrder
      ensures View() == Remember(old(View()), key)
    {
      completed := completed + {key};
      completedOrder := completedOrder + [key];
      if |completedOrder| <= RECENT_COMPLETED_MESSAGES { return; }
      var expired := completedOrder[0];
      completedOrder := completedOrder[1..];
      completed := completed - {expired};
    }
  }
}
