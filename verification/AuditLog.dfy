/** The hash-chained audit log: appending, verifying, and what verification says about tampering
    (src/cam/core/audit/service.py). The hash is any function of the previous hash and the record body. */
module AuditLog {
  import opened Wrappers

  type Digest = string

  function ZeroDigits(n: nat): string {
    if n == 0 then "" else ZeroDigits(n - 1) + "0"
  }

  const GENESIS: Digest := ZeroDigits(64)

  /** The hashed fields of a record apart from the previous hash; dictionaries stand as their canonical
      serialisation. */
  datatype Entry = Entry(actor: string, action: string, inputs: string, outputs: string,
                         approval: Option<string>, timestamp: string, run: Option<string>)

  /** What is serialised and hashed: the entry together with the previous hash. */
  datatype Body = Body(entry: Entry, prev: Digest)

  type HashFn = (Digest, Body) -> Digest

  datatype Row = Row(id: nat, entry: Entry, prev: Digest, hash: Digest)

  datatype Verdict = Intact | BrokenAt(id: nat)

  function LastHash(rows: seq<Row>): Digest {
    if rows == [] then GENESIS else rows[|rows| - 1].hash
  }

  /** Row `k` continues the chain: it names the hash before it and carries its own. */
  predicate Linked(h: HashFn, rows: seq<Row>, k: nat)
    requires k < |rows|
  {
    rows[k].prev == LastHash(rows[..k]) && rows[k].hash == h(rows[k].prev, Body(rows[k].entry, rows[k].prev))
  }

  ghost predicate Chained(h: HashFn, rows: seq<Row>) {
    forall k :: 0 <= k < |rows| ==> Linked(h, rows, k)
  }

  /** The chain breaks first at row `k`. */
  ghost predicate BreaksAt(h: HashFn, rows: seq<Row>, k: nat) {
    k < |rows| && !Linked(h, rows, k) && forall j :: 0 <= j < k ==> Linked(h, rows, j)
  }

  ghost predicate IdsAscend(rows: seq<Row>) {
    forall i, j :: 0 <= i < j < |rows| ==> rows[i].id < rows[j].id
  }

  /** The rows that recording `entries` in turn appends, under the given ids. */
  function Recording(h: HashFn, entries: seq<Entry>, ids: seq<nat>): (rows: seq<Row>)
    requires |ids| == |entries|
    ensures |rows| == |entries|
  {
    if entries == [] then []
    else
      var n := |entries| - 1;
      var before := Recording(h, entries[..n], ids[..n]);
      before + [Row(ids[n], entries[n], LastHash(before), h(LastHash(before), Body(entries[n], LastHash(before))))]
  }

  class AuditService {
    const hash: HashFn
    var rows: seq<Row>
    var nextId: nat

    constructor (h: HashFn)
      ensures Valid() && rows == [] && hash == h
    {
      hash := h;
      rows, nextId := [], 0;
    }

    ghost predicate Valid()
      reads this
    {
      IdsAscend(rows) && forall k :: 0 <= k < |rows| ==> rows[k].id < nextId
    }

    /** Append one record, chained to the latest row. */
    method Record(entry: Entry) returns (row: Row)
      requires Valid()
      modifies this
      ensures Valid() && rows == old(rows) + [row]
      ensures var prev := if old(rows) == [] then GENESIS else old(rows)[|old(rows)| - 1].hash;
        row == Row(old(nextId), entry, prev, hash(prev, Body(entry, prev)))
      ensures nextId == old(nextId) + 1
      ensures Chained(hash, old(rows)) ==> Chained(hash, rows)
    {
      var prev := if rows == [] then GENESIS else rows[|rows| - 1].hash;
      row := Row(nextId, entry, prev, hash(prev, Body(entry, prev)));
      ghost var before := rows;
      rows := rows + [row];
      nextId := nextId + 1;
      ChainedSnoc(hash, before, row);
    }

    /** Walk the whole log in id order and report the first row that breaks the chain. */
    method Verify() returns (verdict: Verdict)
      ensures verdict == Intact <==> Chained(hash, rows)
      ensures verdict.BrokenAt? ==> exists k: nat :: BreaksAt(hash, rows, k) && verdict.id == rows[k].id
      ensures forall k: nat :: BreaksAt(hash, rows, k) ==> verdict == BrokenAt(rows[k].id)
    {
      hide GENESIS;
      var expected := GENESIS;
      for i := 0 to |rows|
        invariant expected == LastHash(rows[..i])
        invariant forall j :: 0 <= j < i ==> Linked(hash, rows, j)
      {
        var row := rows[i];
        if row.prev != expected {
          assert BreaksAt(hash, rows, i);
          return BrokenAt(row.id);
        }
        if row.hash != hash(row.prev, Body(row.entry, row.prev)) {
          assert BreaksAt(hash, rows, i);
          return BrokenAt(row.id);
        }
        expected := row.hash;
      }
      verdict := Intact;
    }
  }

  // ----- What an intact log is -----

  lemma LinkedWithin(h: HashFn, rows: seq<Row>, n: nat, k: nat)
    requires k < n <= |rows|
    ensures Linked(h, rows[..n], k) <==> Linked(h, rows, k)
  {
    assert rows[..n][..k] == rows[..k];
  }

  /** Truncation at the end is not detected: every prefix of an intact log is intact. */
  lemma PrefixIntact(h: HashFn, rows: seq<Row>, n: nat)
    requires Chained(h, rows) && n <= |rows|
    ensures Chained(h, rows[..n])
  {
    forall k | 0 <= k < n
      ensures Linked(h, rows[..n], k)
    {
      LinkedWithin(h, rows, n, k);
    }
  }

  lemma ChainedSnoc(h: HashFn, rows: seq<Row>, row: Row)
    ensures Chained(h, rows + [row]) <==>
      Chained(h, rows) && row.prev == LastHash(rows) && row.hash == h(row.prev, Body(row.entry, row.prev))
  {
    var all := rows + [row];
    var n := |rows|;
    assert all[..n] == rows;
    assert Linked(h, all, n) <==> row.prev == LastHash(rows) && row.hash == h(row.prev, Body(row.entry, row.prev));
    forall k | 0 <= k < n
      ensures Linked(h, all, k) <==> Linked(h, rows, k)
    {
      LinkedWithin(h, all, n, k);
    }
  }

  function EntriesOf(rows: seq<Row>): (entries: seq<Entry>)
    ensures |entries| == |rows|
  {
    seq(|rows|, i requires 0 <= i < |rows| => rows[i].entry)
  }

  function IdsOf(rows: seq<Row>): (ids: seq<nat>)
    ensures |ids| == |rows|
  {
    seq(|rows|, i requires 0 <= i < |rows| => rows[i].id)
  }

  /** A log verifies exactly when recording its entries in order produces it. */
  lemma {:induction false} IntactIffRecorded(h: HashFn, rows: seq<Row>)
    ensures Chained(h, rows) <==> rows == Recording(h, EntriesOf(rows), IdsOf(rows))
    decreases |rows|
  {
    if rows != [] {
      var n := |rows| - 1;
      var before := rows[..n];
      assert rows == before + [rows[n]];
      assert EntriesOf(rows)[..n] == EntriesOf(before) && IdsOf(rows)[..n] == IdsOf(before);
      IntactIffRecorded(h, before);
      ChainedSnoc(h, before, rows[n]);
      var made := Recording(h, EntriesOf(before), IdsOf(before));
      assert rows == Recording(h, EntriesOf(rows), IdsOf(rows)) ==> made == before;
    }
  }

  lemma RecordingStep(h: HashFn, entries: seq<Entry>, ids: seq<nat>)
    requires |ids| == |entries| && entries != []
    ensures var n := |entries| - 1; var before := Recording(h, entries[..n], ids[..n]);
      var last := LastHash(before);
      Recording(h, entries, ids) == before + [Row(ids[n], entries[n], last, h(last, Body(entries[n], last)))]
  {
    hide LastHash;
  }

  /** What a recording contains does not depend on the ids the rows get. */
  lemma {:induction false} RecordingById(h: HashFn, entries: seq<Entry>, a: seq<nat>, b: seq<nat>)
    requires |a| == |b| == |entries|
    ensures SameContent(Recording(h, entries, a), Recording(h, entries, b))
    decreases |entries|
  {
    hide Recording, GENESIS;
    if entries != [] {
      var n := |entries| - 1;
      RecordingById(h, entries[..n], a[..n], b[..n]);
      RecordingStep(h, entries, a);
      RecordingStep(h, entries, b);
      assert LastHash(Recording(h, entries[..n], a[..n])) == LastHash(Recording(h, entries[..n], b[..n]));
    }
  }

  /** Its ids and entries are those given. */
  lemma {:induction false} RecordingOf(h: HashFn, entries: seq<Entry>, ids: seq<nat>)
    requires |ids| == |entries|
    ensures IdsOf(Recording(h, entries, ids)) == ids && EntriesOf(Recording(h, entries, ids)) == entries
    decreases |entries|
  {
    hide Recording, GENESIS, LastHash;
    if entries != [] {
      var n := |entries| - 1;
      RecordingOf(h, entries[..n], ids[..n]);
      RecordingStep(h, entries, ids);
      var before := Recording(h, entries[..n], ids[..n]);
      RowsSnoc(before, Recording(h, entries, ids)[n]);
      assert ids == ids[..n] + [ids[n]] && entries == entries[..n] + [entries[n]];
    }
  }

  lemma RowsSnoc(rows: seq<Row>, row: Row)
    ensures IdsOf(rows + [row]) == IdsOf(rows) + [row.id] && EntriesOf(rows + [row]) == EntriesOf(rows) + [row.entry]
  {
  }

  function Numbers(n: nat): (ids: seq<nat>)
    ensures |ids| == n
  {
    if n == 0 then [] else Numbers(n - 1) + [n - 1]
  }

  /** Recording the entries one call after another on an empty log leaves exactly their recording, under
      ascending ids. */
  method RecordAll(service: AuditService, entries: seq<Entry>)
    requires service.Valid() && service.rows == [] && service.nextId == 0
    modifies service
    ensures service.Valid() && IdsAscend(service.rows)
    ensures service.rows == Recording(service.hash, entries, Numbers(|entries|))
  {
    hide Chained, GENESIS, Linked;
    for i := 0 to |entries|
      invariant service.Valid() && service.nextId == i
      invariant service.rows == Recording(service.hash, entries[..i], Numbers(i))
    {
      var row := service.Record(entries[i]);
      assert entries[..i + 1][..i] == entries[..i] && Numbers(i + 1)[..i] == Numbers(i);
    }
    assert entries[..|entries|] == entries;
  }

  /** A log verifies exactly if, ids apart, it is what recording its entries one after another on an empty
      log leaves. */
  lemma IntactIffReplayed(h: HashFn, rows: seq<Row>)
    ensures Chained(h, rows) <==> SameContent(rows, Recording(h, EntriesOf(rows), Numbers(|rows|)))
  {
    hide Chained, Recording, Numbers, SameContent, EntriesOf, IdsOf;
    IntactIffRecorded(h, rows);
    RecordingById(h, EntriesOf(rows), IdsOf(rows), Numbers(|rows|));
    RecordingOf(h, EntriesOf(rows), IdsOf(rows));
    SameButIds(rows, Recording(h, EntriesOf(rows), IdsOf(rows)), Recording(h, EntriesOf(rows), Numbers(|rows|)));
  }

  lemma SameButIds(rows: seq<Row>, made: seq<Row>, replayed: seq<Row>)
    requires SameContent(made, replayed) && IdsOf(made) == IdsOf(rows)
    ensures rows == made <==> SameContent(rows, replayed)
  {
    if SameContent(rows, replayed) {
      forall k | 0 <= k < |rows|
        ensures rows[k] == made[k]
      {
        assert IdsOf(made)[k] == IdsOf(rows)[k];
      }
    }
  }

  // ----- Tamper evidence -----

  /** Among the rows at hand, two different inputs hash alike, or one hashes to the genesis value. */
  ghost predicate Collides(h: HashFn, rows: seq<Row>) {
    || (exists r <- rows, s <- rows ::
          && (r.prev, r.entry) != (s.prev, s.entry)
          && h(r.prev, Body(r.entry, r.prev)) == h(s.prev, Body(s.entry, s.prev)))
    || (exists r <- rows :: h(r.prev, Body(r.entry, r.prev)) == GENESIS)
  }

  lemma CollidesWithin(h: HashFn, some: seq<Row>, all: seq<Row>)
    requires Collides(h, some) && forall r <- some :: r in all
    ensures Collides(h, all)
  {
    hide GENESIS;
  }

  /** The logs agree on every hashed field. */
  ghost predicate SameContent(a: seq<Row>, b: seq<Row>) {
    |a| == |b| && forall k :: 0 <= k < |a| ==>
      a[k].entry == b[k].entry && a[k].prev == b[k].prev && a[k].hash == b[k].hash
  }

  /** Two intact logs that end in the same hash have the same length and content, or the rows of the two
      logs hold a hash collision. Nothing is assumed of the hash. */
  lemma {:induction false} TamperEvidence(h: HashFn, a: seq<Row>, b: seq<Row>)
    requires Chained(h, a) && Chained(h, b) && LastHash(a) == LastHash(b)
    ensures SameContent(a, b) || Collides(h, a + b)
    decreases |a|
  {
    hide Collides, SameContent;
    if a == [] && b == [] {
      SameEmpty(a, b);
    } else if a == [] {
      assert Linked(h, b, |b| - 1);
      GenesisCollides(h, a + b, b[|b| - 1]);
    } else if b == [] {
      assert Linked(h, a, |a| - 1);
      GenesisCollides(h, a + b, a[|a| - 1]);
    } else {
      var m, n := |a| - 1, |b| - 1;
      assert Linked(h, a, m) && Linked(h, b, n);
      if (a[m].prev, a[m].entry) == (b[n].prev, b[n].entry) {
        PrefixIntact(h, a, m);
        PrefixIntact(h, b, n);
        TamperEvidence(h, a[..m], b[..n]);
        if Collides(h, a[..m] + b[..n]) {
          CollidesWithin(h, a[..m] + b[..n], a + b);
        } else {
          SameSnoc(a, b);
        }
      } else {
        PairCollides(h, a + b, a[m], b[n]);
      }
    }
  }

  lemma GenesisCollides(h: HashFn, rows: seq<Row>, r: Row)
    requires r in rows && h(r.prev, Body(r.entry, r.prev)) == GENESIS
    ensures Collides(h, rows)
  {
  }

  lemma PairCollides(h: HashFn, rows: seq<Row>, r: Row, s: Row)
    requires r in rows && s in rows && (r.prev, r.entry) != (s.prev, s.entry)
    requires h(r.prev, Body(r.entry, r.prev)) == h(s.prev, Body(s.entry, s.prev))
    ensures Collides(h, rows)
  {
  }

  lemma SameEmpty(a: seq<Row>, b: seq<Row>)
    requires a == [] && b == []
    ensures SameContent(a, b)
  {
  }

  lemma SameSnoc(a: seq<Row>, b: seq<Row>)
    requires a != [] && b != [] && SameContent(a[..|a| - 1], b[..|b| - 1])
    requires a[|a| - 1].(id := 0) == b[|b| - 1].(id := 0)
    ensures SameContent(a, b)
  {
  }

  /** Along an intact log all hashes are distinct, and none is the genesis value. */
  lemma HashesDistinct(h: HashFn, rows: seq<Row>, i: nat, j: nat)
    requires Chained(h, rows) && !Collides(h, rows) && i < j <= |rows|
    ensures LastHash(rows[..i]) != LastHash(rows[..j])
  {
    hide GENESIS, Collides;
    PrefixIntact(h, rows, i);
    PrefixIntact(h, rows, j);
    if LastHash(rows[..i]) == LastHash(rows[..j]) {
      TamperEvidence(h, rows[..i], rows[..j]);
      CollidesWithin(h, rows[..i] + rows[..j], rows);
    }
  }

  lemma LinkedPrefix(h: HashFn, rows: seq<Row>, other: seq<Row>, n: nat)
    requires Chained(h, rows) && n <= |rows| && n <= |other| && other[..n] == rows[..n]
    ensures forall j :: 0 <= j < n ==> Linked(h, other, j)
  {
    forall j | 0 <= j < n
      ensures Linked(h, other, j)
    {
      LinkedWithin(h, other, n, j);
      LinkedWithin(h, rows, n, j);
    }
  }

  /** Different inputs never hash alike. */
  ghost predicate Injective(h: HashFn) {
    forall p, q, b, c :: h(p, b) == h(q, c) ==> p == q && b == c
  }

  /** An injective hash that never takes the genesis value. */
  ghost predicate Ideal(h: HashFn) {
    Injective(h) && forall p, b :: h(p, b) != GENESIS
  }

  /** Editing what a stored row says, its two hashes kept, is located exactly there unless the old and the
      new text hash alike, and goes unnoticed if they do. */
  lemma EditLocatedIff(h: HashFn, rows: seq<Row>, k: nat, entry: Entry)
    requires Chained(h, rows) && k < |rows|
    ensures var edited := rows[k := rows[k].(entry := entry)];
      if h(rows[k].prev, Body(entry, rows[k].prev)) == h(rows[k].prev, Body(rows[k].entry, rows[k].prev))
      then Chained(h, edited) else BreaksAt(h, edited, k)
  {
    var edited := rows[k := rows[k].(entry := entry)];
    assert edited[..k] == rows[..k];
    LinkedPrefix(h, rows, edited, k);
    assert Linked(h, rows, k);
    forall j | k < j < |rows|
      ensures Linked(h, edited, j)
    {
      assert Linked(h, rows, j);
      assert edited[..j][j - 1] == edited[j - 1] && rows[..j][j - 1] == rows[j - 1];
    }
  }

  /** Under an injective hash every edit of any field of any row, its hash kept, is located exactly there. */
  lemma EditLocated(h: HashFn, rows: seq<Row>, k: nat, row: Row)
    requires Chained(h, rows) && k < |rows| && Injective(h)
    requires row.hash == rows[k].hash && (row.entry != rows[k].entry || row.prev != rows[k].prev)
    ensures BreaksAt(h, rows[k := row], k)
  {
    var edited := rows[k := row];
    assert edited[..k] == rows[..k];
    LinkedPrefix(h, rows, edited, k);
    assert Linked(h, rows, k);
    var was := Body(rows[k].entry, rows[k].prev);
    var now := Body(row.entry, row.prev);
    assert was != now;
    assert h(rows[k].prev, was) == h(row.prev, now) ==> was == now;
  }

  lemma NeverGenesis(h: HashFn, rows: seq<Row>)
    requires Chained(h, rows) && Ideal(h) && rows != []
    ensures LastHash(rows) != GENESIS
  {
    hide GENESIS;
    assert Linked(h, rows, |rows| - 1);
  }

  lemma {:induction false} IdealAgree(h: HashFn, a: seq<Row>, b: seq<Row>)
    requires Chained(h, a) && Chained(h, b) && Ideal(h) && LastHash(a) == LastHash(b)
    ensures SameContent(a, b)
    decreases |a|
  {
    hide GENESIS, SameContent;
    if a == [] && b == [] {
      SameEmpty(a, b);
    } else if a == [] {
      NeverGenesis(h, b);
    } else if b == [] {
      NeverGenesis(h, a);
    } else {
      var m, n := |a| - 1, |b| - 1;
      assert Linked(h, a, m) && Linked(h, b, n);
      PrefixIntact(h, a, m);
      PrefixIntact(h, b, n);
      IdealAgree(h, a[..m], b[..n]);
      SameSnoc(a, b);
    }
  }

  /** Under an ideal hash the last hash of a verifying log fixes every field of every row. */
  lemma LastHashFixesLog(h: HashFn, a: seq<Row>, b: seq<Row>)
    requires Chained(h, a) && Chained(h, b) && Ideal(h)
    ensures LastHash(a) == LastHash(b) <==> SameContent(a, b)
  {
    hide GENESIS;
    if LastHash(a) == LastHash(b) {
      IdealAgree(h, a, b);
    }
  }

  lemma {:induction false} ZeroDigitsAre(n: nat)
    ensures |ZeroDigits(n)| == n && forall i :: 0 <= i < n ==> ZeroDigits(n)[i] == '0'
  {
    if n > 0 {
      ZeroDigitsAre(n - 1);
    }
  }

  /** The chain starts from sixty-four zeros. */
  lemma GenesisIs()
    ensures |GENESIS| == 64 && forall i :: 0 <= i < 64 ==> GENESIS[i] == '0'
  {
    ZeroDigitsAre(64);
  }

  /** Deleting a row other than the last is located at the row that followed it. */
  lemma DeletionLocated(h: HashFn, rows: seq<Row>, k: nat)
    requires Chained(h, rows) && !Collides(h, rows) && k + 1 < |rows|
    ensures BreaksAt(h, rows[..k] + rows[k + 1..], k)
  {
    var cut := rows[..k] + rows[k + 1..];
    assert cut[..k] == rows[..k];
    LinkedPrefix(h, rows, cut, k);
    assert Linked(h, rows, k + 1);
    HashesDistinct(h, rows, k, k + 1);
  }

  /** Swapping two rows is located at the earlier position. */
  lemma SwapLocated(h: HashFn, rows: seq<Row>, i: nat, j: nat)
    requires Chained(h, rows) && !Collides(h, rows) && i < j < |rows|
    ensures BreaksAt(h, rows[i := rows[j]][j := rows[i]], i)
  {
    var mixed := rows[i := rows[j]][j := rows[i]];
    assert mixed[..i] == rows[..i];
    LinkedPrefix(h, rows, mixed, i);
    assert Linked(h, rows, j);
    HashesDistinct(h, rows, i, j);
  }

  /** A row put in place of another with different content is located there if it does not link, and
      otherwise at the next row; only a linking replacement of the last row goes unnoticed. */
  lemma ReplacementLocated(h: HashFn, rows: seq<Row>, k: nat, row: Row)
    requires Chained(h, rows) && !Collides(h, rows + [row]) && k < |rows|
    requires !(row.entry == rows[k].entry && row.prev == rows[k].prev && row.hash == rows[k].hash)
    ensures var changed := rows[k := row];
      if !Linked(h, changed, k) then BreaksAt(h, changed, k)
      else if k + 1 < |rows| then BreaksAt(h, changed, k + 1)
      else Chained(h, changed)
  {
    var changed := rows[k := row];
    assert changed[..k] == rows[..k];
    LinkedPrefix(h, rows, changed, k);
    assert Linked(h, rows, k);
    if Linked(h, changed, k) {
      assert rows[k] in rows + [row] && row in rows + [row];
      assert row.hash != rows[k].hash;
      if k + 1 < |rows| {
        assert Linked(h, rows, k + 1);
        assert changed[..k + 1][k] == row && rows[..k + 1][k] == rows[k];
      }
    }
  }

  /** An inserted row is located where it stands if it does not link, and otherwise at the row it was put
      before; only a linking row at the end goes unnoticed. */
  lemma InsertionLocated(h: HashFn, rows: seq<Row>, k: nat, row: Row)
    requires Chained(h, rows) && !Collides(h, rows + [row]) && k <= |rows|
    ensures var grown := rows[..k] + [row] + rows[k..];
      if !Linked(h, grown, k) then BreaksAt(h, grown, k)
      else if k < |rows| then BreaksAt(h, grown, k + 1)
      else Chained(h, grown)
  {
    var grown := rows[..k] + [row] + rows[k..];
    assert grown[..k] == rows[..k];
    LinkedPrefix(h, rows, grown, k);
    if Linked(h, grown, k) {
      var upto := rows[..k] + [row];
      assert grown[..k + 1] == upto;
      PrefixIntact(h, rows, k);
      ChainedSnoc(h, rows[..k], row);
      LinkedPrefix(h, upto, grown, k + 1);
      if k < |rows| {
        assert Linked(h, rows, k);
        assert upto[..k] == rows[..k] && upto[..k + 1] == upto;
        if Collides(h, upto) {
          CollidesWithin(h, upto, rows + [row]);
        }
        HashesDistinct(h, upto, k, k + 1);
      }
    }
  }
}
