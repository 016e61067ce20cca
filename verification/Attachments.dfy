/** The attachment control: batches of uploads that settle in any order, against removals and
    dismissals. A batch is known by the instant it started, which its row keys carry. */
module Attachments {
  import opened Common
  import opened Text

  datatype Ref = Ref(uri: string, name: string)

  datatype Status = Uploading(percent: Option<nat>) | Failed(message: string)

  datatype Row = Row(key: string, filename: string, status: Status)

  datatype Outcome = Fulfilled(ref: Ref) | Rejected(reason: string)

  /** `started` remembers the files of every batch; `flights` are the batches still uploading. */
  datatype State = State(attached: seq<Ref>, pending: seq<Row>, started: map<nat, seq<string>>, flights: set<nat>)

  datatype Event =
    | Start(batch: nat, files: seq<string>)
    | Progress(batch: nat, index: nat, percent: nat)
    | Settle(batch: nat, uploaded: seq<Outcome>)
    | Remove(uri: string)
    | Dismiss(key: string)
    | Refuse(rows: seq<Row>)

  // ---------------------------------------------------------------- Rows

  function RowKey(batch: nat, index: nat, file: string): string {
    "up-" + Dec(batch) + "-" + Dec(index) + "-" + file
  }

  function Seeds(batch: nat, files: seq<string>): (rows: seq<Row>)
    ensures |rows| == |files|
  {
    seq(|files|, i requires 0 <= i < |files| => Row(RowKey(batch, i, files[i]), files[i], Uploading(None)))
  }

  /** The rows a settled batch leaves behind: one for each rejected upload, in file order. */
  function FailedRows(seeds: seq<Row>, uploaded: seq<Outcome>): seq<Row>
    requires |seeds| == |uploaded|
    decreases |uploaded|
  {
    if uploaded == [] then [] else
    var n := |uploaded| - 1;
    FailedRows(seeds[..n], uploaded[..n])
    + (if uploaded[n].Rejected? then [seeds[n].(status := Failed(uploaded[n].reason))] else [])
  }

  /** The uploads of a batch that succeeded, in file order. */
  function Successes(uploaded: seq<Outcome>): seq<Ref> {
    if uploaded == [] then [] else
    var n := |uploaded| - 1;
    Successes(uploaded[..n]) + (if uploaded[n].Fulfilled? then [uploaded[n].ref] else [])
  }

  predicate Mentions(rows: seq<Row>, key: string) {
    exists row :: row in rows && row.key == key
  }

  function Without(rows: seq<Row>, seeds: seq<Row>): seq<Row> {
    Filter(rows, (row: Row) => !Mentions(seeds, row.key))
  }

  function Advanced(row: Row, key: string, percent: nat): Row {
    if row.key == key && row.status.Uploading? then row.(status := Uploading(Some(percent))) else row
  }

  function AdvanceRows(rows: seq<Row>, key: string, percent: nat): (r: seq<Row>)
    ensures |r| == |rows| && forall i :: 0 <= i < |rows| ==> r[i] == Advanced(rows[i], key, percent)
  {
    if rows == [] then [] else [Advanced(rows[0], key, percent)] + AdvanceRows(rows[1..], key, percent)
  }

  // ---------------------------------------------------------------- Steps

  function FirstOf(refs: seq<Ref>): seq<Ref> {
    if refs == [] then [] else [refs[0]]
  }

  /** `writeBack`: a single-file control keeps only the first. */
  function Written(multiple: bool, refs: seq<Ref>): seq<Ref> {
    if multiple then refs else FirstOf(refs)
  }

  function Settled(multiple: bool, live: seq<Ref>, successes: seq<Ref>): seq<Ref> {
    if successes == [] then live
    else if multiple then live + successes
    else [successes[|successes| - 1]]
  }

  predicate Possible(s: State, e: Event) {
    match e
    case Start(batch, _) => batch !in s.started
    case Progress(batch, index, _) => batch in s.started && index < |s.started[batch]|
    case Settle(batch, uploaded) => batch in s.flights && batch in s.started && |uploaded| == |s.started[batch]|
    case Remove(_) => true
    case Dismiss(key) => exists row :: row in s.pending && row.key == key && row.status.Failed?
    case Refuse(rows) => forall row :: row in rows ==> row.status.Failed? && !("up-" <= row.key)
  }

  function Step(multiple: bool, s: State, e: Event): State
    requires Possible(s, e)
  {
    match e
    case Start(batch, files) =>
      s.(pending := s.pending + Seeds(batch, files), started := s.started[batch := files],
         flights := s.flights + {batch})
    case Progress(batch, index, percent) =>
      s.(pending := AdvanceRows(s.pending, RowKey(batch, index, s.started[batch][index]), percent))
    case Settle(batch, uploaded) =>
      var seeds := Seeds(batch, s.started[batch]);
      s.(attached := Settled(multiple, s.attached, Successes(uploaded)),
         pending := Without(s.pending, seeds) + FailedRows(seeds, uploaded), flights := s.flights - {batch})
    case Remove(uri) => s.(attached := Written(multiple, Filter(s.attached, Other(uri))))
    case Dismiss(key) => s.(pending := Filter(s.pending, OtherKey(key)))
    case Refuse(rows) => s.(pending := s.pending + rows)
  }

  /** The state after a history, or none when the control cannot go through it. */
  function Run(multiple: bool, initial: seq<Ref>, events: seq<Event>): Option<State> {
    if events == [] then Some(State(initial, [], map[], {})) else
    var before, e := Run(multiple, initial, events[..|events| - 1]), events[|events| - 1];
    if before.Some? && Possible(before.value, e) then Some(Step(multiple, before.value, e)) else None
  }

  // ---------------------------------------------------------------- What is attached

  predicate RemovedIn(uri: string, events: seq<Event>) {
    exists e :: e in events && e == Remove(uri)
  }

  function NotRemovedIn(events: seq<Event>): Ref -> bool {
    (r: Ref) => !RemovedIn(r.uri, events)
  }

  /** Those of `refs` that none of the later events removes. */
  function Lasting(refs: seq<Ref>, later: seq<Event>): seq<Ref> {
    Filter(refs, NotRemovedIn(later))
  }

  function SuccessesOf(e: Event): seq<Ref> {
    if e.Settle? then Successes(e.uploaded) else []
  }

  /** Every successful upload that is not removed afterwards, in the order they settled. */
  function Uploaded(events: seq<Event>): seq<Ref> {
    if events == [] then [] else Lasting(SuccessesOf(events[0]), events[1..]) + Uploaded(events[1..])
  }

  function Other(uri: string): Ref -> bool {
    (r: Ref) => r.uri != uri
  }

  function Unless(e: Event, refs: seq<Ref>): seq<Ref> {
    if e.Remove? then Filter(refs, Other(e.uri)) else refs
  }

  lemma RemovedSnoc(uri: string, events: seq<Event>, e: Event)
    ensures RemovedIn(uri, events + [e]) <==> RemovedIn(uri, events) || e == Remove(uri)
  {
    if RemovedIn(uri, events) {
      assert Remove(uri) in events + [e];
    }
    if e == Remove(uri) {
      assert Remove(uri) in events + [e];
    }
  }

  lemma LastingSnoc(refs: seq<Ref>, later: seq<Event>, e: Event)
    ensures Lasting(refs, later + [e]) == Unless(e, Lasting(refs, later))
  {
    forall r: Ref
      ensures RemovedIn(r.uri, later + [e]) <==> RemovedIn(r.uri, later) || e == Remove(r.uri)
    {
      RemovedSnoc(r.uri, later, e);
    }
    var lasts, lasted := NotRemovedIn(later + [e]), NotRemovedIn(later);
    if e.Remove? {
      FilterTwice(refs, lasted, (r: Ref) => r.uri != e.uri, lasts);
    } else {
      FilterSame(refs, lasts, lasted);
    }
  }

  lemma {:induction false} UploadedSnoc(events: seq<Event>, e: Event)
    ensures Uploaded(events + [e]) == Unless(e, Uploaded(events)) + SuccessesOf(e)
  {
    if events == [] {
      assert (events + [e])[1..] == [];
      FilterAll(SuccessesOf(e), NotRemovedIn([]));
    } else {
      assert (events + [e])[1..] == events[1..] + [e];
      UploadedSnoc(events[1..], e);
      LastingSnoc(SuccessesOf(events[0]), events[1..], e);
      var first, rest := Lasting(SuccessesOf(events[0]), events[1..]), Uploaded(events[1..]);
      UnlessConcat(e, first, rest);
      Associative(Unless(e, first), Unless(e, rest), SuccessesOf(e));
    }
  }

  lemma StepAttached(s: State, e: Event)
    requires Possible(s, e)
    ensures Step(true, s, e).attached == Unless(e, s.attached) + SuccessesOf(e)
  {
  }

  lemma UnlessConcat(e: Event, a: seq<Ref>, b: seq<Ref>)
    ensures Unless(e, a + b) == Unless(e, a) + Unless(e, b)
  {
    if e.Remove? {
      FilterConcat(a, b, Other(e.uri));
    }
  }

  lemma FoldStep(s: State, initial: seq<Ref>, most: seq<Event>, e: Event)
    requires Possible(s, e) && s.attached == Lasting(initial, most) + Uploaded(most)
    ensures Step(true, s, e).attached == Lasting(initial, most + [e]) + Uploaded(most + [e])
  {
    var a, b, c := Lasting(initial, most), Uploaded(most), SuccessesOf(e);
    LastingSnoc(initial, most, e);
    UploadedSnoc(most, e);
    StepAttached(s, e);
    UnlessConcat(e, a, b);
    Associative(Unless(e, a), Unless(e, b), c);
  }

  /** In multiple mode the attached list is what was there at first and every successful upload,
      in settlement order, less whatever was removed afterwards. */
  lemma {:induction false} AttachedIsTheFold(initial: seq<Ref>, events: seq<Event>)
    requires Run(true, initial, events).Some?
    ensures Run(true, initial, events).value.attached == Lasting(initial, events) + Uploaded(events)
  {
    if events == [] {
      FilterAll(initial, NotRemovedIn(events));
    } else {
      var most, e := events[..|events| - 1], events[|events| - 1];
      assert events == most + [e];
      AttachedIsTheFold(initial, most);
      FoldStep(Run(true, initial, most).value, initial, most, e);
    }
  }

  /** `r` was attached at the start (`at` zero) or by the settlement just before position `at`. */
  predicate Entered(initial: seq<Ref>, events: seq<Event>, at: nat, r: Ref)
    requires at <= |events|
  {
    if at == 0 then r in initial else r in SuccessesOf(events[at - 1])
  }

  lemma {:induction false} UploadedIff(events: seq<Event>, r: Ref)
    ensures r in Uploaded(events)
            <==> exists at :: 1 <= at <= |events| && r in SuccessesOf(events[at - 1]) && !RemovedIn(r.uri, events[at..])
  {
    if events != [] {
      UploadedIff(events[1..], r);
      var later := events[1..];
      forall at | 1 <= at <= |later|
        ensures later[at - 1] == events[at + 1 - 1] && later[at..] == events[at + 1..]
      {
      }
      if at :| 1 <= at <= |events| && r in SuccessesOf(events[at - 1]) && !RemovedIn(r.uri, events[at..]) {
        if at > 1 {
          assert later[at - 1 - 1] == events[at - 1] && later[at - 1..] == events[at..];
        }
      }
      if r in Lasting(SuccessesOf(events[0]), later) {
        assert r in SuccessesOf(events[1 - 1]) && !RemovedIn(r.uri, events[1..]);
      }
    }
  }

  /** No removed reference returns unless it is uploaded anew, and no upload is lost unless it
      is removed: a reference is attached exactly when nothing removed it since it entered. */
  lemma AttachedIff(initial: seq<Ref>, events: seq<Event>, r: Ref)
    requires Run(true, initial, events).Some?
    ensures r in Run(true, initial, events).value.attached
            <==> exists at :: 0 <= at <= |events| && Entered(initial, events, at, r) && !RemovedIn(r.uri, events[at..])
  {
    AttachedIsTheFold(initial, events);
    UploadedIff(events, r);
    assert events[0..] == events;
    if r in Lasting(initial, events) {
      assert Entered(initial, events, 0, r) && !RemovedIn(r.uri, events[0..]);
    }
    if r in Uploaded(events) {
      var at :| 1 <= at <= |events| && r in SuccessesOf(events[at - 1]) && !RemovedIn(r.uri, events[at..]);
      assert Entered(initial, events, at, r);
    }
  }

  lemma SingleStep(s: State, e: Event)
    requires Possible(s, e)
    ensures SuccessesOf(e) == [] && |s.attached| <= 1 ==> Step(false, s, e).attached == Unless(e, s.attached)
    ensures var batch := SuccessesOf(e);
            batch != [] ==> Step(false, s, e).attached == [batch[|batch| - 1]]
  {
  }

  /** A single-file control holds the last file of the last settlement with a success, until
      that file is removed. */
  lemma {:induction false} SingleModeHoldsTheLatest(initial: seq<Ref>, before: seq<Event>, later: seq<Event>,
                                                    latest: Ref)
    requires before != [] && Run(false, initial, before + later).Some?
    requires var batch := SuccessesOf(before[|before| - 1]);
             batch != [] && batch[|batch| - 1] == latest
    requires forall e :: e in later ==> SuccessesOf(e) == []
    ensures Run(false, initial, before + later).value.attached == Lasting([latest], later)
    decreases |later|
  {
    if later == [] {
      assert before + later == before;
      SingleStep(Run(false, initial, before[..|before| - 1]).value, before[|before| - 1]);
      FilterAll([latest], NotRemovedIn([]));
    } else {
      var most, e := later[..|later| - 1], later[|later| - 1];
      assert later == most + [e] && (before + later)[..|before + later| - 1] == before + most;
      SingleModeHoldsTheLatest(initial, before, most, latest);
      SingleStep(Run(false, initial, before + most).value, e);
      LastingSnoc([latest], most, e);
    }
  }

  // ---------------------------------------------------------------- What is pending

  lemma SamePrefix(p: string, x: string, y: string)
    requires p + x == p + y
    ensures x == y
  {
    assert (p + x)[|p|..] == x && (p + y)[|p|..] == y;
  }

  /** Row keys of different batches, or of different files of one batch, never coincide. */
  lemma RowKeysAreUnique(b: nat, i: nat, f: string, c: nat, j: nat, g: string)
    requires RowKey(b, i, f) == RowKey(c, j, g)
    ensures b == c && i == j && f == g
  {
    var x, y := Dec(i) + "-" + f, Dec(j) + "-" + g;
    assert RowKey(b, i, f) == "up-" + (Dec(b) + "-" + x);
    assert RowKey(c, j, g) == "up-" + (Dec(c) + "-" + y);
    SamePrefix("up-", Dec(b) + "-" + x, Dec(c) + "-" + y);
    SameNumbered(b, x, c, y);
    SameNumbered(i, f, j, g);
  }

  lemma SameNumbered(m: nat, x: string, n: nat, y: string)
    requires Dec(m) + "-" + x == Dec(n) + "-" + y
    ensures m == n && x == y
  {
    SameCut('-', Dec(m), x, Dec(n), y);
    DecInjective(m, n);
  }

  function KeepsKey(seeds: seq<Row>): Row -> bool {
    (row: Row) => Mentions(seeds, row.key)
  }

  /** The pending rows that carry a key of the batch. */
  function BatchRows(pending: seq<Row>, seeds: seq<Row>): seq<Row> {
    Filter(pending, KeepsKey(seeds))
  }

  lemma SeedKeys(batch: nat, files: seq<string>, key: string)
    ensures Mentions(Seeds(batch, files), key) <==> exists i :: 0 <= i < |files| && key == RowKey(batch, i, files[i])
  {
    var seeds := Seeds(batch, files);
    if row :| row in seeds && row.key == key {
      var i :| 0 <= i < |seeds| && seeds[i] == row;
      assert key == RowKey(batch, i, files[i]);
    }
    if i :| 0 <= i < |files| && key == RowKey(batch, i, files[i]) {
      assert seeds[i] in seeds && seeds[i].key == key;
    }
  }

  lemma OtherBatch(b: nat, files: seq<string>, c: nat, others: seq<string>, key: string)
    requires b != c && Mentions(Seeds(b, files), key)
    ensures !Mentions(Seeds(c, others), key)
  {
    SeedKeys(b, files, key);
    SeedKeys(c, others, key);
    var i :| 0 <= i < |files| && key == RowKey(b, i, files[i]);
    if j :| 0 <= j < |others| && key == RowKey(c, j, others[j]) {
      RowKeysAreUnique(b, i, files[i], c, j, others[j]);
    }
  }

  lemma {:induction false} FailedRowsOf(seeds: seq<Row>, uploaded: seq<Outcome>)
    requires |seeds| == |uploaded|
    ensures forall row :: row in FailedRows(seeds, uploaded) ==> row.status.Failed? && Mentions(seeds, row.key)
    decreases |uploaded|
  {
    if uploaded != [] {
      var n := |uploaded| - 1;
      FailedRowsOf(seeds[..n], uploaded[..n]);
      forall row | row in FailedRows(seeds, uploaded)
        ensures row.status.Failed? && Mentions(seeds, row.key)
      {
        if row in FailedRows(seeds[..n], uploaded[..n]) {
          var seed :| seed in seeds[..n] && seed.key == row.key;
          assert seed in seeds;
        } else {
          assert seeds[n] in seeds && seeds[n].key == row.key;
        }
      }
    }
  }

  /** The row was refused outright, or carries the key of a batch that was started; only the
      rows of a batch in flight are uploading. */
  ghost predicate Known(s: State, row: Row) {
    if "up-" <= row.key
    then exists b :: b in s.started && Mentions(Seeds(b, s.started[b]), row.key)
                     && (row.status.Uploading? ==> b in s.flights)
    else row.status.Failed?
  }

  ghost predicate Accounted(s: State) {
    && s.flights <= s.started.Keys
    && forall row :: row in s.pending ==> Known(s, row)
  }

  /** The batch's rows are its seeds, all uploading, whatever their progress. */
  ghost predicate AllUploading(rows: seq<Row>, seeds: seq<Row>) {
    && |rows| == |seeds|
    && forall i :: 0 <= i < |rows| ==> rows[i].status.Uploading? && rows[i].(status := Uploading(None)) == seeds[i]
  }

  function OtherKey(key: string): Row -> bool {
    (row: Row) => row.key != key
  }

  lemma {:induction false} FilterNone(rows: seq<Row>, keep: Row -> bool)
    requires forall row :: row in rows ==> !keep(row)
    ensures Filter(rows, keep) == []
  {
    if rows != [] {
      FilterNone(rows[1..], keep);
    }
  }

  lemma SeedKeysAreMarked(batch: nat, files: seq<string>, key: string)
    requires Mentions(Seeds(batch, files), key)
    ensures "up-" <= key
  {
    SeedKeys(batch, files, key);
  }

  lemma {:induction false} AdvanceInBatch(rows: seq<Row>, seeds: seq<Row>, key: string, percent: nat)
    ensures BatchRows(AdvanceRows(rows, key, percent), seeds) == AdvanceRows(BatchRows(rows, seeds), key, percent)
  {
    if rows != [] {
      AdvanceInBatch(rows[1..], seeds, key, percent);
      var rest := AdvanceRows(rows, key, percent);
      assert rest[1..] == AdvanceRows(rows[1..], key, percent);
    }
  }

  /** Rows added for another batch, or for refused files, leave a batch's own rows alone. */
  lemma AddedElsewhere(rows: seq<Row>, added: seq<Row>, seeds: seq<Row>)
    requires forall row :: row in added ==> !Mentions(seeds, row.key)
    ensures BatchRows(rows + added, seeds) == BatchRows(rows, seeds)
  {
    FilterConcat(rows, added, KeepsKey(seeds));
    FilterNone(added, KeepsKey(seeds));
  }

  lemma OtherSeeds(b: nat, files: seq<string>, c: nat, others: seq<string>, rows: seq<Row>)
    requires b != c && forall row :: row in rows ==> Mentions(Seeds(c, others), row.key)
    ensures forall row :: row in rows ==> !Mentions(Seeds(b, files), row.key)
  {
    forall row | row in rows
      ensures !Mentions(Seeds(b, files), row.key)
    {
      OtherBatch(c, others, b, files, row.key);
    }
  }

  lemma SettledElsewhere(b: nat, files: seq<string>, c: nat, others: seq<string>, rows: seq<Row>,
                         uploaded: seq<Outcome>)
    requires b != c && |uploaded| == |others|
    ensures BatchRows(Without(rows, Seeds(c, others)) + FailedRows(Seeds(c, others), uploaded), Seeds(b, files))
            == BatchRows(rows, Seeds(b, files))
  {
    var seeds, those := Seeds(b, files), Seeds(c, others);
    FailedRowsOf(those, uploaded);
    OtherSeeds(b, files, c, others, FailedRows(those, uploaded));
    AddedElsewhere(Without(rows, those), FailedRows(those, uploaded), seeds);
    forall row: Row
      ensures KeepsKey(seeds)(row) ==> !Mentions(those, row.key)
    {
      if Mentions(seeds, row.key) {
        OtherBatch(b, files, c, others, row.key);
      }
    }
    FilterTwice(rows, (row: Row) => !Mentions(those, row.key), KeepsKey(seeds), KeepsKey(seeds));
  }

  lemma SettledHere(rows: seq<Row>, seeds: seq<Row>, uploaded: seq<Outcome>)
    requires |seeds| == |uploaded|
    ensures BatchRows(Without(rows, seeds) + FailedRows(seeds, uploaded), seeds) == FailedRows(seeds, uploaded)
  {
    FailedRowsOf(seeds, uploaded);
    FilterConcat(Without(rows, seeds), FailedRows(seeds, uploaded), KeepsKey(seeds));
    FilterNone(Without(rows, seeds), KeepsKey(seeds));
    FilterAll(FailedRows(seeds, uploaded), KeepsKey(seeds));
  }

  lemma DismissInBatch(rows: seq<Row>, seeds: seq<Row>, key: string)
    ensures BatchRows(Filter(rows, OtherKey(key)), seeds) == Filter(BatchRows(rows, seeds), OtherKey(key))
  {
    var both := (row: Row) => row.key != key && Mentions(seeds, row.key);
    FilterTwice(rows, OtherKey(key), KeepsKey(seeds), both);
    FilterTwice(rows, KeepsKey(seeds), OtherKey(key), both);
  }

  /** What an event makes of the rows of a batch it neither starts nor settles. */
  function OwnRows(s: State, e: Event, rows: seq<Row>): seq<Row>
    requires Possible(s, e)
  {
    match e
    case Progress(batch, index, percent) => AdvanceRows(rows, RowKey(batch, index, s.started[batch][index]), percent)
    case Dismiss(key) => Filter(rows, OtherKey(key))
    case _ => rows
  }

  lemma BatchStep(multiple: bool, s: State, e: Event, b: nat)
    requires Possible(s, e) && b in s.started && !(e.Settle? && e.batch == b)
    ensures var seeds := Seeds(b, s.started[b]);
            BatchRows(Step(multiple, s, e).pending, seeds) == OwnRows(s, e, BatchRows(s.pending, seeds))
  {
    var seeds := Seeds(b, s.started[b]);
    match e
    case Start(c, files) =>
      forall row | row in Seeds(c, files)
        ensures Mentions(Seeds(c, files), row.key)
      {
      }
      OtherSeeds(b, s.started[b], c, files, Seeds(c, files));
      AddedElsewhere(s.pending, Seeds(c, files), seeds);
    case Progress(c, index, percent) =>
      AdvanceInBatch(s.pending, seeds, RowKey(c, index, s.started[c][index]), percent);
    case Settle(c, uploaded) =>
      SettledElsewhere(b, s.started[b], c, s.started[c], s.pending, uploaded);
    case Remove(_) =>
    case Dismiss(key) =>
      DismissInBatch(s.pending, seeds, key);
    case Refuse(rows) =>
      forall row | row in rows
        ensures !Mentions(seeds, row.key)
      {
        if Mentions(seeds, row.key) {
          SeedKeysAreMarked(b, s.started[b], row.key);
        }
      }
      AddedElsewhere(s.pending, rows, seeds);
  }

  ghost predicate FlightsUploading(s: State) {
    forall b :: b in s.flights && b in s.started ==>
      AllUploading(BatchRows(s.pending, Seeds(b, s.started[b])), Seeds(b, s.started[b]))
  }

  lemma StartedRows(s: State, b: nat, files: seq<string>)
    requires Accounted(s) && b !in s.started
    ensures BatchRows(s.pending + Seeds(b, files), Seeds(b, files)) == Seeds(b, files)
  {
    var seeds := Seeds(b, files);
    FilterConcat(s.pending, seeds, KeepsKey(seeds));
    FilterAll(seeds, KeepsKey(seeds));
    forall row | row in s.pending
      ensures !Mentions(seeds, row.key)
    {
      if Mentions(seeds, row.key) {
        SeedKeysAreMarked(b, files, row.key);
        var c :| c in s.started && Mentions(Seeds(c, s.started[c]), row.key);
        OtherBatch(c, s.started[c], b, files, row.key);
      }
    }
    FilterNone(s.pending, KeepsKey(seeds));
  }

  lemma StaysUploading(multiple: bool, s: State, e: Event, b: nat)
    requires Possible(s, e) && b in s.started && !(e.Settle? && e.batch == b)
    requires AllUploading(BatchRows(s.pending, Seeds(b, s.started[b])), Seeds(b, s.started[b]))
    ensures AllUploading(BatchRows(Step(multiple, s, e).pending, Seeds(b, s.started[b])), Seeds(b, s.started[b]))
  {
    var seeds := Seeds(b, s.started[b]);
    var rows := BatchRows(s.pending, seeds);
    BatchStep(multiple, s, e, b);
    if e.Dismiss? {
      var row :| row in s.pending && row.key == e.key && row.status.Failed?;
      assert row !in rows;
      assert !Mentions(seeds, e.key);
      FilterAll(rows, OtherKey(e.key));
    }
  }

  lemma UploadingStep(multiple: bool, s: State, e: Event)
    requires Possible(s, e) && Accounted(s) && FlightsUploading(s)
    ensures FlightsUploading(Step(multiple, s, e))
  {
    var t := Step(multiple, s, e);
    forall b | b in t.flights && b in t.started
      ensures AllUploading(BatchRows(t.pending, Seeds(b, t.started[b])), Seeds(b, t.started[b]))
    {
      if e.Start? && e.batch == b {
        StartedRows(s, b, e.files);
      } else {
        StaysUploading(multiple, s, e, b);
      }
    }
  }

  lemma AccountedStep(multiple: bool, s: State, e: Event)
    requires Possible(s, e) && Accounted(s)
    ensures Accounted(Step(multiple, s, e))
  {
    var t := Step(multiple, s, e);
    forall row | row in t.pending
      ensures Known(t, row)
    {
      KnownAfter(multiple, s, e, row);
    }
  }

  lemma KnownAfter(multiple: bool, s: State, e: Event, row: Row)
    requires Possible(s, e) && Accounted(s) && row in Step(multiple, s, e).pending
    ensures Known(Step(multiple, s, e), row)
  {
    match e
    case Start(c, files) =>
      var t := Step(multiple, s, e);
      if row in s.pending {
        assert Known(s, row);
        if "up-" <= row.key {
          var b :| b in s.started && Mentions(Seeds(b, s.started[b]), row.key)
                   && (row.status.Uploading? ==> b in s.flights);
          assert b in t.started && t.started[b] == s.started[b];
        }
      } else {
        assert Mentions(Seeds(c, files), row.key);
        SeedKeysAreMarked(c, files, row.key);
        assert c in t.started && t.started[c] == files && c in t.flights;
      }
    case Progress(c, index, percent) =>
      var key := RowKey(c, index, s.started[c][index]);
      var i :| 0 <= i < |s.pending| && row == Advanced(s.pending[i], key, percent);
      assert Known(s, s.pending[i]);
    case Settle(c, uploaded) =>
      var seeds := Seeds(c, s.started[c]);
      FailedRowsOf(seeds, uploaded);
      if row in Without(s.pending, seeds) {
        assert Known(s, row);
      } else {
        SeedKeysAreMarked(c, s.started[c], row.key);
      }
    case Remove(_) =>
      assert Known(s, row);
    case Dismiss(key) =>
      assert Known(s, row);
    case Refuse(rows) =>
      if row in s.pending {
        assert Known(s, row);
      }
  }

  lemma {:induction false} RunKeeps(multiple: bool, initial: seq<Ref>, events: seq<Event>)
    requires Run(multiple, initial, events).Some?
    ensures Accounted(Run(multiple, initial, events).value) && FlightsUploading(Run(multiple, initial, events).value)
  {
    if events != [] {
      var most, e := events[..|events| - 1], events[|events| - 1];
      RunKeeps(multiple, initial, most);
      AccountedStep(multiple, Run(multiple, initial, most).value, e);
      UploadingStep(multiple, Run(multiple, initial, most).value, e);
    }
  }

  /** While a batch uploads, its rows are there one for one, all uploading; and no other row
      is uploading. */
  lemma RowsWhileUploading(multiple: bool, initial: seq<Ref>, events: seq<Event>)
    requires Run(multiple, initial, events).Some?
    ensures var s := Run(multiple, initial, events).value;
            && (forall b :: b in s.flights ==>
                  b in s.started && AllUploading(BatchRows(s.pending, Seeds(b, s.started[b])), Seeds(b, s.started[b])))
            && (forall row :: row in s.pending && row.status.Uploading? ==>
                  exists b :: b in s.flights && b in s.started && Mentions(Seeds(b, s.started[b]), row.key))
  {
    RunKeeps(multiple, initial, events);
    var s := Run(multiple, initial, events).value;
    forall row | row in s.pending && row.status.Uploading?
      ensures exists b :: b in s.flights && b in s.started && Mentions(Seeds(b, s.started[b]), row.key)
    {
      assert Known(s, row);
    }
  }

  /** The progress last reported of a file. */
  function LastReport(events: seq<Event>, b: nat, i: nat): Option<nat> {
    if events == [] then None else
    var e := events[|events| - 1];
    if e.Progress? && e.batch == b && e.index == i then Some(e.percent) else LastReport(events[..|events| - 1], b, i)
  }

  ghost predicate ShowsReports(rows: seq<Row>, b: nat, files: seq<string>, events: seq<Event>) {
    && |rows| == |files|
    && forall i: nat :: i < |rows| ==>
         rows[i] == Row(RowKey(b, i, files[i]), files[i], Uploading(LastReport(events, b, i)))
  }

  lemma {:induction false} NoReportBefore(multiple: bool, initial: seq<Ref>, events: seq<Event>, b: nat, i: nat)
    requires Run(multiple, initial, events).Some? && b !in Run(multiple, initial, events).value.started
    ensures LastReport(events, b, i).None?
  {
    if events != [] {
      NoReportBefore(multiple, initial, events[..|events| - 1], b, i);
    }
  }

  lemma ReportStep(multiple: bool, s: State, most: seq<Event>, e: Event, b: nat)
    requires Possible(s, e) && b in s.started && !(e.Settle? && e.batch == b)
    requires ShowsReports(BatchRows(s.pending, Seeds(b, s.started[b])), b, s.started[b], most)
    ensures ShowsReports(BatchRows(Step(multiple, s, e).pending, Seeds(b, s.started[b])), b, s.started[b], most + [e])
  {
    var files := s.started[b];
    var rows := BatchRows(s.pending, Seeds(b, files));
    BatchStep(multiple, s, e, b);
    assert (most + [e])[..|most|] == most;
    if e.Progress? {
      forall i: nat | i < |rows|
        ensures RowKey(b, i, files[i]) == RowKey(e.batch, e.index, s.started[e.batch][e.index]) <==>
                  b == e.batch && i == e.index
      {
        if RowKey(b, i, files[i]) == RowKey(e.batch, e.index, s.started[e.batch][e.index]) {
          RowKeysAreUnique(b, i, files[i], e.batch, e.index, s.started[e.batch][e.index]);
        }
      }
    }
    if e.Dismiss? {
      var row :| row in s.pending && row.key == e.key && row.status.Failed?;
      assert row !in rows;
      FilterAll(rows, OtherKey(e.key));
    }
  }

  /** While a batch uploads, its rows name its files in order, each with the progress last
      reported of it. */
  lemma {:induction false} RowsShowTheirProgress(multiple: bool, initial: seq<Ref>, events: seq<Event>, b: nat)
    requires Run(multiple, initial, events).Some? && b in Run(multiple, initial, events).value.flights
    ensures var s := Run(multiple, initial, events).value;
            b in s.started && ShowsReports(BatchRows(s.pending, Seeds(b, s.started[b])), b, s.started[b], events)
  {
    var most, e := events[..|events| - 1], events[|events| - 1];
    var s := Run(multiple, initial, most).value;
    assert most + [e] == events;
    RunKeeps(multiple, initial, most);
    if e.Start? && e.batch == b {
      StartedRows(s, b, e.files);
      forall i: nat
        ensures LastReport(events, b, i).None?
      {
        NoReportBefore(multiple, initial, most, b, i);
      }
    } else {
      RowsShowTheirProgress(multiple, initial, most, b);
      ReportStep(multiple, s, most, e, b);
    }
  }

  /** The row was shown for a refused file and has not been dismissed since. */
  ghost predicate RefusedAt(events: seq<Event>, row: Row, at: int) {
    0 <= at < |events| && events[at].Refuse? && row in events[at].rows && Dismiss(row.key) !in events[at + 1..]
  }

  lemma RefusedEarlier(most: seq<Event>, e: Event, row: Row, at: nat)
    requires at < |most|
    ensures RefusedAt(most + [e], row, at) <==> RefusedAt(most, row, at) && e != Dismiss(row.key)
  {
    assert (most + [e])[at + 1..] == most[at + 1..] + [e];
    assert (most + [e])[at] == most[at];
  }

  lemma RefusedSnoc(most: seq<Event>, e: Event, row: Row)
    ensures (exists at :: RefusedAt(most + [e], row, at)) <==>
              (e.Refuse? && row in e.rows) || (e != Dismiss(row.key) && exists at :: RefusedAt(most, row, at))
  {
    assert RefusedAt(most + [e], row, |most|) <==> e.Refuse? && row in e.rows;
    if at :| RefusedAt(most + [e], row, at) {
      if at < |most| {
        RefusedEarlier(most, e, row, at);
      }
    }
    if at :| RefusedAt(most, row, at) {
      RefusedEarlier(most, e, row, at);
    }
  }

  lemma RefusedStep(multiple: bool, s: State, e: Event, row: Row)
    requires Possible(s, e) && !("up-" <= row.key)
    ensures row in Step(multiple, s, e).pending <==>
              (e.Refuse? && row in e.rows) || (e != Dismiss(row.key) && row in s.pending)
  {
    match e
    case Start(c, files) =>
      if row in Seeds(c, files) {
        SeedKeysAreMarked(c, files, row.key);
      }
    case Progress(c, index, percent) =>
      var key := RowKey(c, index, s.started[c][index]);
      var rows := AdvanceRows(s.pending, key, percent);
      assert forall i :: 0 <= i < |rows| && (rows[i] == row || s.pending[i] == row) ==> rows[i] == s.pending[i];
      if row in s.pending {
        var i :| 0 <= i < |s.pending| && s.pending[i] == row;
        assert rows[i] == row;
      }
    case Settle(c, uploaded) =>
      var seeds := Seeds(c, s.started[c]);
      FailedRowsOf(seeds, uploaded);
      if Mentions(seeds, row.key) {
        SeedKeysAreMarked(c, s.started[c], row.key);
      }
    case _ =>
  }

  /** A refused file's row is shown exactly until it is dismissed, whatever the batches do. */
  lemma {:induction false} RefusedIff(multiple: bool, initial: seq<Ref>, events: seq<Event>, row: Row)
    requires Run(multiple, initial, events).Some? && !("up-" <= row.key)
    ensures row in Run(multiple, initial, events).value.pending <==> exists at :: RefusedAt(events, row, at)
  {
    if events != [] {
      var most, e := events[..|events| - 1], events[|events| - 1];
      assert most + [e] == events;
      RefusedIff(multiple, initial, most, row);
      RefusedStep(multiple, Run(multiple, initial, most).value, e, row);
      RefusedSnoc(most, e, row);
    }
  }

  function NotDismissedIn(events: seq<Event>): Row -> bool {
    (row: Row) => Dismiss(row.key) !in events
  }

  lemma {:induction false} FailedStay(rows: seq<Row>, key: string, percent: nat)
    requires forall row :: row in rows ==> row.status.Failed?
    ensures AdvanceRows(rows, key, percent) == rows
  {
    if rows != [] {
      FailedStay(rows[1..], key, percent);
    }
  }

  /** The batch is settled, and its rows are its failed uploads less those dismissed since. */
  ghost predicate EndedAs(s: State, b: nat, uploaded: seq<Outcome>, later: seq<Event>) {
    && b in s.started && b !in s.flights && |s.started[b]| == |uploaded|
    && BatchRows(s.pending, Seeds(b, s.started[b]))
       == Filter(FailedRows(Seeds(b, s.started[b]), uploaded), NotDismissedIn(later))
  }

  /** Once a batch has settled, its rows are exactly its failed uploads, in file order, less
      those dismissed since; whatever the other batches, removals and late progress do. */
  lemma BatchEndsAsItsFailures(multiple: bool, initial: seq<Ref>, before: seq<Event>, b: nat, uploaded: seq<Outcome>,
                               later: seq<Event>)
    requires Run(multiple, initial, before + [Settle(b, uploaded)] + later).Some?
    ensures EndedAs(Run(multiple, initial, before + [Settle(b, uploaded)] + later).value, b, uploaded, later)
  {
    var first := before + [Settle(b, uploaded)];
    RunPrefix(multiple, initial, first, later);
    assert first[..|first| - 1] == before && first[|first| - 1] == Settle(b, uploaded);
    SettleStep(multiple, Run(multiple, initial, before).value, b, uploaded);
    StaysEnded(multiple, initial, first, b, uploaded, later);
  }

  lemma {:induction false} RunPrefix(multiple: bool, initial: seq<Ref>, first: seq<Event>, later: seq<Event>)
    requires Run(multiple, initial, first + later).Some?
    ensures Run(multiple, initial, first).Some?
    decreases |later|
  {
    if later == [] {
      assert first + later == first;
    } else {
      assert (first + later)[..|first + later| - 1] == first + later[..|later| - 1];
      RunPrefix(multiple, initial, first, later[..|later| - 1]);
    }
  }

  lemma {:induction false} StaysEnded(multiple: bool, initial: seq<Ref>, first: seq<Event>, b: nat,
                                      uploaded: seq<Outcome>, later: seq<Event>)
    requires Run(multiple, initial, first).Some? && EndedAs(Run(multiple, initial, first).value, b, uploaded, [])
    requires Run(multiple, initial, first + later).Some?
    ensures EndedAs(Run(multiple, initial, first + later).value, b, uploaded, later)
    decreases |later|
  {
    if later == [] {
      assert first + later == first;
    } else {
      var most, e := later[..|later| - 1], later[|later| - 1];
      assert later == most + [e] && (first + later)[..|first + later| - 1] == first + most;
      StaysEnded(multiple, initial, first, b, uploaded, most);
      LaterStep(multiple, Run(multiple, initial, first + most).value, e, b, uploaded, most);
    }
  }

  lemma SettleStep(multiple: bool, s: State, b: nat, uploaded: seq<Outcome>)
    requires Possible(s, Settle(b, uploaded))
    ensures EndedAs(Step(multiple, s, Settle(b, uploaded)), b, uploaded, [])
  {
    var seeds := Seeds(b, s.started[b]);
    SettledHere(s.pending, seeds, uploaded);
    FilterAll(FailedRows(seeds, uploaded), NotDismissedIn([]));
  }

  lemma LaterStep(multiple: bool, s: State, e: Event, b: nat, uploaded: seq<Outcome>, most: seq<Event>)
    requires Possible(s, e) && EndedAs(s, b, uploaded, most)
    ensures EndedAs(Step(multiple, s, e), b, uploaded, most + [e])
  {
    var failed := FailedRows(Seeds(b, s.started[b]), uploaded);
    BatchStep(multiple, s, e, b);
    FailedRowsOf(Seeds(b, s.started[b]), uploaded);
    if e.Progress? {
      FailedStay(Filter(failed, NotDismissedIn(most)), RowKey(e.batch, e.index, s.started[e.batch][e.index]),
                 e.percent);
    }
    if e.Dismiss? {
      FilterTwice(failed, NotDismissedIn(most), OtherKey(e.key), NotDismissedIn(most + [e]));
    } else {
      FilterSame(failed, NotDismissedIn(most), NotDismissedIn(most + [e]));
    }
  }

  // ---------------------------------------------------------------- The control itself

  lemma NextOutcome(seeds: seq<Row>, uploaded: seq<Outcome>, n: nat)
    requires n < |seeds| == |uploaded|
    ensures Successes(uploaded[..n + 1])
            == Successes(uploaded[..n]) + if uploaded[n].Fulfilled? then [uploaded[n].ref] else []
    ensures FailedRows(seeds[..n + 1], uploaded[..n + 1])
            == FailedRows(seeds[..n], uploaded[..n])
               + if uploaded[n].Rejected? then [seeds[n].(status := Failed(uploaded[n].reason))] else []
  {
    assert uploaded[..n + 1][..n] == uploaded[..n] && seeds[..n + 1][..n] == seeds[..n];
  }

  /** The loop over a batch's outcomes, from the references live when it settled. */
  method CollectOutcomes(multiple: bool, live: seq<Ref>, seedRows: seq<Row>, uploaded: seq<Outcome>)
      returns (nextRefs: seq<Ref>, hasSuccessfulUpload: bool, finalRows: seq<Row>)
    requires |seedRows| == |uploaded|
    ensures hasSuccessfulUpload == (Successes(uploaded) != [])
    ensures hasSuccessfulUpload ==> nextRefs == Settled(multiple, live, Successes(uploaded))
    ensures finalRows == FailedRows(seedRows, uploaded)
  {
    nextRefs := if multiple then live else FirstOf(live);
    hasSuccessfulUpload := false;
    finalRows := [];
    for index := 0 to |uploaded|
      invariant hasSuccessfulUpload == (Successes(uploaded[..index]) != [])
      invariant hasSuccessfulUpload ==> nextRefs == Settled(multiple, live, Successes(uploaded[..index]))
      invariant !hasSuccessfulUpload ==> nextRefs == Written(multiple, live)
      invariant finalRows == FailedRows(seedRows[..index], uploaded[..index])
    {
      NextOutcome(seedRows, uploaded, index);
      match uploaded[index]
      case Fulfilled(ref) =>
        hasSuccessfulUpload := true;
        nextRefs := if multiple then nextRefs + [ref] else [ref];
      case Rejected(reason) =>
        finalRows := finalRows + [seedRows[index].(status := Failed(reason))];
    }
    assert uploaded[..|uploaded|] == uploaded && seedRows[..|uploaded|] == seedRows;
  }

  /** The mounted control; a batch's continuation is a call of `FinishUploads`. */
  class AttachmentControl {
    const multiple: bool
    var attached: seq<Ref>
    var pending: seq<Row>
    ghost var started: map<nat, seq<string>>
    ghost var flights: set<nat>

    ghost function View(): State
      reads this
    {
      State(attached, pending, started, flights)
    }

    constructor (multiple: bool, value: seq<Ref>)
      ensures this.multiple == multiple && Run(multiple, value, []) == Some(View())
    {
      this.multiple := multiple;
      attached := value;
      pending := [];
      started := map[];
      flights := {};
    }

    /** `startUploads` up to its await. */
    method StartUploads(startedAt: nat, incoming: seq<string>) returns (seedRows: seq<Row>)
      requires Possible(View(), Start(startedAt, incoming))
      modifies this
      ensures View() == Step(multiple, old(View()), Start(startedAt, incoming))
      ensures seedRows == Seeds(startedAt, incoming)
    {
      seedRows := [];
      for index := 0 to |incoming|
        invariant seedRows == Seeds(startedAt, incoming)[..index]
      {
        seedRows := seedRows + [Row(RowKey(startedAt, index, incoming[index]), incoming[index], Uploading(None))];
      }
      pending := pending + seedRows;
      started := started[startedAt := incoming];
      flights := flights + {startedAt};
    }

    method ReportProgress(ghost startedAt: nat, seedRows: seq<Row>, index: nat, percent: nat)
      requires Possible(View(), Progress(startedAt, index, percent)) && seedRows == Seeds(startedAt, started[startedAt])
      modifies this
      ensures View() == Step(multiple, old(View()), Progress(startedAt, index, percent))
    {
      pending := AdvanceRows(pending, seedRows[index].key, percent);
    }

    /** `startUploads` after its await: the field is read afresh, not from the closure. */
    method FinishUploads(ghost startedAt: nat, seedRows: seq<Row>, uploaded: seq<Outcome>)
      requires Possible(View(), Settle(startedAt, uploaded)) && seedRows == Seeds(startedAt, started[startedAt])
      modifies this
      ensures View() == Step(multiple, old(View()), Settle(startedAt, uploaded))
    {
      var nextRefs, hasSuccessfulUpload, finalRows := CollectOutcomes(multiple, attached, seedRows, uploaded);
      pending := Without(pending, seedRows) + finalRows;
      if hasSuccessfulUpload {
        attached := Written(multiple, nextRefs);
      }
      flights := flights - {startedAt};
    }

    method RemoveAt(uri: string)
      modifies this
      ensures View() == Step(multiple, old(View()), Remove(uri))
    {
      attached := Written(multiple, Filter(attached, Other(uri)));
    }

    method DismissPending(key: string)
      requires Possible(View(), Dismiss(key))
      modifies this
      ensures View() == Step(multiple, old(View()), Dismiss(key))
    {
      pending := Filter(pending, OtherKey(key));
    }

    method AddFailedRows(failures: seq<Row>)
      requires Possible(View(), Refuse(failures))
      modifies this
      ensures View() == Step(multiple, old(View()), Refuse(failures))
    {
      pending := pending + failures;
    }
  }
}
